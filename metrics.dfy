/**
 * The metrics service: a keyed cache of (data, timestamp) entries with a
 * five-minute validity window, and the "first page, then every other page"
 * aggregation of messages, conversations and editals.
 */
module Metrics {
  import opened Wrappers
  import opened JsBuiltins
  import opened Sequences

  /** Five minutes, in milliseconds. */
  const CACHE_DURATION: int := 5 * 60 * 1000
  const KEY_PREFIX: string := "metrics_"

  // ---------------------------------------------------------------------------
  // Records (only the fields that identify them; the other fields are not modelled)

  datatype MessageMetrics = MessageMetrics(id: int, texto: string, criadaEm: string, conversaId: int, autorPapel: string)
  datatype ConversationMetrics = ConversationMetrics(id: int, iniciadaEm: string, encerradaEm: Option<string>, ultimaMensagemEm: string)
  datatype EditalMetrics = EditalMetrics(id: int, nome: string, arquivo: string, status: string)

  datatype MetricsMeta = MetricsMeta(currentPage: int, perPage: Pos, total: int)

  /** A paged response; `meta` and `data` may be missing from the body. */
  datatype MetricsPage<T> = MetricsPage(meta: Option<MetricsMeta>, data: Option<seq<T>>)

  /** The `data` of the editals response: a list, missing (falsy), or present but not a list. */
  datatype Body<T> = List(items: seq<T>) | Missing | NotList

  datatype FetchError = FetchError(message: string)

  /** The three endpoints, page by page (`page_size=100`); editals come in one request. */
  datatype MetricsBackend = MetricsBackend(
    mensagens: int -> Result<MetricsPage<MessageMetrics>, FetchError>,
    conversas: int -> Result<MetricsPage<ConversationMetrics>, FetchError>,
    editais: Result<Body<EditalMetrics>, FetchError>)

  // ---------------------------------------------------------------------------
  // Cache keys and entries

  function GetCacheKey(endpoint: string): (key: string)
    ensures |key| == |KEY_PREFIX| + |endpoint|
    ensures key[..|KEY_PREFIX|] == KEY_PREFIX && key[|KEY_PREFIX|..] == endpoint
  {
    KEY_PREFIX + endpoint
  }

  /** Distinct endpoints get distinct cache keys. */
  lemma CacheKeyInjective(a: string, b: string)
    requires GetCacheKey(a) == GetCacheKey(b)
    ensures a == b
  {
    assert a == GetCacheKey(a)[|KEY_PREFIX|..];
  }

  const MESSAGES_KEY: string := GetCacheKey("messages")
  const CONVERSATIONS_KEY: string := GetCacheKey("conversations")
  const EDITALS_KEY: string := GetCacheKey("editals")

  lemma KeysDistinct()
    ensures MESSAGES_KEY != CONVERSATIONS_KEY && MESSAGES_KEY != EDITALS_KEY && CONVERSATIONS_KEY != EDITALS_KEY
  {
    if MESSAGES_KEY == CONVERSATIONS_KEY { CacheKeyInjective("messages", "conversations"); }
    if MESSAGES_KEY == EDITALS_KEY { CacheKeyInjective("messages", "editals"); }
    if CONVERSATIONS_KEY == EDITALS_KEY { CacheKeyInjective("conversations", "editals"); }
  }

  datatype Cached =
    | Messages(messages: seq<MessageMetrics>)
    | Conversations(conversations: seq<ConversationMetrics>)
    | Editals(editals: seq<EditalMetrics>)

  datatype CacheEntry = CacheEntry(data: Cached, timestamp: int)

  datatype CacheStatus = CacheStatus(age: int, valid: bool)

  /** Each of the three keys holds the kind of data it is named after. */
  predicate Fits(key: string, data: Cached) {
    && (key == MESSAGES_KEY ==> data.Messages?)
    && (key == CONVERSATIONS_KEY ==> data.Conversations?)
    && (key == EDITALS_KEY ==> data.Editals?)
  }

  predicate CacheFits(c: map<string, CacheEntry>) {
    forall k :: k in c ==> Fits(k, c[k].data)
  }

  /** An entry may be served at time `now`: it is strictly younger than the window. */
  predicate EntryValid(e: CacheEntry, now: int) {
    now - e.timestamp < CACHE_DURATION
  }

  /** The cache after `isValidCache(key)`: an expired entry under `key` is deleted. */
  function ExpireKey(c: map<string, CacheEntry>, key: string, now: int): (r: map<string, CacheEntry>)
    ensures key in r <==> key in c && EntryValid(c[key], now)
    ensures forall k :: k in r ==> k in c && r[k] == c[k]
    ensures forall k :: k in c && k != key ==> k in r
  {
    if key in c && !EntryValid(c[key], now) then c - {key} else c
  }

  /** The data served from the cache under `key` at time `now`, if any. */
  function FreshData(c: map<string, CacheEntry>, key: string, now: int): Option<Cached> {
    if key in c && EntryValid(c[key], now) then Some(c[key].data) else None
  }

  /** One line of `getCacheStatus`: the age in whole seconds (rounded half up) and validity. */
  function StatusOf(e: CacheEntry, now: int): (s: CacheStatus)
    ensures s.valid <==> now - e.timestamp < CACHE_DURATION
    ensures s.age * 1000 - 500 <= now - e.timestamp < s.age * 1000 + 500
  {
    var age := now - e.timestamp;
    CacheStatus((age + 500) / 1000, age < CACHE_DURATION)
  }

  // ---------------------------------------------------------------------------
  // Aggregating pages

  const DEFAULT_META: MetricsMeta := MetricsMeta(1, 100, 0)

  function MetaOf<T>(page: MetricsPage<T>): MetricsMeta {
    page.meta.GetOr(DEFAULT_META)
  }

  /** `Math.ceil(meta.total / meta.per_page)` of the first response. */
  function PageCount<T>(first: MetricsPage<T>): (n: int)
    ensures (n - 1) * MetaOf(first).perPage < MetaOf(first).total <= n * MetaOf(first).perPage
  {
    CeilDiv(MetaOf(first).total, MetaOf(first).perPage)
  }

  /** A page's list, or nothing when its `data` is missing. */
  function DataOf<T>(page: MetricsPage<T>): seq<T> {
    page.data.GetOr([])
  }

  predicate LaterPagesOk<T>(fetch: int -> Result<MetricsPage<T>, FetchError>, n: int) {
    forall p :: 2 <= p <= n ==> fetch(p).Ok?
  }

  /** The lists of pages 2..n, in page order. */
  function LaterPages<T>(fetch: int -> Result<MetricsPage<T>, FetchError>, n: int): seq<T>
    requires LaterPagesOk(fetch, n)
    decreases n
  {
    if n < 2 then [] else LaterPages(fetch, n - 1) + DataOf(fetch(n).value)
  }

  /** Page `p`'s list sits in the aggregate right after the lists of the pages before it. */
  lemma {:induction false} LaterPagesInPageOrder<T>(fetch: int -> Result<MetricsPage<T>, FetchError>, n: int, p: int)
    requires LaterPagesOk(fetch, n)
    requires 2 <= p <= n
    ensures |LaterPages(fetch, p - 1)| + |DataOf(fetch(p).value)| <= |LaterPages(fetch, n)|
    ensures LaterPages(fetch, n)[|LaterPages(fetch, p - 1)|..|LaterPages(fetch, p - 1)| + |DataOf(fetch(p).value)|]
            == DataOf(fetch(p).value)
    decreases n
  {
    if p < n {
      LaterPagesInPageOrder(fetch, n - 1, p);
      var prefix := LaterPages(fetch, n - 1);
      var lo := |LaterPages(fetch, p - 1)|;
      var hi := lo + |DataOf(fetch(p).value)|;
      assert LaterPages(fetch, n)[lo..hi] == prefix[lo..hi];
    }
  }

  /** What the try block of `getAllMessages` / `getAllConversations` yields: the full
      list, or None where the source catches an error and returns `[]` without caching. */
  function AllPages<T>(fetch: int -> Result<MetricsPage<T>, FetchError>): Option<seq<T>> {
    match fetch(1)
    case Err(_) => None
    case Ok(first) =>
      var n := PageCount(first);
      if n <= 1 then Some(DataOf(first))
      else if LaterPagesOk(fetch, n) then Some(DataOf(first) + LaterPages(fetch, n))
      else None
  }

  /** The pages requested: page 1, then each of 2..n once when the first response reports n > 1 pages. */
  function PagesRequested<T>(fetch: int -> Result<MetricsPage<T>, FetchError>): seq<int> {
    match fetch(1)
    case Err(_) => [1]
    case Ok(first) => [1] + (if PageCount(first) <= 1 then [] else PageRange(2, PageCount(first)))
  }

  /** A single page is returned as is; no other page is requested. */
  lemma SinglePage<T>(fetch: int -> Result<MetricsPage<T>, FetchError>)
    requires fetch(1).Ok? && PageCount(fetch(1).value) <= 1
    ensures AllPages(fetch) == Some(DataOf(fetch(1).value))
    ensures PagesRequested(fetch) == [1]
  {
  }

  /** Otherwise each of the pages 1..n is requested exactly once, and the result starts
      with page 1's list and holds every later page's list at its place in page order. */
  lemma ManyPages<T>(fetch: int -> Result<MetricsPage<T>, FetchError>, p: int)
    requires fetch(1).Ok? && PageCount(fetch(1).value) > 1
    requires AllPages(fetch).Some?
    requires 2 <= p <= PageCount(fetch(1).value)
    ensures var n := PageCount(fetch(1).value);
            var all := AllPages(fetch).value;
            var first := DataOf(fetch(1).value);
            var at := |first| + |LaterPages(fetch, p - 1)|;
            && PagesRequested(fetch) == PageRange(1, n)
            && all[..|first|] == first
            && at + |DataOf(fetch(p).value)| <= |all|
            && all[at..at + |DataOf(fetch(p).value)|] == DataOf(fetch(p).value)
  {
    var n := PageCount(fetch(1).value);
    var first := DataOf(fetch(1).value);
    assert PagesRequested(fetch) == [1] + PageRange(2, n);
    assert [1] + PageRange(2, n) == PageRange(1, n);
    assert LaterPagesOk(fetch, n);
    var later := LaterPages(fetch, n);
    assert AllPages(fetch) == Some(first + later);
    LaterPagesInPageOrder(fetch, n, p);
    AppendSlice(first, later, |LaterPages(fetch, p - 1)|, |LaterPages(fetch, p - 1)| + |DataOf(fetch(p).value)|);
  }

  /** A slice of the second half of a concatenation, shifted by the first half's length. */
  lemma AppendSlice<T>(a: seq<T>, b: seq<T>, lo: int, hi: int)
    requires 0 <= lo <= hi <= |b|
    ensures (a + b)[..|a|] == a
    ensures (a + b)[|a| + lo..|a| + hi] == b[lo..hi]
  {
  }

  /** The try block of `getAllMessages` / `getAllConversations`, with the parallel batch
      run as a sequence of requests whose results are kept in page order. */
  method FetchPages<T>(fetch: int -> Result<MetricsPage<T>, FetchError>)
    returns (r: Option<seq<T>>, ghost requested: seq<int>)
    ensures r == AllPages(fetch)
    ensures requested == PagesRequested(fetch)
  {
    var firstResponse := fetch(1);
    requested := [1];
    if firstResponse.Err? {
      return None, requested;
    }
    var first := firstResponse.value;
    var meta := MetaOf(first);
    var totalPages := CeilDiv(meta.total, meta.perPage);
    if totalPages <= 1 {
      return Some(DataOf(first)), requested;
    }
    var responses: seq<Result<MetricsPage<T>, FetchError>> := [];
    var page := 2;
    while page <= totalPages
      invariant 2 <= page <= totalPages + 1
      invariant |responses| == page - 2
      invariant forall i :: 0 <= i < |responses| ==> responses[i] == fetch(i + 2)
      invariant requested == [1] + PageRange(2, page - 1)
    {
      responses := responses + [fetch(page)];
      requested := requested + [page];
      page := page + 1;
    }
    // the batch rejects as soon as one request fails
    if exists i :: 0 <= i < |responses| && responses[i].Err? {
      return None, requested;
    }
    assert LaterPagesOk(fetch, totalPages) by {
      forall p | 2 <= p <= totalPages ensures fetch(p).Ok? {
        assert responses[p - 2] == fetch(p);
      }
    }
    var allItems := DataOf(first);
    var i := 0;
    while i < |responses|
      invariant 0 <= i <= |responses|
      invariant allItems == DataOf(first) + LaterPages(fetch, i + 1)
    {
      allItems := allItems + DataOf(responses[i].value);
      i := i + 1;
    }
    r := Some(allItems);
  }

  // ---------------------------------------------------------------------------
  // What each aggregation returns and leaves in the cache

  function MessagesOutcome(c: map<string, CacheEntry>, fetch: int -> Result<MetricsPage<MessageMetrics>, FetchError>, now: int)
    : (seq<MessageMetrics>, map<string, CacheEntry>)
    requires CacheFits(c)
  {
    match FreshData(c, MESSAGES_KEY, now)
    case Some(d) => (d.messages, c)
    case None =>
      match AllPages(fetch)
      case None => ([], ExpireKey(c, MESSAGES_KEY, now))
      case Some(all) => (all, ExpireKey(c, MESSAGES_KEY, now)[MESSAGES_KEY := CacheEntry(Messages(all), now)])
  }

  function ConversationsOutcome(c: map<string, CacheEntry>, fetch: int -> Result<MetricsPage<ConversationMetrics>, FetchError>, now: int)
    : (seq<ConversationMetrics>, map<string, CacheEntry>)
    requires CacheFits(c)
  {
    match FreshData(c, CONVERSATIONS_KEY, now)
    case Some(d) => (d.conversations, c)
    case None =>
      match AllPages(fetch)
      case None => ([], ExpireKey(c, CONVERSATIONS_KEY, now))
      case Some(all) => (all, ExpireKey(c, CONVERSATIONS_KEY, now)[CONVERSATIONS_KEY := CacheEntry(Conversations(all), now)])
  }

  function EditalsOutcome(c: map<string, CacheEntry>, response: Result<Body<EditalMetrics>, FetchError>, now: int)
    : (seq<EditalMetrics>, map<string, CacheEntry>)
    requires CacheFits(c)
  {
    match FreshData(c, EDITALS_KEY, now)
    case Some(d) => (d.editals, c)
    case None =>
      match response
      case Err(_) => ([], ExpireKey(c, EDITALS_KEY, now))
      case Ok(List(items)) => (items, ExpireKey(c, EDITALS_KEY, now)[EDITALS_KEY := CacheEntry(Editals(items), now)])
      case Ok(Missing) => ([], ExpireKey(c, EDITALS_KEY, now)[EDITALS_KEY := CacheEntry(Editals([]), now)])
      case Ok(NotList) => ([], ExpireKey(c, EDITALS_KEY, now))
  }

  /** Each aggregation keeps the cache well-kinded and touches no key but its own. */
  lemma MessagesTouchOnlyTheirKey(c: map<string, CacheEntry>, fetch: int -> Result<MetricsPage<MessageMetrics>, FetchError>, now: int)
    requires CacheFits(c)
    ensures var c' := MessagesOutcome(c, fetch, now).1;
            && CacheFits(c')
            && forall k :: k != MESSAGES_KEY ==> (k in c' <==> k in c) && (k in c ==> c'[k] == c[k])
  {
    KeysDistinct();
  }

  lemma ConversationsTouchOnlyTheirKey(c: map<string, CacheEntry>, fetch: int -> Result<MetricsPage<ConversationMetrics>, FetchError>, now: int)
    requires CacheFits(c)
    ensures var c' := ConversationsOutcome(c, fetch, now).1;
            && CacheFits(c')
            && forall k :: k != CONVERSATIONS_KEY ==> (k in c' <==> k in c) && (k in c ==> c'[k] == c[k])
  {
    KeysDistinct();
  }

  lemma EditalsTouchOnlyTheirKey(c: map<string, CacheEntry>, response: Result<Body<EditalMetrics>, FetchError>, now: int)
    requires CacheFits(c)
    ensures var c' := EditalsOutcome(c, response, now).1;
            && CacheFits(c')
            && forall k :: k != EDITALS_KEY ==> (k in c' <==> k in c) && (k in c ==> c'[k] == c[k])
  {
    KeysDistinct();
  }

  /** A failed aggregation returns an empty list and stores nothing under its key. */
  lemma FailureReturnsEmpty(c: map<string, CacheEntry>, b: MetricsBackend, now: int)
    requires CacheFits(c)
    ensures FreshData(c, MESSAGES_KEY, now).None? && AllPages(b.mensagens).None? ==>
      MessagesOutcome(c, b.mensagens, now).0 == [] && MESSAGES_KEY !in MessagesOutcome(c, b.mensagens, now).1
    ensures FreshData(c, CONVERSATIONS_KEY, now).None? && AllPages(b.conversas).None? ==>
      ConversationsOutcome(c, b.conversas, now).0 == [] && CONVERSATIONS_KEY !in ConversationsOutcome(c, b.conversas, now).1
    ensures FreshData(c, EDITALS_KEY, now).None? && (b.editais.Err? || b.editais.value.NotList?) ==>
      EditalsOutcome(c, b.editais, now).0 == [] && EDITALS_KEY !in EditalsOutcome(c, b.editais, now).1
  {
  }

  /** Within the window the cached messages are served as they were stored. */
  lemma FreshEntryIsServed(c: map<string, CacheEntry>, b: MetricsBackend, now: int, all: seq<MessageMetrics>, t: int)
    requires CacheFits(c)
    requires MESSAGES_KEY in c && c[MESSAGES_KEY] == CacheEntry(Messages(all), t)
    requires now - t < CACHE_DURATION
    ensures MessagesOutcome(c, b.mensagens, now) == (all, c)
  {
  }

  /** The same for the cached conversations. */
  lemma FreshConversationsAreServed(c: map<string, CacheEntry>, b: MetricsBackend, now: int, all: seq<ConversationMetrics>, t: int)
    requires CacheFits(c)
    requires CONVERSATIONS_KEY in c && c[CONVERSATIONS_KEY] == CacheEntry(Conversations(all), t)
    requires now - t < CACHE_DURATION
    ensures ConversationsOutcome(c, b.conversas, now) == (all, c)
  {
  }

  /** The same for the cached editals, whatever the endpoint would answer. */
  lemma FreshEditalsAreServed(c: map<string, CacheEntry>, b: MetricsBackend, now: int, all: seq<EditalMetrics>, t: int)
    requires CacheFits(c)
    requires EDITALS_KEY in c && c[EDITALS_KEY] == CacheEntry(Editals(all), t)
    requires now - t < CACHE_DURATION
    ensures EditalsOutcome(c, b.editais, now) == (all, c)
  {
  }

  // ---------------------------------------------------------------------------
  // The service object

  class MetricsService {
    var cache: map<string, CacheEntry>

    ghost predicate Valid()
      reads this
    {
      CacheFits(cache)
    }

    constructor ()
      ensures Valid() && cache == map[]
    {
      cache := map[];
    }

    /** `cache.get(key)?.data`, or None for a missing key. */
    function GetCache(key: string): (r: Option<Cached>)
      reads this
      ensures r.None? <==> key !in cache
      ensures r.Some? ==> r.value == cache[key].data
    {
      if key in cache then Some(cache[key].data) else None
    }

    method IsValidCache(key: string, now: int) returns (isValid: bool)
      requires Valid()
      modifies this
      ensures Valid()
      ensures isValid <==> key in old(cache) && EntryValid(old(cache)[key], now)
      ensures cache == ExpireKey(old(cache), key, now)
    {
      if key !in cache {
        return false;
      }
      var cached := cache[key];
      isValid := now - cached.timestamp < CACHE_DURATION;
      if !isValid {
        cache := cache - {key};
      }
    }

    method SetCache(key: string, data: Cached, now: int)
      requires Valid() && Fits(key, data)
      modifies this
      ensures Valid()
      ensures cache == old(cache)[key := CacheEntry(data, now)]
      ensures GetCache(key) == Some(data)
      ensures forall k :: k != key ==> GetCache(k) == old(GetCache(k))
    {
      cache := cache[key := CacheEntry(data, now)];
    }

    method GetAllMessages(fetch: int -> Result<MetricsPage<MessageMetrics>, FetchError>, now: int)
      returns (r: seq<MessageMetrics>, ghost requested: seq<int>)
      requires Valid()
      modifies this
      ensures Valid()
      ensures (r, cache) == MessagesOutcome(old(cache), fetch, now)
      ensures requested == if FreshData(old(cache), MESSAGES_KEY, now).Some? then [] else PagesRequested(fetch)
    {
      var cacheKey := GetCacheKey("messages");
      requested := [];
      var valid := IsValidCache(cacheKey, now);
      if valid {
        return cache[cacheKey].data.messages, requested;
      }
      var got;
      got, requested := FetchPages(fetch);
      if got.None? {
        return [], requested;
      }
      KeysDistinct();
      SetCache(cacheKey, Messages(got.value), now);
      r := got.value;
    }

    method GetAllConversations(fetch: int -> Result<MetricsPage<ConversationMetrics>, FetchError>, now: int)
      returns (r: seq<ConversationMetrics>, ghost requested: seq<int>)
      requires Valid()
      modifies this
      ensures Valid()
      ensures (r, cache) == ConversationsOutcome(old(cache), fetch, now)
      ensures requested == if FreshData(old(cache), CONVERSATIONS_KEY, now).Some? then [] else PagesRequested(fetch)
    {
      var cacheKey := GetCacheKey("conversations");
      requested := [];
      var valid := IsValidCache(cacheKey, now);
      if valid {
        return cache[cacheKey].data.conversations, requested;
      }
      var got;
      got, requested := FetchPages(fetch);
      if got.None? {
        return [], requested;
      }
      KeysDistinct();
      SetCache(cacheKey, Conversations(got.value), now);
      r := got.value;
    }

    method GetAllEditals(response: Result<Body<EditalMetrics>, FetchError>, now: int)
      returns (r: seq<EditalMetrics>, ghost requested: bool)
      requires Valid()
      modifies this
      ensures Valid()
      ensures (r, cache) == EditalsOutcome(old(cache), response, now)
      ensures requested <==> FreshData(old(cache), EDITALS_KEY, now).None?
    {
      requested := false;
      var cacheKey := GetCacheKey("editals");
      var valid := IsValidCache(cacheKey, now);
      if valid {
        return cache[cacheKey].data.editals, requested;
      }
      requested := true;
      if response.Err? {
        return [], requested;
      }
      // `response.data || []`
      var data := if response.value.Missing? then List([]) else response.value;
      if data.List? {
        KeysDistinct();
        SetCache(cacheKey, Editals(data.items), now);
        return data.items, requested;
      }
      r := [];
    }

    /** `getAllData`, with the three aggregations run one after another. */
    method GetAllData(b: MetricsBackend, now: int)
      returns (messages: seq<MessageMetrics>, conversations: seq<ConversationMetrics>, editals: seq<EditalMetrics>)
      requires Valid()
      modifies this
      ensures Valid()
      ensures var (m, c1) := MessagesOutcome(old(cache), b.mensagens, now);
              var (cv, c2) := ConversationsOutcome(c1, b.conversas, now);
              var (e, c3) := EditalsOutcome(c2, b.editais, now);
              messages == m && conversations == cv && editals == e && cache == c3
    {
      ghost var requested, editalsRequested;
      messages, requested := GetAllMessages(b.mensagens, now);
      conversations, requested := GetAllConversations(b.conversas, now);
      editals, editalsRequested := GetAllEditals(b.editais, now);
    }

    method ClearCache()
      modifies this
      ensures Valid() && cache == map[]
    {
      cache := map[];
    }

    /** One status line per cached key. */
    method GetCacheStatus(now: int) returns (status: map<string, CacheStatus>)
      ensures status.Keys == cache.Keys
      ensures forall k :: k in status ==> status[k] == StatusOf(cache[k], now)
    {
      status := map[];
      var pending := cache.Keys;
      while pending != {}
        invariant pending <= cache.Keys
        invariant status.Keys == cache.Keys - pending
        invariant forall k :: k in status ==> status[k] == StatusOf(cache[k], now)
        decreases |pending|
      {
        var key :| key in pending;
        status := status[key := StatusOf(cache[key], now)];
        pending := pending - {key};
      }
    }
  }
}
