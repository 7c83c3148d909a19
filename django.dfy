/**
 * The conversation service: adapters from backend records to view models, the
 * error messages of the conversation listing, and the client-side pagination
 * workaround with its single-slot, five-minute cache of every conversation.
 */
module Django {
  import opened Wrappers
  import opened JsBuiltins
  import opened Sequences
  import opened ApiTypes
  import opened Paging

  /** Five minutes, in milliseconds. */
  const CACHE_DURATION: int := 5 * 60 * 1000
  /** Page size used when loading every conversation or every message of a conversation. */
  const BULK_PAGE_SIZE: int := 100
  /** Page cap of the conversation loop and of the message loop. */
  const MAX_CONVERSA_PAGES: nat := 20
  const MAX_MENSAGEM_PAGES: nat := 100
  /** The role value the backend gives the chatbot. */
  const RESPONDENTE: string := "RESPONDENTE"

  const NAO_AUTORIZADO: string := "Não autorizado. Faça login novamente."
  const ACESSO_NEGADO: string := "Acesso negado. Você não tem permissão para ver as conversas."
  const ERRO_BUSCAR_CONVERSAS: string := "Erro ao buscar conversas"

  // ---------------------------------------------------------------------------
  // Adapters

  /** Conversation record to session view model; the message count is filled in later. */
  function AdaptConversa(c: DjangoConversa): (s: ConversationSession)
    ensures s.id == DecimalString(c.id) && ParseDecimal(s.id) == Some(c.id)
    ensures s.userId == DecimalString(c.questionador.id) && ParseDecimal(s.userId) == Some(c.questionador.id)
    ensures s.userEmail == c.questionador.contato && s.startTime == c.iniciadaEm
    ensures c.encerradaEm.Some? && c.encerradaEm.value != "" ==> s.endTime == c.encerradaEm.value
    ensures c.encerradaEm.None? || c.encerradaEm.value == "" ==> s.endTime == c.ultimaMensagemEm
    ensures s.messageCount == 0 && s.messages.None?
  {
    ParseDecimalString(c.id);
    ParseDecimalString(c.questionador.id);
    ConversationSession(
      id := DecimalString(c.id),
      userId := DecimalString(c.questionador.id),
      userEmail := c.questionador.contato,
      startTime := c.iniciadaEm,
      endTime := OrElse(c.encerradaEm, c.ultimaMensagemEm),
      messageCount := 0,
      messages := None)
  }

  /** Message record to message view model: the author's role decides bot or user. */
  function AdaptMensagem(m: DjangoMensagem): (r: ConversationMessage)
    ensures r.role == Bot <==> m.autor.papel == RESPONDENTE
    ensures r.role == User <==> m.autor.papel != RESPONDENTE
    ensures r.id == DecimalString(m.id) && ParseDecimal(r.id) == Some(m.id)
    ensures r.content == m.texto && r.timestamp == m.criadaEm
  {
    ParseDecimalString(m.id);
    var isBot := m.autor.papel == RESPONDENTE;
    ConversationMessage(DecimalString(m.id), if isBot then Bot else User, m.texto, m.criadaEm)
  }

  function AdaptMensagens(ms: seq<DjangoMensagem>): (r: seq<ConversationMessage>)
    ensures |r| == |ms|
    ensures forall i :: 0 <= i < |ms| ==> r[i] == AdaptMensagem(ms[i])
  {
    seq(|ms|, i requires 0 <= i < |ms| => AdaptMensagem(ms[i]))
  }

  /** Two message records with different identifiers never adapt to the same view model. */
  lemma AdaptMensagemSeparatesIds(m1: DjangoMensagem, m2: DjangoMensagem)
    requires m1.id != m2.id
    ensures AdaptMensagem(m1) != AdaptMensagem(m2)
  {
    if AdaptMensagem(m1).id == AdaptMensagem(m2).id {
      DecimalStringInjective(m1.id, m2.id);
    }
  }

  // ---------------------------------------------------------------------------
  // The conversation listing request

  /** The message thrown when the conversation listing fails. */
  function ConversasErrorMessage(e: HttpError): (msg: string)
    ensures e.status == Some(401) ==> msg == NAO_AUTORIZADO
    ensures e.status == Some(403) ==> msg == ACESSO_NEGADO
    ensures e.status != Some(401) && e.status != Some(403) ==>
      msg == (if e.detail.Some? && e.detail.value != "" then e.detail.value
              else if e.message != "" then e.message
              else ERRO_BUSCAR_CONVERSAS)
    ensures msg != ""
  {
    if e.status == Some(401) then NAO_AUTORIZADO
    else if e.status == Some(403) then ACESSO_NEGADO
    else OrElse(e.detail, OrElse(Some(e.message), ERRO_BUSCAR_CONVERSAS))
  }

  /** `getConversas`: one listing request; a failure is rethrown with its mapped message. */
  function GetConversas(b: Backend, page: int, perPage: int): (r: Result<ApiPage<DjangoConversa>, string>)
    ensures r.Ok? <==> b.conversas(page, perPage).Ok?
    ensures r.Ok? ==> r.value == b.conversas(page, perPage).value
    ensures r.Err? ==> r.error == ConversasErrorMessage(b.conversas(page, perPage).error) && r.error != ""
  {
    match b.conversas(page, perPage)
    case Ok(response) => Ok(response)
    case Err(e) => Err(ConversasErrorMessage(e))
  }

  /** `getMensagens` adds the conversation filter only for a truthy id, so id 0 lists everything. */
  function ConversaFilter(conversaId: nat): (r: Option<nat>)
    ensures r.None? <==> conversaId == 0
    ensures r.Some? ==> r.value == conversaId
  {
    if conversaId == 0 then None else Some(conversaId)
  }

  /** The message count a session gets: the total of a one-message page for its
      conversation, or 0 when that request fails. */
  function MessageCountOf(b: Backend, c: DjangoConversa): (n: int)
    ensures b.mensagens(1, 1, ConversaFilter(c.id)).Err? ==> n == 0
    ensures b.mensagens(1, 1, ConversaFilter(c.id)).Ok? ==> n == b.mensagens(1, 1, ConversaFilter(c.id)).value.meta.total
  {
    match b.mensagens(1, 1, ConversaFilter(c.id))
    case Ok(response) => response.meta.total
    case Err(_) => 0
  }

  /** Adapts one page of conversation records, each with its message count. */
  function AdaptWithCounts(b: Backend, cs: seq<DjangoConversa>): (r: seq<ConversationSession>)
    ensures |r| == |cs|
    ensures forall i :: 0 <= i < |cs| ==>
      r[i] == AdaptConversa(cs[i]).(messageCount := MessageCountOf(b, cs[i]))
  {
    seq(|cs|, i requires 0 <= i < |cs| => AdaptConversa(cs[i]).(messageCount := MessageCountOf(b, cs[i])))
  }

  /** A page of sessions with its envelope, as the UI receives it. */
  datatype SessionsPage = SessionsPage(sessions: seq<ConversationSession>, currentPage: int, perPage: int, total: int)

  /** The result when the backend honoured the requested page. */
  function EchoPage(b: Backend, response: ApiPage<DjangoConversa>): (r: SessionsPage)
    ensures |r.sessions| == |response.data|
    ensures forall i :: 0 <= i < |response.data| ==>
      ParseDecimal(r.sessions[i].id) == Some(response.data[i].id) &&
      r.sessions[i].messageCount == MessageCountOf(b, response.data[i])
    ensures forall i :: 0 <= i < |response.data| ==>
      r.sessions[i] == AdaptConversa(response.data[i]).(messageCount := MessageCountOf(b, response.data[i]))
    ensures r.currentPage == response.meta.currentPage && r.perPage == response.meta.perPage
    ensures r.total == response.meta.total
  {
    SessionsPage(AdaptWithCounts(b, response.data),
                 response.meta.currentPage, response.meta.perPage, response.meta.total)
  }

  // ---------------------------------------------------------------------------
  // Loading every page

  /** One request of the "load every conversation" loop. */
  function ConversasFetched(b: Backend, p: nat): Fetched<ConversationSession> {
    match GetConversas(b, p, BULK_PAGE_SIZE)
    case Ok(response) => Got(response.meta.total, AdaptWithCounts(b, response.data))
    case Err(_) => Failed
  }

  function ConversasFetch(b: Backend): nat -> Fetched<ConversationSession> {
    (p: nat) => ConversasFetched(b, p)
  }

  /** Every conversation, as the loop of `getConversasComPaginacaoLocal` accumulates it. */
  function AllConversas(b: Backend): seq<ConversationSession> {
    ItemsUpTo(ConversasFetch(b), StopPage(ConversasFetch(b), MAX_CONVERSA_PAGES))
  }

  /** The reload asks for at most twenty pages of a hundred, and stops early only
      after a failed page or once it holds as many sessions as the last page reported. */
  lemma AllConversasStops(b: Backend)
    ensures var k := StopPage(ConversasFetch(b), MAX_CONVERSA_PAGES);
            && 1 <= k <= MAX_CONVERSA_PAGES
            && AllConversas(b) == ItemsUpTo(ConversasFetch(b), k)
            && (k < MAX_CONVERSA_PAGES ==>
                  ConversasFetched(b, k).Failed? || |AllConversas(b)| >= ConversasFetched(b, k).total)
            && forall q :: 1 <= q < k ==>
                  ConversasFetched(b, q).Got? && |ItemsUpTo(ConversasFetch(b), q)| < ConversasFetched(b, q).total
  {
    var fetch := ConversasFetch(b);
    StopConditions(fetch, MAX_CONVERSA_PAGES);
    forall q: nat ensures fetch(q) == ConversasFetched(b, q) {
    }
  }

  /** One request of the "load every message of a conversation" loop. */
  function MensagensFetched(b: Backend, conversaId: nat, p: nat): Fetched<DjangoMensagem> {
    match b.mensagens(p, BULK_PAGE_SIZE, ConversaFilter(conversaId))
    case Ok(response) => Got(response.meta.total, response.data)
    case Err(_) => Failed
  }

  function MensagensFetch(b: Backend, conversaId: nat): nat -> Fetched<DjangoMensagem> {
    (p: nat) => MensagensFetched(b, conversaId, p)
  }

  /** Every message record of a conversation, as the loop of `getMensagensConversa` accumulates it. */
  function AllMensagens(b: Backend, conversaId: nat): seq<DjangoMensagem> {
    ItemsUpTo(MensagensFetch(b, conversaId), StopPage(MensagensFetch(b, conversaId), MAX_MENSAGEM_PAGES))
  }

  /** The sort key of a message: its timestamp read as a date. */
  function TimeKey(dateOf: Timestamp -> int): ConversationMessage -> int {
    (m: ConversationMessage) => dateOf(m.timestamp)
  }

  /** Every page request of the loop, paired with the page size it asks for. */
  function WithPageSize(pages: seq<int>, perPage: int): (r: seq<(int, int)>)
    ensures |r| == |pages|
    ensures forall i :: 0 <= i < |pages| ==> r[i] == (pages[i], perPage)
  {
    seq(|pages|, i requires 0 <= i < |pages| => (pages[i], perPage))
  }

  // ---------------------------------------------------------------------------
  // Local pagination

  /** Page `page` of `all` served locally: `all.slice((page - 1) * perPage, page * perPage)`,
      reporting the cached length as the total. */
  function LocalPage(all: seq<ConversationSession>, page: int, perPage: int): (r: SessionsPage)
    ensures r.currentPage == page && r.perPage == perPage && r.total == |all|
    ensures page >= 1 && perPage >= 0 ==>
      r.sessions == all[Min((page - 1) * perPage, |all|)..Min(page * perPage, |all|)]
  {
    var startIndex := (page - 1) * perPage;
    var endIndex := startIndex + perPage;
    assert page >= 1 && perPage >= 0 ==> 0 <= startIndex <= endIndex == page * perPage;
    SessionsPage(Slice(all, startIndex, endIndex), page, perPage, |all|)
  }

  /** Loading pages 1..p of a list one after another yields its first `p * perPage` items. */
  function LoadedPages(all: seq<ConversationSession>, perPage: int, p: nat): seq<ConversationSession> {
    if p == 0 then [] else LoadedPages(all, perPage, p - 1) + LocalPage(all, p, perPage).sessions
  }

  lemma {:induction false} LoadedPagesArePrefix(all: seq<ConversationSession>, perPage: nat, p: nat)
    ensures LoadedPages(all, perPage, p) == all[..Min(p * perPage, |all|)]
  {
    if p > 0 {
      LoadedPagesArePrefix(all, perPage, p - 1);
      var lo, hi := (p - 1) * perPage, p * perPage;
      PageBounds(p, perPage);
      var page := LocalPage(all, p, perPage).sessions;
      assert page == all[Min(lo, |all|)..Min(hi, |all|)];
      PrefixThenSlice(all, Min(lo, |all|), Min(hi, |all|));
    }
  }

  lemma PrefixThenSlice<T>(s: seq<T>, i: int, j: int)
    requires 0 <= i <= j <= |s|
    ensures s[..i] + s[i..j] == s[..j]
  {
  }

  lemma PageBounds(p: nat, perPage: nat)
    requires p >= 1
    ensures 0 <= (p - 1) * perPage <= p * perPage
  {
    assert p * perPage == (p - 1) * perPage + perPage;
  }

  /** With pages of ten, page 2 is the eleventh to the twentieth record of the full list. */
  lemma SecondPageOfTen(all: seq<ConversationSession>)
    requires |all| >= 20
    ensures LocalPage(all, 2, 10).sessions == all[10..20]
    ensures LocalPage(all, 2, 10).total == |all|
  {
  }

  // ---------------------------------------------------------------------------
  // The service object

  class DjangoService {
    /** Every conversation, cached by the pagination workaround; None before the first load. */
    var allConversationsCache: Option<seq<ConversationSession>>
    var cacheTimestamp: int
    /** The (page, per_page) of every conversation listing request, in order. */
    ghost var listRequests: seq<(int, int)>

    constructor ()
      ensures allConversationsCache == None && cacheTimestamp == 0 && listRequests == []
    {
      allConversationsCache := None;
      cacheTimestamp := 0;
      listRequests := [];
    }

    /** The cache may be served at time `now` (it is rebuilt only once strictly older than the window). */
    predicate CacheIsFresh(now: int)
      reads this`allConversationsCache, this`cacheTimestamp
    {
      allConversationsCache.Some? && now - cacheTimestamp <= CACHE_DURATION
    }

    /** The list the workaround slices at time `now`: the cache if fresh, else a full reload. */
    function Snapshot(b: Backend, now: int): seq<ConversationSession>
      reads this`allConversationsCache, this`cacheTimestamp
    {
      if CacheIsFresh(now) then allConversationsCache.value else AllConversas(b)
    }

    /** What `getConversasAdaptadas(page, perPage)` resolves to, or the message it throws. */
    function AdaptadasOutcome(b: Backend, page: int, perPage: int, now: int): Result<SessionsPage, string>
      reads this`allConversationsCache, this`cacheTimestamp
    {
      match GetConversas(b, page, perPage)
      case Err(msg) => Err(msg)
      case Ok(response) =>
        if response.meta.currentPage == page then Ok(EchoPage(b, response))
        else Ok(LocalPage(Snapshot(b, now), page, perPage))
    }

    /** The state after the workaround ran at time `now`, where `logBefore` is the
        request log as it stood when the workaround started. */
    twostate predicate AfterLocalPagination(b: Backend, now: int, logBefore: seq<(int, int)>)
      reads this
    {
      && allConversationsCache == Some(old(Snapshot(b, now)))
      && (old(CacheIsFresh(now)) ==>
            cacheTimestamp == old(cacheTimestamp) && listRequests == logBefore)
      && (!old(CacheIsFresh(now)) ==>
            cacheTimestamp == now &&
            listRequests == logBefore +
              WithPageSize(PageRange(1, StopPage(ConversasFetch(b), MAX_CONVERSA_PAGES)), BULK_PAGE_SIZE))
    }

    method GetConversasComPaginacaoLocal(b: Backend, page: int, perPage: int, now: int)
      returns (r: SessionsPage)
      modifies this
      ensures r == LocalPage(old(Snapshot(b, now)), page, perPage)
      ensures AfterLocalPagination(b, now, old(listRequests))
    {
      if allConversationsCache.None? || now - cacheTimestamp > CACHE_DURATION {
        var allConversations;
        ghost var requested;
        allConversations, requested := CollectPages(ConversasFetch(b), MAX_CONVERSA_PAGES);
        listRequests := listRequests + WithPageSize(requested, BULK_PAGE_SIZE);
        allConversationsCache := Some(allConversations);
        cacheTimestamp := now;
      }
      var cache := allConversationsCache.value;
      var startIndex := (page - 1) * perPage;
      var endIndex := startIndex + perPage;
      var paginatedSessions := Slice(cache, startIndex, endIndex);
      r := SessionsPage(paginatedSessions, page, perPage, |cache|);
    }

    method GetConversasAdaptadas(b: Backend, page: int, perPage: int, now: int)
      returns (r: Result<SessionsPage, string>)
      modifies this
      ensures r == old(AdaptadasOutcome(b, page, perPage, now))
      ensures var first := b.conversas(page, perPage);
        if first.Ok? && first.value.meta.currentPage != page then
          AfterLocalPagination(b, now, old(listRequests) + [(page, perPage)])
        else
          listRequests == old(listRequests) + [(page, perPage)] &&
          allConversationsCache == old(allConversationsCache) && cacheTimestamp == old(cacheTimestamp)
    {
      var response := GetConversas(b, page, perPage);
      listRequests := listRequests + [(page, perPage)];
      if response.Err? {
        return Err(response.error);
      }
      var backendRespectsPagination := response.value.meta.currentPage == page;
      if !backendRespectsPagination {
        var local := GetConversasComPaginacaoLocal(b, page, perPage, now);
        return Ok(local);
      }
      var sessionsWithMessageCount := AdaptWithCounts(b, response.value.data);
      r := Ok(SessionsPage(sessionsWithMessageCount, response.value.meta.currentPage,
                           response.value.meta.perPage, response.value.meta.total));
    }

    /** Every message of a conversation, adapted and ordered by timestamp. */
    method GetMensagensConversa(b: Backend, conversaId: nat, dateOf: Timestamp -> int)
      returns (messages: seq<ConversationMessage>, ghost requested: seq<int>)
      ensures SortedBy(messages, TimeKey(dateOf))
      ensures multiset(messages) == multiset(AdaptMensagens(AllMensagens(b, conversaId)))
      ensures requested == PageRange(1, StopPage(MensagensFetch(b, conversaId), MAX_MENSAGEM_PAGES))
      ensures 1 <= |requested| <= MAX_MENSAGEM_PAGES
    {
      var allMessages;
      allMessages, requested := CollectPages(MensagensFetch(b, conversaId), MAX_MENSAGEM_PAGES);
      StopPageIsFirstHalt(MensagensFetch(b, conversaId), MAX_MENSAGEM_PAGES);
      messages := SortByKey(AdaptMensagens(allMessages), TimeKey(dateOf));
    }

    /** A conversation with all its messages; fails only when the conversation itself cannot be read. */
    method GetConversaCompleta(b: Backend, conversaId: nat, dateOf: Timestamp -> int)
      returns (r: Result<ConversationSession, string>)
      ensures r.Err? <==> b.conversa(conversaId).Err?
      ensures r.Err? ==> r.error == b.conversa(conversaId).error.message
      ensures r.Ok? ==>
        && r.value.(messages := None, messageCount := 0) == AdaptConversa(b.conversa(conversaId).value)
        && r.value.messages.Some?
        && r.value.messageCount == |r.value.messages.value|
        && SortedBy(r.value.messages.value, TimeKey(dateOf))
        && multiset(r.value.messages.value) == multiset(AdaptMensagens(AllMensagens(b, conversaId)))
    {
      var conversa := b.conversa(conversaId);
      var mensagens;
      ghost var requested;
      mensagens, requested := GetMensagensConversa(b, conversaId, dateOf);
      if conversa.Err? {
        return Err(conversa.error.message);
      }
      var conversaAdaptada := AdaptConversa(conversa.value);
      conversaAdaptada := conversaAdaptada.(messages := Some(mensagens), messageCount := |mensagens|);
      r := Ok(conversaAdaptada);
    }
  }
}
