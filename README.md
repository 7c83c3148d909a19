# Dashboard data-access layer — Dafny model

This project models the client-side data layer of an administrative dashboard
for a chatbot: the services that read conversations, messages and metrics from
a Django REST backend, and the state holder the views use for the conversation
list. The model covers

- the **record adapters** that turn backend conversations (`conversa`) and
  messages (`mensagem`) into the view models `ConversationSession` and
  `ConversationMessage`, and the error messages of the conversation listing;
- the **pagination workaround** of the conversation service. The service checks
  whether the backend echoed the requested page. If it did not, the service
  loads every page (up to 20 pages of 100), keeps the result in a single-slot
  cache for five minutes, and serves pages by slicing that list. The full
  message list of one conversation is loaded the same way (up to 100 pages)
  and sorted by timestamp;
- the **metrics service**: a keyed cache of `(data, timestamp)` entries with a
  five-minute validity window, and the aggregation that reads a first page,
  computes `ceil(total / per_page)` and then reads pages 2..N;
- the **conversation list state holder** (`useConversas`), with its load,
  load-more and reload actions, its re-entrancy guard and its lookups.

The backends are oracles. `ApiTypes.Backend` holds total functions from a
request to a response or an `HttpError`: the conversation listing takes a page
and a page size, the message listing a page, a page size and an optional
conversation filter, and the single-conversation read an id.
`Metrics.MetricsBackend` holds two total functions from a page number to a
response or a `FetchError`, and one fixed response (or `FetchError`) for the
editals endpoint, which takes no page. The clock is a `now` parameter. Reading
a timestamp string as a date is a `dateOf` parameter. Ghost request logs record
which pages are requested, so that "no request is made" and "pages 1..k are
requested, in order" can be stated.

Files: `wrappers.dfy` (Option, Result), `js_builtins.dfy` (the JavaScript
built-ins the code relies on), `sequences.dfy` (filter, find, sort by key,
page ranges), `api_types.dfy` (records and the backend oracle), `paging.dfy`
(the sequential "load every page" loop), `django.dfy` (conversation service),
`metrics.dfy` (metrics service), `use_conversas.dfy` (list state holder).

Three behaviours of the code worth stating:

- The pages 2..N of the metrics aggregation are joined with `Promise.all`.
  That keeps input order, so the result is in page order, not in completion order.
- Local pagination reports the length of the cached list as `total`, not the
  total the backend reported.
- The conversation cache is rebuilt when it is strictly older than five minutes
  (`>`, src/common/api/django.service.ts:185). A metrics entry is valid only
  while strictly younger than five minutes (`<`, src/services/metrics.service.ts:100).
  At exactly five minutes the first is still served and the second has expired.

## Model

| member | source | states |
|---|---|---|
| JsBuiltins.CeilDiv | src/services/metrics.service.ts:138 | `Math.ceil(a / b)` for a positive `b`: the least `r` with `a <= r * b`, i.e. `(r - 1) * b < a <= r * b` |
| JsBuiltins.Slice | src/common/api/django.service.ts:244 | `Array.prototype.slice`: for `0 <= start <= end` it is `s[min(start, n)..min(end, n)]`, never longer than `s` |
| JsBuiltins.DecimalString | src/common/api/django.service.ts:103 | `id.toString()` of a non-negative id below 10^21: a non-empty string of digits with no leading zero |
| JsBuiltins.ParseDecimalString | src/common/api/django.service.ts:117 | reading the rendered id back gives the id (round trip) |
| JsBuiltins.DecimalStringInjective | src/common/api/django.service.ts:103-104 | distinct numeric ids give distinct string ids |
| JsBuiltins.OrElse | src/common/api/django.service.ts:107 | `a \|\| b` on a nullable string: `a` when it is non-null and non-empty, else `b` |
| JsBuiltins.LowerChar | src/common/composables/useConversas.ts:99 | ASCII `toLowerCase`: `A`–`Z` move to `a`–`z`, every other character is kept |
| JsBuiltins.Lower | src/common/composables/useConversas.ts:99 | the fold applied position by position, same length |
| JsBuiltins.IncludesIffOccurs | src/common/composables/useConversas.ts:99 | `includes` holds exactly when the query occurs at some position of the text |
| JsBuiltins.EmptyIncluded | src/common/composables/useConversas.ts:99 | the empty query is included in every string |
| Sequences.Keep | src/common/composables/useConversas.ts:98-100 | `filter`: every kept element satisfies the predicate, each satisfying element is kept as many times as it occurs and no other element is kept, and the result is an order-preserving subsequence |
| Sequences.FirstIndex | src/common/composables/useConversas.ts:93 | the index of the first element satisfying the predicate; None exactly when no element does |
| Sequences.Find | src/common/composables/useConversas.ts:93 | `find`: Some exactly when an element matches, and then it is the first match |
| Sequences.InsertByKey | src/common/api/django.service.ts:295 | inserting into a key-sorted list keeps it sorted and adds exactly that element |
| Sequences.SortByKey | src/common/api/django.service.ts:295 | the sort by timestamp: sorted by key and a permutation (same multiset) of its input |
| Sequences.PageRange | src/services/metrics.service.ts:151 | the pages `lo..hi` in increasing order, each once |
| Paging.CollectPages | src/common/api/django.service.ts:189-233 | the accumulation loop terminates, requests pages 1..k in order, and returns the items of pages 1..k concatenated in page order, where k is the page after which the loop leaves |
| Paging.StopPageIsFirstHalt | src/common/api/django.service.ts:217-232 | 1 <= k <= cap; the loop leaves after page k (failure, accumulated >= reported total, or cap reached) and after no earlier page |
| Paging.StopPageFromIsFirstHalt | src/common/api/django.service.ts:217-232 | the same, from any start page (the induction step) |
| Paging.StopConditions | src/common/api/django.service.ts:217-232 | for a cap of at least one page: the loop leaves after page k <= cap because page k failed, its count reached the reported total, or the cap was reached; every earlier page succeeded with the count below its total |
| Paging.ItemsUpToBeforeStop | src/common/api/django.service.ts:215 | every page before the last one requested succeeded and contributed exactly its items |
| Django.AdaptConversa | src/common/api/django.service.ts:99-110 | ids are the canonical decimal strings of the numeric ids (no leading zero; they read back to them); `userEmail` is the questioner's contact; `endTime` is `encerrada_em` when non-null and non-empty, else `ultima_mensagem_em`; message count 0 and no messages |
| Django.AdaptMensagem | src/common/api/django.service.ts:113-122 | role is `Bot` exactly when the author's role is `RESPONDENTE` and `User` for every other value; content and timestamp carried over; the id is the canonical decimal string of the numeric id and reads back to it |
| Django.AdaptMensagens | src/common/api/django.service.ts:294 | adapts every record, one message per record, in order |
| Django.AdaptMensagemSeparatesIds | src/common/api/django.service.ts:117 | records with distinct ids never adapt to the same message |
| Django.ConversasErrorMessage | src/common/api/django.service.ts:51-59 | 401 and 403 give their fixed messages; otherwise `detail`, else the error message, else the fallback; the message is never empty |
| Django.GetConversas | src/common/api/django.service.ts:29-60 | the listing response is passed through; a failure becomes its mapped, non-empty message |
| Django.ConversaFilter | src/common/api/django.service.ts:78-80 | the conversation filter is added only for a non-zero (truthy) id |
| Django.MessageCountOf | src/common/api/django.service.ts:146-155 | a session's message count is the total of a one-message page, or 0 when that request fails |
| Django.AdaptWithCounts | src/common/api/django.service.ts:142-159 | one session per backend record, in order, each with its message count |
| Django.EchoPage | src/common/api/django.service.ts:142-170 | when the page is echoed: one session per record in order, each the adapted record carrying its message count, and `current_page`, `per_page`, `total` passed through unchanged |
| Django.WithPageSize | src/common/api/django.service.ts:195 | each requested page of the reload is paired with the page size 100 |
| Django.AllConversasStops | src/common/api/django.service.ts:193-233 | the reload requests at most 20 pages; before its last page every page succeeded and left the count below the reported total; it stops early only on a failure or once the count reaches the total |
| Django.LocalPage | src/common/api/django.service.ts:242-255 | page `page` is `cache[(page-1)*perPage .. min(page*perPage, n)]`, with `current_page = page`, `per_page = perPage` and `total` = the cached length |
| Django.LoadedPagesArePrefix | src/common/api/django.service.ts:242-244 | serving pages 1..p one after another yields exactly the first `p * perPage` cached sessions |
| Django.SecondPageOfTen | src/common/api/django.service.ts:242-253 | page 2 of size 10 is records 11–20 of the full list, and the reported total is the list's length |
| Django.DjangoService.constructor | src/common/api/django.service.ts:12-13 | the cache starts empty (null) with timestamp 0 |
| Django.DjangoService.GetConversasComPaginacaoLocal | src/common/api/django.service.ts:178-256 | the cache is rebuilt exactly when it is null or `now - cacheTimestamp > 5 min`; a rebuild stores the reloaded list and sets the timestamp to `now`; a fresh cache makes no request; the page served is the slice of the (possibly rebuilt) list |
| Django.DjangoService.GetConversasAdaptadas | src/common/api/django.service.ts:125-175 | one listing request; an error is rethrown with its message; an echoed page is returned as is with the cache untouched; otherwise the result and state are those of local pagination |
| Django.DjangoService.GetMensagensConversa | src/common/api/django.service.ts:259-296 | at most 100 pages are requested (1..k in order); the result is sorted by timestamp and is a permutation of the adapted accumulated messages |
| Django.DjangoService.GetConversaCompleta | src/common/api/django.service.ts:301-312 | fails exactly when the conversation cannot be read, with that error's message; otherwise the adapted conversation with its sorted messages and `messageCount` equal to their number |
| Metrics.GetCacheKey | src/services/metrics.service.ts:91-93 | the key is `metrics_` followed by the endpoint name |
| Metrics.CacheKeyInjective | src/services/metrics.service.ts:91-93 | distinct endpoints get distinct keys |
| Metrics.KeysDistinct | src/services/metrics.service.ts:123 | the messages, conversations and editals keys are pairwise distinct |
| Metrics.ExpireKey | src/services/metrics.service.ts:95-107 | after the validity check the key is present iff it was present and strictly younger than 5 minutes; no other entry changes |
| Metrics.StatusOf | src/services/metrics.service.ts:304-306 | `valid` iff the age is under 5 minutes; `age` is the age in seconds rounded to the nearest whole second |
| Metrics.PageCount | src/services/metrics.service.ts:137-138 | `ceil(total / per_page)` of the first response, with the default meta (total 0, per_page 100) when it is missing |
| Metrics.LaterPagesInPageOrder | src/services/metrics.service.ts:161-169 | each later page's list sits in the aggregate right after the lists of the pages before it |
| Metrics.SinglePage | src/services/metrics.service.ts:143-147 | with at most one page, the first page's list is the result and no other page is requested |
| Metrics.ManyPages | src/services/metrics.service.ts:150-169 | otherwise pages 1..N are each requested once and the result is the first page's list followed by every later page's list in page order |
| Metrics.FetchPages | src/services/metrics.service.ts:131-180 | the first-page-then-batch fetch returns the aggregate of all pages, or nothing when any request fails, and logs the pages it requests |
| Metrics.MessagesTouchOnlyTheirKey | src/services/metrics.service.ts:122-181 | loading messages changes no cache entry but `metrics_messages` and keeps every entry of its own kind |
| Metrics.ConversationsTouchOnlyTheirKey | src/services/metrics.service.ts:184-243 | loading conversations changes no cache entry but `metrics_conversations` |
| Metrics.EditalsTouchOnlyTheirKey | src/services/metrics.service.ts:246-278 | loading editals changes no cache entry but `metrics_editals` |
| Metrics.FailureReturnsEmpty | src/services/metrics.service.ts:177-180 | a failed load, or an editals body that is not a list, returns an empty list and caches nothing under its key |
| Metrics.FreshEntryIsServed | src/services/metrics.service.ts:126-129 | within the window the stored messages list is returned and the cache is untouched |
| Metrics.FreshConversationsAreServed | src/services/metrics.service.ts:188-191 | within the window the stored conversations list is returned and the cache is untouched |
| Metrics.FreshEditalsAreServed | src/services/metrics.service.ts:250-253 | within the window the stored editals list is returned, whatever the endpoint would answer, and the cache is untouched |
| Metrics.MetricsService.constructor | src/services/metrics.service.ts:88 | the cache starts empty |
| Metrics.MetricsService.GetCache | src/services/metrics.service.ts:116-119 | the stored data for a present key, nothing (null) for a missing one |
| Metrics.MetricsService.IsValidCache | src/services/metrics.service.ts:95-107 | false for a missing key; true iff strictly younger than 5 minutes; an expired entry is deleted and nothing else changes |
| Metrics.MetricsService.SetCache | src/services/metrics.service.ts:109-114 | afterwards `getCache(k)` returns the data just stored, stamped `now`; other keys are unchanged |
| Metrics.MetricsService.GetAllMessages | src/services/metrics.service.ts:122-181 | a valid entry is served without a request; otherwise the pages are fetched and the list is cached, or `[]` is returned on failure |
| Metrics.MetricsService.GetAllConversations | src/services/metrics.service.ts:184-243 | the same for conversations |
| Metrics.MetricsService.GetAllEditals | src/services/metrics.service.ts:246-278 | a valid entry is served as stored, with no request; otherwise one request: a list is cached and returned, a missing body is cached as `[]`, a non-list body or a failure returns `[]` without caching |
| Metrics.MetricsService.GetAllData | src/services/metrics.service.ts:281-290 | the three loads, one after another, each seeing the cache the previous one left |
| Metrics.MetricsService.ClearCache | src/services/metrics.service.ts:293-296 | every entry is removed |
| Metrics.MetricsService.GetCacheStatus | src/services/metrics.service.ts:299-310 | exactly one status per cached key, each computed by `StatusOf` |
| UseConversas.EmptyQueryKeepsAll | src/common/composables/useConversas.ts:97-101 | filtering by the empty query keeps every session |
| UseConversas.ErrorText | src/common/composables/useConversas.ts:49 | `err.message \|\| fallback`: the error's message when it is non-empty, else the fallback, so with a non-empty fallback the text shown is never empty |
| UseConversas.ListingErrorShownVerbatim | src/common/composables/useConversas.ts:49 | a listing failure shows the service's message; the composable's fallback never applies to it |
| UseConversas.ConversasState.constructor | src/common/composables/useConversas.ts:7-13 | empty list, nothing selected, not loading, no error, page 1, 10 per page, total 0 |
| UseConversas.ConversasState.HasMore | src/common/composables/useConversas.ts:16-18 | more sessions exist only while at least one page is reported, and never once the loaded list fills every page `totalPages` counts |
| UseConversas.ConversasState.TotalPages | src/common/composables/useConversas.ts:20-22 | `ceil(total / perPage)` |
| UseConversas.ConversasState.CarregarConversas | src/common/composables/useConversas.ts:25-53 | no effect while loading; otherwise the error is cleared, `reset` replaces the list and no reset appends to it, page and total come from the response, a failure sets the error and keeps list, page and total; loading is false at the end; the service's cache, cache timestamp and request log are those of one `getConversasAdaptadas` call (unchanged cache for an echoed page or an error, the local-pagination state otherwise) |
| UseConversas.ConversasState.CarregarMaisConversas | src/common/composables/useConversas.ts:55-59 | no effect unless more sessions exist and nothing is loading; otherwise page `currentPage + 1` is appended |
| UseConversas.ConversasState.RecarregarConversas | src/common/composables/useConversas.ts:61-64 | sets the page to 1, then loads page 1 replacing the list |
| UseConversas.ConversasState.CarregarDetalhesConversa | src/common/composables/useConversas.ts:66-86 | no effect while loading; otherwise the full conversation is selected (the adapted record, with a permutation of its adapted accumulated messages sorted by timestamp and counted), or the error is set |
| UseConversas.ConversasState.LimparConversaAtual | src/common/composables/useConversas.ts:88-90 | clears the selected conversation only |
| UseConversas.ConversasState.BuscarConversaPorId | src/common/composables/useConversas.ts:92-94 | the first loaded session with that id, or nothing when none has it |
| UseConversas.ConversasState.FiltrarPorUsuario | src/common/composables/useConversas.ts:97-101 | the order-preserving subsequence of sessions whose lower-cased contact contains the lower-cased query; each matching session occurs as often as in the list, every other not at all |
| UseConversas.ConversasState.FiltrarPorPeriodo | src/common/composables/useConversas.ts:103-108 | the order-preserving subsequence of sessions whose start time is in `[dataInicio, dataFim]`; each matching session occurs as often as in the list, every other not at all |

## Left out

- HTTP transport, URL and query-string construction, bearer tokens and all console logging. The backend is an oracle of total functions.
- Concurrency. The per-conversation message-count lookups, the metrics page batch, `getAllData` and the two requests of `getConversaCompleta` run one after another in the model. Two overlapping loads, and the interleavings the re-entrancy guard exists for, are not modelled.
- `Date.now()` is a `now` parameter, read once per operation. In the source, `setCache` reads the clock again after the requests return.
- `new Date(...)` parsing is a `dateOf: string -> int` parameter. An invalid date (NaN), which makes the source's comparisons false, is not modelled.
- Vue reactivity (`ref`, `computed`): the state is plain fields of a class.
- Full Unicode `toLowerCase`: only ASCII letters are folded.
- Numeric ids are non-negative integers taken below 10^21, where `toString()` gives plain digits. A negative id, which renders with a minus sign, the exponent notation of larger values, and JavaScript number precision are not modelled.
- Metrics `per_page` is a positive integer. The source divides by it; with 0 and a positive total its page loop would not end.
- A metrics page's `data`, on page 1 and on pages 2..N alike, is either a list or missing. A present non-list value is represented only for the editals response, so the `Array.isArray` tests that drop such a page (src/services/metrics.service.ts:166 and :228) have no case to act on in the model.
- Record fields that no logic reads are not modelled (`payload`, `itensdeconhecimento`, the metrics records' nested objects, `edital` of a session, `max_per_page` of the metrics meta).
- `getConversa` and `getMensagens` are single requests to the oracle. `getMensagem` has no caller in the core and is not modelled.
- The authentication service, the browser smoke test and the type declaration files have no logic of their own to model.
- Sequences.SortByKey: proved sorted and a permutation. It is not proved stable, although `Array.prototype.sort` keeps messages with equal timestamps in backend order.
