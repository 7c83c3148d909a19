/**
 * The conversation-list state holder used by the views: the loaded sessions,
 * the session being inspected, loading and error flags, the current page and
 * the total, with load / load-more / reload actions and pure lookups.
 */
module UseConversas {
  import opened Wrappers
  import opened JsBuiltins
  import opened Sequences
  import opened ApiTypes
  import opened Django

  const PER_PAGE: Pos := 10
  const ERRO_CARREGAR_CONVERSAS: string := "Erro ao carregar conversas"
  const ERRO_CARREGAR_DETALHES: string := "Erro ao carregar detalhes da conversa"

  /** The e-mail filter: the lower-cased contact contains the lower-cased query. */
  function EmailFilter(query: string): ConversationSession -> bool {
    (c: ConversationSession) => Includes(Lower(c.userEmail), Lower(query))
  }

  /** The period filter: the start time, read as a date, lies in `[dataInicio, dataFim]`. */
  function PeriodFilter(dataInicio: int, dataFim: int, dateOf: Timestamp -> int): ConversationSession -> bool {
    (c: ConversationSession) => dataInicio <= dateOf(c.startTime) <= dataFim
  }

  /** An empty query keeps every session. */
  lemma {:induction false} EmptyQueryKeepsAll(s: seq<ConversationSession>)
    ensures Keep(s, EmailFilter("")) == s
    decreases |s|
  {
    if s != [] {
      EmptyIncluded(Lower(s[0].userEmail));
      EmptyQueryKeepsAll(s[1..]);
    }
  }

  /** The message shown for a failed action: the error's message, or the fallback when it is empty. */
  function ErrorText(message: string, fallback: string): (r: string)
    ensures message != "" ==> r == message
    ensures message == "" ==> r == fallback
    ensures fallback != "" ==> r != ""
  {
    OrElse(Some(message), fallback)
  }

  /** A failed listing always shows the service's own message, never the fallback. */
  lemma ListingErrorShownVerbatim(e: HttpError)
    ensures ErrorText(ConversasErrorMessage(e), ERRO_CARREGAR_CONVERSAS) == ConversasErrorMessage(e)
  {
  }

  class ConversasState {
    var conversas: seq<ConversationSession>
    var conversaAtual: Option<ConversationSession>
    var isLoading: bool
    var error: Option<string>
    var currentPage: int
    const perPage: Pos
    var total: int
    const service: DjangoService

    constructor (service: DjangoService)
      ensures conversas == [] && conversaAtual == None && !isLoading && error == None
      ensures currentPage == 1 && perPage == PER_PAGE && total == 0 && this.service == service
    {
      conversas := [];
      conversaAtual := None;
      isLoading := false;
      error := None;
      currentPage := 1;
      perPage := PER_PAGE;
      total := 0;
      this.service := service;
    }

    /** More sessions exist than are loaded. There is more only while some page is
        still to come, and none once the loaded list fills every page. */
    predicate HasMore()
      reads this
      ensures HasMore() ==> TotalPages() >= 1
      ensures |conversas| >= TotalPages() * perPage ==> !HasMore()
    {
      |conversas| < total
    }

    /** `Math.ceil(total / perPage)`. */
    function TotalPages(): (n: int)
      reads this
      ensures (n - 1) * perPage < total <= n * perPage
      ensures total <= 0 ==> n <= 0
    {
      CeilDiv(total, perPage)
    }

    /** The list state after a load of `page` ran to completion at time `now`;
        `pageBefore` is the current page when the load started. */
    twostate predicate Loaded(b: Backend, page: int, reset: bool, now: int, pageBefore: int)
      reads this, service
    {
      && !isLoading
      && conversaAtual == old(conversaAtual)
      && (match old(service.AdaptadasOutcome(b, page, perPage, now))
         case Ok(response) =>
           && conversas == (if reset then response.sessions else old(conversas) + response.sessions)
           && currentPage == response.currentPage
           && total == response.total
           && error == None
         case Err(message) =>
           && conversas == old(conversas)
           && currentPage == pageBefore
           && total == old(total)
           && error == Some(ErrorText(message, ERRO_CARREGAR_CONVERSAS)))
      && var first := b.conversas(page, perPage);
         if first.Ok? && first.value.meta.currentPage != page then
           service.AfterLocalPagination(b, now, old(service.listRequests) + [(page, perPage)])
         else
           && service.listRequests == old(service.listRequests) + [(page, perPage)]
           && service.allConversationsCache == old(service.allConversationsCache)
           && service.cacheTimestamp == old(service.cacheTimestamp)
    }

    method CarregarConversas(b: Backend, page: int, reset: bool, now: int)
      modifies this, service
      ensures old(isLoading) ==> unchanged(this) && unchanged(service)
      ensures !old(isLoading) ==> Loaded(b, page, reset, now, old(currentPage))
    {
      if isLoading {
        return;
      }
      isLoading := true;
      error := None;
      var response := service.GetConversasAdaptadas(b, page, perPage, now);
      match response {
        case Ok(r) =>
          if reset {
            conversas := r.sessions;
          } else {
            conversas := conversas + r.sessions;
          }
          currentPage := r.currentPage;
          total := r.total;
        case Err(message) =>
          error := Some(ErrorText(message, ERRO_CARREGAR_CONVERSAS));
      }
      isLoading := false;
    }

    method CarregarMaisConversas(b: Backend, now: int)
      modifies this, service
      ensures !old(HasMore()) || old(isLoading) ==> unchanged(this) && unchanged(service)
      ensures old(HasMore()) && !old(isLoading) ==> Loaded(b, old(currentPage) + 1, false, now, old(currentPage))
    {
      if !HasMore() || isLoading {
        return;
      }
      CarregarConversas(b, currentPage + 1, false, now);
    }

    method RecarregarConversas(b: Backend, now: int)
      modifies this, service
      ensures old(isLoading) ==>
        currentPage == 1 && conversas == old(conversas) && total == old(total) &&
        isLoading && error == old(error) && conversaAtual == old(conversaAtual) && unchanged(service)
      ensures !old(isLoading) ==> Loaded(b, 1, true, now, 1)
    {
      currentPage := 1;
      CarregarConversas(b, 1, true, now);
    }

    method CarregarDetalhesConversa(b: Backend, conversaId: nat, dateOf: Timestamp -> int)
      modifies this
      ensures old(isLoading) ==> unchanged(this)
      ensures !old(isLoading) ==>
        && !isLoading
        && conversas == old(conversas) && currentPage == old(currentPage) && total == old(total)
        && match b.conversa(conversaId)
           case Ok(c) =>
             && error == None
             && conversaAtual.Some?
             && conversaAtual.value.(messages := None, messageCount := 0) == AdaptConversa(c)
             && conversaAtual.value.messages.Some?
             && conversaAtual.value.messageCount == |conversaAtual.value.messages.value|
             && SortedBy(conversaAtual.value.messages.value, TimeKey(dateOf))
             && multiset(conversaAtual.value.messages.value) ==
                multiset(AdaptMensagens(AllMensagens(b, conversaId)))
           case Err(e) =>
             && conversaAtual == old(conversaAtual)
             && error == Some(ErrorText(e.message, ERRO_CARREGAR_DETALHES))
    {
      if isLoading {
        return;
      }
      isLoading := true;
      error := None;
      var conversa := service.GetConversaCompleta(b, conversaId, dateOf);
      match conversa {
        case Ok(c) =>
          conversaAtual := Some(c);
        case Err(message) =>
          error := Some(ErrorText(message, ERRO_CARREGAR_DETALHES));
      }
      isLoading := false;
    }

    method LimparConversaAtual()
      modifies this
      ensures conversaAtual == None
      ensures conversas == old(conversas) && isLoading == old(isLoading) && error == old(error)
      ensures currentPage == old(currentPage) && total == old(total)
    {
      conversaAtual := None;
    }

    /** The first loaded session with the given id, if any. */
    function BuscarConversaPorId(id: string): (r: Option<ConversationSession>)
      reads this
      ensures r.None? <==> forall i :: 0 <= i < |conversas| ==> conversas[i].id != id
      ensures r.Some? ==> exists i :: 0 <= i < |conversas| && conversas[i] == r.value && r.value.id == id &&
                                      forall j :: 0 <= j < i ==> conversas[j].id != id
    {
      Find(conversas, (c: ConversationSession) => c.id == id)
    }

    /** The loaded sessions whose contact matches the query, ignoring ASCII case, in list order. */
    function FiltrarPorUsuario(email: string): (r: seq<ConversationSession>)
      reads this
      ensures forall i :: 0 <= i < |r| ==> Includes(Lower(r[i].userEmail), Lower(email))
      ensures forall i :: 0 <= i < |conversas| && Includes(Lower(conversas[i].userEmail), Lower(email)) ==>
                conversas[i] in r
      ensures forall c :: multiset(r)[c] ==
                if Includes(Lower(c.userEmail), Lower(email)) then multiset(conversas)[c] else 0
      ensures IsSubsequence(r, conversas)
    {
      Keep(conversas, EmailFilter(email))
    }

    /** The loaded sessions that started within `[dataInicio, dataFim]`, in list order. */
    function FiltrarPorPeriodo(dataInicio: int, dataFim: int, dateOf: Timestamp -> int): (r: seq<ConversationSession>)
      reads this
      ensures forall i :: 0 <= i < |r| ==> dataInicio <= dateOf(r[i].startTime) <= dataFim
      ensures forall i :: 0 <= i < |conversas| && dataInicio <= dateOf(conversas[i].startTime) <= dataFim ==>
                conversas[i] in r
      ensures forall c :: multiset(r)[c] ==
                if dataInicio <= dateOf(c.startTime) <= dataFim then multiset(conversas)[c] else 0
      ensures IsSubsequence(r, conversas)
    {
      Keep(conversas, PeriodFilter(dataInicio, dataFim, dateOf))
    }
  }
}
