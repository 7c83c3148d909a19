/**
 * Backend records, frontend view models and the backend itself, seen as an
 * oracle: the model never performs I/O, it asks these total functions what the
 * backend answers for a given request.
 */
module ApiTypes {
  import opened Wrappers

  /** Timestamps travel as ISO strings, as in the backend's JSON. */
  type Timestamp = string

  datatype DjangoUser = DjangoUser(id: nat, nome: string, contato: string, papel: string)

  datatype DjangoConversa = DjangoConversa(
    id: nat,
    sessionId: Option<string>,
    iniciadaEm: Timestamp,
    encerradaEm: Option<Timestamp>,
    ultimaMensagemEm: Timestamp,
    questionador: DjangoUser,
    respondente: DjangoUser)

  datatype DjangoMensagem = DjangoMensagem(
    id: nat,
    texto: string,
    criadaEm: Timestamp,
    conversaId: nat,
    autor: DjangoUser)

  /** The envelope `meta` of a paged list response. */
  datatype PageMeta = PageMeta(currentPage: int, perPage: int, maxPerPage: int, total: int)

  datatype ApiPage<T> = ApiPage(meta: PageMeta, data: seq<T>)

  datatype Role = User | Bot

  datatype ConversationMessage = ConversationMessage(
    id: string, role: Role, content: string, timestamp: Timestamp)

  datatype ConversationSession = ConversationSession(
    id: string,
    userId: string,
    userEmail: string,
    startTime: Timestamp,
    endTime: Timestamp,
    messageCount: int,
    messages: Option<seq<ConversationMessage>>)

  /** What an HTTP client error carries: the status (absent for network failures),
      the `detail` field of the response body, and the error's own message. */
  datatype HttpError = HttpError(status: Option<int>, detail: Option<string>, message: string)

  /** The three endpoints the service reads:
      `/discussao/conversa/?page&per_page`, `/discussao/mensagem/?page&per_page[&conversa]`
      and `/discussao/conversa/{id}/`. */
  datatype Backend = Backend(
    conversas: (int, int) -> Result<ApiPage<DjangoConversa>, HttpError>,
    mensagens: (int, int, Option<nat>) -> Result<ApiPage<DjangoMensagem>, HttpError>,
    conversa: nat -> Result<DjangoConversa, HttpError>)
}
