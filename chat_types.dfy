/**
 * The wire and cache shapes of chat messages (types/message.ts) and of a
 * paginated list response (types/api.ts).
 */
module ChatTypes {
  import opened Wrappers

  /** The embedded author of a message as the server sends it. */
  datatype Sender = Sender(id: string, username: string, avatar: Option<string>)

  /** A message as the server sends it, in a page of history or a live push. */
  datatype ServerMessage = ServerMessage(
    id: string,
    content: string,
    senderId: string,
    chatId: string,
    createdAt: string,
    sender: Sender)

  /** A message as the client caches and renders it; `isOptimistic` is optional and never set by the cache logic. */
  datatype Message = Message(
    id: string,
    content: string,
    senderId: string,
    senderName: string,
    avatar: Option<string>,
    createdAt: string,
    isOptimistic: Option<bool>)

  /** One cached page of history: its messages and the page number to request after it (`null` = none). */
  datatype Page = Page(messages: seq<Message>, nextPage: Option<int>)

  /** The pagination block of a list response. */
  datatype Pagination = Pagination(totalCount: int, page: int, pageSize: int, totalPages: int)

  datatype Status = Success | Error

  /** A paginated list response carrying server messages. */
  datatype ListResponse = ListResponse(
    status: Status,
    message: Option<string>,
    pagination: Pagination,
    data: seq<ServerMessage>)
}
