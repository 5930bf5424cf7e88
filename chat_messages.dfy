/**
 * Fetching message history one page at a time (hooks/useChatMessages.ts):
 * the wire-to-cache message mapping, the page built from a list response,
 * and the cursor that picks the next page to request.
 */
module ChatMessages {
  import opened Wrappers
  import opened ChatTypes

  /** The page number of the first history request. */
  const InitialPageParam: int := 1

  /** `m` carries the fields of `s` that the cache keeps, with the author's name and avatar taken from `s.sender`. */
  predicate Projects(m: Message, s: ServerMessage) {
    && m.id == s.id
    && m.content == s.content
    && m.senderId == s.senderId
    && m.senderName == s.sender.username
    && m.avatar == s.sender.avatar
    && m.createdAt == s.createdAt
  }

  /** The cached form of a server message; it is never marked optimistic. */
  function MapServerMessage(s: ServerMessage): (m: Message)
    ensures Projects(m, s)
    ensures m.isOptimistic.None?
  {
    Message(s.id, s.content, s.senderId, s.sender.username, s.sender.avatar, s.createdAt, None)
  }

  /** `res.data.map(mapServerMessage)`: element-wise, same length, same order. */
  function MapMessages(data: seq<ServerMessage>): (ms: seq<Message>)
    ensures |ms| == |data|
    ensures forall i :: 0 <= i < |data| ==> Projects(ms[i], data[i]) && ms[i].isOptimistic.None?
  {
    if data == [] then [] else [MapServerMessage(data[0])] + MapMessages(data[1..])
  }

  /** The page to request after the one described by `p`, or None when `p` is the last. */
  function NextPage(p: Pagination): (next: Option<int>)
    ensures next.Some? <==> p.page < p.totalPages
    ensures next.Some? ==> p.page < next.value <= p.totalPages && next.value == p.page + 1
  {
    if p.page < p.totalPages then Some(p.page + 1) else None
  }

  /** The cached page built from one list response (the query function). */
  function FetchPage(res: ListResponse): (pg: Page)
    ensures |pg.messages| == |res.data|
    ensures forall i :: 0 <= i < |res.data| ==> Projects(pg.messages[i], res.data[i])
    ensures pg.nextPage.Some? <==> res.pagination.page < res.pagination.totalPages
    ensures pg.nextPage.Some? ==> pg.nextPage.value == res.pagination.page + 1
  {
    Page(MapMessages(res.data), NextPage(res.pagination))
  }

  /** `lastPage.nextPage ?? undefined`: "no more pages" exactly when the page has no successor. */
  function GetNextPageParam(lastPage: Page): (param: Option<int>)
    ensures param.None? <==> lastPage.nextPage.None?
    ensures param.Some? ==> param.value == lastPage.nextPage.value
  {
    match lastPage.nextPage
    case Some(n) => Some(n)
    case None => None
  }

  /** The response for `page` of a history of `totalPages` pages, when the server echoes the requested page. */
  function EchoResponse(page: int, totalPages: int): ListResponse {
    ListResponse(Success, None, Pagination(0, page, 0, totalPages), [])
  }

  /**
   * The page numbers requested, starting from `page`, by following
   * GetNextPageParam(FetchPage(...)) until it says "no more pages".
   */
  function RequestedPages(page: int, totalPages: int): seq<int>
    decreases if page < totalPages then totalPages - page else 0
  {
    [page] +
      match GetNextPageParam(FetchPage(EchoResponse(page, totalPages)))
      case Some(next) => RequestedPages(next, totalPages)
      case None => []
  }

  /** The cursor only moves forward: a page's successor is a strictly larger page number. */
  lemma CursorMovesForward(res: ListResponse)
    ensures GetNextPageParam(FetchPage(res)).Some? ==>
              GetNextPageParam(FetchPage(res)).value > res.pagination.page
  {
  }

  /** From `page`, the requests are `page`, `page + 1`, … consecutively, ending at `totalPages` (or at once when past it). */
  lemma {:induction false} RequestedPagesConsecutive(page: int, totalPages: int)
    ensures |RequestedPages(page, totalPages)| == if page < totalPages then totalPages - page + 1 else 1
    ensures forall i :: 0 <= i < |RequestedPages(page, totalPages)| ==> RequestedPages(page, totalPages)[i] == page + i
    decreases if page < totalPages then totalPages - page else 0
  {
    if page < totalPages {
      RequestedPagesConsecutive(page + 1, totalPages);
    }
  }

  /** Starting from the first page, the pages requested are exactly 1, 2, …, max(1, totalPages). */
  lemma RequestedPagesFromFirst(totalPages: int)
    ensures var r := RequestedPages(InitialPageParam, totalPages);
            && |r| == (if totalPages > 1 then totalPages else 1)
            && forall i :: 0 <= i < |r| ==> r[i] == i + 1
  {
    RequestedPagesConsecutive(InitialPageParam, totalPages);
  }
}
