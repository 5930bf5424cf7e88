/**
 * Merging a live `new-message` push into the cached, paged message history
 * (the cache updater of hooks/useChatSocket.ts). Page 0 is the newest page;
 * the rendered feed is the pages' messages in page order.
 */
module ChatSocket {
  import opened Wrappers
  import opened ChatTypes
  import opened ChatMessages

  /** The cached history of one chat: its pages and the page numbers they were fetched with. */
  datatype InfiniteData = InfiniteData(pages: seq<Page>, pageParams: seq<int>)

  /** All cached messages, page after page. */
  function Flatten(pages: seq<Page>): seq<Message> {
    if pages == [] then [] else pages[0].messages + Flatten(pages[1..])
  }

  /** Some cached message has the given id. */
  ghost predicate HasId(pages: seq<Page>, id: string) {
    exists i, j :: 0 <= i < |pages| && 0 <= j < |pages[i].messages| && pages[i].messages[j].id == id
  }

  /** No two messages of the feed share an id. */
  ghost predicate UniqueIds(ms: seq<Message>) {
    forall i, j :: 0 <= i < j < |ms| ==> ms[i].id != ms[j].id
  }

  /** `messages.some((m) => m.id === id)`. */
  function SomeMessageHasId(ms: seq<Message>, id: string): (b: bool)
    ensures b <==> exists j :: 0 <= j < |ms| && ms[j].id == id
  {
    if ms == [] then false else ms[0].id == id || SomeMessageHasId(ms[1..], id)
  }

  /** `pages.some((p) => p.messages.some((m) => m.id === id))`. */
  function SomePageHasId(pages: seq<Page>, id: string): (b: bool)
    ensures b <==> HasId(pages, id)
  {
    if pages == [] then false
    else if SomeMessageHasId(pages[0].messages, id) then true
    else
      var rest := SomePageHasId(pages[1..], id);
      assert HasId(pages, id) ==> HasId(pages[1..], id) by {
        if HasId(pages, id) {
          var i, j :| 0 <= i < |pages| && 0 <= j < |pages[i].messages| && pages[i].messages[j].id == id;
          assert i != 0;
          assert pages[1..][i - 1].messages[j].id == id;
        }
      }
      assert HasId(pages[1..], id) ==> HasId(pages, id) by {
        if HasId(pages[1..], id) {
          var i, j :| 0 <= i < |pages[1..]| && 0 <= j < |pages[1..][i].messages| && pages[1..][i].messages[j].id == id;
          assert pages[i + 1].messages[j].id == id;
        }
      }
      rest
  }

  /**
   * The updater applied to the cache for a live message `msg`: no cache stays
   * no cache; a message whose id is already cached leaves the cache as it is;
   * otherwise the mapped message goes to the front of page 0 and nothing else changes.
   */
  function HandleNewMessage(cache: Option<InfiniteData>, msg: ServerMessage): (r: Option<InfiniteData>)
    requires cache.Some? ==> |cache.value.pages| >= 1
    ensures cache.None? ==> r.None?
    ensures cache.Some? && HasId(cache.value.pages, msg.id) ==> r == cache
    ensures cache.Some? && !HasId(cache.value.pages, msg.id) ==>
              && r.Some?
              && r.value.pageParams == cache.value.pageParams
              && |r.value.pages| == |cache.value.pages|
              && r.value.pages[0].messages == [MapServerMessage(msg)] + cache.value.pages[0].messages
              && r.value.pages[0].nextPage == cache.value.pages[0].nextPage
              && r.value.pages[1..] == cache.value.pages[1..]
  {
    match cache
    case None => cache
    case Some(data) =>
      if SomePageHasId(data.pages, msg.id) then cache
      else
        var first := data.pages[0].(messages := [MapServerMessage(msg)] + data.pages[0].messages);
        Some(data.(pages := [first] + data.pages[1..]))
  }

  /** A message id is in the feed exactly when some page holds it. */
  lemma {:induction false} FlattenHasId(pages: seq<Page>, id: string)
    ensures HasId(pages, id) <==> exists k :: 0 <= k < |Flatten(pages)| && Flatten(pages)[k].id == id
  {
    if pages != [] {
      FlattenHasId(pages[1..], id);
      var f := Flatten(pages);
      var ms := pages[0].messages;
      assert f == ms + Flatten(pages[1..]);
      if HasId(pages, id) {
        var i, j :| 0 <= i < |pages| && 0 <= j < |pages[i].messages| && pages[i].messages[j].id == id;
        if i == 0 {
          assert f[j].id == id;
        } else {
          assert pages[1..][i - 1].messages[j].id == id;
          assert HasId(pages[1..], id);
          var k :| 0 <= k < |Flatten(pages[1..])| && Flatten(pages[1..])[k].id == id;
          assert f[|ms| + k].id == id;
        }
      }
      if exists k :: 0 <= k < |f| && f[k].id == id {
        var k :| 0 <= k < |f| && f[k].id == id;
        if k < |ms| {
          assert pages[0].messages[k].id == id;
        } else {
          assert Flatten(pages[1..])[k - |ms|].id == id;
          assert HasId(pages[1..], id);
          var i, j :| 0 <= i < |pages[1..]| && 0 <= j < |pages[1..][i].messages| && pages[1..][i].messages[j].id == id;
          assert pages[i + 1].messages[j].id == id;
        }
      }
    }
  }

  /** The feed after the update is the previous feed, with the mapped message in front exactly when its id was new. */
  lemma NewMessageFeed(cache: InfiniteData, msg: ServerMessage)
    requires |cache.pages| >= 1
    ensures var r := HandleNewMessage(Some(cache), msg).value;
            Flatten(r.pages) == if HasId(cache.pages, msg.id) then Flatten(cache.pages)
                                else [MapServerMessage(msg)] + Flatten(cache.pages)
  {
  }

  /** After the update the message's id is cached, whether or not it was before. */
  lemma NewMessageIsCached(cache: InfiniteData, msg: ServerMessage)
    requires |cache.pages| >= 1
    ensures HasId(HandleNewMessage(Some(cache), msg).value.pages, msg.id)
  {
    var r := HandleNewMessage(Some(cache), msg).value;
    if !HasId(cache.pages, msg.id) {
      assert r.pages[0].messages[0].id == msg.id;
    }
  }

  /** Delivering the same push twice leaves the cache as delivering it once. */
  lemma NewMessageIdempotent(cache: Option<InfiniteData>, msg: ServerMessage)
    requires cache.Some? ==> |cache.value.pages| >= 1
    ensures var once := HandleNewMessage(cache, msg);
            && (once.Some? ==> |once.value.pages| >= 1)
            && HandleNewMessage(once, msg) == once
  {
  }

  /** Ids unique across all pages stay unique, and the feed grows by at most one message. */
  lemma NewMessageKeepsIdsUnique(cache: InfiniteData, msg: ServerMessage)
    requires |cache.pages| >= 1
    requires UniqueIds(Flatten(cache.pages))
    ensures var r := HandleNewMessage(Some(cache), msg).value;
            && UniqueIds(Flatten(r.pages))
            && |Flatten(cache.pages)| <= |Flatten(r.pages)| <= |Flatten(cache.pages)| + 1
  {
    NewMessageFeed(cache, msg);
    var f := Flatten(cache.pages);
    var g := Flatten(HandleNewMessage(Some(cache), msg).value.pages);
    if !HasId(cache.pages, msg.id) {
      FlattenHasId(cache.pages, msg.id);
      assert g == [MapServerMessage(msg)] + f;
      forall i, j | 0 <= i < j < |g| ensures g[i].id != g[j].id {
        if i == 0 {
          assert g[j] == f[j - 1];
        } else {
          assert g[i] == f[i - 1] && g[j] == f[j - 1];
        }
      }
    }
  }
}
