/**
  The channel's behaviour as values: item creation from a fetched page, the
  state the channel keeps (item list, cached document, link index), and the
  two add operations as transitions of that state. The external effects
  (HTTP fetch and title extraction, the two file writers, the clock) enter
  as parameters.
 */
module ChannelSpec {
  import opened RssXml

  datatype Option<T> = None | Some(value: T)

  datatype Result<T, E> = Success(value: T) | Failure(error: E)

  /** The failures a channel operation reports. */
  datatype Error =
    | DuplicateUrl          // the URL is already in the link index
    | Fetch(reason: string) // the HTTP request or the body read failed
    | NoTitle               // the page has no title the extractor recognises
    | Persist(reason: string) // writing the channel file failed
    | Config(reason: string)  // the channel file could not be read or parsed

  /** The text of each error as the operations report it. */
  function Message(e: Error): string
  {
    match e
    case DuplicateUrl => "URL already exists in the channel"
    case NoTitle => "No html title found"
    case Fetch(reason) => reason
    case Persist(reason) => reason
    case Config(reason) => reason
  }

  /**
    What fetching a URL and extracting its unescaped HTML title yields: a
    transport failure, a page without a title match, or the title.
   */
  datatype Page = Unreachable(reason: string) | Untitled | Titled(title: string)

  /** The creation time of an item, as formatted text and as Unix seconds. */
  datatype Stamp = Stamp(date: string, unix: int)

  /** The description every created item gets. */
  const Placeholder: string := "None"

  /** The item created for `url` from what its page yields, stamped with `stamp`. */
  function NewItem(url: string, page: Page, stamp: Stamp): (r: Result<Item, Error>)
    ensures r.Success? <==> page.Titled?
    ensures r.Success? ==> r.value.link == url && r.value.description == Placeholder
                           && r.value.title == page.title
                           && r.value.date == stamp.date && r.value.dateUnix == stamp.unix
    ensures page.Unreachable? ==> r == Failure(Fetch(page.reason))
    ensures page.Untitled? ==> r == Failure(NoTitle)
  {
    match page
    case Unreachable(reason) => Failure(Fetch(reason))
    case Untitled => Failure(NoTitle)
    case Titled(title) => Success(Item(title, url, Placeholder, stamp.date, stamp.unix))
  }

  /** The channel file's content: metadata and items in stored order. */
  datatype Document = Document(meta: Meta, items: seq<Item>)

  /** A call to one of the two file writers. */
  datatype Write =
    | Rewrite(path: string, doc: Document) // the whole file rewritten
    | Append(path: string, item: Item)     // one item block appended

  /** The outcome of a file write, decided by the file system. */
  datatype StoreResult = Stored | StoreFailed(reason: string)

  /** The mutable part of a channel. */
  datatype Snapshot = Snapshot(items: seq<Item>, xml: string, linkSet: set<string>)

  /** The links of `items`. */
  function Links(items: seq<Item>): set<string>
  {
    set i | 0 <= i < |items| :: items[i].link
  }

  lemma LinksSnoc(items: seq<Item>, item: Item)
    ensures Links(items + [item]) == Links(items) + {item.link}
  {
    var all := items + [item];
    assert all[|items|].link == item.link;
    forall u | u in Links(items) ensures u in Links(all) {
      var i :| 0 <= i < |items| && items[i].link == u;
      assert all[i] == items[i];
    }
  }

  /** The invariant the channel keeps on every path: each indexed link belongs to an item. */
  ghost predicate LinksIndexed(s: Snapshot)
  {
    s.linkSet <= Links(s.items)
  }

  /**
    The state after a successful operation: the index is exactly the item
    links and the cached document renders exactly the item list (with some
    build date).
   */
  ghost predicate Consistent(meta: Meta, s: Snapshot)
  {
    s.linkSet == Links(s.items) && exists date :: s.xml == ChannelXml(meta, s.items, date)
  }

  /** A freshly rendered state with a complete index is consistent. */
  lemma RenderedIsConsistent(meta: Meta, items: seq<Item>, date: string)
    ensures var s := Snapshot(items, ChannelXml(meta, items, date), Links(items));
            Consistent(meta, s) && LinksIndexed(s)
  {
    var s := Snapshot(items, ChannelXml(meta, items, date), Links(items));
    assert s.xml == ChannelXml(meta, s.items, date);
  }

  /** Each link occurs at most once in `items`. */
  predicate UniqueLinks(items: seq<Item>)
  {
    forall i, j :: 0 <= i < j < |items| ==> items[i].link != items[j].link
  }

  /** What adding an item does: the new state, the write it attempted, and the error if any. */
  datatype Added = Added(next: Snapshot, write: Write, err: Option<Error>)

  /**
    Adding `item` to the channel at `path`: the item is appended first; the
    whole file is rewritten when it is the only item and one block is
    appended otherwise; on a failed write the document and the index stay
    as they were, on success the document is rebuilt at `now` and the link
    indexed.
   */
  function AddItemStep(path: string, meta: Meta, s: Snapshot, item: Item, store: StoreResult, now: string): Added
  {
    var items := s.items + [item];
    var write := if |items| == 1 then Rewrite(path, Document(meta, items)) else Append(path, item);
    match store
    case StoreFailed(reason) => Added(s.(items := items), write, Some(Persist(reason)))
    case Stored => Added(Snapshot(items, ChannelXml(meta, items, now), s.linkSet + {item.link}), write, None)
  }

  /** What adding by URL does: the new state, whether the URL was fetched, the write attempted, and the outcome. */
  datatype AddedByUrl = AddedByUrl(next: Snapshot, fetched: bool, write: Option<Write>, result: Result<Item, Error>)

  /**
    Adding the page at `url`: refused before any fetch when the link is
    indexed; otherwise the item is created from `fetch(url)` and, if that
    succeeds, added as by `AddItemStep`.
   */
  function AddItemByUrlStep(path: string, meta: Meta, s: Snapshot, url: string, fetch: string -> Page,
                            stamp: Stamp, store: StoreResult, now: string): AddedByUrl
  {
    if url in s.linkSet then AddedByUrl(s, false, None, Failure(DuplicateUrl))
    else match NewItem(url, fetch(url), stamp)
      case Failure(e) => AddedByUrl(s, true, None, Failure(e))
      case Success(item) =>
        var a := AddItemStep(path, meta, s, item, store, now);
        AddedByUrl(a.next, true, Some(a.write), if a.err.Some? then Failure(a.err.value) else Success(item))
  }

  /** Adding an item keeps every indexed link backed by an item, whether or not the write succeeds. */
  lemma AddItemKeepsLinksIndexed(path: string, meta: Meta, s: Snapshot, item: Item, store: StoreResult, now: string)
    requires LinksIndexed(s)
    ensures LinksIndexed(AddItemStep(path, meta, s, item, store, now).next)
  {
    LinksSnoc(s.items, item);
  }

  /** Adding by URL keeps every indexed link backed by an item, on every path. */
  lemma AddItemByUrlKeepsLinksIndexed(path: string, meta: Meta, s: Snapshot, url: string, fetch: string -> Page,
                                      stamp: Stamp, store: StoreResult, now: string)
    requires LinksIndexed(s)
    ensures LinksIndexed(AddItemByUrlStep(path, meta, s, url, fetch, stamp, store, now).next)
  {
    var created := NewItem(url, fetch(url), stamp);
    if url !in s.linkSet && created.Success? {
      AddItemKeepsLinksIndexed(path, meta, s, created.value, store, now);
    }
  }

  /**
    From a consistent state, a successful add is consistent again, and a
    failed write leaves the document and the index exactly one item behind.
   */
  lemma AddItemFromConsistent(path: string, meta: Meta, s: Snapshot, item: Item, store: StoreResult, now: string)
    requires Consistent(meta, s)
    ensures var a := AddItemStep(path, meta, s, item, store, now);
            && (store.Stored? ==> Consistent(meta, a.next))
            && (store.StoreFailed? ==> |a.next.items| == |s.items| + 1
                                       && Consistent(meta, a.next.(items := a.next.items[..|s.items|])))
  {
    var a := AddItemStep(path, meta, s, item, store, now);
    LinksSnoc(s.items, item);
    if store.Stored? {
      assert a.next.xml == ChannelXml(meta, a.next.items, now);
    } else {
      assert a.next.items[..|s.items|] == s.items;
    }
  }

  /**
    A successful add by URL from a consistent state with unique links keeps
    the links unique: the index check is what rules out a second copy.
   */
  lemma AddItemByUrlKeepsLinksUnique(path: string, meta: Meta, s: Snapshot, url: string, fetch: string -> Page,
                                     stamp: Stamp, store: StoreResult, now: string)
    requires Consistent(meta, s) && UniqueLinks(s.items)
    requires AddItemByUrlStep(path, meta, s, url, fetch, stamp, store, now).result.Success?
    ensures UniqueLinks(AddItemByUrlStep(path, meta, s, url, fetch, stamp, store, now).next.items)
  {
    var items := AddItemByUrlStep(path, meta, s, url, fetch, stamp, store, now).next.items;
    assert items == s.items + [NewItem(url, fetch(url), stamp).value];
    forall i | 0 <= i < |s.items| ensures items[i].link != url {
      assert s.items[i].link in Links(s.items);
    }
  }

  /**
    Adding a URL a second time right after it was added is refused without
    a fetch and leaves the state as the first call left it.
   */
  lemma SecondAddOfUrlIsDuplicate(path: string, meta: Meta, s: Snapshot, url: string, fetch: string -> Page,
                                  stamp: Stamp, store: StoreResult, now: string,
                                  stamp': Stamp, store': StoreResult, now': string)
    requires AddItemByUrlStep(path, meta, s, url, fetch, stamp, store, now).result.Success?
    ensures var first := AddItemByUrlStep(path, meta, s, url, fetch, stamp, store, now);
            var second := AddItemByUrlStep(path, meta, first.next, url, fetch, stamp', store', now');
            second == AddedByUrl(first.next, false, None, Failure(DuplicateUrl))
  {
    var first := AddItemByUrlStep(path, meta, s, url, fetch, stamp, store, now);
    assert url in first.next.linkSet;
  }

  /**
    The stale index after a failed write lets the same URL in twice: when
    the first add of `url` fails to persist, a later add of `url` is not
    refused, and once it persists the item list holds two items with link
    `url`.
   */
  lemma FailedWriteAdmitsDuplicateLink(path: string, meta: Meta, s: Snapshot, url: string, fetch: string -> Page,
                                       stamp: Stamp, reason: string, now: string,
                                       stamp': Stamp, now': string)
    requires url !in s.linkSet && fetch(url).Titled?
    ensures var first := AddItemByUrlStep(path, meta, s, url, fetch, stamp, StoreFailed(reason), now);
            var second := AddItemByUrlStep(path, meta, first.next, url, fetch, stamp', Stored, now');
            && first.result == Failure(Persist(reason))
            && second.fetched && second.result.Success?
            && |second.next.items| == |s.items| + 2
            && second.next.items[|s.items|].link == url
            && second.next.items[|s.items| + 1].link == url
            && !UniqueLinks(second.next.items)
  {
    var first := AddItemByUrlStep(path, meta, s, url, fetch, stamp, StoreFailed(reason), now);
    assert first.next.linkSet == s.linkSet;
    var second := AddItemByUrlStep(path, meta, first.next, url, fetch, stamp', Stored, now');
    var items := second.next.items;
    assert items[|s.items|].link == items[|s.items| + 1].link;
  }

  /**
    Bookmarking two pages into an empty channel: the first add rewrites the
    file and renders one block, repeating its URL is refused, and the second
    page is appended and rendered before the first.
   */
  lemma BookmarkTwoPages(path: string, meta: Meta, xml: string, a: string, b: string, fetch: string -> Page,
                         stamp1: Stamp, stamp2: Stamp, stamp3: Stamp, now1: string, now2: string, now3: string)
    requires a != b && fetch(a) == Titled("Hello") && fetch(b) == Titled("World")
    ensures var hello := Item("Hello", a, Placeholder, stamp1.date, stamp1.unix);
            var world := Item("World", b, Placeholder, stamp3.date, stamp3.unix);
            var first := AddItemByUrlStep(path, meta, Snapshot([], xml, {}), a, fetch, stamp1, Stored, now1);
            var second := AddItemByUrlStep(path, meta, first.next, a, fetch, stamp2, Stored, now2);
            var third := AddItemByUrlStep(path, meta, second.next, b, fetch, stamp3, Stored, now3);
            && first.result == Success(hello) && first.write == Some(Rewrite(path, Document(meta, [hello])))
            && first.next == Snapshot([hello], Header(meta, now1) + ItemXml(hello) + Footer, {a})
            && second.result == Failure(DuplicateUrl) && !second.fetched && second.next == first.next
            && third.result == Success(world) && third.write == Some(Append(path, world))
            && third.next == Snapshot([hello, world], Header(meta, now3) + (ItemXml(world) + ItemXml(hello)) + Footer, {a, b})
  {
    var hello := Item("Hello", a, Placeholder, stamp1.date, stamp1.unix);
    var world := Item("World", b, Placeholder, stamp3.date, stamp3.unix);
    assert ItemsXml([hello]) == ItemXml(hello) by {
      assert [hello][1..] == [];
    }
    assert [] + [hello] == [hello];
    AppendedItemRendersFirst([hello], world);
    assert [hello] + [world] == [hello, world];
  }
}
