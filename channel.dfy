/**
  The in-memory channel: a loaded channel file whose item list grows by
  `AddItem` and `AddItemByUrl`, with its link index and its cached RSS
  document updated in place. Locking is left out: the methods run one at a
  time, as they do under the channel's mutex.
 */
module Channels {
  import opened RssXml
  import opened ChannelSpec
  import opened Naming

  /** The link index of `items`, built one item at a time. */
  method IndexLinks(items: seq<Item>) returns (linkSet: set<string>)
    ensures linkSet == Links(items)
  {
    linkSet := {};
    for i := 0 to |items|
      invariant linkSet == Links(items[..i])
    {
      LinksSnoc(items[..i], items[i]);
      assert items[..i + 1] == items[..i] + [items[i]];
      linkSet := linkSet + {items[i].link};
    }
    assert items[..|items|] == items;
  }

  class Channel {
    const title: string
    const description: string
    const link: string
    /** The channel file this channel was loaded from and is written to. */
    const cfgFile: string
    /** The identifier under which the channel is served. */
    const name: string

    var items: seq<Item>
    /** The cached RSS document served for this channel. */
    var xml: string
    /** The links already in the channel, checked before any fetch. */
    var linkSet: set<string>

    /** The URLs fetched so far, in order. */
    ghost var fetched: seq<string>
    /** The file writes attempted so far, in order. */
    ghost var writes: seq<Write>

    function Meta(): Meta
    {
      RssXml.Meta(title, description, link)
    }

    function State(): Snapshot
      reads this
    {
      Snapshot(items, xml, linkSet)
    }

    ghost predicate Valid()
      reads this
    {
      LinksIndexed(State())
    }

    /**
      A channel read from `cfgFile` under the identifier `name`: the parsed
      fields are set, the document and the index are still empty.
     */
    constructor Unmarshal(cfgFile: string, name: string, doc: Document)
      ensures this.cfgFile == cfgFile && this.name == name
      ensures Meta() == doc.meta && items == doc.items
      ensures xml == [] && linkSet == {} && fetched == [] && writes == []
    {
      title, description, link := doc.meta.title, doc.meta.description, doc.meta.link;
      this.cfgFile := cfgFile;
      this.name := name;
      items := doc.items;
      xml, linkSet := [], {};
      fetched, writes := [], [];
    }

    /** The RSS document for the current items, built at `now`: header, items newest first, footer. */
    method SerializeXML(now: string) returns (doc: string)
      ensures doc == ChannelXml(Meta(), items, now)
    {
      var meta, all := Meta(), items;
      doc := Header(meta, now);
      var i := |all| - 1;
      while i >= 0
        invariant -1 <= i < |all|
        invariant doc == Header(meta, now) + ItemsXml(all[i + 1..])
      {
        ItemsXmlFrom(Header(meta, now), all, i);
        doc := doc + ItemXml(all[i]);
        i := i - 1;
      }
      assert all[0..] == all;
      doc := doc + Footer;
    }

    /** Rewrites the whole channel file; only the outcome of encoding is observable. */
    method Store(outcome: StoreResult) returns (err: Option<Error>)
      modifies this`writes
      ensures writes == old(writes) + [Rewrite(cfgFile, Document(Meta(), items))]
      ensures err == if outcome.Stored? then None else Some(Persist(outcome.reason))
    {
      writes := writes + [Rewrite(cfgFile, Document(Meta(), items))];
      err := if outcome.Stored? then None else Some(Persist(outcome.reason));
    }

    /** Appends the block of `item` to the channel file. */
    method StoreAppend(item: Item, outcome: StoreResult) returns (err: Option<Error>)
      modifies this`writes
      ensures writes == old(writes) + [Append(cfgFile, item)]
      ensures err == if outcome.Stored? then None else Some(Persist(outcome.reason))
    {
      writes := writes + [Append(cfgFile, item)];
      err := if outcome.Stored? then None else Some(Persist(outcome.reason));
    }

    /**
      Appends `item` and persists it, the file writer reporting `outcome`.
      The item is appended even when the write fails; the document and the
      index are only brought up to date when it succeeds.
     */
    method AddItem(item: Item, outcome: StoreResult, now: string) returns (err: Option<Error>)
      requires Valid()
      modifies this
      ensures Valid()
      ensures var a := AddItemStep(cfgFile, Meta(), old(State()), item, outcome, now);
              State() == a.next && err == a.err && writes == old(writes) + [a.write]
      ensures items == old(items) + [item]
      ensures writes == old(writes) + [if |items| == 1 then Rewrite(cfgFile, Document(Meta(), items))
                                       else Append(cfgFile, item)]
      ensures err.Some? <==> outcome.StoreFailed?
      ensures outcome.StoreFailed? ==> xml == old(xml) && linkSet == old(linkSet)
      ensures outcome.Stored? ==> xml == ChannelXml(Meta(), items, now) && linkSet == old(linkSet) + {item.link}
      ensures fetched == old(fetched)
    {
      AddItemKeepsLinksIndexed(cfgFile, Meta(), State(), item, outcome, now);
      items := items + [item];
      if |items| == 1 {
        err := Store(outcome);
      } else {
        err := StoreAppend(item, outcome);
      }
      if err.Some? {
        return;
      }
      xml := SerializeXML(now);
      linkSet := linkSet + {item.link};
    }

    /**
      Adds the page at `url`, where `fetch` says what fetching a URL and
      extracting its title yields, `stamp` is the creation time and
      `outcome` what the file writer reports.
     */
    method AddItemByUrl(url: string, fetch: string -> Page, stamp: Stamp, outcome: StoreResult, now: string)
      returns (r: Result<Item, Error>)
      requires Valid()
      modifies this
      ensures Valid()
      ensures var a := AddItemByUrlStep(cfgFile, Meta(), old(State()), url, fetch, stamp, outcome, now);
              && State() == a.next && r == a.result
              && fetched == old(fetched) + (if a.fetched then [url] else [])
              && writes == old(writes) + (if a.write.Some? then [a.write.value] else [])
      ensures url in old(linkSet) ==> r == Failure(DuplicateUrl) && State() == old(State())
                                      && fetched == old(fetched) && writes == old(writes)
      ensures url !in old(linkSet) && !fetch(url).Titled? ==>
                r == NewItem(url, fetch(url), stamp) && State() == old(State()) && writes == old(writes)
      ensures r.Success? ==> r.value.link == url && r.value.description == Placeholder
                             && items == old(items) + [r.value]
    {
      if url in linkSet {
        return Failure(DuplicateUrl);
      }
      fetched := fetched + [url];
      var created := NewItem(url, fetch(url), stamp);
      if created.Failure? {
        return Failure(created.error);
      }
      var err := AddItem(created.value, outcome, now);
      if err.Some? {
        return Failure(err.value);
      }
      return Success(created.value);
    }
  }

  /**
    Loads the channel stored at `cfgFile`, where `parsed` is the parsed
    file or the reason reading or parsing it failed; the document is
    rendered at `now`.
   */
  method LoadRssChannel(cfgFile: string, parsed: Result<Document, string>, now: string)
    returns (r: Result<Channel, Error>)
    ensures parsed.Failure? ==> r == Failure(Config(parsed.error))
    ensures parsed.Success? ==> r.Success? && fresh(r.value) && r.value.Valid()
    ensures r.Success? ==> && r.value.cfgFile == cfgFile && r.value.name == ChannelName(cfgFile)
                           && r.value.Meta() == parsed.value.meta && r.value.items == parsed.value.items
                           && r.value.xml == ChannelXml(r.value.Meta(), r.value.items, now)
                           && r.value.linkSet == Links(r.value.items)
                           && Consistent(r.value.Meta(), r.value.State())
                           && r.value.fetched == [] && r.value.writes == []
  {
    if parsed.Failure? {
      return Failure(Config(parsed.error));
    }
    var channel := new Channel.Unmarshal(cfgFile, ChannelName(cfgFile), parsed.value);
    channel.xml := channel.SerializeXML(now);
    channel.linkSet := IndexLinks(channel.items);
    RenderedIsConsistent(channel.Meta(), channel.items, now);
    return Success(channel);
  }
}
