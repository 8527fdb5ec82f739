/**
  The RSS 2.0 rendering of a channel: the fixed template of one `<item>`
  block, the channel header and footer, and the item list rendered newest
  first. Field text is substituted verbatim, without escaping.
 */
module RssXml {

  /** One bookmarked page, as stored in the channel file. */
  datatype Item = Item(title: string, link: string, description: string, date: string, dateUnix: int)

  /** Feed-level metadata, read from the channel file and never changed. */
  datatype Meta = Meta(title: string, description: string, link: string)

  /**
    A format string whose `%s` verbs split it into `parts`, filled with
    `values` in order: `parts[0] + values[0] + parts[1] + ... + parts[n]`.
   */
  function Fill(parts: seq<string>, values: seq<string>): string
    requires |parts| == |values| + 1
    decreases |values|
  {
    if values == [] then parts[0] else parts[0] + values[0] + Fill(parts[1..], values[1..])
  }

  /** The `<item>` template, split at its four `%s` verbs. */
  const ItemTemplate: seq<string> := [
    " <item>\n  <title>",
    "</title>\n  <description>",
    "</description>\n  <link>",
    "</link>\n  <pubDate>",
    "</pubDate>\n </item>\n"
  ]

  /** The channel header template, split at its five `%s` verbs. */
  const HeaderTemplate: seq<string> := [
    "<?xml version=\"1.0\" encoding=\"UTF-8\" ?>\n<rss version=\"2.0\">\n<channel>\n <title>",
    "</title>\n <description>",
    "</description>\n <link>",
    "</link>\n <lastBuildDate>",
    "</lastBuildDate>\n <pubDate>",
    "</pubDate>\n\n"
  ]

  const Footer: string := "</channel>\n</rss>"

  /** The `<item>` block of one item: title, description, link and date. */
  function ItemXml(item: Item): string
  {
    Fill(ItemTemplate, [item.title, item.description, item.link, item.date])
  }

  /** The channel header; the build date fills both lastBuildDate and pubDate. */
  function Header(meta: Meta, date: string): string
  {
    Fill(HeaderTemplate, [meta.title, meta.description, meta.link, date, date])
  }

  /** The item blocks of `items`, the last item first and `items[0]` last. */
  function ItemsXml(items: seq<Item>): string
  {
    if items == [] then "" else ItemsXml(items[1..]) + ItemXml(items[0])
  }

  /** The whole document: header, item blocks newest first, footer. */
  function ChannelXml(meta: Meta, items: seq<Item>, date: string): string
  {
    Header(meta, date) + ItemsXml(items) + Footer
  }

  lemma AppendAssoc(a: string, b: string, c: string)
    ensures a + b + c == a + (b + c)
  {
  }

  /**
    Rendering the suffix from `i` writes the block of `items[i]` after the
    suffix from `i + 1`, whatever text precedes them.
   */
  lemma ItemsXmlFrom(prefix: string, items: seq<Item>, i: nat)
    requires i < |items|
    ensures prefix + ItemsXml(items[i..]) == prefix + ItemsXml(items[i + 1..]) + ItemXml(items[i])
  {
    assert items[i..][1..] == items[i + 1..];
    AppendAssoc(prefix, ItemsXml(items[i + 1..]), ItemXml(items[i]));
  }

  /** Reference reading of the item list: block k renders the k-th newest item. */
  function NewestFirstBlocks(items: seq<Item>): (blocks: seq<string>)
    ensures |blocks| == |items|
  {
    seq(|items|, k requires 0 <= k < |items| => ItemXml(items[|items| - 1 - k]))
  }

  /** Concatenation of a sequence of text blocks, in order. */
  function Concat(blocks: seq<string>): string
  {
    if blocks == [] then "" else blocks[0] + Concat(blocks[1..])
  }

  lemma {:induction false} ConcatSnoc(blocks: seq<string>, last: string)
    ensures Concat(blocks + [last]) == Concat(blocks) + last
  {
    if blocks != [] {
      assert (blocks + [last])[1..] == blocks[1..] + [last];
      ConcatSnoc(blocks[1..], last);
      AppendAssoc(blocks[0], Concat(blocks[1..]), last);
    }
  }

  /** The rendered item list is exactly one block per item, most recently added first. */
  lemma {:induction false} ItemsXmlIsNewestFirst(items: seq<Item>)
    ensures ItemsXml(items) == Concat(NewestFirstBlocks(items))
  {
    if items != [] {
      var rest := items[1..];
      ItemsXmlIsNewestFirst(rest);
      var blocks, restBlocks := NewestFirstBlocks(items), NewestFirstBlocks(rest);
      forall k | 0 <= k < |restBlocks| ensures blocks[k] == restBlocks[k] {
        assert items[|items| - 1 - k] == rest[|rest| - 1 - k];
      }
      assert blocks == restBlocks + [ItemXml(items[0])];
      ConcatSnoc(restBlocks, ItemXml(items[0]));
    }
  }

  /** Appending an item puts its block in front of all earlier blocks. */
  lemma {:induction false} AppendedItemRendersFirst(items: seq<Item>, item: Item)
    ensures ItemsXml(items + [item]) == ItemXml(item) + ItemsXml(items)
  {
    if items != [] {
      assert (items + [item])[1..] == items[1..] + [item];
      AppendedItemRendersFirst(items[1..], item);
      AppendAssoc(ItemXml(item), ItemsXml(items[1..]), ItemXml(items[0]));
    }
  }

  /** A filled template starts with its first part. */
  lemma FillStartsWithFirstPart(parts: seq<string>, values: seq<string>)
    requires |parts| == |values| + 1
    ensures |Fill(parts, values)| >= |parts[0]| && Fill(parts, values)[..|parts[0]|] == parts[0]
  {
    if values != [] {
      AppendAssoc(parts[0], values[0], Fill(parts[1..], values[1..]));
    }
  }

  /** Splitting at a markup character: text free of '<' followed by markup determines both parts. */
  lemma SplitBeforeMarkup(x: string, p: string, y: string, q: string)
    requires '<' !in x && '<' !in y
    requires |p| > 0 && p[0] == '<' && |q| > 0 && q[0] == '<'
    requires x + p == y + q
    ensures x == y && p == q
  {
    assert x == (x + p)[..|x|] == (y + q)[..|y|] == y;
    assert p == (x + p)[|x|..] == (y + q)[|y|..] == q;
  }

  lemma DropCommonPrefix(c: string, p: string, q: string)
    requires c + p == c + q
    ensures p == q
  {
    assert p == (c + p)[|c|..] == (c + q)[|c|..] == q;
  }

  /** Every part after the first opens with markup. */
  ghost predicate MarkupSeparated(parts: seq<string>)
  {
    forall i :: 1 <= i < |parts| ==> |parts[i]| > 0 && parts[i][0] == '<'
  }

  /** No value contains a markup character. */
  ghost predicate Plain(values: seq<string>)
  {
    forall i :: 0 <= i < |values| ==> '<' !in values[i]
  }

  /** With markup-separated parts, plain values are recovered from the filled template. */
  lemma {:induction false} FillDeterminesPlainValues(parts: seq<string>, v: seq<string>, w: seq<string>)
    requires |parts| == |v| + 1 && |parts| == |w| + 1
    requires MarkupSeparated(parts) && Plain(v) && Plain(w)
    requires Fill(parts, v) == Fill(parts, w)
    ensures v == w
  {
    if v != [] {
      var restV, restW := Fill(parts[1..], v[1..]), Fill(parts[1..], w[1..]);
      AppendAssoc(parts[0], v[0], restV);
      AppendAssoc(parts[0], w[0], restW);
      DropCommonPrefix(parts[0], v[0] + restV, w[0] + restW);
      FillStartsWithFirstPart(parts[1..], v[1..]);
      FillStartsWithFirstPart(parts[1..], w[1..]);
      assert restV[0] == parts[1][0] && restW[0] == parts[1][0];
      assert '<' !in v[0] && '<' !in w[0];
      SplitBeforeMarkup(v[0], restV, w[0], restW);
      assert MarkupSeparated(parts[1..]) by {
        forall i | 1 <= i < |parts[1..]| ensures |parts[1..][i]| > 0 && parts[1..][i][0] == '<' {
          assert parts[1..][i] == parts[i + 1];
        }
      }
      assert Plain(v[1..]) && Plain(w[1..]) by {
        forall i | 0 <= i < |v[1..]| ensures '<' !in v[1..][i] && '<' !in w[1..][i] {
          assert v[1..][i] == v[i + 1] && w[1..][i] == w[i + 1];
        }
      }
      FillDeterminesPlainValues(parts[1..], v[1..], w[1..]);
      assert v == [v[0]] + v[1..] && w == [w[0]] + w[1..];
    }
  }

  /** Field text that contains no '<' survives rendering: the block determines the four rendered fields. */
  lemma PlainItemXmlDeterminesFields(a: Item, b: Item)
    requires '<' !in a.title && '<' !in a.description && '<' !in a.link && '<' !in a.date
    requires '<' !in b.title && '<' !in b.description && '<' !in b.link && '<' !in b.date
    requires ItemXml(a) == ItemXml(b)
    ensures a.title == b.title && a.description == b.description
    ensures a.link == b.link && a.date == b.date
  {
    var v, w := [a.title, a.description, a.link, a.date], [b.title, b.description, b.link, b.date];
    assert MarkupSeparated(ItemTemplate) by {
      forall i | 1 <= i < |ItemTemplate| ensures |ItemTemplate[i]| > 0 && ItemTemplate[i][0] == '<' {
        assert i == 1 || i == 2 || i == 3 || i == 4;
      }
    }
    FillDeterminesPlainValues(ItemTemplate, v, w);
    assert v[0] == w[0] && v[1] == w[1] && v[2] == w[2] && v[3] == w[3];
  }

  /** The first two values of a filled template, spelled out. */
  lemma FillTwo(parts: seq<string>, a: string, b: string, rest: seq<string>)
    requires |parts| == |rest| + 3
    ensures Fill(parts, [a, b] + rest) == parts[0] + a + parts[1] + b + Fill(parts[2..], rest)
  {
    var tail := Fill(parts[2..], rest);
    assert ([a, b] + rest)[1..] == [b] + rest;
    assert ([b] + rest)[1..] == rest;
    assert parts[1..][1..] == parts[2..];
    assert Fill(parts[1..], [b] + rest) == parts[1] + b + tail;
    AppendAssoc(parts[0] + a, parts[1] + b, tail);
    AppendAssoc(parts[0] + a, parts[1], b);
  }

  /**
    Without escaping, text inside a value is indistinguishable from the
    template: moving the run `parts[1] + y` from the end of the first value
    to the start of the second fills the template identically.
   */
  lemma FillMovesSeparator(parts: seq<string>, x: string, y: string, z: string, rest: seq<string>)
    requires |parts| == |rest| + 3
    ensures Fill(parts, [x + parts[1] + y, z] + rest) == Fill(parts, [x, y + parts[1] + z] + rest)
  {
    var p0, p1 := parts[0], parts[1];
    FillTwo(parts, x + p1 + y, z, rest);
    FillTwo(parts, x, y + p1 + z, rest);
    AppendAssoc(p0, x + p1, y);
    AppendAssoc(p0, x, p1);
    AppendAssoc(p0 + x + p1, y + p1, z);
    AppendAssoc(p0 + x + p1, y, p1);
  }

  /**
    Without escaping, two different items can render to the same block: a
    title ending in the closing title tag and the opening description tag
    followed by more text reads as a shorter title and a longer description.
   */
  lemma UnescapedFieldsAreAmbiguous(x: string, y: string, z: string, other: Item)
    ensures var a := other.(title := x + ItemTemplate[1] + y, description := z);
            var b := other.(title := x, description := y + ItemTemplate[1] + z);
            a != b && ItemXml(a) == ItemXml(b)
  {
    var sep := ItemTemplate[1];
    var a := other.(title := x + sep + y, description := z);
    var b := other.(title := x, description := y + sep + z);
    assert |a.title| != |b.title|;
    FillMovesSeparator(ItemTemplate, x, y, z, [other.link, other.date]);
    assert [a.title, a.description, a.link, a.date] == [x + sep + y, z] + [other.link, other.date];
    assert [b.title, b.description, b.link, b.date] == [x, y + sep + z] + [other.link, other.date];
  }
}
