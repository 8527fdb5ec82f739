# rss-bookmarks, modelled in Dafny

rss-bookmarks keeps one RSS 2.0 channel per channel file. A bookmark is
added by URL: the server fetches the page, takes its HTML title and
appends an item (title, link, the placeholder description "None" and the
creation date) to the channel. It then persists the channel file and
rebuilds the cached RSS document, where the newest item comes first.
Each channel keeps a link index, and a URL already in the index is
refused before any fetch.

The model has four modules:

- `RssXml` (`rss_xml.dfy`) holds the item and channel records and the two
  renderers. Each is a format string filled by `Fill`, which stands for
  `Sprintf` with `%s` verbs. The lemmas cover:
  - item blocks appear newest first;
  - appending an item puts its block in front;
  - rendering is injective on markup-free fields;
  - without escaping, it is ambiguous.
- `Naming` (`naming.dfy`) derives the channel identifier from the file
  path.
- `ChannelSpec` (`channel_spec.dfy`) holds the channel's behaviour as
  values:
  - errors, and item creation from a fetched page;
  - the mutable state as a `Snapshot`;
  - `AddItemStep` and `AddItemByUrlStep` as transitions of that state;
  - the lemmas about those transitions: the index invariant, consistency
    after success, uniqueness of links, refusal of duplicates, and the
    duplicate a failed write lets through.
- `Channels` (`channel.dfy`) holds the imperative code:
  - the `Channel` class, whose methods update `items`, `xml` and
    `linkSet` in place;
  - the reverse rendering loop;
  - the index-building loop;
  - `LoadRssChannel`.

  Every method's contract ties its new state to the step functions of
  `ChannelSpec`. It also states the effect directly.

External effects enter as parameters:

- Fetching a URL, matching the title and unescaping it become a function
  `fetch: string -> Page`.
- The result of a file write is a `StoreResult`.
- The clock becomes a `now` text and a `Stamp`.
- The parsed channel file is a `Result<Document, string>`.
- Two ghost logs record what the code did to the outside world:
  - `fetched`: the URLs fetched;
  - `writes`: whether the whole file was rewritten or one item appended.

The model keeps the source's behaviour after a failed write exactly as it
is. The item stays in the list, but the cached document and the link
index stay as they were. So the same URL can be added a second time.
`FailedWriteAdmitsDuplicateLink` shows this.

## Model

| member | source | states |
|---|---|---|
| RssXml.FillDeterminesPlainValues | main.go:78-84 | Suppose every literal part after the first starts with '<' and no value contains '<'. Then the filled format string determines the values. |
| RssXml.PlainItemXmlDeterminesFields | main.go:76-85 | When no rendered field contains '<', two items with the same `<item>` block have equal title, description, link and date. |
| RssXml.UnescapedFieldsAreAmbiguous | main.go:76-85 | Fields are not escaped, so two different items render to the same block: one title ends in `</title>` and the `<description>` opening, the other moves that text into the description. |
| RssXml.FillMovesSeparator | main.go:78-84 | Moving the first separator plus text from the end of the first value to the start of the second leaves the filled format string unchanged. |
| RssXml.ItemsXmlIsNewestFirst | main.go:121-124 | The rendered item list is the concatenation of one block per item, starting with the last item and ending with the first. |
| RssXml.AppendedItemRendersFirst | main.go:121-124 | Rendering the list with one item appended puts that item's block in front of all the earlier blocks. |
| Naming.BaseName | main.go:98 | The base name is a suffix of the path, contains no '/', and is either the whole path or preceded by a '/'. |
| Naming.BeforeFirstDot | main.go:98 | The first '.'-separated segment is a prefix with no '.', and it is either the whole text or followed by '.'. |
| Naming.ChannelName | main.go:98 | The channel identifier contains no '/' or '.', and it is the base name cut at its first '.'. |
| Naming.ChannelNameOfFile | main.go:98 | A file `<dir>/<name>.<extension>` is the channel `<name>`, when name has no '/' or '.' and extension has no '/'. |
| ChannelSpec.NewItem | main.go:45-74 | Creation succeeds exactly when the page has a title. The item's link is the URL, its description is "None", and its title and dates come from the page and the clock. An unreachable page yields the fetch error, and a page without a title yields the no-title error. |
| ChannelSpec.RenderedIsConsistent | main.go:99-103 | A document rendered from the items, with the full link index beside it, is a consistent state. |
| ChannelSpec.AddItemKeepsLinksIndexed | main.go:165-180 | Whether or not the write succeeds, every link in the index still belongs to an item after an add. |
| ChannelSpec.AddItemByUrlKeepsLinksIndexed | main.go:182-195 | On every path of add-by-URL (duplicate, fetch failure, write failure, success), every indexed link still belongs to an item. |
| ChannelSpec.AddItemFromConsistent | main.go:165-180 | Starting from a consistent state, a successful add is consistent again. A failed write leaves the document and the index exactly one item behind the list. |
| ChannelSpec.AddItemByUrlKeepsLinksUnique | main.go:182-195 | Starting from a consistent state with unique links, a successful add-by-URL keeps the links unique. |
| ChannelSpec.SecondAddOfUrlIsDuplicate | main.go:182-185 | After a successful add of a URL, adding it again is refused as a duplicate, with no fetch and no write, and the state is unchanged. |
| ChannelSpec.FailedWriteAdmitsDuplicateLink | main.go:165-195 | If the first add of a URL fails to persist, a second add of the same URL is fetched again and accepted. The list then holds two items with that link, so links are no longer unique. |
| ChannelSpec.BookmarkTwoPages | main.go:107-128 | Starting from an empty channel, "Hello" is added and the file rewritten, and repeating its URL is refused. "World" is then appended, the document renders World before Hello, and the index holds both URLs. |
| Channels.IndexLinks | main.go:100-103 | The loop's index is exactly the set of the items' links. |
| Channels.Channel.Unmarshal | main.go:92-97 | A decoded channel has the file's metadata, its items, its path and its identifier, with an empty document and an empty index. |
| Channels.Channel.SerializeXML | main.go:107-128 | The reverse loop builds exactly the header at `now`, then the item blocks newest first, then the footer. |
| Channels.Channel.Store | main.go:130-138 | Logs a rewrite of the whole channel file with the current items and reports the write's failure as a persist error. |
| Channels.Channel.StoreAppend | main.go:140-163 | Logs an append of the one item's block and reports the write's failure as a persist error. |
| Channels.Channel.AddItem | main.go:165-180 | Always appends the item. The whole file is rewritten when it is the only item, otherwise one block is appended. On failure the document and the index are unchanged and the error is returned. On success the document is rebuilt and the link indexed. Keeps the index invariant. |
| Channels.Channel.AddItemByUrl | main.go:182-195 | An indexed URL is refused with no fetch and no write. A page that fails to load or has no title leaves the state unchanged. Otherwise the item has link = URL and description "None" and is added as by AddItem. Keeps the index invariant. |
| Channels.LoadRssChannel | main.go:87-105 | A parse failure is returned as an error. Otherwise the result is a fresh channel with the file's metadata and items and the identifier taken from the path. Its document is rendered from the items, its index is exactly their links, and the state is consistent. |

## Left out

- Reading and writing the channel file, and the YAML encoding: the model
  keeps only the outcome (a `Result` for the parsed file, a `StoreResult`
  per write). It also keeps a log of which writer ran, with what content.
  Whether the appended YAML block keeps the file parseable is not
  modelled.
- Channels.Channel.Store: only the encoding error is reported. The
  source discards the error of the file write itself, so a file write
  that fails still counts as `Stored` in the source. The model's outcome
  parameter stands for the encoding result.
- The HTTP request, the title regular expression and HTML unescaping:
  they are abstracted as the `Page` each URL yields. The optional SOCKS
  proxy is left out with them.
- The clock and RFC 822 date formatting: these are parameters (`now`,
  `Stamp`).
- Naming.BaseName: the edge cases of Go's `path.Base` are not modelled:
  - trailing slashes are not stripped;
  - an empty path gives "" rather than ".";
  - a path of only slashes gives "" rather than "/".
- The read-write mutex: methods run one at a time, as they do under the
  lock.
- The HTTP routes, static assets, start-up directory scan and `main`:
  these are outside the channel core.
