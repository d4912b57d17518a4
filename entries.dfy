/**
 * `parse_feed`: turns the fetched feed into one document per entry. The fetch and the
 * feed parser are not modelled; the feed arrives as its HTTP status and its raw entries.
 */
module Entries {
  import opened Wrappers
  import opened Text
  import opened Summary

  /** The HTTP status `parse_feed` accepts; any other status gives the empty result. */
  const FeedOk: int := 200

  /** An item of an entry's `tags` list: a falsy item, or one whose `term` is read. */
  datatype TagItem = Falsy | Tag(term: string)

  /**
   * A feed entry as the parser yields it. `publishedTime` is the epoch already derived
   * from `published_parsed`; `paragraphs` are the texts of the `p` elements of `summary`.
   * A missing `tags` key is the empty list.
   */
  datatype RawEntry = RawEntry(
    author: string,
    link: string,
    title: string,
    publishedTime: int,
    tags: seq<TagItem>,
    paragraphs: seq<string>)

  /** What the fetch returned: the `status` and the `entries` of the parsed feed. */
  datatype Fetched = Fetched(status: int, entries: seq<RawEntry>)

  /**
   * One document, with the twelve attributes of the stored post. `tags` is absent rather
   * than empty; the three translation fields are absent until the handler sets them.
   */
  datatype Entry = Entry(
    postId: string,
    author: string,
    link: string,
    title: string,
    pTime: int,
    tags: Option<string>,
    summaryShort: string,
    createdAt: string,
    updatedAt: string,
    summaryShortTranslated: Option<string>,
    srcLangCode: Option<string>,
    destLangCode: Option<string>)

  /** The result of `parse_feed`: `{}` on a bad status, or the entries with their count. */
  datatype ParseResult = NoResult | Parsed(entries: seq<Entry>, count: nat)

  /** The `term` of every truthy tag item, in order. */
  function Terms(items: seq<TagItem>): (ts: seq<string>)
    ensures |ts| <= |items|
    ensures forall t :: t in ts <==> Tag(t) in items
    decreases |items|
  {
    if |items| == 0 then []
    else
      var rest := Terms(items[1..]);
      assert forall t :: Tag(t) in items <==> Tag(t) == items[0] || Tag(t) in items[1..];
      if items[0].Tag? then [items[0].term] + rest else rest
  }

  /** The optional `tags` field: the comma-joined terms when that string is non-empty. */
  function TagsField(items: seq<TagItem>): (t: Option<string>)
    ensures t != Some("")
    ensures t.Some? ==> t.value == Join(",", Terms(items))
    ensures t.None? <==> |Terms(items)| == 0 || (|Terms(items)| == 1 && Terms(items)[0] == "")
  {
    var joined := Join(",", Terms(items));
    JoinIsEmpty(",", Terms(items));
    if joined == "" then None else Some(joined)
  }

  /**
   * The document built for one raw entry; `hash` stands for the hex MD5 digest of the
   * link and `createdAt` for the UTC time read while building it.
   */
  function BuildEntry(hash: string -> string, raw: RawEntry, createdAt: string): (e: Entry)
    ensures e.author == raw.author && e.link == raw.link && e.title == raw.title
    ensures e.postId == hash(e.link)
    ensures e.updatedAt == e.createdAt == createdAt
    ensures e.pTime == raw.publishedTime
    ensures e.tags == TagsField(raw.tags) && e.tags != Some("")
    ensures e.summaryShort == GetSummary(raw.paragraphs) && e.summaryShort <= Join(" ", raw.paragraphs)
    ensures e.summaryShortTranslated.None? && e.srcLangCode.None? && e.destLangCode.None?
  {
    Entry(hash(raw.link), raw.author, raw.link, raw.title, raw.publishedTime,
          TagsField(raw.tags), GetSummary(raw.paragraphs), createdAt, createdAt,
          None, None, None)
  }

  /** The documents of a feed, one per raw entry in feed order; `clock(i)` is the i-th time reading. */
  function ParsedEntries(hash: string -> string, clock: nat -> string, raws: seq<RawEntry>): (es: seq<Entry>)
    ensures |es| == |raws|
  {
    seq(|raws|, i requires 0 <= i < |raws| => BuildEntry(hash, raws[i], clock(i)))
  }

  /** Equal links give equal ids, whatever else the entries hold. */
  lemma SameLinkSameId(hash: string -> string, a: RawEntry, b: RawEntry, t: string, u: string)
    requires a.link == b.link
    ensures BuildEntry(hash, a, t).postId == BuildEntry(hash, b, u).postId
  {
  }

  /** A tag list with at least one non-empty term always yields the `tags` field. */
  lemma TagsPresentWithTerm(items: seq<TagItem>, i: nat)
    requires i < |items| && items[i].Tag? && items[i].term != ""
    ensures TagsField(items).Some?
  {
  }

  /** `parse_feed`, entry by entry, as the loop of the source builds the documents. */
  method ParseFeed(feed: Fetched, hash: string -> string, clock: nat -> string) returns (r: ParseResult)
    ensures feed.status != FeedOk <==> r.NoResult?
    ensures r.Parsed? ==> r.count == |r.entries| == |feed.entries|
    ensures r.Parsed? ==> forall i :: 0 <= i < |r.entries| ==>
              r.entries[i] == BuildEntry(hash, feed.entries[i], clock(i))
    ensures r.Parsed? ==> r.entries == ParsedEntries(hash, clock, feed.entries)
  {
    if FeedOk != feed.status {
      return NoResult;
    }
    var entryList: seq<Entry> := [];
    var i := 0;
    while i < |feed.entries|
      invariant 0 <= i <= |feed.entries|
      invariant |entryList| == i
      invariant forall j :: 0 <= j < i ==> entryList[j] == BuildEntry(hash, feed.entries[j], clock(j))
    {
      var entry := feed.entries[i];
      var postId := hash(entry.link);
      var joined := Join(",", Terms(entry.tags));
      var tags := if joined != "" then Some(joined) else None;
      var summaryShort := GetSummary(entry.paragraphs);
      var createdAt := clock(i);
      var doc := Entry(postId, entry.author, entry.link, entry.title, entry.publishedTime,
                       tags, summaryShort, createdAt, createdAt, None, None, None);
      entryList := entryList + [doc];
      i := i + 1;
    }
    r := Parsed(entryList, |entryList|);
  }
}
