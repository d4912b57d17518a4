/** `get_summary`: the plain-text excerpt taken from the leading paragraphs of an entry's body. */
module Summary {
  import opened Text

  /** Number of leading paragraphs kept when no limit is given. */
  const DefaultLimit: nat := 2

  /** Python's `paragraphs[:limit]` for a non-negative limit. */
  function Leading(paragraphs: seq<string>, limit: nat): (r: seq<string>)
    ensures |r| == if limit <= |paragraphs| then limit else |paragraphs|
    ensures r <= paragraphs
    ensures |paragraphs| <= limit ==> r == paragraphs
  {
    if limit <= |paragraphs| then paragraphs[..limit] else paragraphs
  }

  /**
   * The texts of the first `limit` paragraphs joined by single spaces. The HTML
   * parse is not modelled: `paragraphs` holds the text of each `p` element in order.
   */
  function GetSummary(paragraphs: seq<string>, limit: nat := DefaultLimit): (s: string)
    ensures s <= Join(" ", paragraphs)
    ensures |paragraphs| <= limit ==> s == Join(" ", paragraphs)
  {
    var kept := Leading(paragraphs, limit);
    JoinPrefix(" ", paragraphs, |kept|);
    assert paragraphs[..|kept|] == kept;
    Join(" ", kept)
  }

  /** Five (or any number of at least two) paragraphs under the default limit give the first two joined. */
  lemma SummaryOfLongBody(paragraphs: seq<string>)
    requires |paragraphs| >= 2
    ensures GetSummary(paragraphs) == paragraphs[0] + " " + paragraphs[1]
  {
    var kept := Leading(paragraphs, DefaultLimit);
    assert kept == [paragraphs[0], paragraphs[1]];
    assert kept[1..] == [paragraphs[1]];
    assert Join(" ", kept) == paragraphs[0] + " " + Join(" ", [paragraphs[1]]);
    assert GetSummary(paragraphs) == Join(" ", kept);
  }

  /** A body without paragraphs gives the empty summary, not an error. */
  lemma SummaryOfEmptyBody(limit: nat)
    ensures GetSummary([], limit) == ""
  {
  }

  /** The summary depends only on the first `limit` paragraphs. */
  lemma SummaryIgnoresLaterParagraphs(paragraphs: seq<string>, later: seq<string>, limit: nat)
    requires limit <= |paragraphs|
    ensures GetSummary(paragraphs + later, limit) == GetSummary(paragraphs, limit)
  {
    assert (paragraphs + later)[..limit] == paragraphs[..limit];
  }

  /** The summary is as long as its kept paragraphs plus one space between each two. */
  lemma SummaryLength(paragraphs: seq<string>, limit: nat)
    requires limit > 0 && |paragraphs| > 0
    ensures |GetSummary(paragraphs, limit)| ==
            TotalLength(Leading(paragraphs, limit)) + |Leading(paragraphs, limit)| - 1
  {
    JoinLength(" ", Leading(paragraphs, limit));
  }
}
