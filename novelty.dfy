/**
 * The novelty filter of the handler: the ids of the parsed documents are looked up in
 * the table, and only the documents whose id the lookup did not return go on.
 */
module Novelty {
  import opened Entries
  import opened Store

  /** The `post_id` of every document, in order. */
  function PostIds(es: seq<Entry>): (ids: seq<string>)
    ensures |ids| == |es|
    ensures forall i :: 0 <= i < |es| ==> ids[i] == es[i].postId
  {
    seq(|es|, i requires 0 <= i < |es| => es[i].postId)
  }

  /** The documents whose id is not a key of `seen`, in their original order. */
  function NewEntries(es: seq<Entry>, seen: map<string, string>): (r: seq<Entry>)
    ensures |r| <= |es|
    ensures forall e :: e in r ==> e in es && e.postId !in seen
    decreases |es|
  {
    if |es| == 0 then []
    else (if es[0].postId in seen then [] else [es[0]]) + NewEntries(es[1..], seen)
  }

  /** `xs` is `ys` with some elements deleted, the others kept in order. */
  ghost predicate IsSubsequence(xs: seq<Entry>, ys: seq<Entry>)
    decreases |ys|
  {
    || xs == []
    || (&& ys != []
        && ((xs[0] == ys[0] && IsSubsequence(xs[1..], ys[1..])) || IsSubsequence(xs, ys[1..])))
  }

  /** A document is new exactly when it is in the feed and its id is not in `seen`. */
  lemma {:induction false} NewEntriesMember(es: seq<Entry>, seen: map<string, string>, e: Entry)
    ensures e in NewEntries(es, seen) <==> e in es && e.postId !in seen
    decreases |es|
  {
    if |es| > 0 {
      NewEntriesMember(es[1..], seen, e);
      assert e in es <==> e == es[0] || e in es[1..];
    }
  }

  /** The new documents are a subsequence of the feed. */
  lemma {:induction false} NewEntriesSubsequence(es: seq<Entry>, seen: map<string, string>)
    ensures IsSubsequence(NewEntries(es, seen), es)
    decreases |es|
  {
    if |es| > 0 {
      var rest := NewEntries(es[1..], seen);
      NewEntriesSubsequence(es[1..], seen);
      if es[0].postId !in seen {
        assert NewEntries(es, seen) == [es[0]] + rest;
        assert NewEntries(es, seen)[1..] == rest;
      } else {
        assert NewEntries(es, seen) == rest;
      }
    }
  }

  /** Filtering a concatenation filters each part, keeping the parts in order. */
  lemma {:induction false} NewEntriesConcat(a: seq<Entry>, b: seq<Entry>, seen: map<string, string>)
    ensures NewEntries(a + b, seen) == NewEntries(a, seen) + NewEntries(b, seen)
    decreases |a|
  {
    if |a| == 0 {
      assert a + b == b;
    } else {
      var head := if a[0].postId in seen then [] else [a[0]];
      var rest := NewEntries(a[1..], seen);
      calc {
        NewEntries(a + b, seen);
      == { assert (a + b)[0] == a[0]; assert (a + b)[1..] == a[1..] + b; }
        head + NewEntries(a[1..] + b, seen);
      == { NewEntriesConcat(a[1..], b, seen); }
        head + (rest + NewEntries(b, seen));
      ==
        (head + rest) + NewEntries(b, seen);
      }
    }
  }

  /** With nothing seen, every document passes through unchanged (cold start). */
  lemma {:induction false} NewEntriesNothingSeen(es: seq<Entry>, seen: map<string, string>)
    requires forall e :: e in es ==> e.postId !in seen
    ensures NewEntries(es, seen) == es
    decreases |es|
  {
    if |es| > 0 {
      assert forall e :: e in es[1..] ==> e in es;
      NewEntriesNothingSeen(es[1..], seen);
    }
  }

  /** With every id seen, nothing is new. */
  lemma {:induction false} NewEntriesAllSeen(es: seq<Entry>, seen: map<string, string>)
    requires forall e :: e in es ==> e.postId in seen
    ensures NewEntries(es, seen) == []
    decreases |es|
  {
    if |es| > 0 {
      assert forall e :: e in es[1..] ==> e in es;
      NewEntriesAllSeen(es[1..], seen);
    }
  }

  /** An empty table lets the whole feed through. */
  lemma ColdStart(es: seq<Entry>)
    ensures NewEntries(es, Lookup(map[], PostIds(es))) == es
  {
    NewEntriesNothingSeen(es, Lookup(map[], PostIds(es)));
  }

  /** A table holding A and B and a feed yielding A, B, C leave only C. */
  lemma OnlyUnseenEntryRemains(a: Entry, b: Entry, c: Entry, items: map<string, Entry>)
    requires a.postId == "A" && b.postId == "B" && c.postId == "C"
    requires items.Keys == {"A", "B"}
    ensures NewEntries([a, b, c], Lookup(items, PostIds([a, b, c]))) == [c]
  {
    assert PostIds([a, b, c]) == ["A", "B", "C"];
    var seen := Lookup(items, PostIds([a, b, c]));
    assert "A" in seen && "B" in seen && "C" !in seen;
    assert [a, b, c][1..] == [b, c];
    assert [b, c][1..] == [c];
    assert [c][1..] == [];
    assert NewEntries([c], seen) == [c];
    assert NewEntries([b, c], seen) == [c];
  }

  /** Every saved id is found again by a later lookup over the batch's ids. */
  lemma SavedIdsAreFound(m: map<string, Entry>, es: seq<Entry>)
    ensures forall e :: e in es ==> e.postId in Lookup(SaveAll(m, es), PostIds(es))
  {
  }

  /** A batch that was saved is filtered out entirely on the next run. */
  lemma SavedEntriesAreNotNew(m: map<string, Entry>, es: seq<Entry>)
    ensures NewEntries(es, Lookup(SaveAll(m, es), PostIds(es))) == []
  {
    SavedIdsAreFound(m, es);
    NewEntriesAllSeen(es, Lookup(SaveAll(m, es), PostIds(es)));
  }
}
