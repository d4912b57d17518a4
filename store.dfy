/**
 * The post table (`BlogPost`, keyed by `post_id`) and the two functions of the handler
 * that talk to it: `get_feeds_translated` and `save_feed_translated`. The table is a map
 * from id to stored document; batching, unprocessed keys and network failure are not
 * modelled.
 */
module Store {
  import opened Entries

  /** The storage table, one post per id. */
  class PostTable {
    var items: map<string, Entry>
    /** Number of `batch_write` sessions opened; a session's requests go out when it commits. */
    var batchWrites: nat

    /** Every post is stored under its own id. */
    ghost predicate Valid()
      reads this
    {
      forall k :: k in items ==> items[k].postId == k
    }

    constructor ()
      ensures Valid() && items == map[] && batchWrites == 0
    {
      items := map[];
      batchWrites := 0;
    }

    /** Opens a `batch_write()` session. */
    method OpenBatch()
      modifies this`batchWrites
      ensures batchWrites == old(batchWrites) + 1
    {
      batchWrites := batchWrites + 1;
    }

    /** `batch.save(item)`: put the post under its id, replacing any post already there. */
    method Save(e: Entry)
      requires Valid()
      modifies this`items
      ensures Valid()
      ensures items == old(items)[e.postId := e]
    {
      items := items[e.postId := e];
    }
  }

  /** The set of ids of a batch of documents. */
  function IdSet(es: seq<Entry>): (ids: set<string>)
    ensures forall e :: e in es ==> e.postId in ids
    ensures forall k :: k in ids ==> exists e :: e in es && e.postId == k
  {
    set e | e in es :: e.postId
  }

  /** The table after saving the documents one after the other (last writer wins). */
  function SaveAll(m: map<string, Entry>, es: seq<Entry>): (r: map<string, Entry>)
    ensures m.Keys <= r.Keys
    ensures forall e :: e in es ==> e.postId in r
    decreases |es|
  {
    if |es| == 0 then m
    else
      var last := es[|es| - 1];
      SaveAll(m, es[..|es| - 1])[last.postId := last]
  }

  /** What `get_feeds_translated` returns: `createdAt` of every requested id the table holds. */
  function Lookup(items: map<string, Entry>, ids: seq<string>): (found: map<string, string>)
    ensures forall k :: k in found <==> k in items && k in ids
    ensures forall k :: k in found ==> found[k] == items[k].createdAt
  {
    map k | k in items && k in ids :: items[k].createdAt
  }

  /** Saving keeps every post under its own id. */
  lemma {:induction false} SaveAllValid(m: map<string, Entry>, es: seq<Entry>)
    requires forall k :: k in m ==> m[k].postId == k
    ensures forall k :: k in SaveAll(m, es) ==> SaveAll(m, es)[k].postId == k
    decreases |es|
  {
    if |es| > 0 {
      SaveAllValid(m, es[..|es| - 1]);
    }
  }

  /** After saving, the table holds exactly the old ids and the batch's ids. */
  lemma {:induction false} SaveAllKeys(m: map<string, Entry>, es: seq<Entry>)
    ensures SaveAll(m, es).Keys == m.Keys + IdSet(es)
    decreases |es|
  {
    if |es| > 0 {
      var init := es[..|es| - 1];
      SaveAllKeys(m, init);
      assert es == init + [es[|es| - 1]];
      assert forall e :: e in es <==> e in init || e == es[|es| - 1];
      assert IdSet(es) == IdSet(init) + {es[|es| - 1].postId};
    }
  }

  /** Ids outside the batch keep what they held. */
  lemma {:induction false} SaveAllUntouched(m: map<string, Entry>, es: seq<Entry>, k: string)
    requires k !in IdSet(es)
    ensures k in SaveAll(m, es) <==> k in m
    ensures k in m ==> SaveAll(m, es)[k] == m[k]
    decreases |es|
  {
    if |es| > 0 {
      var init := es[..|es| - 1];
      assert forall e :: e in init ==> e in es;
      SaveAllUntouched(m, init, k);
    }
  }

  /** For an id of the batch, the stored post is the last one in the batch with that id. */
  lemma {:induction false} SaveAllLastWriterWins(m: map<string, Entry>, es: seq<Entry>, i: nat)
    requires i < |es|
    requires forall j :: i < j < |es| ==> es[j].postId != es[i].postId
    ensures es[i].postId in SaveAll(m, es) && SaveAll(m, es)[es[i].postId] == es[i]
    decreases |es|
  {
    if i < |es| - 1 {
      SaveAllLastWriterWins(m, es[..|es| - 1], i);
    }
  }

  /** For an id of the batch, what is stored does not depend on the table saved into. */
  lemma {:induction false} SaveAllBatchKeysIndependent(m: map<string, Entry>, n: map<string, Entry>, es: seq<Entry>, k: string)
    requires k in IdSet(es)
    ensures k in SaveAll(m, es) && k in SaveAll(n, es) && SaveAll(m, es)[k] == SaveAll(n, es)[k]
    decreases |es|
  {
    var last := es[|es| - 1];
    if last.postId != k {
      var init := es[..|es| - 1];
      var e :| e in es && e.postId == k;
      assert es == init + [last];
      assert e in init;
      SaveAllBatchKeysIndependent(m, n, init, k);
    }
  }

  /** Saving the same batch twice leaves the table as saving it once. */
  lemma SaveAllIdempotent(m: map<string, Entry>, es: seq<Entry>)
    ensures SaveAll(SaveAll(m, es), es) == SaveAll(m, es)
  {
    var once := SaveAll(m, es);
    var twice := SaveAll(once, es);
    SaveAllKeys(m, es);
    SaveAllKeys(once, es);
    forall k | k in twice
      ensures k in once && twice[k] == once[k]
    {
      if k in IdSet(es) {
        SaveAllBatchKeysIndependent(once, m, es, k);
      } else {
        SaveAllUntouched(once, es, k);
      }
    }
  }

  /** `get_feeds_translated`: ask the table for the ids and collect the posts it holds. */
  method GetFeedsTranslated(table: PostTable, feedIds: seq<string>) returns (feedsTranslated: map<string, string>)
    requires table.Valid()
    ensures feedsTranslated == Lookup(table.items, feedIds)
  {
    feedsTranslated := map[];
    var i := 0;
    while i < |feedIds|
      invariant 0 <= i <= |feedIds|
      invariant feedsTranslated == Lookup(table.items, feedIds[..i])
    {
      var id := feedIds[i];
      assert feedIds[..i + 1] == feedIds[..i] + [id];
      if id in table.items {
        var item := table.items[id];
        feedsTranslated := feedsTranslated[item.postId := item.createdAt];
      }
      i := i + 1;
    }
    assert feedIds[..i] == feedIds;
  }

  /**
   * `save_feed_translated`: nothing at all for an empty batch; otherwise one batch-write
   * session in which every document is saved in order.
   */
  method SaveFeedTranslated(table: PostTable, feedEntries: seq<Entry>)
    requires table.Valid()
    modifies table
    ensures table.Valid()
    ensures table.items == SaveAll(old(table.items), feedEntries)
    ensures table.batchWrites == old(table.batchWrites) + (if |feedEntries| == 0 then 0 else 1)
  {
    if |feedEntries| == 0 {
      return;
    }
    table.OpenBatch();
    var i := 0;
    while i < |feedEntries|
      invariant 0 <= i <= |feedEntries|
      invariant table.Valid()
      invariant table.items == SaveAll(old(table.items), feedEntries[..i])
      invariant table.batchWrites == old(table.batchWrites) + 1
    {
      assert feedEntries[..i + 1][..i] == feedEntries[..i];
      table.Save(feedEntries[i]);
      i := i + 1;
    }
    assert feedEntries[..i] == feedEntries;
  }
}
