/**
 * `lambda_handler`: fetch, look up the ids already stored, keep the new documents, stop
 * when there are none, translate each new summary, and save the translated batch.
 */
module Handler {
  import opened Wrappers
  import opened Summary
  import opened Entries
  import opened Store
  import opened Novelty
  import opened Translation

  /** The configuration the handler reads from the environment. */
  datatype Config = Config(region: string, srcLang: string, destLang: string)

  /**
   * How a run ends: it returns when nothing is new or after saving, or it raises
   * `KeyError` when it indexes a key that a result does not have.
   */
  datatype Outcome = NothingNew | Saved(count: nat) | KeyError(key: string)

  /** The documents of the feed that the table did not yet hold (lines 131 to 134). */
  function FreshEntries(feed: Fetched, hash: string -> string, clock: nat -> string,
                        items: map<string, Entry>): (novel: seq<Entry>)
    ensures |novel| <= |feed.entries|
    ensures forall e :: e in novel ==> e.postId !in items
  {
    var parsed := ParsedEntries(hash, clock, feed.entries);
    NewEntries(parsed, Lookup(items, PostIds(parsed)))
  }

  /** `elem.update(...)` with the text and the codes of a successful translation. */
  function WithTranslation(e: Entry, r: TranslateResult): (t: Entry)
    requires r.Translated?
    ensures t.summaryShortTranslated == Some(r.text)
    ensures t.srcLangCode == Some(r.src) && t.destLangCode == Some(r.dest)
    ensures t.(summaryShortTranslated := e.summaryShortTranslated, srcLangCode := e.srcLangCode,
               destLangCode := e.destLangCode) == e
  {
    e.(summaryShortTranslated := Some(r.text), srcLangCode := Some(r.src), destLangCode := Some(r.dest))
  }

  /** Every document's summary translates successfully with the configured codes. */
  predicate AllTranslated(client: TranslateClient, es: seq<Entry>, cfg: Config)
  {
    forall i :: 0 <= i < |es| ==> Translate(client, es[i].summaryShort, cfg.srcLang, cfg.destLang).Translated?
  }

  /**
   * `sent` is the run's request log when translation stopped at its first failure: the
   * summaries up to and including the first document whose translation failed.
   */
  predicate StoppedAtFirstFailure(client: TranslateClient, es: seq<Entry>, cfg: Config, sent: seq<string>)
  {
    && 0 < |sent| <= |es|
    && sent == SummaryTexts(es)[..|sent|]
    && AllTranslated(client, es[..|sent| - 1], cfg)
    && Translate(client, es[|sent| - 1].summaryShort, cfg.srcLang, cfg.destLang).Failed?
  }

  /** The batch the handler saves once every translation succeeded. */
  function TranslatedBatch(client: TranslateClient, es: seq<Entry>, cfg: Config): (batch: seq<Entry>)
    requires AllTranslated(client, es, cfg)
    ensures |batch| == |es| && PostIds(batch) == PostIds(es)
    ensures forall i :: 0 <= i < |batch| ==>
              && batch[i].summaryShortTranslated ==
                 Some(Translate(client, es[i].summaryShort, cfg.srcLang, cfg.destLang).text)
              && batch[i].srcLangCode == Some(cfg.srcLang)
              && batch[i].destLangCode == Some(cfg.destLang)
              && batch[i].(summaryShortTranslated := None, srcLangCode := None, destLangCode := None)
                 == es[i].(summaryShortTranslated := None, srcLangCode := None, destLangCode := None)
  {
    seq(|es|, i requires 0 <= i < |es| =>
      WithTranslation(es[i], Translate(client, es[i].summaryShort, cfg.srcLang, cfg.destLang)))
  }

  /** The summaries of the documents, in order: the texts a run sends for translation. */
  function SummaryTexts(es: seq<Entry>): (texts: seq<string>)
    ensures |texts| == |es|
    ensures forall i :: 0 <= i < |es| ==> texts[i] == es[i].summaryShort
  {
    seq(|es|, i requires 0 <= i < |es| => es[i].summaryShort)
  }

  /**
   * The loop of the handler that translates each new summary and updates its document.
   * `ok` is false when some translation failed: the handler raises at the first such
   * document, and `batch` is then of no use. `sent` records the texts sent to the
   * service, one request per document up to and including the first failure.
   */
  method TranslateNewEntries(translator: TranslateClient, entries: seq<Entry>, cfg: Config)
    returns (ok: bool, batch: seq<Entry>, ghost sent: seq<string>)
    ensures ok <==> AllTranslated(translator, entries, cfg)
    ensures ok ==> batch == TranslatedBatch(translator, entries, cfg)
    ensures ok ==> sent == SummaryTexts(entries)
    ensures !ok ==> StoppedAtFirstFailure(translator, entries, cfg, sent)
  {
    batch := entries;
    sent := [];
    var i := 0;
    while i < |batch|
      invariant 0 <= i <= |batch| == |entries|
      invariant sent == SummaryTexts(entries)[..i]
      invariant AllTranslated(translator, entries[..i], cfg)
      invariant forall j :: 0 <= j < i ==>
                  batch[j] == WithTranslation(entries[j],
                    Translate(translator, entries[j].summaryShort, cfg.srcLang, cfg.destLang))
      invariant forall j :: i <= j < |batch| ==> batch[j] == entries[j]
    {
      sent := sent + [batch[i].summaryShort];
      assert sent == SummaryTexts(entries)[..i + 1];
      var translatedRes := Translate(translator, batch[i].summaryShort, cfg.srcLang, cfg.destLang);
      if translatedRes.Failed? {
        return false, batch, sent;
      }
      batch := batch[i := WithTranslation(batch[i], translatedRes)];
      i := i + 1;
    }
    assert entries[..i] == entries;
    assert SummaryTexts(entries)[..i] == SummaryTexts(entries);
    ok := true;
  }

  /**
   * `lambda_handler`. The feed, the digest, the clock and the translation service are
   * parameters; `table` is the post table and `holder` the process's client slot.
   * `sent` records the texts sent to the translation service, in order.
   */
  method LambdaHandler(feed: Fetched, hash: string -> string, clock: nat -> string, cfg: Config,
                       service: Service, table: PostTable, holder: TranslatorHolder)
    returns (outcome: Outcome, ghost sent: seq<string>)
    requires table.Valid() && holder.Valid()
    modifies table, holder
    ensures table.Valid() && holder.Valid()
    // A bad fetch gives the empty result, and indexing its `entries` raises before any lookup.
    ensures feed.status != FeedOk ==>
              outcome == KeyError("entries") && sent == [] && unchanged(table) && unchanged(holder)
    // Nothing new: return before creating a translator, translating or writing.
    ensures feed.status == FeedOk && FreshEntries(feed, hash, clock, old(table.items)) == [] ==>
              outcome == NothingNew && sent == [] && unchanged(table) && unchanged(holder)
    // Something new: the process's one client is used, created here only if there was none.
    ensures feed.status == FeedOk && FreshEntries(feed, hash, clock, old(table.items)) != [] ==>
              && holder.client != null
              && (old(holder.client) != null ==> holder.client == old(holder.client))
              && (old(holder.client) == null ==>
                    holder.client.region == cfg.region && holder.client.service == service)
    // A failed translation leaves `{}`, and indexing its `text` raises before anything is saved.
    ensures feed.status == FeedOk && holder.client != null ==>
              var novel := FreshEntries(feed, hash, clock, old(table.items));
              novel != [] && !AllTranslated(holder.client, novel, cfg) ==>
                && outcome == KeyError("text") && unchanged(table)
                && StoppedAtFirstFailure(holder.client, novel, cfg, sent)
    // Otherwise exactly the new documents, each with its own translation, are saved in one batch.
    ensures feed.status == FeedOk && holder.client != null ==>
              var novel := FreshEntries(feed, hash, clock, old(table.items));
              novel != [] && AllTranslated(holder.client, novel, cfg) ==>
                && outcome == Saved(|novel|)
                && sent == SummaryTexts(novel)
                && table.items == SaveAll(old(table.items), TranslatedBatch(holder.client, novel, cfg))
                && table.batchWrites == old(table.batchWrites) + 1
  {
    sent := [];
    var feedsParsed := ParseFeed(feed, hash, clock);
    if feedsParsed.NoResult? {
      return KeyError("entries"), sent;
    }
    var feedIds := PostIds(feedsParsed.entries);
    var feedsTranslated := GetFeedsTranslated(table, feedIds);
    var newFeedEntries := NewEntries(feedsParsed.entries, feedsTranslated);
    assert newFeedEntries == FreshEntries(feed, hash, clock, old(table.items));
    if |newFeedEntries| == 0 {
      return NothingNew, sent;
    }

    var translator := holder.GetOrCreateTranslator(cfg.region, service);
    var ok, batch;
    ok, batch, sent := TranslateNewEntries(translator, newFeedEntries, cfg);
    if !ok {
      return KeyError("text"), sent;
    }
    SaveFeedTranslated(table, batch);
    outcome := Saved(|batch|);
  }

  /** A table that already holds every id of the feed makes the run stop with nothing new. */
  lemma StoredFeedIsNotNew(feed: Fetched, hash: string -> string, clock: nat -> string,
                           items: map<string, Entry>)
    requires forall r :: r in feed.entries ==> hash(r.link) in items
    ensures FreshEntries(feed, hash, clock, items) == []
  {
    var parsed := ParsedEntries(hash, clock, feed.entries);
    var seen := Lookup(items, PostIds(parsed));
    forall e | e in parsed
      ensures e.postId in seen
    {
      var i :| 0 <= i < |parsed| && parsed[i] == e;
      assert e == BuildEntry(hash, feed.entries[i], clock(i));
      assert feed.entries[i] in feed.entries;
      assert PostIds(parsed)[i] == e.postId;
    }
    NewEntriesAllSeen(parsed, seen);
  }

  /** The ids of a batch that mirrors `novel` id by id are all in the table after saving it. */
  lemma BatchIdsSaved(items: map<string, Entry>, batch: seq<Entry>, novel: seq<Entry>)
    requires PostIds(batch) == PostIds(novel)
    ensures forall e :: e in novel ==> e.postId in SaveAll(items, batch)
  {
  }

  /** Saving a batch that mirrors the new documents id by id stores every id of the feed. */
  lemma FeedIdsSaved(feed: Fetched, hash: string -> string, clock: nat -> string,
                     items: map<string, Entry>, batch: seq<Entry>)
    requires PostIds(batch) == PostIds(FreshEntries(feed, hash, clock, items))
    ensures forall r :: r in feed.entries ==> hash(r.link) in SaveAll(items, batch)
  {
    var parsed := ParsedEntries(hash, clock, feed.entries);
    var seen := Lookup(items, PostIds(parsed));
    var novel := NewEntries(parsed, seen);
    SaveAllKeys(items, batch);
    BatchIdsSaved(items, batch, novel);
    forall r | r in feed.entries
      ensures hash(r.link) in SaveAll(items, batch)
    {
      var i :| 0 <= i < |feed.entries| && feed.entries[i] == r;
      var e := BuildEntry(hash, r, clock(i));
      assert parsed[i] == e;
      if e.postId !in items {
        assert e in parsed && e.postId !in seen;
        NewEntriesMember(parsed, seen, e);
        assert e in novel;
      }
    }
  }

  /**
   * After a run that saved its batch, a later run over the same feed (with any clock)
   * finds nothing new: the ids depend on the links alone.
   */
  lemma SecondRunFindsNothingNew(feed: Fetched, hash: string -> string, clock: nat -> string,
                                 later: nat -> string, items: map<string, Entry>,
                                 client: TranslateClient, cfg: Config)
    requires AllTranslated(client, FreshEntries(feed, hash, clock, items), cfg)
    ensures
      var saved := SaveAll(items, TranslatedBatch(client, FreshEntries(feed, hash, clock, items), cfg));
      FreshEntries(feed, hash, later, saved) == []
  {
    var batch := TranslatedBatch(client, FreshEntries(feed, hash, clock, items), cfg);
    FeedIdsSaved(feed, hash, clock, items, batch);
    StoredFeedIsNotNew(feed, hash, later, SaveAll(items, batch));
  }

  /**
   * A feed of two entries X and Y over a table holding X: only Y is new, and the batch
   * saved for it holds one document with Y's id, Y's verbatim fields and its translation;
   * `tags` is set exactly when Y's tag items yield a non-empty joined string.
   */
  lemma OnlyNewEntryIsSaved(x: RawEntry, y: RawEntry, hash: string -> string, clock: nat -> string,
                            items: map<string, Entry>, client: TranslateClient, cfg: Config)
    requires hash(x.link) != hash(y.link)
    requires items.Keys == {hash(x.link)}
    requires client.service(GetSummary(y.paragraphs), cfg.srcLang, cfg.destLang).httpStatus == TranslateOk
    ensures
      var feed := Fetched(FeedOk, [x, y]);
      && FreshEntries(feed, hash, clock, items) == [BuildEntry(hash, y, clock(1))]
      && var batch := TranslatedBatch(client, [BuildEntry(hash, y, clock(1))], cfg);
         && |batch| == 1
         && batch[0].postId == hash(y.link)
         && batch[0].author == y.author && batch[0].link == y.link && batch[0].title == y.title
         && batch[0].pTime == y.publishedTime
         && batch[0].tags == TagsField(y.tags)
         && batch[0].summaryShort == GetSummary(y.paragraphs)
         && batch[0].updatedAt == batch[0].createdAt == clock(1)
         && batch[0].summaryShortTranslated ==
            Some(client.service(GetSummary(y.paragraphs), cfg.srcLang, cfg.destLang).translatedText)
         && batch[0].srcLangCode == Some(cfg.srcLang)
         && batch[0].destLangCode == Some(cfg.destLang)
  {
    var feed := Fetched(FeedOk, [x, y]);
    var parsed := ParsedEntries(hash, clock, feed.entries);
    var ex, ey := BuildEntry(hash, x, clock(0)), BuildEntry(hash, y, clock(1));
    assert parsed == [ex, ey];
    assert PostIds(parsed) == [hash(x.link), hash(y.link)];
    var seen := Lookup(items, PostIds(parsed));
    assert ex.postId in seen && ey.postId !in seen;
    assert parsed[1..] == [ey];
    assert [ey][1..] == [];
    assert NewEntries([ey], seen) == [ey];
  }
}
