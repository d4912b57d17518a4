# RSS feed translation bot — Dafny model

A model of the dedup-and-translate pipeline of the bot's scheduled function
(`rss_feed_trans_bot.py`): the feed's entries become documents with a link-derived
`post_id`, the ids already in the post table are looked up and removed, the short
summary of each new document is translated, and the translated batch is written to the
table. Re-running over the same feed finds nothing new.

Modules, one per component of the source file:

- `Text` (`text.dfy`): Python's `str.join`, with its length and prefix facts.
- `Summary` (`summary.dfy`): `get_summary`, the first `limit` (default 2) paragraph texts joined by single spaces.
- `Entries` (`entries.dfy`): `parse_feed`, with the optional comma-joined `tags` field.
- `Store` (`store.dfy`): the post table as a class over a `map`, `get_feeds_translated` and `save_feed_translated`.
- `Novelty` (`novelty.dfy`): the comprehension that keeps the documents whose id the lookup did not return.
- `Translation` (`translation.dfy`): `translate` and the lazily created, process-wide translator client.
- `Handler` (`handler.dfy`): `lambda_handler`, with its two `KeyError` crash paths as outcomes.

External collaborators are parameters: the fetched feed is a status and a sequence of raw
entries; the HTML body is the sequence of its paragraph texts; the MD5 hex digest is a
function `hash` of the link; the `i`-th `utcnow()` reading is `clock(i)`; the translation
service is a function from (text, source code, target code) to a reply holding an HTTP
status and a text.

On its edge paths the code behaves as follows, and the model does the same:

- A feed status other than 200 makes `parse_feed` return `{}`, and the handler then raises
  `KeyError('entries')` at line 131; it does not treat the outage as "nothing new".
- A failed translation makes `translate` return `{}`, and the handler raises
  `KeyError('text')` at line 145 before anything is saved; no entry is skipped.
- `translate` returns the requested `src`/`dest` codes, not the codes the service resolved.
- An empty feed with status 200 is not stopped early: it goes through the (empty) lookup
  and then stops with nothing new, which has the same effect.

## Model

| member | source | states |
|---|---|---|
| `Text.Join` | src/main/python/RssFeedTransBot/rss_feed_trans_bot.py:79 | `sep.join(parts)` starts with the first part, followed by the separator when there are more parts; `JoinLength`, `JoinIsEmpty` and `JoinPrefix` specify it further |
| `Text.JoinLength` | src/main/python/RssFeedTransBot/rss_feed_trans_bot.py:79 | a join is as long as its parts plus one separator per gap |
| `Text.JoinIsEmpty` | src/main/python/RssFeedTransBot/rss_feed_trans_bot.py:95-96 | with a non-empty separator the join is empty exactly for no parts or a single empty part |
| `Text.JoinPrefix` | src/main/python/RssFeedTransBot/rss_feed_trans_bot.py:79 | joining the first k parts gives a prefix of joining them all |
| `Summary.Leading` | src/main/python/RssFeedTransBot/rss_feed_trans_bot.py:79 | `paragraphs[:limit]` is a prefix of length min(limit, count), the whole list when it is short |
| `Summary.GetSummary` | src/main/python/RssFeedTransBot/rss_feed_trans_bot.py:76-79 | the summary is a prefix of the whole body's joined text, and equals it when there are at most `limit` paragraphs |
| `Summary.SummaryOfLongBody` | src/main/python/RssFeedTransBot/rss_feed_trans_bot.py:76-79 | with two or more paragraphs (e.g. five) and the default limit the summary is `p1 + " " + p2` |
| `Summary.SummaryOfEmptyBody` | src/main/python/RssFeedTransBot/rss_feed_trans_bot.py:76-79 | zero paragraphs give the empty string, not an error |
| `Summary.SummaryIgnoresLaterParagraphs` | src/main/python/RssFeedTransBot/rss_feed_trans_bot.py:78-79 | paragraphs after the first `limit` do not change the summary |
| `Summary.SummaryLength` | src/main/python/RssFeedTransBot/rss_feed_trans_bot.py:79 | the summary's length is the kept paragraphs' lengths plus one space per gap |
| `Entries.Terms` | src/main/python/RssFeedTransBot/rss_feed_trans_bot.py:95 | a string is a term exactly when some truthy tag item carries it; never more terms than items |
| `Entries.TagsField` | src/main/python/RssFeedTransBot/rss_feed_trans_bot.py:95-97 | the field is the comma-joined terms when present, is never the empty string, and is absent exactly when there are no terms or one empty term |
| `Entries.TagsPresentWithTerm` | src/main/python/RssFeedTransBot/rss_feed_trans_bot.py:95-97 | one truthy tag with a non-empty term always sets the field |
| `Entries.BuildEntry` | src/main/python/RssFeedTransBot/rss_feed_trans_bot.py:92-101 | author, link and title copied, `post_id` the digest of the link, `p_time` the entry's published time, `tags` the optional joined-terms field (never empty), `summary_short` the default two-paragraph summary (a prefix of the body text), `updatedAt == createdAt`, no translation fields yet |
| `Entries.SameLinkSameId` | src/main/python/RssFeedTransBot/rss_feed_trans_bot.py:93 | entries with equal links get equal ids whatever else differs |
| `Entries.ParsedEntries` | src/main/python/RssFeedTransBot/rss_feed_trans_bot.py:90-103 | one document per raw entry |
| `Entries.ParseFeed` | src/main/python/RssFeedTransBot/rss_feed_trans_bot.py:82-103 | empty result exactly on a status other than 200; otherwise one document per entry in feed order and `count == len(entries)` |
| `Store.PostTable.constructor` | src/main/python/RssFeedTransBot/rss_feed_trans_bot.py:40-56 | a table starts empty, with no write sessions |
| `Store.PostTable.OpenBatch` | src/main/python/RssFeedTransBot/rss_feed_trans_bot.py:70 | counts one `batch_write` session; its requests go out when it commits (chunking not modelled) |
| `Store.PostTable.Save` | src/main/python/RssFeedTransBot/rss_feed_trans_bot.py:73 | the item is stored under its id, replacing what was there, and ids stay consistent |
| `Store.IdSet` | src/main/python/RssFeedTransBot/rss_feed_trans_bot.py:45 | the ids (hash keys) a batch touches |
| `Store.Lookup` | src/main/python/RssFeedTransBot/rss_feed_trans_bot.py:59-63 | the lookup result has exactly the requested ids the table holds, each mapped to its `createdAt` |
| `Store.GetFeedsTranslated` | src/main/python/RssFeedTransBot/rss_feed_trans_bot.py:59-63 | the loop builds exactly that lookup result |
| `Store.SaveFeedTranslated` | src/main/python/RssFeedTransBot/rss_feed_trans_bot.py:66-73 | empty input: no write session and the table unchanged; otherwise one session and every document saved in order |
| `Store.SaveAll` | src/main/python/RssFeedTransBot/rss_feed_trans_bot.py:72-73 | saving a batch in order keeps every old id and stores every id of the batch; `SaveAllKeys`, `SaveAllUntouched` and `SaveAllLastWriterWins` state exactly what is stored |
| `Store.SaveAllValid` | src/main/python/RssFeedTransBot/rss_feed_trans_bot.py:66-73 | saving keeps every post under its own id |
| `Store.SaveAllKeys` | src/main/python/RssFeedTransBot/rss_feed_trans_bot.py:66-73 | afterwards the table's ids are the old ids plus the batch's ids |
| `Store.SaveAllUntouched` | src/main/python/RssFeedTransBot/rss_feed_trans_bot.py:66-73 | ids outside the batch keep their presence and their post |
| `Store.SaveAllLastWriterWins` | src/main/python/RssFeedTransBot/rss_feed_trans_bot.py:72-73 | for an id of the batch the stored post is the batch's last one with that id |
| `Store.SaveAllBatchKeysIndependent` | src/main/python/RssFeedTransBot/rss_feed_trans_bot.py:72-73 | what a batch stores under its ids does not depend on the prior table |
| `Store.SaveAllIdempotent` | src/main/python/RssFeedTransBot/rss_feed_trans_bot.py:66-73 | saving the same batch twice equals saving it once |
| `Novelty.PostIds` | src/main/python/RssFeedTransBot/rss_feed_trans_bot.py:131 | `feed_ids` lists each document's id in order |
| `Novelty.NewEntries` | src/main/python/RssFeedTransBot/rss_feed_trans_bot.py:134 | the comprehension keeps no more documents than the feed has, each from the feed with an id not in the lookup result; `NewEntriesMember`, `NewEntriesSubsequence` and `NewEntriesConcat` give the converse and the order |
| `Novelty.NewEntriesMember` | src/main/python/RssFeedTransBot/rss_feed_trans_bot.py:134 | a document is new exactly when it is in the feed and its id is not a key of the lookup result |
| `Novelty.NewEntriesSubsequence` | src/main/python/RssFeedTransBot/rss_feed_trans_bot.py:134 | the new documents are a subsequence of the feed (order kept) |
| `Novelty.NewEntriesConcat` | src/main/python/RssFeedTransBot/rss_feed_trans_bot.py:134 | filtering a concatenation is the concatenation of the filtered parts |
| `Novelty.NewEntriesNothingSeen` | src/main/python/RssFeedTransBot/rss_feed_trans_bot.py:134 | when no id is seen the feed passes through unchanged |
| `Novelty.NewEntriesAllSeen` | src/main/python/RssFeedTransBot/rss_feed_trans_bot.py:134 | when every id is seen nothing is new |
| `Novelty.ColdStart` | src/main/python/RssFeedTransBot/rss_feed_trans_bot.py:131-134 | an empty table lets every entry through |
| `Novelty.OnlyUnseenEntryRemains` | src/main/python/RssFeedTransBot/rss_feed_trans_bot.py:131-134 | a table with A and B and a feed A, B, C leave exactly [C] |
| `Novelty.SavedIdsAreFound` | src/main/python/RssFeedTransBot/rss_feed_trans_bot.py:59-73 | every saved id is returned by a later lookup over the batch's ids |
| `Novelty.SavedEntriesAreNotNew` | src/main/python/RssFeedTransBot/rss_feed_trans_bot.py:59-73 | a saved batch is entirely filtered out on the next run |
| `Translation.Translate` | src/main/python/RssFeedTransBot/rss_feed_trans_bot.py:115-122 | a translation exactly on HTTP status 200, with the service's text and the requested codes; otherwise `{}` |
| `Translation.RequestedCodesKept` | src/main/python/RssFeedTransBot/rss_feed_trans_bot.py:119-120 | an auto-detected source is recorded as `auto`, not as the detected language |
| `Translation.TranslateClient.constructor` | src/main/python/RssFeedTransBot/rss_feed_trans_bot.py:110 | a client is bound to its region and service |
| `Translation.TranslatorHolder.constructor` | src/main/python/RssFeedTransBot/rss_feed_trans_bot.py:38 | the process starts with no client |
| `Translation.TranslatorHolder.GetOrCreateTranslator` | src/main/python/RssFeedTransBot/rss_feed_trans_bot.py:106-112 | returns a non-null client; constructs one only when none is held, otherwise returns the held one without constructing; at most one is ever constructed |
| `Translation.TwoCallsShareClient` | src/main/python/RssFeedTransBot/rss_feed_trans_bot.py:106-112 | two calls, even with different regions, return the same client constructed once |
| `Handler.FreshEntries` | src/main/python/RssFeedTransBot/rss_feed_trans_bot.py:131-134 | the new documents of a run are no more than the feed's entries and none has an id already in the table |
| `Handler.WithTranslation` | src/main/python/RssFeedTransBot/rss_feed_trans_bot.py:145-147 | `elem.update` sets the translated text and the two codes of the result and leaves every other field as it was |
| `Handler.SummaryTexts` | src/main/python/RssFeedTransBot/rss_feed_trans_bot.py:143 | the texts a run sends for translation: each document's `summary_short`, in order |
| `Handler.TranslatedBatch` | src/main/python/RssFeedTransBot/rss_feed_trans_bot.py:142-147 | each document keeps its id and other fields and gains its own summary's translation and the configured codes |
| `Handler.TranslateNewEntries` | src/main/python/RssFeedTransBot/rss_feed_trans_bot.py:142-147 | succeeds exactly when every translation succeeds, and then yields that batch after one request per summary in order; on failure the requests stop at the first failed translation |
| `Handler.LambdaHandler` | src/main/python/RssFeedTransBot/rss_feed_trans_bot.py:125-153 | bad feed: `KeyError('entries')`, no request sent, nothing touched; nothing new: return with no translation request, no client created and no write; a failed translation: `KeyError('text')` after the requests up to that document, table unchanged; otherwise the one client is used, one request per new summary in order, and exactly the new documents, translated, are saved in one batch |
| `Handler.StoredFeedIsNotNew` | src/main/python/RssFeedTransBot/rss_feed_trans_bot.py:131-139 | a table holding every id of the feed leaves nothing new |
| `Handler.BatchIdsSaved` | src/main/python/RssFeedTransBot/rss_feed_trans_bot.py:145-151 | a translated batch stores every new document's id |
| `Handler.FeedIdsSaved` | src/main/python/RssFeedTransBot/rss_feed_trans_bot.py:131-151 | after saving the new documents every id of the feed is in the table |
| `Handler.SecondRunFindsNothingNew` | src/main/python/RssFeedTransBot/rss_feed_trans_bot.py:125-153 | after a successful run a later run over the same feed, at any time, finds nothing new |
| `Handler.OnlyNewEntryIsSaved` | src/main/python/RssFeedTransBot/rss_feed_trans_bot.py:131-151 | feed X, Y over a table holding X: only Y is new; its one saved document has Y's id, author, link, title, time, summary, timestamps, translation and configured codes, and `tags` exactly when Y's joined terms are non-empty |

## Left out

- The CDK stack (`devto_rss_feed_trans_bot/devto_rss_feed_trans_bot_stack.py`) and `app.py`: infrastructure definitions with no behaviour of the function.
- Fetching and parsing the feed (`feedparser.parse`): the feed is given as its status and raw entries. A result without a `status` key, and raw entries missing `author`, `link`, `title`, `published_parsed` or `summary` (each a `KeyError` in the source), are not modelled; so is a truthy tag item without `term`.
- HTML parsing (`BeautifulSoup`, `find_all('p')`, `.text`): the body is given as its paragraph texts.
- Summary.GetSummary: the limit is a natural number; Python's negative slice bounds are not modelled, and the source only uses the default of 2.
- MD5 (`hashlib.md5(...).hexdigest()`): a function parameter `hash`; only determinism is used, collision resistance is not claimed.
- Time: `p_time` is taken as given (the local-timezone epoch conversion is not modelled); `utcnow()` readings are `clock(i)`, and ISO-8601 formatting is not modelled.
- Store and translator library calls (`batch_get`, `batch_write`, `translate_text`): batch chunking, unprocessed keys, the service rejecting duplicate keys within one request, attribute validation and network failure are not modelled. `get_feeds_translated` is modelled as a pass over the requested ids; the order in which the service returns items cannot matter, as the result is a map.
- Translation.Translate: the service is a function of the request, so repeated identical requests get identical replies. The requests a run sends are recorded only as the ghost log `sent` of `Handler.TranslateNewEntries` and `Handler.LambdaHandler`.
- Handler.LambdaHandler: the documents are values; the in-place `elem.update` on dicts shared by `feeds_parsed['entries']` and `new_feed_entries` is modelled by replacing elements of the batch, since the aliasing is never observed afterwards. The `event` and `context` arguments are unused and left out.
- Logging, the environment-variable defaults and the `__main__` block; the configuration is a parameter of the handler.
- The `DRY_RUN` variable set by the stack: the function never reads it.
