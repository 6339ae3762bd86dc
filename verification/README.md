# Notion → Supabase sync, modelled in Dafny

This project models the core of `utils/notion_supabase_sync.py`. That module
copies the Notion pages whose Status is "New" into a Supabase table, one page
of query results at a time, and then marks each copied page as "Uploaded". The
model covers three functions:

- `process_notion_item` turns one Notion page object into a flat row.
- `insert_data` runs the paginated query / transform / upsert / mark loop.
- `update_notion_status` marks pages one at a time, and a failure on one page
  does not stop the rest.

## How the model is built

- **JSON and subscripts** (`json.dfy`). A Notion page object is a `Json`
  value. Every subscript `x[k]` behaves as in Python:
  - a dict gives the value for its key, or `KeyError(k)` when the key is missing;
  - a list or string gives its element, or `IndexError` when out of range;
  - `None` and other scalars give `TypeError`.

  A chain of subscripts is a path of `Step`s followed by `Follow`, and the
  first subscript that raises decides the error.
- **The transform** (`transform.dfy`). `ProcessItem` reads the subscript chains
  in the order the dict literal evaluates them: title, url, created_time, and
  for the `papers` table also date and authors. To check it independently,
  `NotionPage` describes a page by its schema and `Encode` builds a minimal
  JSON page for it, with just the keys the transform reads; the API's other
  keys are never visited by a subscript chain here. `ProcessEncodedPage`
  computes the transform on every encoded page.
- **The status update** (`status.dfy`). `UpdateStatus` yields one attempt per
  id, in order. The set of ids whose update raises is a parameter.
- **The loop** (`sync.dfy`). The Notion and Supabase clients are replaced by a
  scripted environment `Env`:
  - the successive query responses (`QueryFail`, or a `Page` with `results`,
    `has_more` and `next_cursor`);
  - the successive upsert outcomes;
  - the ids whose status update fails.

  `InsertData` returns a `Run`, made of three parts:
  - the event log: every query with its start cursor, every upsert with its
    batch, and every marking;
  - `total_processed`;
  - the reason the loop stopped. This is one of:
    - the query raised;
    - no results;
    - an item raised, which aborts `insert_data`;
    - the last page was done;
    - the script ran out.

  Each pass that goes round again consumes one scripted query response, so the
  recursion terminates.
- **Log properties** (`sync_log.dfy`, `log_rounds.dfy`, `sync_lemmas.dfy`).
  Each property is a predicate over neighbouring events of the log, proved for
  every environment and every start cursor by induction on the script.
  `log_rounds.dfy` holds the facts about sequences alone that this induction
  needs.
- **Whole runs** (`sync_runs.dfy`) on particular scripts:
  - a failed first query;
  - an item that cannot be transformed;
  - one page, and two pages;
  - a retry after a failed upsert;
  - an upsert that keeps failing.
- **The loop as written** (`insert_data_loop.dfy`). `RunInsertData` is the
  `while True` loop with `continue`, where each `break` becomes a `return` of
  the run (only a log line follows the loop), and `CollectBatch` is the inner
  `for` loop. Both are proved to compute exactly what the recursive model does.

Two behaviours of the code shape the model:
- Lines 98-101 sit outside any `try`, so an exception raised by
  `process_notion_item` or by `item["id"]` leaves `insert_data` altogether.
- The `continue` at line 110 queries again from the same `start_cursor`. If
  every upsert fails and the query keeps returning the same page, the loop
  never ends (`SyncRuns.RepeatedUpsertFailureNeverStops`). It still ends when a
  later query raises, comes back empty, or holds an item that raises.

## Model

| member | source | states |
|---|---|---|
| Json.Get | utils/notion_supabase_sync.py:135-137 | `d[k]` is the value when `d` is a dict holding `k`. It raises KeyError naming `k` when the key is missing, and TypeError when `d` is not a dict (e.g. `None`). |
| Json.Index | utils/notion_supabase_sync.py:135 | `x[0]` is the element of a list, or a one-character string of a string. An index out of range raises IndexError, a dict raises KeyError(0), anything else raises TypeError. |
| Json.FollowAppend | utils/notion_supabase_sync.py:134-144 | A subscript chain evaluates as its prefix and then its suffix. The first subscript that raises decides the result. |
| Transform.ProcessItem | utils/notion_supabase_sync.py:123-144 | The row exists exactly when the title, url and created_time chains all succeed (and, for `papers`, also date and authors). Its keys are exactly those three columns, plus date and authors for `papers`. Each value is what its chain reads. On failure, the error is that of the first chain that fails, in dict-literal order. |
| Transform.EmptyTitleFails | utils/notion_supabase_sync.py:135 | An empty title array raises IndexError for every table, whatever else the page holds. |
| Transform.EmptyAuthorsFails | utils/notion_supabase_sync.py:140-142 | For `papers`, a page whose base columns and date are readable but whose authors array is empty raises IndexError. |
| Transform.EncodedDate | utils/notion_supabase_sync.py:141 | On an encoded page, an unset date makes `["start"]` a subscript of `None` (TypeError). A set date reads its start. |
| Transform.ProcessEncodedPage | utils/notion_supabase_sync.py:134-144 | For every typed page, exactly one of five outcomes holds: no title segment → IndexError; other tables → the three-column row; `papers` with no date → TypeError; `papers` with no author segment → IndexError; otherwise the five-column row. The row holds the first title segment, the URL or None, the creation time, the date start and the first author. |
| Transform.PaperExample | utils/notion_supabase_sync.py:134-144 | A minimal paper page yields exactly the five-key row with its title, url, timestamp, date and first author. |
| StatusUpdate.UpdateStatus | utils/notion_supabase_sync.py:147-161 | One update per given id, in order. Each sets property "Status" to "Uploaded", and it succeeds exactly when that id's update does not raise. |
| StatusUpdate.FailuresDoNotStopUpdates | utils/notion_supabase_sync.py:155-161 | Every id is attempted in order, whichever updates fail. The ids marked Uploaded are exactly the given ids minus the failing ones. |
| Sync.BuildBatch | utils/notion_supabase_sync.py:95-101 | The batch exists exactly when the per-item step succeeds on every result. For `insert_data` that step is the transform followed by `item["id"]`. `data_batch` and `updated_pages` then have one entry per result, in result order, and each entry is that result's row and id. Otherwise the error is that of the first result whose step raised. |
| InsertDataLoop.CollectBatch | utils/notion_supabase_sync.py:95-101 | The inner `for` loop, with its early exit on the first exception, computes exactly the batch of `Sync.BuildBatch`. |
| InsertDataLoop.RunInsertData | utils/notion_supabase_sync.py:77-118 | The `while True` loop with `continue`, where each `break` becomes a `return` of the run, over mutable `start_cursor` and `total_processed`, produces exactly the run of the recursive model `Sync.InsertData`. |
| SyncLemmas.FirstEvent | utils/notion_supabase_sync.py:77-86 | A run logs something exactly when the script has a query response, and its first event is the query from the given cursor. |
| SyncLemmas.QueriesUseNewFilterHolds | utils/notion_supabase_sync.py:82-86 | Every query of a run goes to the given database with the filter Status equals "New". |
| SyncLemmas.UpsertsCarryTheirPageHolds | utils/notion_supabase_sync.py:95-104 | Every upsert writes to the given table the transformed rows of the query just before it, and that query's page was fully transformed. |
| SyncLemmas.MarksFollowSuccessfulUpsertsHolds | utils/notion_supabase_sync.py:103-112 | Ids are marked only right after a successful upsert of their page. The marking covers exactly that page's ids, in order, with one "Uploaded" attempt each. |
| SyncLemmas.QueriesLeadToUpsertsHolds | utils/notion_supabase_sync.py:91-104 | A query that is not the last event of a run is immediately followed by an upsert, so the loop never queries twice without an upsert in between. |
| SyncLemmas.SuccessfulUpsertsAreMarkedHolds | utils/notion_supabase_sync.py:103-112 | Every successful upsert is immediately followed by a marking event. |
| SyncLemmas.FailedUpsertReusesCursorHolds | utils/notion_supabase_sync.py:103-110 | After a failed upsert nothing is marked, and the next query starts from the same cursor as the failed page's query. |
| SyncLemmas.MarkedPageAdvancesCursorHolds | utils/notion_supabase_sync.py:115-118 | After a marked page, the loop queries again only if the page had more, and then from the page's `next_cursor`. |
| SyncLemmas.LastPageEndsHolds | utils/notion_supabase_sync.py:115-118 | A marked page that has no more is the last event of the run. |
| SyncLemmas.UnusableQueryEndsHolds | utils/notion_supabase_sync.py:81-101 | A query that raised, came back empty, or held an item that raised is the last event of the run. |
| SyncLemmas.TotalCountsMarkedIds | utils/notion_supabase_sync.py:112-113 | `total_processed` equals the number of ids handed to the status update, counted only after successful upserts, however many of those updates fail. |
| SyncLemmas.ScriptConsumedInOrder | utils/notion_supabase_sync.py:80-110 | The query responses and upsert outcomes a run sees are prefixes of the scripted ones, taken in call order. |
| SyncLemmas.ExhaustionNeedsWholeScript | utils/notion_supabase_sync.py:80-118 | The loop stops for want of a scripted answer only once one scripted list is used up, and the log says which one. If the log ends on a query, whose page was waiting for an upsert, every upsert outcome has been used. Otherwise (an empty log, or one ending after a failed upsert or a marked page with more), every query response has been used. |
| SyncLemmas.StopMatchesLog | utils/notion_supabase_sync.py:80-118 | The stop reason can be read off the end of the log: the last query failed, was empty or raised, or a marked page had no more. |
| SyncRuns.InsertDataQueriesNewItems | utils/notion_supabase_sync.py:77-86 | `insert_data`'s first query starts without a cursor, and every query asks for Status "New". |
| SyncRuns.QueryFailureEndsRun | utils/notion_supabase_sync.py:81-93 | A first query that raises or returns no results ends the run after that query. Nothing is upserted or marked, and the total stays 0. |
| SyncRuns.BadItemAbortsRun | utils/notion_supabase_sync.py:98-101 | An item of the first page that cannot be transformed, or has no id, aborts the whole call: only the query is logged, the total is 0, and the exception of the first failing item escapes. |
| SyncRuns.EmptyTitleAbortsRun | utils/notion_supabase_sync.py:98-101 | An item with an empty title array on the first page aborts the call before any upsert. |
| SyncRuns.EmptyAuthorsAbortsPapersRun | utils/notion_supabase_sync.py:98-101 | For `papers`, an item with a date but an empty authors array on the first page aborts the call before any upsert. |
| SyncRuns.LastPageRun | utils/notion_supabase_sync.py:115-118 | A successful upsert of a page without more ends the loop after that one query, counting the page's ids. |
| SyncRuns.SinglePageRun | utils/notion_supabase_sync.py:115-118 | When the first page has `has_more` false, there is exactly one query (without cursor) and one successful upsert, and the total is the number of results. |
| SyncRuns.TwoPageRun | utils/notion_supabase_sync.py:115-116 | With two clean pages, the second query starts at the first page's `next_cursor`. Both upserts succeed, and the total is the number of results on both pages. |
| SyncRuns.RetryAfterFailedUpsert | utils/notion_supabase_sync.py:103-110 | After a failed upsert, the next query again has no cursor. Only the retried page's ids are marked and counted. |
| SyncRuns.RepeatedUpsertFailureNeverStops | utils/notion_supabase_sync.py:103-110 | If the same page keeps coming back and every upsert fails, the loop re-queries from the same cursor until the script runs out. It marks and counts nothing. |

## Left out

- `ping_supabase` (lines 47-62), `main` (lines 164-174), and the client construction, environment loading and logger set-up (lines 19-44) are not modelled. They are set-up and I/O around the sync, not part of it. `api/alpha_pinger.py` and `api/index.py` are not part of this model.
- Log messages and the `tqdm` progress bar (lines 88, 92, 98, 105-109, 120, 161) only report progress and are not modelled.
- The Notion and Supabase calls are replaced by scripted answers. A query that raises is `QueryFail` whatever the exception. An upsert is only its outcome: what Supabase does with the rows on conflict is not modelled.
- A query response is always a well-formed page. The KeyError that a response missing `results`, `has_more` or `next_cursor` would raise at lines 91, 115 and 116 is not modelled.
- The `ScriptExhausted` stop reason does not exist in the source. It is how the model ends a run whose scripted environment has no answer left. Without it, a run in which every upsert fails and the query keeps returning the same page would never end, as it never does in the source.
- Consecutive runs are not modelled: re-running the sync does not re-copy marked pages, and marked pages drop out of the "New" filter. That needs a stateful model of the Notion database. Here each query response is scripted independently of earlier status updates.
- Status-update outcomes are fixed per id for the whole run, not per call. An id whose update failed stays "New" and can come back on a later page, and the model then gives it the same outcome again. The source's outcomes per call come from the remote API and are not modelled.
- Strings are sequences of characters, with no encoding or Unicode normalisation. Numbers in JSON are integers only, since no column read here is numeric.
