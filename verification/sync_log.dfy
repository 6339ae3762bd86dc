/** Properties of the event log that `insert_data` leaves behind, stated as
    local facts about neighbouring events and proved for every scripted
    environment and every starting cursor. */
module SyncLog {
  import opened Wrappers
  import opened Json
  import opened Transform
  import opened StatusUpdate
  import opened Sync

  /** The query response yields a batch to upsert. */
  predicate Upsertable(response: QueryResponse, step: ItemStep) {
    response.Page? && response.results != [] && BuildBatch(response.results, step).Ok?
  }

  /** A pass from `env` reaches the upsert call. */
  predicate ReachesUpsert(env: Env, step: ItemStep) {
    env.queries != [] && env.upserts != [] && Upsertable(env.queries[0], step)
  }

  /** The iteration from `env` upserts and then goes round again: the
      upsert failed, or it succeeded on a page that has more. */
  predicate Continues(env: Env, step: ItemStep) {
    ReachesUpsert(env, step) && (env.upserts[0] == UpsertFail || env.queries[0].hasMore)
  }

  /** The cursor of the next iteration: unchanged after a failed upsert,
      the page's `next_cursor` after a successful one. */
  function NextCursor(env: Env, step: ItemStep, cursor: Option<string>): Option<string>
    requires ReachesUpsert(env, step)
  {
    if env.upserts[0] == UpsertFail then cursor else env.queries[0].nextCursor
  }

  /** The number of events one upserting iteration logs. */
  function IterationLength(env: Env, step: ItemStep): nat
    requires ReachesUpsert(env, step)
  {
    if env.upserts[0] == UpsertFail then 2 else 3
  }

  /** `head` is the log of one pass that went round again from `cursor`:
      the query, the upsert of its transformed page, and on success the
      marking of its ids; `next` is the cursor it left for the next pass. */
  ghost predicate Round(head: seq<Event>, db: string, table: string, step: ItemStep, failing: set<Json>,
                        cursor: Option<string>, next: Option<string>)
  {
    && (|head| == 2 || |head| == 3)
    && head[0].Queried? && head[0].call == QueryCall(db, NewItems, cursor)
    && Upsertable(head[0].response, step)
    && head[1].Upserted? && head[1].table == table
    && head[1].batch == BuildBatch(head[0].response.results, step).value.rows
    && (head[1].outcome == UpsertFail <==> |head| == 2)
    && (|head| == 2 ==> next == cursor)
    && (|head| == 3 ==>
          && head[0].response.hasMore && next == head[0].response.nextCursor
          && head[2].Marked?
          && head[2].ids == BuildBatch(head[0].response.results, step).value.ids
          && head[2].attempts == UpdateStatus(head[2].ids, failing))
  }

  /** A log that is empty or starts with a query from `cursor`. */
  ghost predicate StartsAt(ev: seq<Event>, cursor: Option<string>) {
    ev != [] ==> ev[0].Queried? && ev[0].call.startCursor == cursor
  }

  // ---------------------------------------------------------------------------
  // The log predicates

  /** Every query goes to database `db` and asks for status "New". */
  ghost predicate QueriesUseNewFilter(ev: seq<Event>, db: string) {
    forall i :: 0 <= i < |ev| && ev[i].Queried? ==>
      ev[i].call.databaseId == db && ev[i].call.filter == NewItems
  }

  /** Every upsert writes to `table` the transformed results of the query
      just before it, in order. */
  ghost predicate UpsertsCarryTheirPage(ev: seq<Event>, table: string, step: ItemStep) {
    forall i :: 0 <= i < |ev| && ev[i].Upserted? ==>
      && 0 < i && ev[i - 1].Queried?
      && Upsertable(ev[i - 1].response, step)
      && ev[i].table == table
      && ev[i].batch == BuildBatch(ev[i - 1].response.results, step).value.rows
  }

  /** Ids are marked only right after a successful upsert of their page: all
      of the page's ids in order, with one status update attempt per id. */
  ghost predicate MarksFollowSuccessfulUpserts(ev: seq<Event>, step: ItemStep, failing: set<Json>) {
    forall i :: 0 <= i < |ev| && ev[i].Marked? ==>
      && 2 <= i && ev[i - 1].Upserted? && ev[i - 1].outcome == UpsertOk
      && ev[i - 2].Queried? && Upsertable(ev[i - 2].response, step)
      && ev[i].ids == BuildBatch(ev[i - 2].response.results, step).value.ids
      && ev[i].attempts == UpdateStatus(ev[i].ids, failing)
  }

  /** A successful upsert is always followed by marking its ids. */
  ghost predicate SuccessfulUpsertsAreMarked(ev: seq<Event>) {
    forall i :: 0 <= i < |ev| && ev[i].Upserted? && ev[i].outcome == UpsertOk ==>
      i + 1 < |ev| && ev[i + 1].Marked?
  }

  /** A query that is not the last event is followed by an upsert: the loop
      never queries twice without upserting in between. */
  ghost predicate QueriesLeadToUpserts(ev: seq<Event>) {
    forall i :: 0 <= i < |ev| - 1 && ev[i].Queried? ==> ev[i + 1].Upserted?
  }

  /** After a failed upsert nothing is marked and the next query, if there is
      one, starts from the same cursor as the query before the upsert. */
  ghost predicate FailedUpsertReusesCursor(ev: seq<Event>) {
    forall i :: 0 < i < |ev| - 1 && ev[i].Upserted? && ev[i].outcome == UpsertFail ==>
      && ev[i - 1].Queried? && ev[i + 1].Queried?
      && ev[i + 1].call.startCursor == ev[i - 1].call.startCursor
  }

  /** After a marked page the loop goes on only if that page had more, and
      then from the page's `next_cursor`. */
  ghost predicate MarkedPageAdvancesCursor(ev: seq<Event>) {
    forall i :: 2 <= i < |ev| - 1 && ev[i].Marked? ==>
      && ev[i - 2].Queried? && ev[i - 2].response.Page? && ev[i - 2].response.hasMore
      && ev[i + 1].Queried? && ev[i + 1].call.startCursor == ev[i - 2].response.nextCursor
  }

  /** A marked page that says it has no more is the end of the log. */
  ghost predicate LastPageEnds(ev: seq<Event>) {
    forall i :: 2 <= i < |ev| && ev[i].Marked? && ev[i - 2].Queried? && ev[i - 2].response.Page? && !ev[i - 2].response.hasMore
      ==> i == |ev| - 1
  }

  /** A query that yields nothing to upsert — it failed, came back empty, or
      one of its items did not transform — is the end of the log. */
  ghost predicate UnusableQueryEnds(ev: seq<Event>, step: ItemStep) {
    forall i :: 0 <= i < |ev| && ev[i].Queried? && !Upsertable(ev[i].response, step) ==> i == |ev| - 1
  }

  /** The number of ids marked over the whole log. */
  function MarkedCount(ev: seq<Event>): nat {
    if ev == [] then 0
    else (if ev[0].Marked? then |ev[0].ids| else 0) + MarkedCount(ev[1..])
  }

  /** The query responses in the order the loop received them. */
  function Responses(ev: seq<Event>): seq<QueryResponse> {
    if ev == [] then []
    else (if ev[0].Queried? then [ev[0].response] else []) + Responses(ev[1..])
  }

  /** The upsert outcomes in the order the loop received them. */
  function Outcomes(ev: seq<Event>): seq<UpsertResponse> {
    if ev == [] then []
    else (if ev[0].Upserted? then [ev[0].outcome] else []) + Outcomes(ev[1..])
  }

  /** The start cursors of the queries, in order. */
  function Cursors(ev: seq<Event>): seq<Option<string>> {
    if ev == [] then []
    else (if ev[0].Queried? then [ev[0].call.startCursor] else []) + Cursors(ev[1..])
  }

  /** The stop reason read off the end of the log alone. */
  function StopOf(ev: seq<Event>, step: ItemStep): Stop {
    if ev == [] then ScriptExhausted
    else
      var last := ev[|ev| - 1];
      if last.Queried? then
        match last.response
        case QueryFail => QueryFailed
        case Page(results, _, _) =>
          if results == [] then NoResults
          else if BuildBatch(results, step).Err? then Raised(BuildBatch(results, step).error)
          else ScriptExhausted
      else if last.Marked? && |ev| >= 3 && ev[|ev| - 3].Queried? && ev[|ev| - 3].response.Page?
              && !ev[|ev| - 3].response.hasMore then LastPage
      else ScriptExhausted
  }
}
