/** `insert_data`: the paginated Notion-to-Supabase loop, run against a
    scripted environment. Each iteration queries the Notion database for
    pages with status "New" from the current cursor, stops on a failed query
    or an empty page, transforms the page into one batch, upserts it, and on
    success marks the page ids "Uploaded", counts them and follows the next
    cursor while the page says there is more. */
module Sync {
  import opened Wrappers
  import opened Json
  import opened Transform
  import opened StatusUpdate

  /** A Notion database filter: the status property equals a value. */
  datatype Filter = StatusEquals(property: string, value: string)

  /** The one filter every query uses. */
  const NewItems: Filter := StatusEquals("Status", "New")

  /** One `databases.query` call. */
  datatype QueryCall = QueryCall(databaseId: string, filter: Filter, startCursor: Option<string>)

  /** What a query returns: an exception, or a page of results with the
      continuation fields of the Notion API. */
  datatype QueryResponse =
    | QueryFail
    | Page(results: seq<Json>, hasMore: bool, nextCursor: Option<string>)

  datatype UpsertResponse = UpsertOk | UpsertFail

  /** The remote stores as a script: the responses to successive queries and
      to successive upserts, in call order, and the page ids whose status
      update the Notion API rejects. */
  datatype Env = Env(queries: seq<QueryResponse>, upserts: seq<UpsertResponse>, failingUpdates: set<Json>)

  /** The externally visible effects of the loop, in the order they happen. */
  datatype Event =
    | Queried(call: QueryCall, response: QueryResponse)
    | Upserted(table: string, batch: seq<Row>, outcome: UpsertResponse)
    | Marked(ids: seq<Json>, attempts: seq<UpdateAttempt>)

  /** Why the loop ended. `ScriptExhausted` is not a behaviour of the source:
      it is where the scripted environment has no answer left for the next call. */
  datatype Stop =
    | QueryFailed
    | NoResults
    | LastPage
    | Raised(error: Error)
    | ScriptExhausted

  /** The effects of one call, the final value of `total_processed`, and why it ended. */
  datatype Run = Run(events: seq<Event>, total: nat, stop: Stop)

  /** The `data_batch` and `updated_pages` lists built from one page. */
  datatype Batch = Batch(rows: seq<Row>, ids: seq<Json>)

  /** The work the inner loop does per item: a row for the batch and the id
      for the status update, or the exception that ends the call. */
  type ItemStep = Json -> Result<(Row, Json), Error>

  /** The step `insert_data` uses: transform the item for `table`, then read
      its `"id"`. */
  function ItemEntry(item: Json, table: string): Result<(Row, Json), Error>
  {
    var row :- ProcessItem(item, table);
    var id :- Get(item, "id");
    Ok((row, id))
  }

  /** The inner loop over a page's results: the steps run in order and,
      since nothing catches an exception there, the first one that raises
      fails the whole page with its error. Otherwise `data_batch` and
      `updated_pages` hold one entry per result, in result order. */
  function BuildBatch(results: seq<Json>, step: ItemStep): (r: Result<Batch, Error>)
    ensures r.Ok? <==> forall i :: 0 <= i < |results| ==> step(results[i]).Ok?
    ensures r.Ok? ==> |r.value.rows| == |results| && |r.value.ids| == |results|
    ensures r.Ok? ==> forall i :: 0 <= i < |results| ==>
              step(results[i]) == Ok((r.value.rows[i], r.value.ids[i]))
    ensures r.Err? ==> exists i :: 0 <= i < |results| && step(results[i]) == Err(r.error)
                                   && forall j :: 0 <= j < i ==> step(results[j]).Ok?
    decreases |results|
  {
    if results == [] then Ok(Batch([], []))
    else
      var last := |results| - 1;
      assert forall i :: 0 <= i < last ==> results[..last][i] == results[i];
      match BuildBatch(results[..last], step)
      case Err(e) => Err(e)
      case Ok(front) =>
        match step(results[last])
        case Err(e) => Err(e)
        case Ok(pair) => Ok(Batch(front.rows + [pair.0], front.ids + [pair.1]))
  }

  /** The scripted environment after a pass that reached the upsert: one query
      response and one upsert outcome used. */
  function Later(env: Env): Env
    requires env.queries != [] && env.upserts != []
  {
    env.(queries := env.queries[1..], upserts := env.upserts[1..])
  }

  /** What one pass of the loop body did: the effects it logged and the ids
      it counted, and then either why the loop stopped or the script and
      cursor the next pass starts from. */
  datatype Pass =
    | Stopped(events: seq<Event>, processed: nat, stop: Stop)
    | Next(events: seq<Event>, processed: nat, env: Env, cursor: Option<string>)

  /** One pass of the `while True` body from `cursor`, with `step` as the
      per-item work. A failed query or an empty page breaks out; a page that
      fails to transform raises; a failed upsert `continue`s with the cursor
      unchanged; a successful upsert marks and counts the ids, then follows
      `next_cursor`, or breaks when the page has no more. */
  function Iterate(db: string, table: string, step: ItemStep, env: Env, cursor: Option<string>): (p: Pass)
    ensures p.Next? ==> |p.env.queries| < |env.queries|
  {
    if env.queries == [] then Stopped([], 0, ScriptExhausted)
    else
      var response := env.queries[0];
      var queried := Queried(QueryCall(db, NewItems, cursor), response);
      match response
      case QueryFail => Stopped([queried], 0, QueryFailed)
      case Page(results, hasMore, next) =>
        if results == [] then Stopped([queried], 0, NoResults)
        else
          match BuildBatch(results, step)
          case Err(e) => Stopped([queried], 0, Raised(e))
          case Ok(batch) =>
            if env.upserts == [] then Stopped([queried], 0, ScriptExhausted)
            else
              var later := Later(env);
              var upserted := Upserted(table, batch.rows, env.upserts[0]);
              if env.upserts[0] == UpsertFail then Next([queried, upserted], 0, later, cursor)
              else
                var marked := Marked(batch.ids, UpdateStatus(batch.ids, env.failingUpdates));
                if hasMore then Next([queried, upserted, marked], |batch.ids|, later, next)
                else Stopped([queried, upserted, marked], |batch.ids|, LastPage)
  }

  /** The loop from a given cursor on. Every pass consumes one scripted
      query response, which bounds the recursion. */
  function SyncFrom(db: string, table: string, step: ItemStep, env: Env, cursor: Option<string>): Run
    decreases |env.queries|
  {
    match Iterate(db, table, step, env, cursor)
    case Stopped(events, processed, stop) => Run(events, processed, stop)
    case Next(events, processed, env', cursor') =>
      var rest := SyncFrom(db, table, step, env', cursor');
      Run(events + rest.events, processed + rest.total, rest.stop)
  }

  /** `insert_data(database_id, table_name, ...)`: the loop from no cursor,
      transforming each item with `process_notion_item` for `table`. */
  function InsertData(db: string, table: string, env: Env): Run {
    SyncFrom(db, table, StepFor(table), env, None)
  }

  /** The per-item step of `insert_data` for `table`. */
  function StepFor(table: string): ItemStep {
    item => ItemEntry(item, table)
  }
}
