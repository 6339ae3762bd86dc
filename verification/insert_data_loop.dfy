/** `insert_data` as an imperative loop: a `while True` loop with `continue`
    over mutable `start_cursor` and `total_processed`, where each `break`
    becomes a `return` of the run (only a log line follows the loop), and the
    inner `for` loop over a page's results. Both are proved to compute exactly
    what the recursive model computes. */
module InsertDataLoop {
  import opened Wrappers
  import opened Json
  import opened Transform
  import opened StatusUpdate
  import opened Sync

  /** If every item before `k` went through and item `k` raises, the page
      fails with item `k`'s error. */
  lemma FirstFailure(results: seq<Json>, step: ItemStep, k: nat)
    requires k < |results|
    requires BuildBatch(results[..k], step).Ok?
    requires step(results[k]).Err?
    ensures BuildBatch(results, step) == Err(step(results[k]).error)
  {
    forall j | 0 <= j < k
      ensures step(results[j]).Ok?
    {
      assert results[..k][j] == results[j];
    }
    var r := BuildBatch(results, step);
    var i :| 0 <= i < |results| && step(results[i]) == Err(r.error)
             && forall j :: 0 <= j < i ==> step(results[j]).Ok?;
    assert i == k;
  }

  /** The inner loop: for each item, transform it and then read its id;
      the first exception leaves the loop. */
  method CollectBatch(results: seq<Json>, table: string) returns (r: Result<Batch, Error>)
    ensures r == BuildBatch(results, StepFor(table))
  {
    var dataBatch: seq<Row> := [];
    var updatedPages: seq<Json> := [];
    var k := 0;
    while k < |results|
      invariant 0 <= k <= |results|
      invariant BuildBatch(results[..k], StepFor(table)) == Ok(Batch(dataBatch, updatedPages))
    {
      var data := ProcessItem(results[k], table);
      if data.Err? {
        FirstFailure(results, StepFor(table), k);
        return Err(data.error);
      }
      var id := Get(results[k], "id");
      if id.Err? {
        FirstFailure(results, StepFor(table), k);
        return Err(id.error);
      }
      assert results[..k + 1][..k] == results[..k];
      dataBatch := dataBatch + [data.value];
      updatedPages := updatedPages + [id.value];
      k := k + 1;
    }
    assert results[..k] == results;
    r := Ok(Batch(dataBatch, updatedPages));
  }

  /** The effects logged so far followed by the rest of a run. */
  function Prepend(events: seq<Event>, total: nat, rest: Run): Run {
    Run(events + rest.events, total + rest.total, rest.stop)
  }

  /** One pass of the loop from `cursor`: how the run from here splits into
      the pass's own effects and the run from the next pass. */
  lemma OnePass(db: string, table: string, step: ItemStep, env: Env, cursor: Option<string>)
    ensures env.queries == [] ==> SyncFrom(db, table, step, env, cursor) == Run([], 0, ScriptExhausted)
    ensures env.queries != [] ==>
      var q := Queried(QueryCall(db, NewItems, cursor), env.queries[0]);
      var run := SyncFrom(db, table, step, env, cursor);
      && (env.queries[0].QueryFail? ==> run == Run([q], 0, QueryFailed))
      && (env.queries[0].Page? && env.queries[0].results == [] ==> run == Run([q], 0, NoResults))
      && (env.queries[0].Page? && env.queries[0].results != [] ==>
            var b := BuildBatch(env.queries[0].results, step);
            && (b.Err? ==> run == Run([q], 0, Raised(b.error)))
            && (b.Ok? && env.upserts == [] ==> run == Run([q], 0, ScriptExhausted))
            && (b.Ok? && env.upserts != [] ==>
                  var later := Later(env);
                  var u := Upserted(table, b.value.rows, env.upserts[0]);
                  var m := Marked(b.value.ids, UpdateStatus(b.value.ids, env.failingUpdates));
                  && (env.upserts[0] == UpsertFail ==>
                        run == Prepend([q, u], 0, SyncFrom(db, table, step, later, cursor)))
                  && (env.upserts[0] == UpsertOk && env.queries[0].hasMore ==>
                        run == Prepend([q, u, m], |b.value.ids|,
                                       SyncFrom(db, table, step, later, env.queries[0].nextCursor)))
                  && (env.upserts[0] == UpsertOk && !env.queries[0].hasMore ==>
                        run == Run([q, u, m], |b.value.ids|, LastPage))))
  {
  }

  /** Prepending is associative with sequence concatenation. */
  lemma PrependTwice(events: seq<Event>, total: nat, head: seq<Event>, n: nat, rest: Run)
    ensures Prepend(events, total, Prepend(head, n, rest)) == Prepend(events + head, total + n, rest)
  {
    assert events + (head + rest.events) == events + head + rest.events;
  }

  /** The outer loop. The scripted environment is consumed from the front,
      one query response per pass and one upsert outcome per upsert. */
  method RunInsertData(db: string, table: string, env: Env) returns (r: Run)
    ensures r == InsertData(db, table, env)
  {
    var startCursor: Option<string> := None;
    var totalProcessed: nat := 0;
    var events: seq<Event> := [];
    var queries := env.queries;
    var upserts := env.upserts;
    while true
      invariant Prepend(events, totalProcessed,
                        SyncFrom(db, table, StepFor(table), Env(queries, upserts, env.failingUpdates), startCursor))
                == InsertData(db, table, env)
      decreases |queries|
    {
      OnePass(db, table, StepFor(table), Env(queries, upserts, env.failingUpdates), startCursor);
      if queries == [] {
        return Run(events, totalProcessed, ScriptExhausted);
      }
      var response := queries[0];
      var queried := Queried(QueryCall(db, NewItems, startCursor), response);
      if response.QueryFail? {
        return Run(events + [queried], totalProcessed, QueryFailed);
      }
      if response.results == [] {
        return Run(events + [queried], totalProcessed, NoResults);
      }
      var batch := CollectBatch(response.results, table);
      if batch.Err? {
        return Run(events + [queried], totalProcessed, Raised(batch.error));
      }
      if upserts == [] {
        return Run(events + [queried], totalProcessed, ScriptExhausted);
      }
      var outcome := upserts[0];
      queries := queries[1..];
      upserts := upserts[1..];
      var upserted := Upserted(table, batch.value.rows, outcome);
      if outcome == UpsertFail {
        PrependTwice(events, totalProcessed, [queried, upserted], 0,
                     SyncFrom(db, table, StepFor(table), Env(queries, upserts, env.failingUpdates), startCursor));
        events := events + [queried, upserted];
        continue;
      }
      var marked := Marked(batch.value.ids, UpdateStatus(batch.value.ids, env.failingUpdates));
      if !response.hasMore {
        return Run(events + [queried, upserted, marked], totalProcessed + |batch.value.ids|, LastPage);
      }
      PrependTwice(events, totalProcessed, [queried, upserted, marked], |batch.value.ids|,
                   SyncFrom(db, table, StepFor(table), Env(queries, upserts, env.failingUpdates), response.nextCursor));
      events := events + [queried, upserted, marked];
      totalProcessed := totalProcessed + |batch.value.ids|;
      startCursor := response.nextCursor;
    }
  }
}
