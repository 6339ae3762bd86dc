/** Whole runs of `insert_data` on particular scripts: a failed or empty
    first query, a page with an item that cannot be transformed, one and two
    successful pages, a retry after a failed upsert, and a script on which
    every upsert fails. */
module SyncRuns {
  import opened Wrappers
  import opened Json
  import opened Transform
  import opened StatusUpdate
  import opened Sync
  import opened SyncLog
  import opened SyncLemmas

  /** A page of results every one of which transforms for `table` and has
      an id. */
  predicate Clean(response: QueryResponse, table: string) {
    && response.Page? && response.results != []
    && forall i :: 0 <= i < |response.results| ==> ItemEntry(response.results[i], table).Ok?
  }

  /** Every element of `s` is `x`. */
  predicate Constant<T(==)>(s: seq<T>, x: T) {
    forall i :: 0 <= i < |s| ==> s[i] == x
  }

  lemma ConstantTail<T>(s: seq<T>, x: T)
    requires s != [] && Constant(s, x)
    ensures Constant(s[1..], x)
  {
  }

  lemma ConstantCons<T>(x: T, s: seq<T>)
    requires Constant(s, x)
    ensures Constant([x] + s, x)
  {
  }

  lemma Pair<T>(x: T, y: T)
    ensures [x] + [y] == [x, y]
  {
  }

  /** A clean page gives a batch with one id per result. */
  lemma CleanPageUpserts(response: QueryResponse, table: string)
    requires Clean(response, table)
    ensures Upsertable(response, StepFor(table))
    ensures |BuildBatch(response.results, StepFor(table)).value.ids| == |response.results|
  {
    assert forall i :: 0 <= i < |response.results| ==> StepFor(table)(response.results[i]).Ok?;
  }

  /** The first query of `insert_data` starts without a cursor, and every
      query it makes asks for the items whose Status is New. */
  lemma InsertDataQueriesNewItems(db: string, table: string, env: Env)
    ensures var ev := InsertData(db, table, env).events;
            && (ev != [] <==> env.queries != [])
            && (ev != [] ==> ev[0] == Queried(QueryCall(db, StatusEquals("Status", "New"), None), env.queries[0]))
            && QueriesUseNewFilter(ev, db)
  {
    FirstEvent(db, table, StepFor(table), env, None);
    QueriesUseNewFilterHolds(db, table, StepFor(table), env, None);
  }

  /** A failed first query, or one that finds no items, ends the run after
      that query: nothing is upserted or marked and the total stays zero. */
  lemma QueryFailureEndsRun(db: string, table: string, env: Env)
    requires env.queries != []
    requires env.queries[0].QueryFail? || env.queries[0].results == []
    ensures InsertData(db, table, env)
         == Run([Queried(QueryCall(db, NewItems, None), env.queries[0])], 0,
                if env.queries[0].QueryFail? then QueryFailed else NoResults)
  {
  }

  /** A step that raises on some result of the page being queried ends the
      run right after that query, with the error of the first result that
      raises. */
  lemma FailingStepEndsRun(db: string, table: string, step: ItemStep, env: Env, cursor: Option<string>, j: nat)
    requires env.queries != [] && env.queries[0].Page?
    requires j < |env.queries[0].results|
    requires step(env.queries[0].results[j]).Err?
    ensures var r := SyncFrom(db, table, step, env, cursor);
            var results := env.queries[0].results;
            && r.events == [Queried(QueryCall(db, NewItems, cursor), env.queries[0])]
            && r.total == 0
            && exists i :: 0 <= i <= j && step(results[i]).Err? && r.stop == Raised(step(results[i]).error)
                           && forall k :: 0 <= k < i ==> step(results[k]).Ok?
  {
    var results := env.queries[0].results;
    var b := BuildBatch(results, step);
    assert b.Err?;
    var i :| 0 <= i < |results| && step(results[i]) == Err(b.error)
             && forall k :: 0 <= k < i ==> step(results[k]).Ok?;
    assert i <= j;
  }

  /** An item of the first page that cannot be transformed, or has no id,
      aborts the whole run: the exception of the first such item escapes,
      nothing is upserted or marked, and no later page is queried. */
  lemma BadItemAbortsRun(db: string, table: string, env: Env, j: nat)
    requires env.queries != [] && env.queries[0].Page?
    requires j < |env.queries[0].results|
    requires ItemEntry(env.queries[0].results[j], table).Err?
    ensures var r := InsertData(db, table, env);
            var results := env.queries[0].results;
            && r.events == [Queried(QueryCall(db, NewItems, None), env.queries[0])]
            && r.total == 0
            && exists i :: 0 <= i <= j && ItemEntry(results[i], table).Err?
                           && r.stop == Raised(ItemEntry(results[i], table).error)
                           && forall k :: 0 <= k < i ==> ItemEntry(results[k], table).Ok?
  {
    var results := env.queries[0].results;
    var step := StepFor(table);
    assert step(results[j]) == ItemEntry(results[j], table);
    FailingStepEndsRun(db, table, step, env, None, j);
    var i :| 0 <= i <= j && step(results[i]).Err? && InsertData(db, table, env).stop == Raised(step(results[i]).error)
             && forall k :: 0 <= k < i ==> step(results[k]).Ok?;
    assert step(results[i]) == ItemEntry(results[i], table);
    assert forall k :: 0 <= k < i ==> step(results[k]) == ItemEntry(results[k], table);
  }

  /** In particular, an item of the first page with an empty title array
      aborts the run, whatever the table. */
  lemma EmptyTitleAbortsRun(db: string, table: string, env: Env, j: nat)
    requires env.queries != [] && env.queries[0].Page?
    requires j < |env.queries[0].results|
    requires Follow(env.queries[0].results[j], TitleArrayPath) == Ok(Arr([]))
    ensures var r := InsertData(db, table, env);
            && r.events == [Queried(QueryCall(db, NewItems, None), env.queries[0])]
            && r.total == 0 && r.stop.Raised?
  {
    EmptyTitleFails(env.queries[0].results[j], table);
    BadItemAbortsRun(db, table, env, j);
  }

  /** And for papers, so does a readable item with a date whose authors array
      is empty. */
  lemma EmptyAuthorsAbortsPapersRun(db: string, env: Env, j: nat)
    requires env.queries != [] && env.queries[0].Page?
    requires j < |env.queries[0].results|
    requires BaseReadable(env.queries[0].results[j])
    requires Follow(env.queries[0].results[j], DatePath).Ok?
    requires Follow(env.queries[0].results[j], AuthorsArrayPath) == Ok(Arr([]))
    ensures var r := InsertData(db, PapersTable, env);
            && r.events == [Queried(QueryCall(db, NewItems, None), env.queries[0])]
            && r.total == 0 && r.stop.Raised?
  {
    EmptyAuthorsFails(env.queries[0].results[j]);
    BadItemAbortsRun(db, PapersTable, env, j);
  }

  /** A pass whose upsert succeeds on a page without more is the last one:
      one query from `cursor`, one successful upsert, the page's ids counted. */
  lemma LastPageRun(db: string, table: string, step: ItemStep, env: Env, cursor: Option<string>)
    requires ReachesUpsert(env, step) && env.upserts[0] == UpsertOk && !env.queries[0].hasMore
    ensures var r := SyncFrom(db, table, step, env, cursor);
            && Cursors(r.events) == [cursor] && Outcomes(r.events) == [UpsertOk]
            && r.total == |BuildBatch(env.queries[0].results, step).value.ids|
            && r.total == MarkedCount(r.events)
            && r.stop == LastPage
  {
    FinalCounts(db, table, step, env, cursor);
  }

  /** A clean first page with no more after it: `insert_data` queries exactly
      once, upserts once and counts every result. */
  lemma SinglePageRun(db: string, table: string, env: Env)
    requires env.queries != [] && env.upserts != []
    requires Clean(env.queries[0], table) && !env.queries[0].hasMore
    requires env.upserts[0] == UpsertOk
    ensures var r := InsertData(db, table, env);
            && Cursors(r.events) == [None] && Outcomes(r.events) == [UpsertOk]
            && r.total == |env.queries[0].results| && r.stop == LastPage
  {
    CleanPageUpserts(env.queries[0], table);
    LastPageRun(db, table, StepFor(table), env, None);
  }

  /** Two upsertable pages from `cursor`, the first of which has more: the
      second query starts at the first page's `next_cursor`, both upserts
      succeed and both pages' ids count. */
  lemma TwoPagesFrom(db: string, table: string, step: ItemStep, env: Env, cursor: Option<string>)
    requires |env.queries| >= 2 && |env.upserts| >= 2
    requires Upsertable(env.queries[0], step) && env.queries[0].hasMore
    requires Upsertable(env.queries[1], step) && !env.queries[1].hasMore
    requires env.upserts[0] == UpsertOk && env.upserts[1] == UpsertOk
    ensures var r := SyncFrom(db, table, step, env, cursor);
            && Cursors(r.events) == [cursor, env.queries[0].nextCursor]
            && Outcomes(r.events) == [UpsertOk, UpsertOk]
            && r.total == |BuildBatch(env.queries[0].results, step).value.ids|
                        + |BuildBatch(env.queries[1].results, step).value.ids|
            && r.stop == LastPage
  {
    var next := env.queries[0].nextCursor;
    PassCounts(db, table, step, env, cursor);
    assert NextCursor(env, step, cursor) == next;
    assert Later(env).queries[0] == env.queries[1] && Later(env).upserts[0] == UpsertOk;
    LastPageRun(db, table, step, Later(env), next);
    Pair(cursor, next);
    Pair(UpsertOk, UpsertOk);
  }

  /** Two clean pages, the first of which has more: `insert_data` queries
      twice, the second time from the first page's `next_cursor`, and counts
      every result of both pages. */
  lemma TwoPageRun(db: string, table: string, env: Env)
    requires |env.queries| >= 2 && |env.upserts| >= 2
    requires Clean(env.queries[0], table) && env.queries[0].hasMore
    requires Clean(env.queries[1], table) && !env.queries[1].hasMore
    requires env.upserts[0] == UpsertOk && env.upserts[1] == UpsertOk
    ensures var r := InsertData(db, table, env);
            && Cursors(r.events) == [None, env.queries[0].nextCursor]
            && Outcomes(r.events) == [UpsertOk, UpsertOk]
            && r.total == |env.queries[0].results| + |env.queries[1].results|
            && r.stop == LastPage
  {
    CleanPageUpserts(env.queries[0], table);
    CleanPageUpserts(env.queries[1], table);
    TwoPagesFrom(db, table, StepFor(table), env, None);
  }

  /** An upsertable page whose upsert fails is queried again from the same
      cursor; when the retry succeeds on a page without more, only the
      retried page's ids are marked and counted. */
  lemma RetryFrom(db: string, table: string, step: ItemStep, env: Env, cursor: Option<string>)
    requires |env.queries| >= 2 && |env.upserts| >= 2
    requires Upsertable(env.queries[0], step)
    requires Upsertable(env.queries[1], step) && !env.queries[1].hasMore
    requires env.upserts[0] == UpsertFail && env.upserts[1] == UpsertOk
    ensures var r := SyncFrom(db, table, step, env, cursor);
            && Cursors(r.events) == [cursor, cursor]
            && Outcomes(r.events) == [UpsertFail, UpsertOk]
            && r.total == |BuildBatch(env.queries[1].results, step).value.ids| == MarkedCount(r.events)
            && r.stop == LastPage
  {
    PassCounts(db, table, step, env, cursor);
    assert NextCursor(env, step, cursor) == cursor;
    assert Later(env).queries[0] == env.queries[1] && Later(env).upserts[0] == UpsertOk;
    LastPageRun(db, table, step, Later(env), cursor);
    Pair(cursor, cursor);
    Pair(UpsertFail, UpsertOk);
  }

  /** A clean page whose upsert fails is queried again without a cursor;
      its ids are not marked and do not count. */
  lemma RetryAfterFailedUpsert(db: string, table: string, env: Env)
    requires |env.queries| >= 2 && |env.upserts| >= 2
    requires Clean(env.queries[0], table)
    requires Clean(env.queries[1], table) && !env.queries[1].hasMore
    requires env.upserts[0] == UpsertFail && env.upserts[1] == UpsertOk
    ensures var r := InsertData(db, table, env);
            && Cursors(r.events) == [None, None]
            && Outcomes(r.events) == [UpsertFail, UpsertOk]
            && r.total == |env.queries[1].results| == MarkedCount(r.events)
            && r.stop == LastPage
  {
    CleanPageUpserts(env.queries[0], table);
    CleanPageUpserts(env.queries[1], table);
    RetryFrom(db, table, StepFor(table), env, None);
  }

  /** If the same upsertable page keeps coming back and every upsert fails,
      the loop never leaves on its own: it re-queries from the same cursor
      until the script runs out, marks nothing and counts nothing. */
  lemma {:induction false} RepeatedUpsertFailureNeverStops(db: string, table: string, step: ItemStep, env: Env,
                                                          cursor: Option<string>, page: QueryResponse)
    requires Upsertable(page, step)
    requires Constant(env.queries, page)
    requires |env.upserts| >= |env.queries| && Constant(env.upserts, UpsertFail)
    ensures var r := SyncFrom(db, table, step, env, cursor);
            && r.stop == ScriptExhausted && r.total == 0 && MarkedCount(r.events) == 0
            && |Cursors(r.events)| == |env.queries| && Constant(Cursors(r.events), cursor)
    decreases |env.queries|
  {
    if env.queries == [] {
      FinalCounts(db, table, step, env, cursor);
      return;
    }
    assert Continues(env, step) && NextCursor(env, step, cursor) == cursor;
    ConstantTail(env.queries, page);
    ConstantTail(env.upserts, UpsertFail);
    RepeatedUpsertFailureNeverStops(db, table, step, Later(env), cursor, page);
    PassCounts(db, table, step, env, cursor);
    ConstantCons(cursor, Cursors(SyncFrom(db, table, step, Later(env), cursor).events));
  }
}
