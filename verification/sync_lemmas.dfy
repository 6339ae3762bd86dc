/** The log properties proved of `SyncFrom` for every scripted environment
    and every starting cursor, each by induction on the remaining script. */
module SyncLemmas {
  import opened Wrappers
  import opened Json
  import opened Transform
  import opened StatusUpdate
  import opened Sync
  import opened SyncLog
  import opened LogRounds

  /** One pass that goes round again: a round from `cursor`, then the run
      from the rest of the script and the next cursor. */
  lemma Unfold(db: string, table: string, step: ItemStep, env: Env, cursor: Option<string>)
    requires Continues(env, step)
    ensures var r := SyncFrom(db, table, step, env, cursor);
            var rest := SyncFrom(db, table, step, Later(env), NextCursor(env, step, cursor));
            var k := IterationLength(env, step);
            var batch := BuildBatch(env.queries[0].results, step).value;
            && |r.events| == k + |rest.events|
            && r.events == r.events[..k] + rest.events
            && Round(r.events[..k], db, table, step, env.failingUpdates, cursor, NextCursor(env, step, cursor))
            && r.events[0].response == env.queries[0]
            && r.events[1].outcome == env.upserts[0]
            && r.total == (if k == 3 then |batch.ids| else 0) + rest.total
            && r.stop == rest.stop
  {
    var r := SyncFrom(db, table, step, env, cursor);
    var k := IterationLength(env, step);
    assert r.events[..k] == Iterate(db, table, step, env, cursor).events;
  }

  /** A pass that does not go round again is the whole run: nothing when the
      script is empty, the query alone when it yields nothing to upsert or no
      upsert response is left, and query, upsert and mark on a successfully
      upserted page that has no more. */
  lemma Final(db: string, table: string, step: ItemStep, env: Env, cursor: Option<string>)
    requires !Continues(env, step)
    ensures var ev := SyncFrom(db, table, step, env, cursor).events;
            if env.queries == [] then ev == []
            else if !ReachesUpsert(env, step) then
              ev == [Queried(QueryCall(db, NewItems, cursor), env.queries[0])]
            else
              var batch := BuildBatch(env.queries[0].results, step).value;
              && env.upserts[0] == UpsertOk && !env.queries[0].hasMore
              && ev == [Queried(QueryCall(db, NewItems, cursor), env.queries[0]),
                        Upserted(table, batch.rows, UpsertOk),
                        Marked(batch.ids, UpdateStatus(batch.ids, env.failingUpdates))]
    ensures SyncFrom(db, table, step, env, cursor).stop == ScriptExhausted ==>
              env.queries == [] || (Upsertable(env.queries[0], step) && env.upserts == [])
  {
  }

  /** A run logs something exactly when the script has a query response, and
      then starts with the query from the given cursor. */
  lemma FirstEvent(db: string, table: string, step: ItemStep, env: Env, cursor: Option<string>)
    ensures var ev := SyncFrom(db, table, step, env, cursor).events;
            && (ev != [] <==> env.queries != [])
            && (ev != [] ==> ev[0] == Queried(QueryCall(db, NewItems, cursor), env.queries[0]))
            && StartsAt(ev, cursor)
  {
  }

  /** Every log property holds of the log of a pass that ends the run. */
  lemma FinalHolds(db: string, table: string, step: ItemStep, env: Env, cursor: Option<string>)
    requires !Continues(env, step)
    ensures var ev := SyncFrom(db, table, step, env, cursor).events;
            && QueriesUseNewFilter(ev, db) && UpsertsCarryTheirPage(ev, table, step)
               && MarksFollowSuccessfulUpserts(ev, step, env.failingUpdates) && SuccessfulUpsertsAreMarked(ev)
               && FailedUpsertReusesCursor(ev) && MarkedPageAdvancesCursor(ev)
               && LastPageEnds(ev) && UnusableQueryEnds(ev, step)
  {
    var ev := SyncFrom(db, table, step, env, cursor).events;
    Final(db, table, step, env, cursor);
    if env.queries == [] {
    } else if !ReachesUpsert(env, step) {
      QueryOnlyLog(ev, db, table, step, env.failingUpdates, cursor);
    } else {
      LastRoundLog(ev, db, table, step, env.failingUpdates, cursor);
    }
  }

  /** Every query of a run uses the Status == New filter on its database. */
  lemma {:induction false} QueriesUseNewFilterHolds(db: string, table: string, step: ItemStep, env: Env, cursor: Option<string>)
    ensures QueriesUseNewFilter(SyncFrom(db, table, step, env, cursor).events, db)
    decreases |env.queries|
  {
    if !Continues(env, step) {
      FinalHolds(db, table, step, env, cursor);
      return;
    }
    var ev := SyncFrom(db, table, step, env, cursor).events;
    var next := NextCursor(env, step, cursor);
    var k := IterationLength(env, step);
    Unfold(db, table, step, env, cursor);
    QueriesUseNewFilterHolds(db, table, step, Later(env), next);
    QueriesUseNewFilterShift(ev[..k], SyncFrom(db, table, step, Later(env), next).events,
                             db, table, step, env.failingUpdates, cursor, next);
  }

  /** Every upsert of a run carries the transformed results of the query
      just before it. */
  lemma {:induction false} UpsertsCarryTheirPageHolds(db: string, table: string, step: ItemStep, env: Env, cursor: Option<string>)
    ensures UpsertsCarryTheirPage(SyncFrom(db, table, step, env, cursor).events, table, step)
    decreases |env.queries|
  {
    if !Continues(env, step) {
      FinalHolds(db, table, step, env, cursor);
      return;
    }
    var ev := SyncFrom(db, table, step, env, cursor).events;
    var next := NextCursor(env, step, cursor);
    var k := IterationLength(env, step);
    Unfold(db, table, step, env, cursor);
    UpsertsCarryTheirPageHolds(db, table, step, Later(env), next);
    FirstEvent(db, table, step, Later(env), next);
    UpsertsCarryTheirPageShift(ev[..k], SyncFrom(db, table, step, Later(env), next).events,
                               db, table, step, env.failingUpdates, cursor, next);
  }

  /** A run marks ids only right after a successful upsert of their page. */
  lemma {:induction false} MarksFollowSuccessfulUpsertsHolds(db: string, table: string, step: ItemStep, env: Env, cursor: Option<string>)
    ensures MarksFollowSuccessfulUpserts(SyncFrom(db, table, step, env, cursor).events, step, env.failingUpdates)
    decreases |env.queries|
  {
    if !Continues(env, step) {
      FinalHolds(db, table, step, env, cursor);
    } else {
      MarksFollowSuccessfulUpsertsHolds(db, table, step, Later(env), NextCursor(env, step, cursor));
      MarksFollowSuccessfulUpsertsStep(db, table, step, env, cursor);
    }
  }

  lemma MarksFollowSuccessfulUpsertsStep(db: string, table: string, step: ItemStep, env: Env, cursor: Option<string>)
    requires Continues(env, step)
    requires MarksFollowSuccessfulUpserts(SyncFrom(db, table, step, Later(env), NextCursor(env, step, cursor)).events,
                                          step, env.failingUpdates)
    ensures MarksFollowSuccessfulUpserts(SyncFrom(db, table, step, env, cursor).events, step, env.failingUpdates)
  {
    var ev := SyncFrom(db, table, step, env, cursor).events;
    var next := NextCursor(env, step, cursor);
    var k := IterationLength(env, step);
    Unfold(db, table, step, env, cursor);
    FirstEvent(db, table, step, Later(env), next);
    MarksFollowSuccessfulUpsertsShift(ev[..k], SyncFrom(db, table, step, Later(env), next).events,
                                      db, table, step, env.failingUpdates, cursor, next);
  }


  /** Every successful upsert of a run is followed by marking its ids. */
  lemma {:induction false} SuccessfulUpsertsAreMarkedHolds(db: string, table: string, step: ItemStep, env: Env, cursor: Option<string>)
    ensures SuccessfulUpsertsAreMarked(SyncFrom(db, table, step, env, cursor).events)
    decreases |env.queries|
  {
    if !Continues(env, step) {
      FinalHolds(db, table, step, env, cursor);
      return;
    }
    var ev := SyncFrom(db, table, step, env, cursor).events;
    var next := NextCursor(env, step, cursor);
    var k := IterationLength(env, step);
    Unfold(db, table, step, env, cursor);
    SuccessfulUpsertsAreMarkedHolds(db, table, step, Later(env), next);
    SuccessfulUpsertsAreMarkedShift(ev[..k], SyncFrom(db, table, step, Later(env), next).events,
                                    db, table, step, env.failingUpdates, cursor, next);
  }

  /** A query of a run that is not its last event is followed by an upsert. */
  lemma {:induction false} QueriesLeadToUpsertsHolds(db: string, table: string, step: ItemStep, env: Env, cursor: Option<string>)
    ensures QueriesLeadToUpserts(SyncFrom(db, table, step, env, cursor).events)
    decreases |env.queries|
  {
    var ev := SyncFrom(db, table, step, env, cursor).events;
    if !Continues(env, step) {
      Final(db, table, step, env, cursor);
      if ReachesUpsert(env, step) {
        LastRoundLeadsToUpserts(ev, db, table, step, env.failingUpdates, cursor);
      }
      return;
    }
    var next := NextCursor(env, step, cursor);
    var k := IterationLength(env, step);
    Unfold(db, table, step, env, cursor);
    QueriesLeadToUpsertsHolds(db, table, step, Later(env), next);
    QueriesLeadToUpsertsShift(ev[..k], SyncFrom(db, table, step, Later(env), next).events,
                              db, table, step, env.failingUpdates, cursor, next);
  }

  /** After a failed upsert, the next query of a run reuses the cursor. */
  lemma {:induction false} FailedUpsertReusesCursorHolds(db: string, table: string, step: ItemStep, env: Env, cursor: Option<string>)
    ensures FailedUpsertReusesCursor(SyncFrom(db, table, step, env, cursor).events)
    decreases |env.queries|
  {
    if !Continues(env, step) {
      FinalHolds(db, table, step, env, cursor);
      return;
    }
    var ev := SyncFrom(db, table, step, env, cursor).events;
    var next := NextCursor(env, step, cursor);
    var k := IterationLength(env, step);
    Unfold(db, table, step, env, cursor);
    FailedUpsertReusesCursorHolds(db, table, step, Later(env), next);
    FirstEvent(db, table, step, Later(env), next);
    FailedUpsertReusesCursorShift(ev[..k], SyncFrom(db, table, step, Later(env), next).events,
                                  db, table, step, env.failingUpdates, cursor, next);
  }

  /** After a marked page, the next query of a run starts at that page's
      `next_cursor`, and only if the page said it had more. */
  lemma {:induction false} MarkedPageAdvancesCursorHolds(db: string, table: string, step: ItemStep, env: Env, cursor: Option<string>)
    ensures MarkedPageAdvancesCursor(SyncFrom(db, table, step, env, cursor).events)
    decreases |env.queries|
  {
    if !Continues(env, step) {
      FinalHolds(db, table, step, env, cursor);
      return;
    }
    var ev := SyncFrom(db, table, step, env, cursor).events;
    var next := NextCursor(env, step, cursor);
    var k := IterationLength(env, step);
    Unfold(db, table, step, env, cursor);
    MarkedPageAdvancesCursorHolds(db, table, step, Later(env), next);
    MarksFollowSuccessfulUpsertsHolds(db, table, step, Later(env), next);
    FirstEvent(db, table, step, Later(env), next);
    MarkedPageAdvancesCursorShift(ev[..k], SyncFrom(db, table, step, Later(env), next).events,
                                  db, table, step, env.failingUpdates, cursor, next);
  }

  /** A run ends right after marking a page that has no more. */
  lemma {:induction false} LastPageEndsHolds(db: string, table: string, step: ItemStep, env: Env, cursor: Option<string>)
    ensures LastPageEnds(SyncFrom(db, table, step, env, cursor).events)
    decreases |env.queries|
  {
    if !Continues(env, step) {
      FinalHolds(db, table, step, env, cursor);
      return;
    }
    var ev := SyncFrom(db, table, step, env, cursor).events;
    var next := NextCursor(env, step, cursor);
    var k := IterationLength(env, step);
    Unfold(db, table, step, env, cursor);
    LastPageEndsHolds(db, table, step, Later(env), next);
    MarksFollowSuccessfulUpsertsHolds(db, table, step, Later(env), next);
    LastPageEndsShift(ev[..k], SyncFrom(db, table, step, Later(env), next).events,
                      db, table, step, env.failingUpdates, cursor, next);
  }

  /** A query that yields nothing to upsert is the last event of a run. */
  lemma {:induction false} UnusableQueryEndsHolds(db: string, table: string, step: ItemStep, env: Env, cursor: Option<string>)
    ensures UnusableQueryEnds(SyncFrom(db, table, step, env, cursor).events, step)
    decreases |env.queries|
  {
    if !Continues(env, step) {
      FinalHolds(db, table, step, env, cursor);
    } else {
      UnusableQueryEndsHolds(db, table, step, Later(env), NextCursor(env, step, cursor));
      UnusableQueryEndsStep(db, table, step, env, cursor);
    }
  }

  lemma UnusableQueryEndsStep(db: string, table: string, step: ItemStep, env: Env, cursor: Option<string>)
    requires Continues(env, step)
    requires UnusableQueryEnds(SyncFrom(db, table, step, Later(env), NextCursor(env, step, cursor)).events, step)
    ensures UnusableQueryEnds(SyncFrom(db, table, step, env, cursor).events, step)
  {
    var ev := SyncFrom(db, table, step, env, cursor).events;
    var next := NextCursor(env, step, cursor);
    var k := IterationLength(env, step);
    Unfold(db, table, step, env, cursor);
    UnusableQueryEndsShift(ev[..k], SyncFrom(db, table, step, Later(env), next).events,
                           db, table, step, env.failingUpdates, cursor, next);
  }


  lemma AppendAssoc<T>(x: seq<T>, y: seq<T>, z: seq<T>)
    ensures x + (y + z) == (x + y) + z
  {
  }

  lemma {:induction false} MarkedCountAppend(a: seq<Event>, b: seq<Event>)
    ensures MarkedCount(a + b) == MarkedCount(a) + MarkedCount(b)
    decreases |a|
  {
    if a == [] {
      assert a + b == b;
    } else {
      assert (a + b)[1..] == a[1..] + b;
      MarkedCountAppend(a[1..], b);
    }
  }

  lemma {:induction false} ResponsesAppend(a: seq<Event>, b: seq<Event>)
    ensures Responses(a + b) == Responses(a) + Responses(b)
    decreases |a|
  {
    if a == [] {
      assert a + b == b;
    } else {
      var h := if a[0].Queried? then [a[0].response] else [];
      assert (a + b)[0] == a[0] && (a + b)[1..] == a[1..] + b;
      assert Responses(a + b) == h + Responses(a[1..] + b);
      ResponsesAppend(a[1..], b);
      AppendAssoc(h, Responses(a[1..]), Responses(b));
    }
  }


  lemma {:induction false} OutcomesAppend(a: seq<Event>, b: seq<Event>)
    ensures Outcomes(a + b) == Outcomes(a) + Outcomes(b)
    decreases |a|
  {
    if a == [] {
      assert a + b == b;
    } else {
      var h := if a[0].Upserted? then [a[0].outcome] else [];
      assert (a + b)[0] == a[0] && (a + b)[1..] == a[1..] + b;
      assert Outcomes(a + b) == h + Outcomes(a[1..] + b);
      OutcomesAppend(a[1..], b);
      AppendAssoc(h, Outcomes(a[1..]), Outcomes(b));
    }
  }


  lemma {:induction false} CursorsAppend(a: seq<Event>, b: seq<Event>)
    ensures Cursors(a + b) == Cursors(a) + Cursors(b)
    decreases |a|
  {
    if a == [] {
      assert a + b == b;
    } else {
      var h := if a[0].Queried? then [a[0].call.startCursor] else [];
      assert (a + b)[0] == a[0] && (a + b)[1..] == a[1..] + b;
      assert Cursors(a + b) == h + Cursors(a[1..] + b);
      CursorsAppend(a[1..], b);
      AppendAssoc(h, Cursors(a[1..]), Cursors(b));
    }
  }


  /** The counts of the logs one iteration can leave. */
  lemma IterationCounts(a: Event, b: Event, c: Event)
    requires a.Queried? && b.Upserted? && c.Marked?
    ensures MarkedCount([a]) == 0 && Responses([a]) == [a.response] && Outcomes([a]) == []
    ensures Cursors([a]) == [a.call.startCursor]
    ensures MarkedCount([a, b]) == 0 && Responses([a, b]) == [a.response] && Outcomes([a, b]) == [b.outcome]
    ensures Cursors([a, b]) == [a.call.startCursor]
    ensures MarkedCount([a, b, c]) == |c.ids| && Responses([a, b, c]) == [a.response]
    ensures Outcomes([a, b, c]) == [b.outcome] && Cursors([a, b, c]) == [a.call.startCursor]
  {
    var e: seq<Event> := [];
    assert [a][1..] == e && [c][1..] == e;
    assert [a, b][1..] == [b] && [b][1..] == e;
    assert [a, b, c][1..] == [b, c] && [b, c][1..] == [c];
    assert MarkedCount([c]) == |c.ids| && Responses([c]) == [] && Outcomes([c]) == [] && Cursors([c]) == [];
    assert MarkedCount([b]) == 0 && Responses([b]) == [] && Outcomes([b]) == [b.outcome] && Cursors([b]) == [];
    assert MarkedCount([b, c]) == |c.ids| && Responses([b, c]) == [] && Outcomes([b, c]) == [b.outcome];
    assert Cursors([b, c]) == [];
  }

  /** The first events of an upserting iteration, as a sequence. */
  lemma IterationHead(db: string, table: string, step: ItemStep, env: Env, cursor: Option<string>)
    requires Continues(env, step)
    ensures var ev := SyncFrom(db, table, step, env, cursor).events;
            var k := IterationLength(env, step);
            && ev == ev[..k] + ev[k..]
            && ev[..k] == (if k == 2 then [ev[0], ev[1]] else [ev[0], ev[1], ev[2]])
            && ev[0].Queried? && ev[1].Upserted? && (k == 3 ==> ev[2].Marked?)
  {
    Unfold(db, table, step, env, cursor);
  }

  /** What the log of a pass that goes round again adds to the counts of the
      rest of the run: one query response from `cursor`, one upsert outcome,
      and the batch's ids when the upsert succeeded. */
  lemma PassCounts(db: string, table: string, step: ItemStep, env: Env, cursor: Option<string>)
    requires Continues(env, step)
    ensures var r := SyncFrom(db, table, step, env, cursor);
            var rest := SyncFrom(db, table, step, Later(env), NextCursor(env, step, cursor));
            var n := if env.upserts[0] == UpsertOk then |BuildBatch(env.queries[0].results, step).value.ids| else 0;
            && MarkedCount(r.events) == n + MarkedCount(rest.events)
            && r.total == n + rest.total
            && Responses(r.events) == [env.queries[0]] + Responses(rest.events)
            && Outcomes(r.events) == [env.upserts[0]] + Outcomes(rest.events)
            && Cursors(r.events) == [cursor] + Cursors(rest.events)
            && r.stop == rest.stop
  {
    var ev := SyncFrom(db, table, step, env, cursor).events;
    var rest := SyncFrom(db, table, step, Later(env), NextCursor(env, step, cursor)).events;
    var k := IterationLength(env, step);
    Unfold(db, table, step, env, cursor);
    IterationHead(db, table, step, env, cursor);
    var head := ev[..k];
    MarkedCountAppend(head, rest);
    ResponsesAppend(head, rest);
    OutcomesAppend(head, rest);
    CursorsAppend(head, rest);
    IterationCounts(ev[0], ev[1], if k == 3 then ev[2] else Marked([], []));
  }

  /** A run on an empty script logs nothing. */
  lemma FinalEmpty(db: string, table: string, step: ItemStep, env: Env, cursor: Option<string>)
    requires env.queries == []
    ensures SyncFrom(db, table, step, env, cursor) == Run([], 0, ScriptExhausted)
  {
  }

  /** A pass that stops before the upsert logs its query alone. */
  lemma FinalQueryOnly(db: string, table: string, step: ItemStep, env: Env, cursor: Option<string>)
    requires env.queries != [] && !ReachesUpsert(env, step)
    ensures var r := SyncFrom(db, table, step, env, cursor);
            && Responses(r.events) == [env.queries[0]] && Cursors(r.events) == [cursor]
            && Outcomes(r.events) == [] && MarkedCount(r.events) == 0 && r.total == 0
            && (r.stop == ScriptExhausted ==> env.upserts == [])
  {
    var ev := SyncFrom(db, table, step, env, cursor).events;
    Final(db, table, step, env, cursor);
    IterationCounts(ev[0], Upserted(table, [], UpsertOk), Marked([], []));
  }

  /** A pass that upserts a page without more successfully ends the run. */
  lemma FinalLastPage(db: string, table: string, step: ItemStep, env: Env, cursor: Option<string>)
    requires ReachesUpsert(env, step) && !Continues(env, step)
    ensures var r := SyncFrom(db, table, step, env, cursor);
            var n := |BuildBatch(env.queries[0].results, step).value.ids|;
            && env.upserts[0] == UpsertOk && !env.queries[0].hasMore
            && Responses(r.events) == [env.queries[0]] && Cursors(r.events) == [cursor]
            && Outcomes(r.events) == [env.upserts[0]] && MarkedCount(r.events) == n && r.total == n
            && r.stop == LastPage
  {
    var ev := SyncFrom(db, table, step, env, cursor).events;
    Final(db, table, step, env, cursor);
    IterationCounts(ev[0], ev[1], ev[2]);
  }

  /** The counts of the log of a pass that does not go round again, which is
      the whole run. */
  lemma FinalCounts(db: string, table: string, step: ItemStep, env: Env, cursor: Option<string>)
    requires !Continues(env, step)
    ensures var r := SyncFrom(db, table, step, env, cursor);
            var ev := r.events;
            && (env.queries == [] ==>
                  Responses(ev) == [] && Outcomes(ev) == [] && Cursors(ev) == [])
            && (env.queries != [] ==>
                  Responses(ev) == [env.queries[0]] && Cursors(ev) == [cursor])
            && (env.queries != [] && !ReachesUpsert(env, step) ==> Outcomes(ev) == [])
            && (ReachesUpsert(env, step) ==>
                  Outcomes(ev) == [env.upserts[0]] && env.upserts[0] == UpsertOk && !env.queries[0].hasMore)
            && (r.stop == ScriptExhausted ==> Responses(ev) == env.queries || Outcomes(ev) == env.upserts)
            && r.total == MarkedCount(ev)
            && r.total == (if ReachesUpsert(env, step) then |BuildBatch(env.queries[0].results, step).value.ids| else 0)
  {
    if env.queries == [] {
      FinalEmpty(db, table, step, env, cursor);
    } else if !ReachesUpsert(env, step) {
      FinalQueryOnly(db, table, step, env, cursor);
    } else {
      FinalLastPage(db, table, step, env, cursor);
    }
  }

  /** `total_processed` is the number of ids handed to the status updater:
      a page counts only once its upsert succeeded, whatever its status
      updates do. */
  lemma {:induction false} TotalCountsMarkedIds(db: string, table: string, step: ItemStep, env: Env, cursor: Option<string>)
    ensures var r := SyncFrom(db, table, step, env, cursor);
            r.total == MarkedCount(r.events)
    decreases |env.queries|
  {
    if !Continues(env, step) {
      FinalCounts(db, table, step, env, cursor);
    } else {
      TotalCountsMarkedIds(db, table, step, Later(env), NextCursor(env, step, cursor));
      PassCounts(db, table, step, env, cursor);
    }
  }

  /** The run consumes the scripted responses in call order: the query
      responses it logged are a prefix of the query script, and likewise the
      upsert outcomes. In particular a run issues at most as many queries as
      the script has responses. */
  lemma {:induction false} ScriptConsumedInOrder(db: string, table: string, step: ItemStep, env: Env, cursor: Option<string>)
    ensures var ev := SyncFrom(db, table, step, env, cursor).events;
            Responses(ev) <= env.queries && Outcomes(ev) <= env.upserts
    decreases |env.queries|
  {
    var ev := SyncFrom(db, table, step, env, cursor).events;
    if !Continues(env, step) {
      FinalCounts(db, table, step, env, cursor);
      if env.queries != [] {
        ConsPrefix(env.queries, []);
      }
      if ReachesUpsert(env, step) {
        ConsPrefix(env.upserts, []);
      }
      return;
    }
    var rest := SyncFrom(db, table, step, Later(env), NextCursor(env, step, cursor)).events;
    ScriptConsumedInOrder(db, table, step, Later(env), NextCursor(env, step, cursor));
    PassCounts(db, table, step, env, cursor);
    ConsPrefix(env.queries, Responses(rest));
    ConsPrefix(env.upserts, Outcomes(rest));
  }

  /** A prefix of a sequence's tail, behind the sequence's head, is a prefix
      of the sequence. */
  lemma ConsPrefix<T>(s: seq<T>, a: seq<T>)
    requires s != [] && a <= s[1..]
    ensures [s[0]] + a <= s
  {
    assert [s[0]] + a == s[..|a| + 1];
  }

  /** The loop only ends for want of a scripted answer once every query
      response or every upsert outcome of the script has been used. */
  lemma {:induction false} ExhaustionNeedsWholeScript(db: string, table: string, step: ItemStep, env: Env, cursor: Option<string>)
    ensures var r := SyncFrom(db, table, step, env, cursor);
            r.stop == ScriptExhausted ==> Responses(r.events) == env.queries || Outcomes(r.events) == env.upserts
    ensures var r := SyncFrom(db, table, step, env, cursor);
            r.stop == ScriptExhausted ==>
              if r.events != [] && r.events[|r.events| - 1].Queried? then Outcomes(r.events) == env.upserts
              else Responses(r.events) == env.queries
    decreases |env.queries|
  {
    if !Continues(env, step) {
      Final(db, table, step, env, cursor);
      FinalCounts(db, table, step, env, cursor);
      return;
    }
    ExhaustionNeedsWholeScript(db, table, step, Later(env), NextCursor(env, step, cursor));
    ExhaustionStep(db, table, step, env, cursor);
  }

  /** A pass that goes round again keeps the used-up list in front of the
      rest of the run: one more query response and one more upsert outcome. */
  lemma ExhaustionStep(db: string, table: string, step: ItemStep, env: Env, cursor: Option<string>)
    requires Continues(env, step)
    requires var rest := SyncFrom(db, table, step, Later(env), NextCursor(env, step, cursor));
             rest.stop == ScriptExhausted ==>
               if rest.events != [] && rest.events[|rest.events| - 1].Queried? then Outcomes(rest.events) == Later(env).upserts
               else Responses(rest.events) == Later(env).queries
    ensures var r := SyncFrom(db, table, step, env, cursor);
            r.stop == ScriptExhausted ==>
              && (Responses(r.events) == env.queries || Outcomes(r.events) == env.upserts)
              && if r.events != [] && r.events[|r.events| - 1].Queried? then Outcomes(r.events) == env.upserts
                 else Responses(r.events) == env.queries
  {
    var ev := SyncFrom(db, table, step, env, cursor).events;
    var next := NextCursor(env, step, cursor);
    var rest := SyncFrom(db, table, step, Later(env), next).events;
    var k := IterationLength(env, step);
    PassCounts(db, table, step, env, cursor);
    Unfold(db, table, step, env, cursor);
    IterationHead(db, table, step, env, cursor);
    FirstEvent(db, table, step, Later(env), next);
    HeadTail(env.queries);
    HeadTail(env.upserts);
    if rest == [] {
      assert ev == ev[..k];
      assert !ev[|ev| - 1].Queried?;
    } else {
      assert ev[|ev| - 1] == rest[|rest| - 1];
    }
  }

  lemma HeadTail<T>(s: seq<T>)
    requires s != []
    ensures [s[0]] + s[1..] == s
  {
  }

  /** The stop reason a run reports is the one its log ends with. */
  lemma {:induction false} StopMatchesLog(db: string, table: string, step: ItemStep, env: Env, cursor: Option<string>)
    ensures var r := SyncFrom(db, table, step, env, cursor);
            r.stop == StopOf(r.events, step)
    decreases |env.queries|
  {
    if !Continues(env, step) {
      Final(db, table, step, env, cursor);
      return;
    }
    var r := SyncFrom(db, table, step, env, cursor);
    var next := NextCursor(env, step, cursor);
    var k := IterationLength(env, step);
    Unfold(db, table, step, env, cursor);
    StopMatchesLog(db, table, step, Later(env), next);
    MarksFollowSuccessfulUpsertsHolds(db, table, step, Later(env), next);
    StopOfShift(r.events[..k], SyncFrom(db, table, step, Later(env), next).events,
                db, table, step, env.failingUpdates, cursor, next);
  }
}
