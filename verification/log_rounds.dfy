/** Each log property survives putting one more round in front of a log
    that has it. These are facts about event sequences alone; the induction
    over the loop itself is in SyncLemmas. */
module LogRounds {
  import opened Wrappers
  import opened Json
  import opened Transform
  import opened StatusUpdate
  import opened Sync
  import opened SyncLog

  /** The log of a pass that ends the run after successfully upserting a
      page without more: the query, the upsert and the marking. */
  ghost predicate LastRound(ev: seq<Event>, db: string, table: string, step: ItemStep,
                            failing: set<Json>, cursor: Option<string>)
  {
    && |ev| == 3
    && ev[0].Queried? && ev[0].call == QueryCall(db, NewItems, cursor)
    && Upsertable(ev[0].response, step) && !ev[0].response.hasMore
    && ev[1] == Upserted(table, BuildBatch(ev[0].response.results, step).value.rows, UpsertOk)
    && ev[2] == Marked(BuildBatch(ev[0].response.results, step).value.ids,
                       UpdateStatus(BuildBatch(ev[0].response.results, step).value.ids, failing))
  }

  /** Every log property holds of a lone query. */
  lemma QueryOnlyLog(ev: seq<Event>, db: string, table: string, step: ItemStep,
                     failing: set<Json>, cursor: Option<string>)
    requires |ev| == 1 && ev[0].Queried? && ev[0].call == QueryCall(db, NewItems, cursor)
    ensures QueriesUseNewFilter(ev, db) && UpsertsCarryTheirPage(ev, table, step)
            && MarksFollowSuccessfulUpserts(ev, step, failing) && SuccessfulUpsertsAreMarked(ev)
            && FailedUpsertReusesCursor(ev) && MarkedPageAdvancesCursor(ev)
            && LastPageEnds(ev) && UnusableQueryEnds(ev, step)
  {
  }

  /** Every log property holds of the log of a last round. */
  lemma LastRoundLog(ev: seq<Event>, db: string, table: string, step: ItemStep,
                     failing: set<Json>, cursor: Option<string>)
    requires LastRound(ev, db, table, step, failing, cursor)
    ensures QueriesUseNewFilter(ev, db) && UpsertsCarryTheirPage(ev, table, step)
            && MarksFollowSuccessfulUpserts(ev, step, failing) && SuccessfulUpsertsAreMarked(ev)
            && FailedUpsertReusesCursor(ev) && MarkedPageAdvancesCursor(ev)
            && LastPageEnds(ev) && UnusableQueryEnds(ev, step)
  {
    LastRoundPages(ev, db, table, step, failing, cursor);
    LastRoundCursors(ev, db, table, step, failing, cursor);
  }

  lemma LastRoundPages(ev: seq<Event>, db: string, table: string, step: ItemStep,
                       failing: set<Json>, cursor: Option<string>)
    requires LastRound(ev, db, table, step, failing, cursor)
    ensures QueriesUseNewFilter(ev, db) && UpsertsCarryTheirPage(ev, table, step)
            && MarksFollowSuccessfulUpserts(ev, step, failing) && SuccessfulUpsertsAreMarked(ev)
  {
    var b := BuildBatch(ev[0].response.results, step).value;
    assert ev[1].Upserted? && ev[1].batch == b.rows && ev[1].outcome == UpsertOk;
    assert ev[2].Marked? && ev[2].ids == b.ids && ev[2].attempts == UpdateStatus(b.ids, failing);
    forall i | 0 <= i < |ev| && ev[i].Upserted?
      ensures 0 < i && ev[i - 1].Queried? && Upsertable(ev[i - 1].response, step)
              && ev[i].table == table && ev[i].batch == BuildBatch(ev[i - 1].response.results, step).value.rows
    {
      assert i == 1;
    }
    forall i | 0 <= i < |ev| && ev[i].Marked?
      ensures && 2 <= i && ev[i - 1].Upserted? && ev[i - 1].outcome == UpsertOk
              && ev[i - 2].Queried? && Upsertable(ev[i - 2].response, step)
              && ev[i].ids == BuildBatch(ev[i - 2].response.results, step).value.ids
              && ev[i].attempts == UpdateStatus(ev[i].ids, failing)
    {
      assert i == 2;
    }
  }

  lemma LastRoundCursors(ev: seq<Event>, db: string, table: string, step: ItemStep,
                         failing: set<Json>, cursor: Option<string>)
    requires LastRound(ev, db, table, step, failing, cursor)
    ensures FailedUpsertReusesCursor(ev) && MarkedPageAdvancesCursor(ev)
            && LastPageEnds(ev) && UnusableQueryEnds(ev, step)
  {
  }


  lemma QueriesUseNewFilterShift(head: seq<Event>, rest: seq<Event>, db: string, table: string,
                                 step: ItemStep, failing: set<Json>, cursor: Option<string>, next: Option<string>)
    requires Round(head, db, table, step, failing, cursor, next)
    requires QueriesUseNewFilter(rest, db)
    ensures QueriesUseNewFilter(head + rest, db)
  {
    var ev := head + rest;
    var k := |head|;
    assert forall j :: 0 <= j < k ==> ev[j] == head[j];
    forall i | 0 <= i < |ev| && ev[i].Queried?
      ensures ev[i].call.databaseId == db && ev[i].call.filter == NewItems
    {
      if i >= k {
        assert ev[i] == rest[i - k];
      }
    }
  }

  lemma UpsertsCarryTheirPageShift(head: seq<Event>, rest: seq<Event>, db: string, table: string,
                                   step: ItemStep, failing: set<Json>, cursor: Option<string>, next: Option<string>)
    requires Round(head, db, table, step, failing, cursor, next)
    requires UpsertsCarryTheirPage(rest, table, step) && StartsAt(rest, next)
    ensures UpsertsCarryTheirPage(head + rest, table, step)
  {
    var ev := head + rest;
    var k := |head|;
    assert forall j :: 0 <= j < k ==> ev[j] == head[j];
    if rest != [] {
      assert ev[k] == rest[0];
    }
    forall i | 0 <= i < |ev| && ev[i].Upserted?
      ensures && 0 < i && ev[i - 1].Queried?
              && Upsertable(ev[i - 1].response, step)
              && ev[i].table == table
              && ev[i].batch == BuildBatch(ev[i - 1].response.results, step).value.rows
    {
      if i > k {
        assert ev[i] == rest[i - k] && ev[i - 1] == rest[i - k - 1];
      }
    }
  }

  lemma MarksFollowSuccessfulUpsertsShift(head: seq<Event>, rest: seq<Event>, db: string, table: string,
                                          step: ItemStep, failing: set<Json>, cursor: Option<string>, next: Option<string>)
    requires Round(head, db, table, step, failing, cursor, next)
    requires MarksFollowSuccessfulUpserts(rest, step, failing) && StartsAt(rest, next)
    ensures MarksFollowSuccessfulUpserts(head + rest, step, failing)
  {
    var ev := head + rest;
    var k := |head|;
    assert forall j :: 0 <= j < k ==> ev[j] == head[j];
    if rest != [] {
      assert ev[k] == rest[0];
    }
    forall i | 0 <= i < |ev| && ev[i].Marked?
      ensures && 2 <= i && ev[i - 1].Upserted? && ev[i - 1].outcome == UpsertOk
              && ev[i - 2].Queried? && Upsertable(ev[i - 2].response, step)
              && ev[i].ids == BuildBatch(ev[i - 2].response.results, step).value.ids
              && ev[i].attempts == UpdateStatus(ev[i].ids, failing)
    {
      if i < k {
        assert i == 2 && k == 3;
        assert head[2].ids == BuildBatch(head[0].response.results, step).value.ids;
      } else {
        assert ev[i] == rest[i - k];
        assert ev[i - 1] == rest[i - k - 1] && ev[i - 2] == rest[i - k - 2];
      }
    }
  }

  lemma SuccessfulUpsertsAreMarkedShift(head: seq<Event>, rest: seq<Event>, db: string, table: string,
                                        step: ItemStep, failing: set<Json>, cursor: Option<string>, next: Option<string>)
    requires Round(head, db, table, step, failing, cursor, next)
    requires SuccessfulUpsertsAreMarked(rest)
    ensures SuccessfulUpsertsAreMarked(head + rest)
  {
    var ev := head + rest;
    var k := |head|;
    assert forall j :: 0 <= j < k ==> ev[j] == head[j];
    forall i | 0 <= i < |ev| && ev[i].Upserted? && ev[i].outcome == UpsertOk
      ensures i + 1 < |ev| && ev[i + 1].Marked?
    {
      if i >= k {
        assert ev[i] == rest[i - k] && ev[i + 1] == rest[i + 1 - k];
      }
    }
  }

  lemma FailedUpsertReusesCursorShift(head: seq<Event>, rest: seq<Event>, db: string, table: string,
                                      step: ItemStep, failing: set<Json>, cursor: Option<string>, next: Option<string>)
    requires Round(head, db, table, step, failing, cursor, next)
    requires FailedUpsertReusesCursor(rest) && StartsAt(rest, next)
    ensures FailedUpsertReusesCursor(head + rest)
  {
    var ev := head + rest;
    var k := |head|;
    assert forall j :: 0 <= j < k ==> ev[j] == head[j];
    if rest != [] {
      assert ev[k] == rest[0];
    }
    forall i | 0 < i < |ev| - 1 && ev[i].Upserted? && ev[i].outcome == UpsertFail
      ensures && ev[i - 1].Queried? && ev[i + 1].Queried?
              && ev[i + 1].call.startCursor == ev[i - 1].call.startCursor
    {
      if i < k {
        assert i == 1 && k == 2 && ev[2] == rest[0];
      } else {
        assert ev[i] == rest[i - k] && ev[i - 1] == rest[i - k - 1] && ev[i + 1] == rest[i + 1 - k];
      }
    }
  }

  /** In a log that has its marks right after their queries, a marking
      sits two events after its query. */
  lemma MarkedAfterQuery(ev: seq<Event>, step: ItemStep, failing: set<Json>, j: nat)
    requires MarksFollowSuccessfulUpserts(ev, step, failing)
    requires j < |ev| && ev[j].Marked?
    ensures 2 <= j && ev[j - 2].Queried? && ev[j - 2].response.Page?
  {
  }

  lemma MarkedPageAdvancesCursorShift(head: seq<Event>, rest: seq<Event>, db: string, table: string,
                                      step: ItemStep, failing: set<Json>, cursor: Option<string>, next: Option<string>)
    requires Round(head, db, table, step, failing, cursor, next)
    requires MarkedPageAdvancesCursor(rest) && StartsAt(rest, next)
    requires MarksFollowSuccessfulUpserts(rest, step, failing)
    ensures MarkedPageAdvancesCursor(head + rest)
  {
    var ev := head + rest;
    var k := |head|;
    assert forall j :: 0 <= j < k ==> ev[j] == head[j];
    forall i | 2 <= i < |ev| - 1 && ev[i].Marked?
      ensures && ev[i - 2].Queried? && ev[i - 2].response.Page? && ev[i - 2].response.hasMore
              && ev[i + 1].Queried? && ev[i + 1].call.startCursor == ev[i - 2].response.nextCursor
    {
      if i < k {
        assert i == 2 && k == 3 && ev[3] == rest[0];
      } else {
        assert ev[i] == rest[i - k] && ev[i + 1] == rest[i + 1 - k];
        MarkedAfterQuery(rest, step, failing, i - k);
        assert ev[i - 2] == rest[i - k - 2];
      }
    }
  }

  lemma LastPageEndsShift(head: seq<Event>, rest: seq<Event>, db: string, table: string,
                          step: ItemStep, failing: set<Json>, cursor: Option<string>, next: Option<string>)
    requires Round(head, db, table, step, failing, cursor, next)
    requires LastPageEnds(rest)
    requires MarksFollowSuccessfulUpserts(rest, step, failing)
    ensures LastPageEnds(head + rest)
  {
    var ev := head + rest;
    var k := |head|;
    assert forall j :: 0 <= j < k ==> ev[j] == head[j];
    forall i | 2 <= i < |ev| && ev[i].Marked? && ev[i - 2].Queried? && ev[i - 2].response.Page? && !ev[i - 2].response.hasMore
      ensures i == |ev| - 1
    {
      if i >= k {
        assert ev[i] == rest[i - k];
        MarkedAfterQuery(rest, step, failing, i - k);
        assert ev[i - 2] == rest[i - k - 2];
      }
    }
  }

  lemma QueriesLeadToUpsertsShift(head: seq<Event>, rest: seq<Event>, db: string, table: string,
                                  step: ItemStep, failing: set<Json>, cursor: Option<string>, next: Option<string>)
    requires Round(head, db, table, step, failing, cursor, next)
    requires QueriesLeadToUpserts(rest)
    ensures QueriesLeadToUpserts(head + rest)
  {
    var ev := head + rest;
    var k := |head|;
    assert forall j :: 0 <= j < k ==> ev[j] == head[j];
    forall i | 0 <= i < |ev| - 1 && ev[i].Queried?
      ensures ev[i + 1].Upserted?
    {
      if i >= k {
        assert ev[i] == rest[i - k] && ev[i + 1] == rest[i + 1 - k];
      } else {
        assert i == 0;
      }
    }
  }

  /** In the log of a last round, the one query is followed by its upsert. */
  lemma LastRoundLeadsToUpserts(ev: seq<Event>, db: string, table: string, step: ItemStep,
                                failing: set<Json>, cursor: Option<string>)
    requires LastRound(ev, db, table, step, failing, cursor)
    ensures QueriesLeadToUpserts(ev)
  {
    forall i | 0 <= i < |ev| - 1 && ev[i].Queried?
      ensures ev[i + 1].Upserted?
    {
      assert i == 0;
    }
  }

  lemma UnusableQueryEndsShift(head: seq<Event>, rest: seq<Event>, db: string, table: string,
                               step: ItemStep, failing: set<Json>, cursor: Option<string>, next: Option<string>)
    requires Round(head, db, table, step, failing, cursor, next)
    requires UnusableQueryEnds(rest, step)
    ensures UnusableQueryEnds(head + rest, step)
  {
    var ev := head + rest;
    var k := |head|;
    assert forall j :: 0 <= j < k ==> ev[j] == head[j];
    assert ev[0] == head[0] && ev[1] == head[1] && (k == 3 ==> ev[2] == head[2]);
    forall i | 0 <= i < |ev| && ev[i].Queried? && !Upsertable(ev[i].response, step)
      ensures i == |ev| - 1
    {
      if i >= k {
        assert ev[i] == rest[i - k];
      }
    }
  }

  /** A pass that goes round again does not by itself read as an ending. */
  lemma StopOfRound(head: seq<Event>, db: string, table: string,
                    step: ItemStep, failing: set<Json>, cursor: Option<string>, next: Option<string>)
    requires Round(head, db, table, step, failing, cursor, next)
    ensures StopOf(head, step) == ScriptExhausted
  {
    var last := head[|head| - 1];
    assert last.Upserted? || (last.Marked? && head[|head| - 3] == head[0]);
  }

  /** The stop reason read off a log does not change when a round is put
      in front of a non-empty log. */
  lemma StopOfShift(head: seq<Event>, rest: seq<Event>, db: string, table: string,
                    step: ItemStep, failing: set<Json>, cursor: Option<string>, next: Option<string>)
    requires Round(head, db, table, step, failing, cursor, next)
    requires MarksFollowSuccessfulUpserts(rest, step, failing)
    ensures rest != [] ==> StopOf(head + rest, step) == StopOf(rest, step)
    ensures rest == [] ==> StopOf(head + rest, step) == ScriptExhausted
  {
    var ev := head + rest;
    var n := |rest|;
    if rest == [] {
      assert ev == head;
      StopOfRound(head, db, table, step, failing, cursor, next);
      return;
    }
    var last := ev[|ev| - 1];
    assert last == rest[n - 1];
    if last.Marked? {
      MarkedAfterQuery(rest, step, failing, n - 1);
      assert ev[|ev| - 3] == rest[n - 3];
    }
  }

}
