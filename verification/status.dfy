/** `update_notion_status`: sets the Status property of each page to
    "Uploaded", one call per page id; a failing call is logged and the loop
    moves on to the next id. */
module StatusUpdate {
  import opened Json

  const StatusProperty: string := "Status"
  const UploadedStatus: string := "Uploaded"

  /** One `pages.update` call: the page, the property and value it sets, and
      whether the call went through. */
  datatype UpdateAttempt = UpdateAttempt(pageId: Json, property: string, status: string, succeeded: bool)

  /** The calls made for `ids`; `failing` holds the ids whose update the
      Notion API rejects. */
  function UpdateStatus(ids: seq<Json>, failing: set<Json>): (attempts: seq<UpdateAttempt>)
    ensures |attempts| == |ids|
    ensures forall i :: 0 <= i < |ids| ==>
              && attempts[i].pageId == ids[i]
              && attempts[i].property == StatusProperty
              && attempts[i].status == UploadedStatus
    ensures forall i :: 0 <= i < |ids| ==> (attempts[i].succeeded <==> ids[i] !in failing)
    decreases |ids|
  {
    if ids == [] then []
    else [UpdateAttempt(ids[0], StatusProperty, UploadedStatus, ids[0] !in failing)]
         + UpdateStatus(ids[1..], failing)
  }

  /** The ids the calls were made for, in call order. */
  function AttemptedIds(attempts: seq<UpdateAttempt>): (ids: seq<Json>)
    ensures |ids| == |attempts|
    ensures forall i :: 0 <= i < |attempts| ==> ids[i] == attempts[i].pageId
  {
    seq(|attempts|, i requires 0 <= i < |attempts| => attempts[i].pageId)
  }

  /** The ids that now have status "Uploaded". */
  function UploadedIds(attempts: seq<UpdateAttempt>): set<Json> {
    set i | 0 <= i < |attempts| && attempts[i].succeeded :: attempts[i].pageId
  }

  /** Failures never cut the loop short: every id is attempted, in input
      order, whichever ids fail; and exactly the ids that do not fail end up
      "Uploaded". */
  lemma {:induction false} FailuresDoNotStopUpdates(ids: seq<Json>, failing: set<Json>)
    ensures AttemptedIds(UpdateStatus(ids, failing)) == ids
    ensures UploadedIds(UpdateStatus(ids, failing)) == (set i | 0 <= i < |ids| :: ids[i]) - failing
  {
    var attempts := UpdateStatus(ids, failing);
    var uploaded := UploadedIds(attempts);
    var expected := (set i | 0 <= i < |ids| :: ids[i]) - failing;
    forall x | x in uploaded ensures x in expected {
      var i :| 0 <= i < |attempts| && attempts[i].succeeded && attempts[i].pageId == x;
    }
    forall x | x in expected ensures x in uploaded {
      var i :| 0 <= i < |ids| && ids[i] == x;
      assert attempts[i].pageId == x && attempts[i].succeeded;
    }
  }
}
