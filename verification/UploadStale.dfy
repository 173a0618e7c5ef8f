/** What stale snapshots can do to a task of the retry queue, as runs of five workers. */
module UploadStale {
  import opened UploadQueue
  import UploadRetries
  import UploadReuse

  /** A run that loses no file except by an upload, and resets no task. */
  ghost predicate OrdinaryRun(ws: seq<World>, es: seq<Event>) {
    IsRun(ws, es) && forall i | 0 <= i < |es| :: !es[i].Vanish? && !es[i].Reset?
  }

  ghost predicate Reached(w: World) {
    exists ws, es :: OrdinaryRun(ws, es) && ws[|es|] == w
  }

  lemma ReachedNext(w: World, e: Event)
    requires Reached(w) && Enabled(w, e) && !e.Vanish? && !e.Reset?
    ensures Reached(Step(w, e))
  {
    var ws, es :| OrdinaryRun(ws, es) && ws[|es|] == w;
    var ws', es' := ws + [Step(w, e)], es + [e];
    assert OrdinaryRun(ws', es') && ws'[|es'|] == Step(w, e);
  }

  /** One task, and workers 0, 1, ... that all hold the same snapshot of it. */
  function Crew(now: int, row: Row, snap: Row, files: set<string>, pcs: seq<Pc>, past: History): World {
    World(now, map[0 := row], files, map[], map i: nat | i < |pcs| :: Worker(0, snap, pcs[i]), past)
  }

  lemma CrewMoves(now: int, row: Row, snap: Row, files: set<string>, pcs: seq<Pc>, past: History, i: nat, pc: Pc)
    ensures i < |pcs| ==>
      Go(Crew(now, row, snap, files, pcs, past), i, pc) == Crew(now, row, snap, files, pcs[i := pc], past)
    ensures var w := Crew(now, row, snap, files, pcs, past);
      w.(workers := w.workers[|pcs| := Worker(0, snap, pc)]) == Crew(now, row, snap, files, pcs + [pc], past)
    ensures var w := Crew(now, row, snap, files, pcs, past);
      forall other :: SetRow(w, 0, other) == Crew(now, other, snap, files, pcs, past)
  {
  }

  const WAITING_ROW := Row("a", Failed, 0, MAX_RETRIES, 60, 0)

  function Crew0(row: Row, files: set<string>, pcs: seq<Pc>, past: History): World {
    Crew(60, row, WAITING_ROW, files, pcs, past)
  }

  lemma CrewPlaced()
    ensures Reached(World(0, map[], {"a"}, map[0 := "a"], map[], History({}, {}, {}, map[])))
  {
    var w := World(0, map[], {}, map[], map[], History({}, {}, {}, map[]));
    var none: seq<Event> := [];
    assert OrdinaryRun([w], none) && [w][|none|] == w;
    hide Reached;
    ReachedNext(w, Place(0, "a"));
    assert {} + {"a"} == {"a"};
  }

  lemma CrewHired()
    ensures Reached(Crew0(WAITING_ROW, {"a"}, [], History({}, {}, {}, map[])))
  {
    hide Reached, Reclaimed, RetryFailed;
    CrewPlaced();
    var w1 := World(0, map[], {"a"}, map[0 := "a"], map[], History({}, {}, {}, map[]));
    ReachedNext(w1, Insert(0));
    var w2 := Step(w1, Insert(0));
    ReachedNext(w2, Advance(60));
    assert Step(w2, Advance(60)) == Crew0(WAITING_ROW, {"a"}, [], History({}, {}, {}, map[]));
  }

  lemma CrewSpawn(pcs: seq<Pc>, more: seq<Pc>)
    requires more == pcs + [Ready] && Reached(Crew0(WAITING_ROW, {"a"}, pcs, History({}, {}, {}, map[])))
    ensures Reached(Crew0(WAITING_ROW, {"a"}, more, History({}, {}, {}, map[])))
  {
    hide Reached, Reclaimed, RetryFailed;
    var past := History({}, {}, {}, map[]);
    ReachedNext(Crew0(WAITING_ROW, {"a"}, pcs, past), Spawn(|pcs|, 0));
    CrewMoves(60, WAITING_ROW, WAITING_ROW, {"a"}, pcs, past, 0, Ready);
  }

  lemma CrewStat(row: Row, files: set<string>, pcs: seq<Pc>, more: seq<Pc>, past: History, i: nat)
    requires i < |pcs| && more == pcs[i := if "a" in files then Found else Missing]
    requires pcs[i] == Ready && Reached(Crew0(row, files, pcs, past))
    ensures Reached(Crew0(row, files, more, past))
  {
    hide Reached, Reclaimed, RetryFailed;
    ReachedNext(Crew0(row, files, pcs, past), Stat(i));
    CrewMoves(60, row, WAITING_ROW, files, pcs, past, i, if "a" in files then Found else Missing);
  }

  lemma CrewClaim(row: Row, files: set<string>, pcs: seq<Pc>, more: seq<Pc>, past: History, i: nat)
    requires i < |pcs| && more == pcs[i := Claimed(60)]
    requires pcs[i] == Found && row.status == Failed && Reached(Crew0(row, files, pcs, past))
    ensures Reached(Crew0(row.(status := Uploading, startedAt := 60), files, more, past))
  {
    hide Reached, Reclaimed, RetryFailed;
    ReachedNext(Crew0(row, files, pcs, past), Claim(i));
    CrewMoves(60, row, WAITING_ROW, files, pcs, past, i, Claimed(60));
    CrewMoves(60, row, WAITING_ROW, files, pcs[i := Claimed(60)], past, i, Claimed(60));
  }

  lemma CrewUpload(row: Row, pcs: seq<Pc>, more: seq<Pc>, past: History, i: nat, past': History)
    requires i < |pcs| && more == pcs[i := Uploaded(60)]
    requires past' == past.(delivered := past'.delivered) && past'.delivered == past.delivered + {0}
    requires pcs[i] == Claimed(60) && Reached(Crew0(row, {"a"}, pcs, past))
    ensures Reached(Crew0(row, {"a"}, more, past'))
  {
    hide Reached, Reclaimed, RetryFailed;
    ReachedNext(Crew0(row, {"a"}, pcs, past), Upload(i));
    CrewMoves(60, row, WAITING_ROW, {"a"}, pcs, past, i, Uploaded(60));
  }

  lemma CrewRecord(row: Row, pcs: seq<Pc>, more: seq<Pc>, past: History, i: nat, past': History)
    requires i < |pcs| && more == pcs[i := Ended]
    requires past' == past.(finished := past'.finished) && past'.finished == past.finished + {0}
    requires pcs[i] == Uploaded(60) && Reached(Crew0(row, {"a"}, pcs, past))
    ensures Reached(Crew0(row.(status := Success), {}, more, past'))
  {
    hide Reached, Reclaimed, RetryFailed;
    var row1 := row.(status := Success);
    ReachedNext(Crew0(row, {"a"}, pcs, past), Record(i, true));
    CrewMoves(60, row, WAITING_ROW, {"a"}, pcs, past, i, Recorded);
    CrewMoves(60, row, WAITING_ROW, {"a"}, pcs[i := Recorded], past, i, Recorded);
    ReachedNext(Crew0(row1, {"a"}, pcs[i := Recorded], past'), Remove(i));
    CrewMoves(60, row1, WAITING_ROW, {"a"}, pcs[i := Recorded], past', i, Ended);
    assert pcs[i := Recorded][i := Ended] == pcs[i := Ended];
    assert {"a"} - {"a"} == {};
  }

  lemma CrewMark(row: Row, pcs: seq<Pc>, more: seq<Pc>, past: History, i: nat, past': History)
    requires i < |pcs| && more == pcs[i := Ended]
    requires past' == past.(marked := past'.marked) && past'.marked == past.marked + {0}
    requires pcs[i] == Missing && Reached(Crew0(row, {}, pcs, past))
    ensures Reached(Crew0(RetryFailed(row, MAX_RETRIES, 60), {}, more, past'))
  {
    hide Reached, Reclaimed, RetryFailed;
    ReachedNext(Crew0(row, {}, pcs, past), MarkMissing(i));
    CrewMoves(60, row, WAITING_ROW, {}, pcs, past, i, Ended);
    CrewMoves(60, row, WAITING_ROW, {}, pcs[i := Ended], past, i, Ended);
  }

  lemma CrewFail(row: Row, pcs: seq<Pc>, more: seq<Pc>, past: History, i: nat)
    requires i < |pcs| && more == pcs[i := Ended]
    requires pcs[i] == Claimed(60) && past.failures == map[] && Reached(Crew0(row, {}, pcs, past))
    ensures Reached(Crew0(RetryFailed(row, 0, 60), {}, more, past.(failures := map[0 := 1])))
  {
    hide Reached, Reclaimed, RetryFailed;
    ReachedNext(Crew0(row, {}, pcs, past), FailUpload(i));
    CrewMoves(60, row, WAITING_ROW, {}, pcs, past, i, Ended);
    CrewMoves(60, row, WAITING_ROW, {}, pcs[i := Ended], past, i, Ended);
  }

  /** Of five workers with one snapshot, 0 has uploaded the file and removed it; 2 and 4 had seen it
      before, 1 and 3 have found it missing since. */
  lemma FirstWorkerSucceeds() returns (row: Row)
    ensures row.retries == 0 && row.max == MAX_RETRIES
    ensures Reached(Crew0(row, {}, [Ended, Missing, Found, Missing, Found], History({0}, {0}, {}, map[])))
  {
    hide Reached, Crew0;
    var past := History({}, {}, {}, map[]);
    CrewHired();
    CrewSpawn([], [Ready]);
    CrewSpawn([Ready], [Ready, Ready]);
    CrewSpawn([Ready, Ready], [Ready, Ready, Ready]);
    CrewSpawn([Ready, Ready, Ready], [Ready, Ready, Ready, Ready]);
    CrewSpawn([Ready, Ready, Ready, Ready], [Ready, Ready, Ready, Ready, Ready]);
    row := WAITING_ROW;
    CrewStat(row, {"a"}, [Ready, Ready, Ready, Ready, Ready], [Found, Ready, Ready, Ready, Ready], past, 0);
    CrewStat(row, {"a"}, [Found, Ready, Ready, Ready, Ready], [Found, Ready, Found, Ready, Ready], past, 2);
    CrewStat(row, {"a"}, [Found, Ready, Found, Ready, Ready], [Found, Ready, Found, Ready, Found], past, 4);
    CrewClaim(row, {"a"}, [Found, Ready, Found, Ready, Found], [Claimed(60), Ready, Found, Ready, Found], past, 0);
    row := row.(status := Uploading, startedAt := 60);
    CrewUpload(row, [Claimed(60), Ready, Found, Ready, Found], [Uploaded(60), Ready, Found, Ready, Found], past, 0,
               History({0}, {}, {}, map[]));
    CrewRecord(row, [Uploaded(60), Ready, Found, Ready, Found], [Ended, Ready, Found, Ready, Found],
               History({0}, {}, {}, map[]), 0, History({0}, {0}, {}, map[]));
    row := row.(status := Success);
    past := History({0}, {0}, {}, map[]);
    CrewStat(row, {}, [Ended, Ready, Found, Ready, Found], [Ended, Missing, Found, Ready, Found], past, 1);
    CrewStat(row, {}, [Ended, Missing, Found, Ready, Found], [Ended, Missing, Found, Missing, Found], past, 3);
  }

  /** Mutual exclusion is not a property of all runs, even if files vanish only through recorded
      uploads and nothing crashes: two workers that missed the removal write Failed over the row, and
      after each of these writes another old worker claims it. */
  lemma ExclusionFails()
    ensures exists w :: Reached(w) && !Exclusive(w, 0)
  {
    var row := FirstWorkerSucceeds();
    hide Reached;
    var past := History({0}, {0}, {}, map[]);
    var past1 := History({0}, {0}, {0}, map[]);
    CrewMark(row, [Ended, Missing, Found, Missing, Found], [Ended, Ended, Found, Missing, Found], past, 1, past1);
    var row1 := RetryFailed(row, MAX_RETRIES, 60);
    CrewClaim(row1, {}, [Ended, Ended, Found, Missing, Found], [Ended, Ended, Claimed(60), Missing, Found], past1, 2);
    var row2 := row1.(status := Uploading, startedAt := 60);
    CrewMark(row2, [Ended, Ended, Claimed(60), Missing, Found], [Ended, Ended, Claimed(60), Ended, Found],
             past1, 3, past1);
    CrewClaim(RetryFailed(row2, MAX_RETRIES, 60), {}, [Ended, Ended, Claimed(60), Ended, Found],
              [Ended, Ended, Claimed(60), Ended, Claimed(60)], past1, 4);
    var row3 := RetryFailed(row2, MAX_RETRIES, 60).(status := Uploading, startedAt := 60);
    var w := Crew0(row3, {}, [Ended, Ended, Claimed(60), Ended, Claimed(60)], past1);
    assert Reached(w);
    assert InFlight(w.workers[2]) && InFlight(w.workers[4]);
  }

  /** With stale snapshots a task that was marked as lost can come back: the failure of an old worker
      writes its own, smaller count. */
  lemma StaleSnapshotRewinds()
    ensures exists w :: Reached(w) && 0 in w.rows && 0 in w.past.marked && w.rows[0].retries < w.rows[0].max
  {
    var row := FirstWorkerSucceeds();
    hide Reached;
    var past := History({0}, {0}, {}, map[]);
    var past1 := History({0}, {0}, {0}, map[]);
    CrewMark(row, [Ended, Missing, Found, Missing, Found], [Ended, Ended, Found, Missing, Found], past, 1, past1);
    var row1 := RetryFailed(row, MAX_RETRIES, 60);
    CrewClaim(row1, {}, [Ended, Ended, Found, Missing, Found], [Ended, Ended, Claimed(60), Missing, Found], past1, 2);
    var row2 := row1.(status := Uploading, startedAt := 60);
    CrewFail(row2, [Ended, Ended, Claimed(60), Missing, Found], [Ended, Ended, Ended, Missing, Found], past1, 2);
    var w := Crew0(RetryFailed(row2, 0, 60), {}, [Ended, Ended, Ended, Missing, Found],
                   past1.(failures := map[0 := 1]));
    assert Reached(w);
  }

  lemma ReachedKnown(w: World)
    requires Reached(w)
    ensures Known(w)
  {
    var ws, es :| OrdinaryRun(ws, es) && ws[|es|] == w;
    UploadRetries.RetryBound(ws, es, |es|, 0);
  }

  /** A pending name can be used again too early: an old worker is about to claim the old task and will
      upload the new media for it, and remove it. */
  lemma ReusedNameAtRisk()
    ensures exists w :: Reached(w) && 1 in w.rows && w.rows[1].path in w.files && UploadReuse.CanLose(w, 1, 4)
  {
    var row := FirstWorkerSucceeds();
    hide Reached;
    var past := History({0}, {0}, {}, map[]);
    var past1 := History({0}, {0}, {0}, map[]);
    CrewMark(row, [Ended, Missing, Found, Missing, Found], [Ended, Ended, Found, Missing, Found], past, 1, past1);
    var w := Crew0(RetryFailed(row, MAX_RETRIES, 60), {}, [Ended, Ended, Found, Missing, Found], past1);
    ReachedNext(w, Place(1, row.path));
    var placed := Step(w, Place(1, row.path));
    ReachedNext(placed, Insert(1));
    var g := Step(placed, Insert(1));
    ReachedKnown(g);
    UploadReuse.LosesFound(g, 2, 0, 1);
  }
}
