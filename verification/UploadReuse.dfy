/** When a pending name may be used again: exactly while every older task of that path is harmless, no run
    of the queue loses the new media before it is uploaded. */
module UploadReuse {
  import opened UploadQueue

  /** What the queue does by itself. */
  predicate Working(e: Event) {
    !e.Place? && !e.Insert? && !e.TakeBack? && !e.Reset? && !e.Vanish?
  }

  /** The media of task `id` is gone and was never uploaded for it. */
  predicate Lost(w: World, id: nat) {
    id in w.rows && w.rows[id].path !in w.files && id !in w.past.delivered
  }

  /** Some run of the queue of at most `n` steps loses the media of `id`. */
  ghost predicate CanLose(w: World, id: nat, n: nat)
    decreases n
  {
    Lost(w, id) || (n > 0 && exists e :: Enabled(w, e) && Working(e) && CanLose(Step(w, e), id, n - 1))
  }

  lemma LosesNext(w: World, e: Event, id: nat, n: nat)
    requires Enabled(w, e) && Working(e) && CanLose(Step(w, e), id, n)
    ensures CanLose(w, id, n + 1)
  {
  }

  /** Task `t` is an older task whose path the media of `id` now has. */
  ghost predicate Shares(w: World, t: nat, id: nat) {
    && Known(w) && t in w.rows && id in w.rows && t != id && w.rows[t].path == w.rows[id].path
    && w.rows[id].path in w.files && id !in w.past.delivered
  }

  lemma SharesStep(w: World, e: Event, t: nat, id: nat)
    requires Enabled(w, e) && Working(e) && Shares(w, t, id)
    requires !e.Remove? && (e.Upload? ==> w.workers[e.worker].task == t)
    ensures Shares(Step(w, e), t, id)
  {
    KnownStep(w, e);
    RowsStay(w, e);
    hide Known, Failures, NextRetryDelay, RetryFailed, Reclaimed;
  }

  lemma LosesRecorded(w: World, k: nat, t: nat, id: nat)
    requires Shares(w, t, id) && k in w.workers && w.workers[k].task == t && w.workers[k].pc == Recorded
    ensures CanLose(w, id, 1)
  {
    assert Enabled(w, Remove(k)) && Lost(Step(w, Remove(k)), id);
    LosesNext(w, Remove(k), id, 0);
  }

  lemma LosesUploaded(w: World, k: nat, t: nat, id: nat)
    requires Shares(w, t, id) && k in w.workers && w.workers[k].task == t && w.workers[k].pc.Uploaded?
    ensures CanLose(w, id, 2)
  {
    SharesStep(w, Record(k, true), t, id);
    LosesRecorded(Step(w, Record(k, true)), k, t, id);
    LosesNext(w, Record(k, true), id, 1);
  }

  lemma LosesClaimed(w: World, k: nat, t: nat, id: nat)
    requires Shares(w, t, id) && k in w.workers && w.workers[k].task == t && w.workers[k].pc.Claimed?
    ensures CanLose(w, id, 3)
  {
    SharesStep(w, Upload(k), t, id);
    LosesUploaded(Step(w, Upload(k)), k, t, id);
    LosesNext(w, Upload(k), id, 2);
  }

  lemma LosesFound(w: World, k: nat, t: nat, id: nat)
    requires Shares(w, t, id) && k in w.workers && w.workers[k].task == t && w.workers[k].pc == Found
    requires w.rows[t].status == Failed
    ensures CanLose(w, id, 4)
  {
    SharesStep(w, Claim(k), t, id);
    LosesClaimed(Step(w, Claim(k)), k, t, id);
    LosesNext(w, Claim(k), id, 3);
  }

  lemma LosesReady(w: World, k: nat, t: nat, id: nat)
    requires Shares(w, t, id) && k in w.workers && w.workers[k].task == t && w.workers[k].pc == Ready
    requires w.rows[t].status == Failed
    ensures CanLose(w, id, 5)
  {
    SharesStep(w, Stat(k), t, id);
    LosesFound(Step(w, Stat(k)), k, t, id);
    LosesNext(w, Stat(k), id, 4);
  }

  lemma Unused(s: set<nat>) returns (n: nat)
    ensures forall m | m in s :: m < n
  {
    n := 0;
    if s != {} {
      var m :| m in s;
      var others := s - {m};
      var rest := Unused(others);
      n := if m < rest then rest else m + 1;
      assert forall k | k in s :: k == m || k in others;
    }
  }

  ghost function InFlights(w: World): set<nat> {
    set k | k in w.workers && InFlight(w.workers[k])
  }

  /** The row of `t` will be failed and claimed: a worker is in front of the claim already, or the row is
      still within its retries. */
  ghost predicate Threatens(w: World, t: nat)
    requires t in w.rows
  {
    w.rows[t].status != Success && (w.rows[t].retries < w.rows[t].max || SomeAt(w, t, true))
  }

  lemma LosesSelectable(w: World, t: nat, id: nat)
    requires Shares(w, t, id) && Selectable(w.rows[t], w.now)
    ensures CanLose(w, id, 6)
  {
    var k := Unused(w.workers.Keys);
    assert k !in w.workers;
    SharesStep(w, Spawn(k, t), t, id);
    LosesReady(Step(w, Spawn(k, t)), k, t, id);
    LosesNext(w, Spawn(k, t), id, 5);
  }

  lemma LosesFailed(w: World, t: nat, id: nat)
    requires Shares(w, t, id) && Threatens(w, t) && w.rows[t].status == Failed && InFlights(w) == {}
    ensures exists n: nat :: CanLose(w, id, n)
  {
    if SomeAt(w, t, true) {
      var k :| k in w.workers && w.workers[k].task == t && (w.workers[k].pc == Ready || w.workers[k].pc == Found);
      if w.workers[k].pc == Ready {
        LosesReady(w, k, t, id);
      } else {
        LosesFound(w, k, t, id);
      }
    } else {
      var wait: nat := if w.rows[t].nextRetryAt <= w.now then 0 else w.rows[t].nextRetryAt - w.now;
      assert forall k | k in w.workers && InFlight(w.workers[k]) :: k in InFlights(w);
      SharesStep(w, Advance(wait), t, id);
      LosesSelectable(Step(w, Advance(wait)), t, id);
      LosesNext(w, Advance(wait), id, 6);
    }
  }

  lemma LosesStale(w: World, t: nat, id: nat)
    requires Shares(w, t, id) && Threatens(w, t) && InFlights(w) == {}
    ensures exists n: nat :: CanLose(w, id, n)
  {
    if w.rows[t].status == Failed {
      LosesFailed(w, t, id);
    } else {
      var due := w.rows[t].startedAt + STALE_AFTER;
      var wait: nat := if due <= w.now then 0 else due - w.now;
      assert forall k | k in w.workers && InFlight(w.workers[k]) :: k in InFlights(w);
      SharesStep(w, Advance(wait), t, id);
      var g := Step(w, Advance(wait));
      SharesStep(g, Reclaim, t, id);
      var h := Step(g, Reclaim);
      assert h.workers == w.workers && InFlights(h) == InFlights(w);
      LosesFailed(h, t, id);
      var n: nat :| CanLose(h, id, n);
      LosesNext(g, Reclaim, id, n);
      LosesNext(w, Advance(wait), id, n + 1);
    }
  }

  lemma {:induction false} LosesThreatened(w: World, t: nat, id: nat)
    requires Shares(w, t, id) && Threatens(w, t)
    ensures exists n: nat :: CanLose(w, id, n)
    decreases |InFlights(w)|
  {
    if InFlights(w) == {} {
      LosesStale(w, t, id);
    } else {
      var k :| k in InFlights(w);
      if w.workers[k].task == t {
        if w.workers[k].pc.Claimed? {
          LosesClaimed(w, k, t, id);
        } else {
          LosesUploaded(w, k, t, id);
        }
      } else {
        SharesStep(w, Crash(k), t, id);
        var g := Step(w, Crash(k));
        assert InFlights(g) == InFlights(w) - {k};
        assert SomeAt(w, t, true) ==> SomeAt(g, t, true) by {
          if j :| j in w.workers && w.workers[j].task == t && (w.workers[j].pc == Ready || w.workers[j].pc == Found) {
            assert g.workers[j] == w.workers[j];
          }
        }
        LosesThreatened(g, t, id);
        var n: nat :| CanLose(g, id, n);
        LosesNext(w, Crash(k), id, n);
      }
    }
  }

  lemma HarmfulLoses(w: World, t: nat, id: nat)
    requires Shares(w, t, id) && !Harmless(w, t)
    ensures exists n: nat :: CanLose(w, id, n)
  {
    if k :| k in w.workers && w.workers[k].task == t && (InFlight(w.workers[k]) || w.workers[k].pc == Recorded) {
      if w.workers[k].pc.Claimed? {
        LosesClaimed(w, k, t, id);
      } else if w.workers[k].pc.Uploaded? {
        LosesUploaded(w, k, t, id);
      } else {
        LosesRecorded(w, k, t, id);
      }
    } else if Threatens(w, t) {
      LosesThreatened(w, t, id);
    } else {
      var m :| m in w.workers && w.workers[m].task == t && w.workers[m].pc == Missing;
      var k :| k in w.workers && w.workers[k].task == t && (w.workers[k].pc == Ready || w.workers[k].pc == Found);
      SharesStep(w, MarkMissing(m), t, id);
      var g := Step(w, MarkMissing(m));
      assert g.workers[k] == w.workers[k] && g.rows[t].status == Failed;
      LosesThreatened(g, t, id);
      var n: nat :| CanLose(g, id, n);
      LosesNext(w, MarkMissing(m), id, n);
    }
  }

  lemma {:induction false} KeptNeverLost(w: World, id: nat, n: nat)
    requires Known(w) && Delivered(w) && Kept(w, id) && id in w.rows
    ensures !CanLose(w, id, n)
    decreases n
  {
    if n > 0 {
      forall e | Enabled(w, e) && Working(e) ensures !CanLose(Step(w, e), id, n - 1) {
        KnownStep(w, e);
        DeliveredStep(w, e);
        RowsStay(w, e);
        KeptStep(w, e, id);
        KeptNeverLost(Step(w, e), id, n - 1);
      }
    }
  }

  /** The media of a task in place is safe in every run of the queue if and only if all older tasks of its
      path are harmless. */
  lemma ReuseSafeExactly(w: World, id: nat)
    requires Known(w) && Delivered(w) && id in w.rows && w.rows[id].path in w.files && id !in w.past.delivered
    requires forall k | k in w.workers && w.workers[k].task == id :: w.workers[k].pc != Missing
    ensures (forall n: nat :: !CanLose(w, id, n)) <==>
      forall t | t in w.rows && t != id && w.rows[t].path == w.rows[id].path :: Harmless(w, t)
  {
    if forall t | t in w.rows && t != id && w.rows[t].path == w.rows[id].path :: Harmless(w, t) {
      forall n: nat ensures !CanLose(w, id, n) {
        KeptNeverLost(w, id, n);
      }
    } else {
      var t :| t in w.rows && t != id && w.rows[t].path == w.rows[id].path && !Harmless(w, t);
      HarmfulLoses(w, t, id);
    }
  }
}
