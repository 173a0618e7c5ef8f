/** What the retry queue spends on a task: bounds on its retry count, over every run and with fresh
    snapshots, and the backoff between attempts. */
module UploadRetries {
  import opened UploadQueue

  /** Over every run, whatever goes stale, vanishes or is reset, a retry count never exceeds the
      maximum by more than one. */
  lemma {:induction false} RetryBound(ws: seq<World>, es: seq<Event>, n: nat, id: nat)
    requires IsRun(ws, es) && n < |ws|
    ensures Known(ws[n])
    ensures id in ws[n].rows ==> 0 <= ws[n].rows[id].retries <= ws[n].rows[id].max + 1
  {
    if n > 0 {
      RetryBound(ws, es, n - 1, id);
      KnownStep(ws[n - 1], es[n - 1]);
    }
  }

  predicate Active(k: Worker) {
    k.pc != Ended
  }

  /** Each snapshot is used up before the next query returns its task, and nobody resets the task. */
  predicate Fresh(w: World, e: Event) {
    match e
    case Spawn(_, id) => forall k | k in w.workers && w.workers[k].task == id :: !Active(w.workers[k])
    case Reset(_) => false
    case _ => true
  }

  /** The task has at most one active worker, and none once its file was found missing. */
  ghost predicate Alone(w: World, id: nat) {
    && (forall a, b | a in w.workers && b in w.workers && Active(w.workers[a]) && Active(w.workers[b])
          && w.workers[a].task == id && w.workers[b].task == id :: a == b)
    && (id in w.past.marked ==>
          id in w.rows && forall k | k in w.workers && w.workers[k].task == id :: !Active(w.workers[k]))
  }

  /** Until the file is found missing, the retry count is the number of failed attempts. */
  ghost predicate Tallied(w: World, id: nat) {
    if id in w.rows then
      && Failures(w, id) <= w.rows[id].max
      && w.rows[id].retries == (if id in w.past.marked then w.rows[id].max + 1 else Failures(w, id))
    else id !in w.past.failures
  }

  /** The active worker has the row's retry count in its snapshot. */
  ghost predicate UpToDate(w: World, id: nat) {
    id in w.rows ==> forall k | k in w.workers && Active(w.workers[k]) && w.workers[k].task == id ::
      w.workers[k].snap.retries == w.rows[id].retries
  }

  lemma AloneSame(w: World, g: World, id: nat)
    requires Alone(w, id) && g.workers == w.workers && g.past == w.past && w.rows.Keys <= g.rows.Keys
    ensures Alone(g, id)
  {
  }

  lemma AloneStep(w: World, e: Event, id: nat)
    requires Enabled(w, e) && Fresh(w, e) && Known(w) && Alone(w, id) && Tallied(w, id)
    ensures Alone(Step(w, e), id)
  {
    hide NextRetryDelay, Reclaimed, Failures, RetryFailed;
    var g := Step(w, e);
    if ByRecovery(e) {
      hide Step, Alone;
      RecoveryMoves(w, e);
      AloneSame(w, g, id);
      return;
    }
    forall k | k in g.workers && Active(g.workers[k]) && g.workers[k].task == id && !(e.Spawn? && e.worker == k)
      ensures k in w.workers && Active(w.workers[k]) && w.workers[k].task == id
    {
    }
  }

  lemma TalliedStep(w: World, e: Event, id: nat)
    requires Enabled(w, e) && Fresh(w, e) && Known(w) && Alone(w, id) && Tallied(w, id) && UpToDate(w, id)
    ensures Tallied(Step(w, e), id)
  {
    if id in w.rows && ByRecovery(e) {
      hide Step, NextRetryDelay;
      RecoveryMoves(w, e);
      return;
    }
    hide NextRetryDelay;
  }

  lemma UpToDateStep(w: World, e: Event, id: nat)
    requires Enabled(w, e) && Fresh(w, e) && Known(w) && Alone(w, id) && UpToDate(w, id)
    ensures UpToDate(Step(w, e), id)
  {
    hide NextRetryDelay, Failures;
  }

  lemma {:induction false} CountedInv(ws: seq<World>, es: seq<Event>, n: nat, id: nat)
    requires IsRun(ws, es) && n < |ws|
    requires forall i | 0 <= i < n :: Fresh(ws[i], es[i])
    ensures Known(ws[n]) && Alone(ws[n], id) && Tallied(ws[n], id) && UpToDate(ws[n], id)
  {
    if n > 0 {
      CountedInv(ws, es, n - 1, id);
      hide Known, Alone, Tallied, UpToDate, Step;
      KnownStep(ws[n - 1], es[n - 1]);
      AloneStep(ws[n - 1], es[n - 1], id);
      TalliedStep(ws[n - 1], es[n - 1], id);
      UpToDateStep(ws[n - 1], es[n - 1], id);
    }
  }

  /** With fresh snapshots at most `max` attempts of a task fail; nothing but a failed attempt costs a
      retry (crashes and reclaims cost none); and a task whose file was found missing is never selected
      again. */
  lemma RetriesSpent(ws: seq<World>, es: seq<Event>, n: nat, id: nat)
    requires IsRun(ws, es) && n < |ws| && id in ws[n].rows
    requires forall i | 0 <= i < n :: Fresh(ws[i], es[i])
    ensures Failures(ws[n], id) <= ws[n].rows[id].max
    ensures id !in ws[n].past.marked ==> ws[n].rows[id].retries == Failures(ws[n], id)
    ensures id in ws[n].past.marked ==> forall now :: !Selectable(ws[n].rows[id], now)
  {
    CountedInv(ws, es, n, id);
  }

  /** A row that is out of retries, say because its file was found missing, comes back exactly through a
      failed attempt whose snapshot had fewer than `max` - 1, or a reset. */
  lemma ComesBackExactly(w: World, e: Event, id: nat)
    requires Enabled(w, e) && Known(w) && id in w.rows && w.rows[id].retries >= w.rows[id].max
    ensures (exists now :: Selectable(Step(w, e).rows[id], now)) <==>
      e == Reset(id) ||
      (e.FailUpload? && w.workers[e.worker].task == id &&
       w.workers[e.worker].snap.retries + 1 < w.workers[e.worker].snap.max)
  {
    hide NextRetryDelay, Failures;
    var row := Step(w, e).rows[id];
    assert Selectable(row, row.nextRetryAt) <==> row.status == Failed && row.retries < row.max;
  }

  // ----- backoff -----

  /** Nobody is at work on the task, and its row is `row`. */
  ghost predicate Resting(w: World, id: nat, row: Row) {
    && id in w.rows && w.rows[id] == row && row.status == Failed
    && forall k | k in w.workers && w.workers[k].task == id :: !Active(w.workers[k])
  }

  lemma RestingStep(w: World, e: Event, id: nat, row: Row)
    requires Enabled(w, e) && Fresh(w, e) && Resting(w, id, row) && !(e.Spawn? && e.id == id)
    ensures Resting(Step(w, e), id, row)
  {
    hide NextRetryDelay, Failures;
  }

  lemma {:induction false} RestsUntilSpawn(ws: seq<World>, es: seq<Event>, i: nat, j: nat, id: nat, row: Row)
    requires IsRun(ws, es) && i <= j < |ws| && Resting(ws[i], id, row)
    requires forall m | i <= m < j :: Fresh(ws[m], es[m]) && !(es[m].Spawn? && es[m].id == id)
    ensures Resting(ws[j], id, row)
  {
    if i < j {
      hide Resting, Step;
      RestsUntilSpawn(ws, es, i, j - 1, id, row);
      RestingStep(ws[j - 1], es[j - 1], id, row);
    }
  }

  /** With fresh snapshots the next worker for a task comes no earlier after a failed attempt than the
      backoff for the number of attempts that have failed. */
  lemma BackoffRespected(ws: seq<World>, es: seq<Event>, i: nat, j: nat, worker: nat, id: nat)
    requires IsRun(ws, es) && i < j < |es|
    requires es[i] == FailUpload(worker) && ws[i].workers[worker].task == id
    requires es[j].Spawn? && es[j].id == id
    requires forall m | 0 <= m <= j :: Fresh(ws[m], es[m])
    requires forall m | i < m < j :: !(es[m].Spawn? && es[m].id == id)
    ensures ws[j].now >= ws[i].now + NextRetryDelay(Failures(ws[i + 1], id))
  {
    hide NextRetryDelay;
    CountedInv(ws, es, i, id);
    CountedInv(ws, es, i + 1, id);
    assert ws[i + 1] == Step(ws[i], es[i]);
    RestsUntilSpawn(ws, es, i + 1, j, id, ws[i + 1].rows[id]);
  }
}
