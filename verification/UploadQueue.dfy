/** The retry queue of failed uploads (upload_task.go, upload_retry.go): database rows, media files and
    any number of concurrent workers, each a step program that carries the row as it was when the query
    returned it. Times are in seconds. */
module UploadQueue {

  datatype Status = Pending | Uploading | Success | Failed

  datatype Row = Row(path: string, status: Status, retries: int, max: int, nextRetryAt: int, startedAt: int)

  /** Where a run of retryUpload stands: before and after the look at the local file, while it uploads,
      between the upload and the update of the row, and between that (whether or not it took effect) and
      the removal of the file. */
  datatype Pc = Ready | Found | Missing | Claimed(since: int) | Uploaded(since: int) | Recorded | Ended

  datatype Worker = Worker(task: nat, snap: Row, pc: Pc)

  /** Which tasks were delivered to the storage, finished (an attempt went on to record its success),
      marked as having lost their file, and how many attempts of each failed. */
  datatype History = History(delivered: set<nat>, finished: set<nat>, marked: set<nat>, failures: map<nat, nat>)

  /** `placed` are the recoveries between the move of the media and the end of its registration, each
      with the pending path, under the id its row would get. */
  datatype World = World(
    now: int, rows: map<nat, Row>, files: set<string>, placed: map<nat, string>, workers: map<nat, Worker>,
    past: History)

  /** The first three are the steps of a recovery: it moves the media, then writes the row, or gives up
      and moves the media back if that works. */
  datatype Event =
    | Place(id: nat, path: string)
    | Insert(id: nat)
    | TakeBack(id: nat, moved: bool)
    | Reclaim
    | Spawn(worker: nat, id: nat)
    | Skip(worker: nat)
    | Stat(worker: nat)
    | MarkMissing(worker: nat)
    | Claim(worker: nat)
    | Upload(worker: nat)
    | FailUpload(worker: nat)
    | Record(worker: nat, written: bool)
    | Remove(worker: nat)
    | Crash(worker: nat)
    | Reset(id: nat)
    | Vanish(path: string)
    | Advance(seconds: nat)

  const MAX_RETRIES := 10
  const STALE_AFTER := 7200

  /** nextRetryDelay. */
  function NextRetryDelay(retries: nat): int {
    if retries == 0 then 60
    else if retries == 1 then 300
    else if retries == 2 then 900
    else if retries == 3 then 3600
    else if retries == 4 then 21600
    else 86400
  }

  lemma NextRetryDelayGrows(m: nat, n: nat)
    requires m <= n
    ensures NextRetryDelay(0) == 60 <= NextRetryDelay(m) <= NextRetryDelay(n) <= 86400 == NextRetryDelay(5)
    ensures m < n <= 5 ==> NextRetryDelay(m) < NextRetryDelay(n)
  {
  }

  // ----- rows -----

  /** The rows that QueryPendingUploads may return. */
  predicate Selectable(row: Row, now: int) {
    row.status == Failed && row.nextRetryAt <= now && row.retries < row.max
  }

  /** MarkUploadRetryFailed. */
  function RetryFailed(row: Row, retries: nat, now: int): Row {
    row.(status := Failed, retries := retries + 1, nextRetryAt := now + NextRetryDelay(retries + 1))
  }

  /** ReclaimStaleUploading, for one row. */
  function Reclaimed(row: Row, now: int): Row {
    if row.status == Uploading && row.startedAt <= now - STALE_AFTER
    then row.(status := Failed, nextRetryAt := now) else row
  }

  // ----- steps -----

  predicate InFlight(k: Worker) {
    k.pc.Claimed? || k.pc.Uploaded?
  }

  predicate At(w: World, worker: nat) {
    worker in w.workers && w.workers[worker].task in w.rows && w.workers[worker].snap.max >= 0
    && w.workers[worker].snap.retries >= 0
  }

  /** Assumed of the environment: recovery moves media to where no file is, operators reset only rows that
      are not uploading, and an attempt that does not crash ends within the stale limit. A failure or
      missing-file write that the database loses is the same as a crash of its worker. */
  predicate Enabled(w: World, e: Event) {
    match e
    case Place(id, path) => id !in w.rows && id !in w.placed && path !in w.files
    case Insert(id) => id in w.placed && id !in w.rows
    case TakeBack(id, _) => id in w.placed
    case Reclaim => true
    case Spawn(worker, id) => worker !in w.workers && id in w.rows && Selectable(w.rows[id], w.now)
    case Skip(worker) => At(w, worker) && w.workers[worker].pc == Ready
    case Stat(worker) => At(w, worker) && w.workers[worker].pc == Ready
    case MarkMissing(worker) => At(w, worker) && w.workers[worker].pc == Missing
    case Claim(worker) => At(w, worker) && w.workers[worker].pc == Found
    case Upload(worker) =>
      At(w, worker) && w.workers[worker].pc.Claimed? && w.workers[worker].snap.path in w.files
    case FailUpload(worker) => At(w, worker) && w.workers[worker].pc.Claimed?
    case Record(worker, written) => At(w, worker) && w.workers[worker].pc.Uploaded?
    case Remove(worker) => At(w, worker) && w.workers[worker].pc == Recorded
    case Crash(worker) => At(w, worker)
    case Reset(id) => id in w.rows && w.rows[id].status != Uploading
    case Vanish(path) => true
    case Advance(seconds) =>
      forall k | k in w.workers && InFlight(w.workers[k]) :: w.now + seconds < w.workers[k].pc.since + STALE_AFTER
  }

  function Go(w: World, worker: nat, pc: Pc): World
    requires worker in w.workers
  {
    w.(workers := w.workers[worker := w.workers[worker].(pc := pc)])
  }

  function SetRow(w: World, id: nat, row: Row): World {
    w.(rows := w.rows[id := row])
  }

  function Failures(w: World, id: nat): nat {
    if id in w.past.failures then w.past.failures[id] else 0
  }

  /** The missing-file branch: it writes the row without having claimed it. */
  function MarkedMissing(w: World, worker: nat): World
    requires At(w, worker)
  {
    var k := w.workers[worker];
    SetRow(Go(w, worker, Ended), k.task, RetryFailed(w.rows[k.task], k.snap.max, w.now)).(
      past := w.past.(marked := w.past.marked + {k.task}))
  }

  /** MarkUploading: only a row that is still Failed is claimed. */
  function AfterClaim(w: World, worker: nat): World
    requires At(w, worker)
  {
    var id := w.workers[worker].task;
    if w.rows[id].status == Failed then
      SetRow(Go(w, worker, Claimed(w.now)), id, w.rows[id].(status := Uploading, startedAt := w.now))
    else Go(w, worker, Ended)
  }

  /** MarkUploadSuccess up to the removal of the file, which follows even if the update was lost. */
  function AfterUpload(w: World, worker: nat, written: bool): World
    requires At(w, worker)
  {
    var id := w.workers[worker].task;
    var g := Go(w, worker, Recorded).(past := w.past.(finished := w.past.finished + {id}));
    if written then SetRow(g, id, w.rows[id].(status := Success)) else g
  }

  function AfterFailure(w: World, worker: nat): World
    requires At(w, worker)
  {
    var k := w.workers[worker];
    SetRow(Go(w, worker, Ended), k.task, RetryFailed(w.rows[k.task], k.snap.retries, w.now)).(
      past := w.past.(failures := w.past.failures[k.task := Failures(w, k.task) + 1]))
  }

  function Step(w: World, e: Event): World
    requires Enabled(w, e)
  {
    match e
    case Place(id, path) => w.(placed := w.placed[id := path], files := w.files + {path})
    case Insert(id) =>
      SetRow(w, id, Row(w.placed[id], Failed, 0, MAX_RETRIES, w.now + NextRetryDelay(0), 0)).(
        placed := w.placed - {id})
    case TakeBack(id, moved) =>
      w.(placed := w.placed - {id}, files := if moved then w.files - {w.placed[id]} else w.files)
    case Reclaim => w.(rows := map id | id in w.rows :: Reclaimed(w.rows[id], w.now))
    case Spawn(worker, id) => w.(workers := w.workers[worker := Worker(id, w.rows[id], Ready)])
    case Skip(worker) => Go(w, worker, Ended)
    case Stat(worker) => Go(w, worker, if w.workers[worker].snap.path in w.files then Found else Missing)
    case MarkMissing(worker) => MarkedMissing(w, worker)
    case Claim(worker) => AfterClaim(w, worker)
    case Upload(worker) =>
      Go(w, worker, Uploaded(w.workers[worker].pc.since)).(
        past := w.past.(delivered := w.past.delivered + {w.workers[worker].task}))
    case FailUpload(worker) => AfterFailure(w, worker)
    case Record(worker, written) => AfterUpload(w, worker, written)
    case Remove(worker) => Go(w, worker, Ended).(files := w.files - {w.workers[worker].snap.path})
    case Crash(worker) => Go(w, worker, Ended)
    case Reset(id) => SetRow(w, id, w.rows[id].(status := Failed, retries := 0, nextRetryAt := w.now))
    case Vanish(path) => w.(files := w.files - {path})
    case Advance(seconds) => w.(now := w.now + seconds)
  }

  /** When a task can be selected after a step that writes its row: a new one after a minute, a reset or a
      reclaimed one at once, one whose attempt failed after the backoff if that has left it a retry; one
      whose file is missing, that is claimed, or whose success is recorded, never. */
  lemma NextSelection(w: World, e: Event, id: nat, t: int)
    requires Enabled(w, e)
    ensures var g := Step(w, e);
      && (e == Insert(id) ==> (Selectable(g.rows[id], t) <==> t >= w.now + 60))
      && (e == Reset(id) ==> (Selectable(g.rows[id], t) <==> t >= w.now && w.rows[id].max > 0))
      && (e.Reclaim? && id in w.rows && w.rows[id].status == Uploading ==>
            (Selectable(g.rows[id], t) <==>
              w.now - w.rows[id].startedAt >= 7200 && t >= w.now && w.rows[id].retries < w.rows[id].max))
      && (e.Reclaim? && id in w.rows && w.rows[id].status != Uploading ==> g.rows[id] == w.rows[id])
      && (e.FailUpload? && w.workers[e.worker].task == id ==>
            (Selectable(g.rows[id], t) <==>
              && t >= w.now + NextRetryDelay(w.workers[e.worker].snap.retries + 1)
              && w.workers[e.worker].snap.retries + 1 < w.rows[id].max))
      && (e.MarkMissing? && w.workers[e.worker].task == id && w.workers[e.worker].snap.max == w.rows[id].max ==>
            !Selectable(g.rows[id], t))
      && (e.Claim? && w.workers[e.worker].task == id && w.rows[id].status == Failed ==>
            g.workers[e.worker].pc == Claimed(w.now) && !Selectable(g.rows[id], t))
      && (e.Record? && e.written && w.workers[e.worker].task == id ==> !Selectable(g.rows[id], t))
  {
    hide Failures;
  }

  // ----- runs -----

  predicate Init(w: World) {
    w.rows == map[] && w.placed == map[] && w.workers == map[] && w.past == History({}, {}, {}, map[])
  }

  ghost predicate IsRun(ws: seq<World>, es: seq<Event>) {
    && |ws| == |es| + 1 && Init(ws[0])
    && forall i | 0 <= i < |es| :: Enabled(ws[i], es[i]) && ws[i + 1] == Step(ws[i], es[i])
  }

  // ----- mutual exclusion -----

  /** At most one worker is between its claim and its final write for task `id`. */
  ghost predicate Exclusive(w: World, id: nat) {
    forall a, b | a in w.workers && b in w.workers && InFlight(w.workers[a]) && InFlight(w.workers[b])
      && w.workers[a].task == id && w.workers[b].task == id :: a == b
  }

  /** The row of an attempt in flight says Uploading since that attempt's claim. */
  ghost predicate Covered(w: World, id: nat) {
    forall k | k in w.workers && InFlight(w.workers[k]) && w.workers[k].task == id ::
      && id in w.rows && w.rows[id].status == Uploading
      && w.rows[id].startedAt == w.workers[k].pc.since
      && w.now < w.workers[k].pc.since + STALE_AFTER
  }

  ghost predicate Attempted(w: World, id: nat) {
    exists k | k in w.workers :: InFlight(w.workers[k]) && w.workers[k].task == id
  }

  /** A missing-file write on task `id` while an attempt of it is in flight. */
  ghost predicate Clobbers(w: World, e: Event, id: nat) {
    e.MarkMissing? && e.worker in w.workers && w.workers[e.worker].task == id && Attempted(w, id)
  }

  /** A claim that succeeds on task `id` while an attempt of it is in flight. */
  ghost predicate ClaimsTwice(w: World, e: Event, id: nat) {
    && e.Claim? && e.worker in w.workers && w.workers[e.worker].task == id
    && id in w.rows && w.rows[id].status == Failed && Attempted(w, id)
  }

  lemma OnlyClaimsTakeOff(w: World, e: Event, id: nat)
    requires Enabled(w, e)
    ensures var g := Step(w, e);
      forall k | k in g.workers && InFlight(g.workers[k]) && g.workers[k].task == id && !(e.Claim? && e.worker == k) ::
        && k in w.workers && InFlight(w.workers[k]) && w.workers[k].task == id
        && g.workers[k].pc.since == w.workers[k].pc.since
  {
    hide RetryFailed, Reclaimed, Failures;
  }

  /** A step ends mutual exclusion if and only if it is a claim on top of an attempt in flight. */
  lemma ExclusiveExact(w: World, e: Event, id: nat)
    requires Enabled(w, e) && Exclusive(w, id)
    ensures Exclusive(Step(w, e), id) <==> !ClaimsTwice(w, e, id)
  {
    hide RetryFailed, Reclaimed, Failures;
    OnlyClaimsTakeOff(w, e, id);
    if ClaimsTwice(w, e, id) {
      var k :| k in w.workers && InFlight(w.workers[k]) && w.workers[k].task == id;
      var g := Step(w, e);
      assert k != e.worker && g.workers[k] == w.workers[k] && InFlight(g.workers[e.worker]);
    }
  }

  /** A run is free of concurrent attempts at a task if and only if no claim is made on top of one. */
  lemma {:induction false} ExclusionExactly(ws: seq<World>, es: seq<Event>, id: nat, n: nat)
    requires IsRun(ws, es) && n < |ws|
    ensures (forall i | 0 <= i <= n :: Exclusive(ws[i], id)) <==>
      (forall i | 0 <= i < n :: !ClaimsTwice(ws[i], es[i], id))
  {
    if n > 0 {
      ExclusionExactly(ws, es, id, n - 1);
      if forall i | 0 <= i <= n - 1 :: Exclusive(ws[i], id) {
        ExclusiveExact(ws[n - 1], es[n - 1], id);
        assert ws[n] == Step(ws[n - 1], es[n - 1]);
      }
    }
  }

  lemma CoveredStep(w: World, e: Event, id: nat)
    requires Enabled(w, e) && Exclusive(w, id) && Covered(w, id) && !Clobbers(w, e, id)
    ensures Covered(Step(w, e), id)
  {
    hide Failures;
    OnlyClaimsTakeOff(w, e, id);
    var g := Step(w, e);
    forall k | k in g.workers && InFlight(g.workers[k]) && g.workers[k].task == id
      ensures id in g.rows && g.rows[id].status == Uploading && g.rows[id].startedAt == g.workers[k].pc.since
      ensures g.now < g.workers[k].pc.since + STALE_AFTER
    {
    }
  }

  lemma CoveredClaimsOnce(w: World, e: Event, id: nat)
    requires Covered(w, id)
    ensures !ClaimsTwice(w, e, id)
  {
  }

  /** Mutual exclusion over every run, as long as no missing-file write hits the task while an attempt of
      it is in flight: however stale the snapshots, and with any crashes, reclaims, resets, lost writes
      and vanishing files. */
  lemma {:induction false} MutualExclusion(ws: seq<World>, es: seq<Event>, id: nat, n: nat)
    requires IsRun(ws, es) && n < |ws|
    requires forall i | 0 <= i < n :: !Clobbers(ws[i], es[i], id)
    ensures Exclusive(ws[n], id) && Covered(ws[n], id)
  {
    if n > 0 {
      MutualExclusion(ws, es, id, n - 1);
      CoveredClaimsOnce(ws[n - 1], es[n - 1], id);
      ExclusiveExact(ws[n - 1], es[n - 1], id);
      CoveredStep(ws[n - 1], es[n - 1], id);
    }
  }

  /** The guard of MutualExclusion is exact for one step: a missing-file write keeps the row true to the
      attempts if and only if none is in flight. */
  lemma MarkMissingExact(w: World, worker: nat)
    requires Enabled(w, MarkMissing(worker)) && Covered(w, w.workers[worker].task)
    ensures var id := w.workers[worker].task;
      Covered(Step(w, MarkMissing(worker)), id) <==> !Clobbers(w, MarkMissing(worker), id)
  {
    var id := w.workers[worker].task;
    var g := Step(w, MarkMissing(worker));
    assert g.rows[id].status == Failed;
    forall k | k in w.workers && InFlight(w.workers[k]) && w.workers[k].task == id ensures !Covered(g, id) {
      assert k != worker && g.workers[k] == w.workers[k];
    }
  }

  lemma ClobberUncovers(w: World, e: Event, id: nat)
    requires Enabled(w, e) && Covered(w, id) && Clobbers(w, e, id)
    ensures !Covered(Step(w, e), id)
  {
    MarkMissingExact(w, e.worker);
  }

  /** Over whole runs that guard is exact: a task is never attempted twice at a time and its row stays true
      to the attempts if and only if no missing-file write hits it during an attempt. */
  lemma {:induction false} MutualExclusionExactly(ws: seq<World>, es: seq<Event>, id: nat, n: nat)
    requires IsRun(ws, es) && n < |ws|
    ensures (forall i | 0 <= i <= n :: Exclusive(ws[i], id) && Covered(ws[i], id)) <==>
      (forall i | 0 <= i < n :: !Clobbers(ws[i], es[i], id))
  {
    hide Exclusive, Covered, Clobbers;
    if forall i | 0 <= i < n :: !Clobbers(ws[i], es[i], id) {
      forall i | 0 <= i <= n ensures Exclusive(ws[i], id) && Covered(ws[i], id) {
        MutualExclusion(ws, es, id, i);
      }
    } else {
      var i :| 0 <= i < n && Clobbers(ws[i], es[i], id);
      if Covered(ws[i], id) {
        ClobberUncovers(ws[i], es[i], id);
        assert ws[i + 1] == Step(ws[i], es[i]);
      }
    }
  }

  lemma {:induction false} ByStatus(ws: seq<World>, es: seq<Event>, id: nat, n: nat)
    requires IsRun(ws, es) && n < |ws|
    requires forall i | 0 <= i < n && es[i].MarkMissing? && ws[i].workers[es[i].worker].task == id ::
      ws[i].rows[id].status != Uploading
    ensures forall i | 0 <= i < n :: !Clobbers(ws[i], es[i], id)
  {
    if n > 0 {
      ByStatus(ws, es, id, n - 1);
      MutualExclusion(ws, es, id, n - 1);
    }
  }

  /** The status of the row is a test that suffices: a missing-file write on a row that is not uploading
      hits no attempt. */
  lemma MutualExclusionByStatus(ws: seq<World>, es: seq<Event>, id: nat, n: nat)
    requires IsRun(ws, es) && n < |ws|
    requires forall i | 0 <= i < n && es[i].MarkMissing? && ws[i].workers[es[i].worker].task == id ::
      ws[i].rows[id].status != Uploading
    ensures Exclusive(ws[n], id)
  {
    ByStatus(ws, es, id, n);
    MutualExclusion(ws, es, id, n);
  }

  /** When it does not, any worker that has already seen the file can claim the task a second time. */
  lemma SecondClaim(w: World, inFlight: nat, missing: nat, found: nat)
    requires Enabled(w, MarkMissing(missing)) && At(w, found) && w.workers[found].pc == Found
    requires inFlight in w.workers && InFlight(w.workers[inFlight])
    requires w.workers[missing].task == w.workers[found].task == w.workers[inFlight].task
    ensures var g := Step(w, MarkMissing(missing));
      Enabled(g, Claim(found)) && !Exclusive(Step(g, Claim(found)), w.workers[found].task)
  {
    var g := Step(w, MarkMissing(missing));
    var h := Step(g, Claim(found));
    assert InFlight(h.workers[found]) && InFlight(h.workers[inFlight]) && found != inFlight;
  }

  // ----- media -----

  /** What a worker knows about its task, however old its snapshot is. */
  ghost predicate Known(w: World) {
    && (forall k | k in w.workers ::
          var worker := w.workers[k];
          && worker.task in w.rows && worker.snap.path == w.rows[worker.task].path
          && worker.snap.max == w.rows[worker.task].max && 0 <= worker.snap.retries < worker.snap.max)
    && (forall id | id in w.rows ::
          0 <= w.rows[id].retries <= w.rows[id].max + 1 && w.rows[id].max > 0 && w.rows[id].status != Pending)
  }

  /** A worker that has uploaded did so for its task, and what was finished was uploaded. */
  ghost predicate Delivered(w: World) {
    && w.past.finished <= w.past.delivered
    && (forall k | k in w.workers && w.workers[k].pc.Uploaded? :: w.workers[k].task in w.past.delivered)
    && (forall k | k in w.workers && w.workers[k].pc == Recorded :: w.workers[k].task in w.past.finished)
  }

  ghost predicate SomeAt(w: World, t: nat, ready: bool) {
    exists k | k in w.workers && w.workers[k].task == t ::
      if ready then w.workers[k].pc == Ready || w.workers[k].pc == Found else w.workers[k].pc == Missing
  }

  /** Task `t` can do no harm to a file that has come to lie at its path: nobody is past its claim, the
      row will not be selected, and no worker in front of its claim can get one. */
  ghost predicate Harmless(w: World, t: nat)
    requires t in w.rows
  {
    && (forall k | k in w.workers && w.workers[k].task == t ::
          !InFlight(w.workers[k]) && w.workers[k].pc != Recorded)
    && (w.rows[t].status == Success || w.rows[t].retries >= w.rows[t].max)
    && (SomeAt(w, t, true) ==> w.rows[t].status == Success && !SomeAt(w, t, false))
  }

  /** Until an attempt goes on to record the task's success its file is there, no worker has seen it
      missing, and the older tasks of that path do no harm. */
  ghost predicate Kept(w: World, id: nat) {
    id in w.rows && id !in w.past.finished ==>
      && w.rows[id].path in w.files
      && (forall k | k in w.workers && w.workers[k].task == id :: w.workers[k].pc != Missing)
      && (forall t | t in w.rows && t != id && w.rows[t].path == w.rows[id].path :: Harmless(w, t))
  }

  /** Media whose row has not been written yet is there, and the older tasks of that path do no harm. */
  ghost predicate PlacedKept(w: World, id: nat) {
    id in w.placed ==>
      && w.placed[id] in w.files
      && (forall t | t in w.rows && w.rows[t].path == w.placed[id] :: Harmless(w, t))
  }

  /** Media on its way shares its path with no other, nor with that of an unfinished task. */
  ghost predicate Unshared(w: World) {
    forall j | j in w.placed ::
      && (forall i | i in w.placed && i != j :: w.placed[i] != w.placed[j])
      && (forall t | t in w.rows && t !in w.past.finished :: w.rows[t].path != w.placed[j])
  }

  /** Files are lost only through uploads; a pending name is used again only over harmless tasks; and no
      task is reset whose path another, unfinished task or a recovery has taken. */
  ghost predicate Proper(w: World, e: Event) {
    match e
    case Place(_, path) => forall t | t in w.rows && w.rows[t].path == path :: Harmless(w, t)
    case Reset(id) => id in w.rows ==>
      && (forall t | t in w.rows && t != id && w.rows[t].path == w.rows[id].path :: t in w.past.finished)
      && (forall j | j in w.placed :: w.placed[j] != w.rows[id].path)
    case Vanish(_) => false
    case _ => true
  }

  lemma RowsStay(w: World, e: Event)
    requires Enabled(w, e)
    ensures var g := Step(w, e);
      && w.past.finished <= g.past.finished
      && (forall id | id in w.rows ::
            id in g.rows && g.rows[id].path == w.rows[id].path && g.rows[id].max == w.rows[id].max)
      && (forall id | id in g.rows && id !in w.rows ::
            e == Insert(id) && id in w.placed && id !in g.placed && g.rows[id].path == w.placed[id])
      && (forall j | j in g.placed && j !in w.placed :: e == Place(j, g.placed[j]))
      && (forall j | j in g.placed && j in w.placed :: g.placed[j] == w.placed[j])
  {
    hide Failures, NextRetryDelay;
  }

  lemma WorkersStay(w: World, e: Event)
    requires Enabled(w, e)
    ensures var g := Step(w, e);
      forall k | k in g.workers ::
        if k in w.workers then g.workers[k].task == w.workers[k].task && g.workers[k].snap == w.workers[k].snap
        else e == Spawn(k, g.workers[k].task) && g.workers[k].snap == w.rows[g.workers[k].task]
  {
    hide Failures, NextRetryDelay, RetryFailed, Reclaimed;
  }

  lemma KnownRowsStep(w: World, e: Event)
    requires Enabled(w, e) && Known(w)
    ensures var g := Step(w, e); forall id | id in g.rows ::
      0 <= g.rows[id].retries <= g.rows[id].max + 1 && g.rows[id].max > 0 && g.rows[id].status != Pending
  {
    hide Failures, NextRetryDelay;
  }

  lemma KnownStep(w: World, e: Event)
    requires Enabled(w, e) && Known(w)
    ensures Known(Step(w, e))
  {
    hide Step, NextRetryDelay;
    RowsStay(w, e);
    WorkersStay(w, e);
    KnownRowsStep(w, e);
  }

  lemma DeliveredStep(w: World, e: Event)
    requires Enabled(w, e) && Delivered(w)
    ensures Delivered(Step(w, e))
  {
    hide Failures, RetryFailed, Reclaimed;
  }

  lemma HarmlessSame(w: World, g: World, t: nat)
    requires t in w.rows && Harmless(w, t) && g.workers == w.workers && t in g.rows && g.rows[t] == w.rows[t]
    ensures Harmless(g, t)
  {
  }

  /** A worker that is not of task `t` moves. */
  lemma HarmlessOther(w: World, g: World, t: nat, worker: nat)
    requires t in w.rows && Harmless(w, t) && t in g.rows && g.rows[t] == w.rows[t]
    requires worker in w.workers && w.workers[worker].task != t && worker in g.workers && g.workers[worker].task != t
    requires g.workers == w.workers[worker := g.workers[worker]]
    ensures Harmless(g, t)
  {
    assert forall k | k in g.workers && g.workers[k].task == t :: k in w.workers && g.workers[k] == w.workers[k];
  }

  predicate ByRecovery(e: Event) {
    e.Place? || e.Insert? || e.TakeBack? || e.Vanish? || e.Advance? || e.Reset?
  }

  predicate ByTick(e: Event) {
    e.Reclaim? || e.Spawn?
  }

  /** A step of a recovery, an operator or the environment leaves the workers alone, and the old rows but
      for a reset one. */
  lemma RecoveryMoves(w: World, e: Event)
    requires Enabled(w, e) && ByRecovery(e)
    ensures var g := Step(w, e);
      && g.workers == w.workers && g.past == w.past
      && forall t | t in w.rows && e != Reset(t) :: t in g.rows && g.rows[t] == w.rows[t]
  {
  }

  /** A step of a worker leaves the other workers and the rows of other tasks alone. */
  lemma WorkerMoves(w: World, e: Event)
    requires Enabled(w, e) && !ByRecovery(e) && !ByTick(e)
    ensures var g := Step(w, e); var k := e.worker;
      && k in w.workers && k in g.workers && g.workers[k].task == w.workers[k].task
      && g.workers == w.workers[k := g.workers[k]]
      && forall t | t in w.rows && t != w.workers[k].task :: t in g.rows && g.rows[t] == w.rows[t]
  {
    hide Failures, NextRetryDelay, RetryFailed;
  }

  lemma HarmlessTick(w: World, e: Event, t: nat)
    requires Enabled(w, e) && t in w.rows && Harmless(w, t) && ByTick(e)
    ensures Harmless(Step(w, e), t)
  {
  }

  lemma HarmlessWork(w: World, e: Event, t: nat)
    requires Enabled(w, e) && Known(w) && t in w.rows && Harmless(w, t) && w.rows[t].path in w.files
    requires !ByRecovery(e) && !ByTick(e) && w.workers[e.worker].task == t
    ensures Harmless(Step(w, e), t)
  {
    hide Failures, NextRetryDelay;
  }

  /** While a file lies at its path and nobody resets it, a harmless task stays harmless. */
  lemma HarmlessStep(w: World, e: Event, t: nat)
    requires Enabled(w, e) && Known(w) && t in w.rows && Harmless(w, t)
    requires w.rows[t].path in w.files && e != Reset(t)
    ensures Harmless(Step(w, e), t)
  {
    hide Step, Harmless;
    if ByRecovery(e) {
      RecoveryMoves(w, e);
      HarmlessSame(w, Step(w, e), t);
    } else if ByTick(e) {
      HarmlessTick(w, e, t);
    } else if w.workers[e.worker].task == t {
      HarmlessWork(w, e, t);
    } else {
      WorkerMoves(w, e);
      HarmlessOther(w, Step(w, e), t, e.worker);
    }
  }

  lemma HarmlessPlace(w: World, id: nat, path: string, t: nat)
    requires Enabled(w, Place(id, path)) && t in w.rows && Harmless(w, t)
    ensures Harmless(Step(w, Place(id, path)), t)
  {
  }

  /** The step is no step of a recovery whose media lies at the path of task `id`. */
  predicate Elsewhere(w: World, e: Event, id: nat) {
    (e.Insert? || e.TakeBack?) && e.id in w.placed && id in w.rows && id !in w.past.finished ==>
      w.placed[e.id] != w.rows[id].path
  }

  lemma KeptFile(w: World, e: Event, id: nat)
    requires Enabled(w, e) && Proper(w, e) && Known(w) && Delivered(w) && Kept(w, id) && Elsewhere(w, e, id)
    requires id in w.rows && id !in Step(w, e).past.finished
    ensures w.rows[id].path in Step(w, e).files
  {
    hide Failures, NextRetryDelay, RetryFailed, Reclaimed;
  }

  lemma KeptSeen(w: World, e: Event, id: nat)
    requires Enabled(w, e) && Kept(w, id) && id in w.rows && id !in w.past.finished && Known(w)
    ensures var g := Step(w, e);
      forall k | k in g.workers && g.workers[k].task == id :: g.workers[k].pc != Missing
  {
    hide Failures, NextRetryDelay, RetryFailed, Reclaimed, Harmless;
  }

  lemma KeptOthers(w: World, e: Event, id: nat, t: nat)
    requires Enabled(w, e) && Proper(w, e) && Known(w) && Kept(w, id)
    requires id in w.rows && id !in w.past.finished
    requires t in w.rows && t != id && w.rows[t].path == w.rows[id].path
    ensures Harmless(Step(w, e), t)
  {
    hide Step, Harmless;
    HarmlessStep(w, e, t);
  }

  lemma KeptStep(w: World, e: Event, id: nat)
    requires Enabled(w, e) && Proper(w, e) && Known(w) && Delivered(w) && Kept(w, id) && Elsewhere(w, e, id)
    requires id in w.rows
    ensures Kept(Step(w, e), id)
  {
    var g := Step(w, e);
    RowsStay(w, e);
    hide Step, Harmless;
    if id !in g.past.finished {
      KeptFile(w, e, id);
      KeptSeen(w, e, id);
      forall t | t in g.rows && t != id && g.rows[t].path == g.rows[id].path ensures Harmless(g, t) {
        KeptOthers(w, e, id, t);
      }
    }
  }

  /** A written row takes over the file and the safety of the media that recovery had placed. */
  lemma KeptInsert(w: World, id: nat)
    requires Enabled(w, Insert(id)) && Known(w) && PlacedKept(w, id)
    ensures Kept(Step(w, Insert(id)), id)
  {
    var g := Step(w, Insert(id));
    RowsStay(w, Insert(id));
    forall t | t in g.rows && t != id && g.rows[t].path == g.rows[id].path ensures Harmless(g, t) {
      HarmlessStep(w, Insert(id), t);
    }
  }

  lemma PlacedFile(w: World, e: Event, id: nat)
    requires Enabled(w, e) && Proper(w, e) && Known(w) && PlacedKept(w, id) && Unshared(w)
    requires id in w.placed && id in Step(w, e).placed
    ensures w.placed[id] in Step(w, e).files
  {
    hide Failures, NextRetryDelay, RetryFailed, Reclaimed;
  }

  lemma PlacedStep(w: World, e: Event, id: nat)
    requires Enabled(w, e) && Proper(w, e) && Known(w) && PlacedKept(w, id) && Unshared(w)
    ensures PlacedKept(Step(w, e), id)
  {
    var g := Step(w, e);
    RowsStay(w, e);
    if id in g.placed {
      if id in w.placed {
        PlacedFile(w, e, id);
        hide Step, Harmless;
        forall t | t in g.rows && g.rows[t].path == g.placed[id] ensures Harmless(g, t) {
          HarmlessStep(w, e, t);
        }
      } else {
        hide Harmless;
        forall t | t in g.rows && g.rows[t].path == g.placed[id] ensures Harmless(g, t) {
          HarmlessPlace(w, id, e.path, t);
        }
      }
    }
  }

  lemma UnsharedStep(w: World, e: Event)
    requires Enabled(w, e) && Unshared(w)
    requires forall id | id in w.rows && id !in w.past.finished :: w.rows[id].path in w.files
    requires forall id | id in w.placed :: w.placed[id] in w.files
    ensures Unshared(Step(w, e))
  {
    RowsStay(w, e);
    assert e.Place? ==> e.path !in w.files;
    hide Step, Enabled;
    var g := Step(w, e);
    forall j | j in g.placed
      ensures forall i | i in g.placed && i != j :: g.placed[i] != g.placed[j]
      ensures forall t | t in g.rows && t !in g.past.finished :: g.rows[t].path != g.placed[j]
    {
    }
  }

  ghost predicate MediaInv(w: World) {
    && Known(w) && Delivered(w) && Unshared(w)
    && (forall id :: Kept(w, id)) && (forall id :: PlacedKept(w, id))
  }

  lemma KeptFiles(w: World)
    requires forall id :: Kept(w, id) && PlacedKept(w, id)
    ensures forall id | id in w.rows && id !in w.past.finished :: w.rows[id].path in w.files
    ensures forall id | id in w.placed :: w.placed[id] in w.files
  {
    hide Harmless;
    forall id ensures id in w.rows && id !in w.past.finished ==> w.rows[id].path in w.files {
      assert Kept(w, id);
    }
    forall id ensures id in w.placed ==> w.placed[id] in w.files {
      assert PlacedKept(w, id);
    }
  }

  lemma KeptNext(w: World, e: Event, id: nat)
    requires Enabled(w, e) && Proper(w, e) && MediaInv(w)
    ensures Kept(Step(w, e), id)
  {
    RowsStay(w, e);
    hide Known, Delivered, Step, Harmless, Proper;
    if id in w.rows {
      KeptStep(w, e, id);
    } else if id in Step(w, e).rows {
      KeptInsert(w, id);
    }
  }

  lemma MediaInvStep(w: World, e: Event)
    requires Enabled(w, e) && Proper(w, e) && MediaInv(w)
    ensures MediaInv(Step(w, e))
  {
    hide Known, Delivered, Unshared, Step, Kept, PlacedKept, Proper;
    KnownStep(w, e);
    DeliveredStep(w, e);
    assert forall id :: Kept(w, id) && PlacedKept(w, id);
    KeptFiles(w);
    UnsharedStep(w, e);
    forall id ensures Kept(Step(w, e), id) && PlacedKept(Step(w, e), id) {
      KeptNext(w, e, id);
      PlacedStep(w, e, id);
    }
  }

  lemma {:induction false} MediaInvHolds(ws: seq<World>, es: seq<Event>, n: nat)
    requires IsRun(ws, es) && n < |ws|
    requires forall i | 0 <= i < n :: Proper(ws[i], es[i])
    ensures MediaInv(ws[n])
  {
    if n > 0 {
      MediaInvHolds(ws, es, n - 1);
      assert ws[n] == Step(ws[n - 1], es[n - 1]);
      hide MediaInv, Step;
      MediaInvStep(ws[n - 1], es[n - 1]);
    }
  }

  /** Media conservation over runs of recoveries and queue together, with pending names used again and
      success writes lost, and with older workers at work between the move of the media and the writing of
      its row: media on its way is in place, and so is every task's file unless an upload of it has
      completed. */
  lemma MediaConserved(ws: seq<World>, es: seq<Event>, n: nat, id: nat)
    requires IsRun(ws, es) && n < |ws|
    requires forall i | 0 <= i < n :: Proper(ws[i], es[i])
    ensures id in ws[n].placed ==> ws[n].placed[id] in ws[n].files
    ensures id in ws[n].rows ==> ws[n].rows[id].path in ws[n].files || id in ws[n].past.delivered
  {
    MediaInvHolds(ws, es, n);
    assert Kept(ws[n], id) && PlacedKept(ws[n], id);
  }

  /** In such runs mutual exclusion of a task needs no further condition until an attempt goes on to
      record its success. */
  lemma ExclusiveUntilFinished(ws: seq<World>, es: seq<Event>, id: nat, n: nat)
    requires IsRun(ws, es) && n < |ws|
    requires forall i | 0 <= i < n :: Proper(ws[i], es[i])
    requires forall i | 0 <= i < n :: id !in ws[i].past.finished
    ensures Exclusive(ws[n], id) && Covered(ws[n], id)
  {
    forall i | 0 <= i < n ensures !Clobbers(ws[i], es[i], id) {
      MediaInvHolds(ws, es, i);
      assert Kept(ws[i], id);
    }
    MutualExclusion(ws, es, id, n);
  }
}
