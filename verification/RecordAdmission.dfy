/** Automatic recording (plugin.go): admission by the concurrency gate, registration of the record
    job on its publisher, and who gives the slot back.

    Caller, job event loop, start watcher and publisher are interleaved step by step. Of the task
    library this assumes: a rejected task never starts; an accepted one either starts, running its
    OnStart callback once, or has its startup promise rejected; a started one that ends runs its
    dispose callbacks; an accepted watcher runs; a publisher is stopped before it sweeps the tasks
    registered on it. */
module RecordAdmission {
  import opened Wrappers

  /** What the gate answered; any other answer counts as Unset. */
  datatype Verdict = Ungated | Admit(release: bool) | Queued | Refused | Unset

  /** Where recordOnPublish is: adding the job, registering it on the publisher, checking the
      publisher again, storing stopRequested, loading started, looking at the job, adding the start
      watcher, done. */
  datatype Caller = AddJob | UsePublisher | Recheck | StoreRequest | LoadStarted | LookAtJob | AddWatcher | Done

  /** The job: not added, waiting to start, rejected by AddTask, failed to start, at the store and at
      the load of its OnStart callback, running, disposed. */
  datatype Job = NoJob | Waiting | Rejected | FailedStart | StoreStarted | LoadRequest | Running | Disposed

  datatype Watcher = NoWatcher | WaitStarted | WatcherRejected | WatcherDone

  /** The job's place among the publisher's tasks, the two atomic flags, and who issued Stop. */
  datatype Registration = Registration(
    inResources: bool, swept: bool, sawPublisherStopped: bool, started: bool, stopRequested: bool,
    stopByCaller: bool, stopByJob: bool, stopByPublisher: bool)

  /** The concurrency slot: whether this recording holds it and how often a release freed it. */
  datatype Slot = Slot(held: bool, frees: nat, sawJobStopped: bool)

  datatype Rec = Rec(
    pub: nat, verdict: Verdict, caller: Caller, job: Job, watcher: Watcher, reg: Registration, slot: Slot)

  datatype RecEvent =
    | CallerStep(choice: bool)   // the library's or the scheduler's choice, where there is one
    | JobStep(choice: bool)
    | WatcherStep
    | SweepStep

  /** The flags a recording's steps can see. */
  datatype Env = Env(publisherStopped: bool, recordsStopped: bool)

  predicate NeedsSlot(v: Verdict) {
    v.Admit? && v.release
  }

  predicate StartsJob(v: Verdict) {
    v.Admit? || v.Ungated?
  }

  predicate StopIssued(r: Rec) {
    r.reg.stopByCaller || r.reg.stopByJob || r.reg.stopByPublisher
  }

  /** The job's context may be cancelled: a stop was issued, it is over, or its parent has stopped. */
  predicate MayBeStopped(r: Rec, env: Env) {
    StopIssued(r) || (r.job.FailedStart? || r.job.Disposed?) || env.recordsStopped
  }

  predicate MustBeStopped(r: Rec) {
    StopIssued(r) || r.job.Disposed?
  }

  function NewRec(pub: nat, verdict: Verdict): Rec {
    Rec(pub, verdict, if StartsJob(verdict) then AddJob else Done, NoJob, NoWatcher,
        Registration(false, false, false, false, false, false, false, false), Slot(NeedsSlot(verdict), 0, false))
  }

  /** Calling the idempotent release function, when the gate gave one. */
  function Release(s: Slot): Slot {
    if s.held then s.(held := false, frees := s.frees + 1) else s
  }

  predicate RecEnabled(r: Rec, env: Env, e: RecEvent) {
    match e
    case CallerStep(choice) =>
      && !r.caller.Done?
      // only an append that races with the sweep can be lost
      && (r.caller.UsePublisher? ==> choice || env.publisherStopped)
      && (r.caller.LookAtJob? ==> (MustBeStopped(r) ==> choice) && (choice ==> MayBeStopped(r, env)))
    case JobStep(choice) => r.job.Waiting? || r.job.StoreStarted? || r.job.LoadRequest? || r.job.Running?
    case WatcherStep => r.watcher.WaitStarted? && !r.job.NoJob? && !r.job.Waiting?
    case SweepStep => env.publisherStopped && !r.reg.swept
  }

  function StepAddJob(r: Rec, accepted: bool): Rec {
    r.(job := if accepted then Waiting else Rejected, caller := UsePublisher)
  }

  function StepUse(r: Rec, kept: bool): Rec {
    r.(reg := r.reg.(inResources := kept), caller := Recheck)
  }

  function StepRecheck(r: Rec, publisherStopped: bool): Rec {
    r.(reg := r.reg.(sawPublisherStopped := publisherStopped),
       caller := if publisherStopped then StoreRequest else LookAtJob)
  }

  function StepStoreRequest(r: Rec): Rec {
    r.(reg := r.reg.(stopRequested := true), caller := LoadStarted)
  }

  function StepLoadStarted(r: Rec): Rec {
    r.(reg := r.reg.(stopByCaller := r.reg.started), caller := LookAtJob)
  }

  function StepLook(r: Rec, stopped: bool): Rec {
    if !NeedsSlot(r.verdict) then r.(caller := Done)
    else if stopped then r.(slot := Release(r.slot.(sawJobStopped := true)), caller := Done)
    else r.(caller := AddWatcher)
  }

  function StepAddWatcher(r: Rec, accepted: bool): Rec {
    if accepted then r.(watcher := WaitStarted, caller := Done)
    else r.(slot := Release(r.slot), watcher := WatcherRejected, caller := Done)
  }

  function StepCaller(r: Rec, env: Env, choice: bool): Rec {
    match r.caller
    case AddJob => StepAddJob(r, choice)
    case UsePublisher => StepUse(r, choice)
    case Recheck => StepRecheck(r, env.publisherStopped)
    case StoreRequest => StepStoreRequest(r)
    case LoadStarted => StepLoadStarted(r)
    case LookAtJob => StepLook(r, choice)
    case AddWatcher => StepAddWatcher(r, choice)
    case Done => r
  }

  function StepStart(r: Rec, ok: bool): Rec {
    r.(job := if ok then StoreStarted else FailedStart)
  }

  function StepStoreStarted(r: Rec): Rec {
    r.(reg := r.reg.(started := true), job := LoadRequest)
  }

  function StepLoadRequest(r: Rec): Rec {
    r.(reg := r.reg.(stopByJob := r.reg.stopRequested), job := Running)
  }

  function StepDispose(r: Rec): Rec {
    r.(slot := Release(r.slot), job := Disposed)
  }

  function StepJob(r: Rec, choice: bool): Rec {
    match r.job
    case Waiting => StepStart(r, choice)
    case StoreStarted => StepStoreStarted(r)
    case LoadRequest => StepLoadRequest(r)
    case _ => StepDispose(r)
  }

  function StepWatcher(r: Rec): Rec {
    r.(slot := if r.job.Rejected? || r.job.FailedStart? then Release(r.slot) else r.slot, watcher := WatcherDone)
  }

  function StepSweep(r: Rec): Rec {
    r.(reg := r.reg.(swept := true, stopByPublisher := r.reg.inResources))
  }

  function RecStep(r: Rec, env: Env, e: RecEvent): Rec {
    match e
    case CallerStep(choice) => StepCaller(r, env, choice)
    case JobStep(choice) => StepJob(r, choice)
    case WatcherStep => StepWatcher(r)
    case SweepStep => StepSweep(r)
  }

  // ----- what every step keeps -----

  predicate Registered(r: Rec) {
    (r.caller.LookAtJob? || r.caller.AddWatcher? || r.caller.Done?) && !r.job.NoJob?
  }

  predicate OnStartDone(r: Rec) {
    (r.job.Running? || r.job.Disposed?)
  }

  predicate Started(r: Rec) {
    (r.job.StoreStarted? || r.job.LoadRequest? || r.job.Running? || r.job.Disposed?)
  }

  ghost predicate StopInv(r: Rec, publisherStopped: bool) {
    && (r.reg.swept ==> publisherStopped)
    // a job that is missing from the publisher's tasks was registered after the publisher stopped
    && (r.caller.Recheck? && !r.reg.inResources ==> publisherStopped)
    && (Registered(r) && !r.reg.sawPublisherStopped ==> r.reg.inResources && (r.reg.swept ==> r.reg.stopByPublisher))
    && ((r.caller.AddJob? || r.caller.UsePublisher? || r.caller.Recheck?) ==> !r.reg.sawPublisherStopped)
    && ((r.caller.StoreRequest? || r.caller.LoadStarted?) ==> r.reg.sawPublisherStopped)
    // started and stopRequested are stored before the other one is loaded
    && ((r.job.LoadRequest? || r.job.Running? || r.job.Disposed?) ==> r.reg.started)
    && (r.caller.LoadStarted? || (Registered(r) && r.reg.sawPublisherStopped) ==> r.reg.stopRequested)
    && (Registered(r) && r.reg.sawPublisherStopped && OnStartDone(r) ==> r.reg.stopByCaller || r.reg.stopByJob)
  }

  ghost predicate SlotInv(r: Rec) {
    // the slot is held until its one effective release
    && r.slot.frees == (if NeedsSlot(r.verdict) && !r.slot.held then 1 else 0)
    && (r.slot.held ==> NeedsSlot(r.verdict))
    && (!r.caller.Done? ==> r.watcher.NoWatcher?)
    && (r.caller.AddJob? <==> r.job.NoJob? && StartsJob(r.verdict))
    && (!StartsJob(r.verdict) ==> r.caller.Done? && r.job.NoJob? && r.watcher.NoWatcher?)
    && (r.job.Disposed? ==> !r.slot.held)
    // once the caller is done, a held slot is watched or belongs to a started job
    && (r.caller.Done? && r.slot.held ==> r.watcher.WaitStarted? || (r.watcher.WatcherDone? && Started(r)))
    // a slot is not given back under a live job, but for two causes
    && (NeedsSlot(r.verdict) && !r.slot.held ==>
        || (r.job.Rejected? || r.job.FailedStart? || r.job.Disposed?)
        || r.slot.sawJobStopped || r.watcher.WatcherRejected?)
    && (r.slot.sawJobStopped || r.watcher.WatcherRejected? ==> !r.slot.held)
    && (r.slot.sawJobStopped ==> r.caller.Done?)
  }

  ghost predicate RecOk(r: Rec, publisherStopped: bool) {
    StopInv(r, publisherStopped) && SlotInv(r)
  }

  /** A step keeps the invariants, the publisher and the verdict, and never takes a slot. */
  ghost predicate Keeps(r: Rec, r': Rec, env: Env) {
    && RecOk(r', env.publisherStopped)
    && r'.pub == r.pub && r'.verdict == r.verdict
    && (r'.slot.held ==> r.slot.held)
  }

  lemma AddJobKeeps(r: Rec, env: Env, choice: bool)
    requires RecOk(r, env.publisherStopped) && r.caller.AddJob?
    ensures Keeps(r, StepAddJob(r, choice), env)
  {
  }

  lemma UseKeeps(r: Rec, env: Env, choice: bool)
    requires RecOk(r, env.publisherStopped) && r.caller.UsePublisher? && (choice || env.publisherStopped)
    ensures Keeps(r, StepUse(r, choice), env)
  {
  }

  lemma RecheckKeeps(r: Rec, env: Env)
    requires RecOk(r, env.publisherStopped) && r.caller.Recheck?
    ensures Keeps(r, StepRecheck(r, env.publisherStopped), env)
  {
  }

  lemma StoreRequestKeeps(r: Rec, env: Env)
    requires RecOk(r, env.publisherStopped) && r.caller.StoreRequest?
    ensures Keeps(r, StepStoreRequest(r), env)
  {
  }

  lemma LoadStartedKeeps(r: Rec, env: Env)
    requires RecOk(r, env.publisherStopped) && r.caller.LoadStarted?
    ensures Keeps(r, StepLoadStarted(r), env)
  {
  }

  lemma LookKeeps(r: Rec, env: Env, choice: bool)
    requires RecOk(r, env.publisherStopped) && r.caller.LookAtJob?
    ensures Keeps(r, StepLook(r, choice), env)
  {
  }

  lemma AddWatcherKeeps(r: Rec, env: Env, choice: bool)
    requires RecOk(r, env.publisherStopped) && r.caller.AddWatcher?
    ensures Keeps(r, StepAddWatcher(r, choice), env)
  {
  }

  lemma StartKeeps(r: Rec, env: Env, choice: bool)
    requires RecOk(r, env.publisherStopped) && r.job.Waiting?
    ensures Keeps(r, StepStart(r, choice), env)
  {
  }

  lemma StoreStartedKeeps(r: Rec, env: Env)
    requires RecOk(r, env.publisherStopped) && r.job.StoreStarted?
    ensures Keeps(r, StepStoreStarted(r), env)
  {
  }

  lemma LoadRequestKeeps(r: Rec, env: Env)
    requires RecOk(r, env.publisherStopped) && r.job.LoadRequest?
    ensures Keeps(r, StepLoadRequest(r), env)
  {
  }

  lemma DisposeKeeps(r: Rec, env: Env)
    requires RecOk(r, env.publisherStopped) && r.job.Running?
    ensures Keeps(r, StepDispose(r), env)
  {
  }

  lemma WatcherKeeps(r: Rec, env: Env)
    requires RecOk(r, env.publisherStopped) && r.watcher.WaitStarted? && !r.job.NoJob? && !r.job.Waiting?
    ensures Keeps(r, StepWatcher(r), env)
  {
  }

  lemma SweepKeeps(r: Rec, env: Env)
    requires RecOk(r, env.publisherStopped) && env.publisherStopped && !r.reg.swept
    ensures Keeps(r, StepSweep(r), env)
  {
  }

  lemma RecStepKeeps(r: Rec, env: Env, e: RecEvent)
    requires RecOk(r, env.publisherStopped) && RecEnabled(r, env, e)
    ensures Keeps(r, RecStep(r, env, e), env)
  {
    hide RecOk, Keeps, MustBeStopped, MayBeStopped, StepAddJob, StepUse, StepRecheck, StepStoreRequest,
      StepLoadStarted, StepLook, StepAddWatcher, StepStart, StepStoreStarted, StepLoadRequest, StepDispose,
      StepWatcher, StepSweep;
    match e {
      case CallerStep(choice) =>
        match r.caller {
          case AddJob => AddJobKeeps(r, env, choice);
          case UsePublisher => UseKeeps(r, env, choice);
          case Recheck => RecheckKeeps(r, env);
          case StoreRequest => StoreRequestKeeps(r, env);
          case LoadStarted => LoadStartedKeeps(r, env);
          case LookAtJob => LookKeeps(r, env, choice);
          case AddWatcher => AddWatcherKeeps(r, env, choice);
          case Done =>
        }
      case JobStep(choice) =>
        match r.job {
          case Waiting => StartKeeps(r, env, choice);
          case StoreStarted => StoreStartedKeeps(r, env);
          case LoadRequest => LoadRequestKeeps(r, env);
          case _ => DisposeKeeps(r, env);
        }
      case WatcherStep => WatcherKeeps(r, env);
      case SweepStep => SweepKeeps(r, env);
    }
  }

  // ----- was a task rejected? -----

  /** A task handed to AddTask, as moments of its life: whether it was rejected on the spot, when an
      accepted one left its parent's table, when its context and its parent's were cancelled. */
  datatype TaskLife = TaskLife(
    rejected: bool, left: Option<int>, cancelled: Option<int>, parentStopped: Option<int>)

  predicate By(moment: Option<int>, t: int) {
    moment.Some? && moment.value <= t
  }

  /** AddTask returned at `t0`. The parent's context cancels the task's; nobody else cancels a task
      that never ran; a task leaves the table only after it was cancelled. */
  ghost predicate Plausible(l: TaskLife, t0: int) {
    && (forall t {:trigger By(l.cancelled, t)} :: By(l.parentStopped, t) ==> By(l.cancelled, t))
    && (l.rejected ==>
          l.left.None? && forall t {:trigger By(l.cancelled, t)} :: By(l.cancelled, t) ==> By(l.parentStopped, t))
    && (!l.rejected ==> forall t {:trigger By(l.cancelled, t)} :: By(l.left, t) ==> By(l.cancelled, t))
  }

  predicate InTable(l: TaskLife, t: int) {
    !l.rejected && !By(l.left, t)
  }

  /** AddTaskRejected's answer when it reads the table at `t1`, the task's context at `t2` and the
      parent's at `t3`. */
  function AddTaskRejected(l: TaskLife, t1: int, t2: int, t3: int): bool {
    if InTable(l, t1) then false
    else if By(l.cancelled, t2) && !By(l.parentStopped, t3) then false
    else true
  }

  /** A synchronously rejected task is never reported as accepted, whatever happens between the
      reads. The report is wrong, the harmless way round, exactly for an accepted task that is
      already gone and whose parent has stopped by the last read. */
  lemma RejectionReported(l: TaskLife, t0: int, t1: int, t2: int, t3: int)
    requires Plausible(l, t0) && t0 <= t1 <= t2 <= t3
    ensures l.rejected ==> AddTaskRejected(l, t1, t2, t3)
    ensures AddTaskRejected(l, t1, t2, t3) <==> l.rejected || (By(l.left, t1) && By(l.parentStopped, t3))
  {
    assert By(l.parentStopped, t2) ==> By(l.parentStopped, t3);
    assert By(l.left, t1) ==> By(l.left, t2);
    assert By(l.cancelled, t2) || !By(l.cancelled, t2);
  }

  // ----- all recordings of a plugin -----

  datatype World = World(recs: map<nat, Rec>, stopped: map<nat, bool>, recordsStopped: bool, free: nat)

  datatype Event =
    | Publish(id: nat, pub: nat, verdict: Verdict)
    | Advance(id: nat, step: RecEvent)
    | StopPublisher(pub: nat)
    | StopRecords

  function PublisherStopped(w: World, pub: nat): bool {
    pub in w.stopped && w.stopped[pub]
  }

  function EnvOf(w: World, r: Rec): Env {
    Env(PublisherStopped(w, r.pub), w.recordsStopped)
  }

  predicate Enabled(w: World, e: Event) {
    match e
    case Publish(id, pub, verdict) => id !in w.recs && (NeedsSlot(verdict) ==> w.free > 0)
    case Advance(id, step) => id in w.recs && RecEnabled(w.recs[id], EnvOf(w, w.recs[id]), step)
    case _ => true
  }

  function Step(w: World, e: Event): World
    requires Enabled(w, e)
  {
    match e
    case Publish(id, pub, verdict) =>
      w.(recs := w.recs[id := NewRec(pub, verdict)], free := if NeedsSlot(verdict) then w.free - 1 else w.free)
    case Advance(id, step) =>
      var r := w.recs[id];
      var r' := RecStep(r, EnvOf(w, r), step);
      w.(recs := w.recs[id := r'], free := if r.slot.held && !r'.slot.held then w.free + 1 else w.free)
    case StopPublisher(pub) => w.(stopped := w.stopped[pub := true])
    case StopRecords => w.(recordsStopped := true)
  }

  ghost function Holders(w: World): set<nat> {
    set id | id in w.recs && w.recs[id].slot.held
  }

  ghost predicate RecInv(w: World, id: nat)
    requires id in w.recs
  {
    RecOk(w.recs[id], PublisherStopped(w, w.recs[id].pub))
  }

  ghost predicate Inv(w: World, capacity: nat) {
    && (forall id | id in w.recs :: RecInv(w, id))
    && w.free + |Holders(w)| == capacity
  }

  lemma StopPublisherKeeps(r: Rec, now: bool, later: bool)
    requires RecOk(r, now) && (now ==> later)
    ensures RecOk(r, later)
  {
  }

  lemma NewRecOk(pub: nat, verdict: Verdict, stopped: bool)
    ensures RecOk(NewRec(pub, verdict), stopped)
    ensures NewRec(pub, verdict).pub == pub && NewRec(pub, verdict).slot.held == NeedsSlot(verdict)
  {
  }

  lemma HoldersPublish(w: World, id: nat, r: Rec)
    requires id !in w.recs
    ensures |Holders(w.(recs := w.recs[id := r]))| == |Holders(w)| + if r.slot.held then 1 else 0
  {
    var w' := w.(recs := w.recs[id := r]);
    assert Holders(w') == if r.slot.held then Holders(w) + {id} else Holders(w);
  }

  lemma SameHolders(a: World, b: World)
    requires a.recs == b.recs
    ensures Holders(a) == Holders(b)
  {
  }

  lemma PublishKeeps(w: World, id: nat, pub: nat, verdict: Verdict, capacity: nat)
    requires Inv(w, capacity) && id !in w.recs && (NeedsSlot(verdict) ==> w.free > 0)
    ensures Inv(Step(w, Publish(id, pub, verdict)), capacity)
  {
    hide RecOk, NewRec, Holders;
    var w' := Step(w, Publish(id, pub, verdict));
    NewRecOk(pub, verdict, PublisherStopped(w, pub));
    HoldersPublish(w, id, NewRec(pub, verdict));
    forall i | i in w'.recs ensures RecInv(w', i) {
      assert i == id || RecInv(w, i);
    }
    assert Holders(w') == Holders(w.(recs := w'.recs)) by {
      SameHolders(w', w.(recs := w'.recs));
    }
  }

  lemma AdvanceKeeps(w: World, id: nat, step: RecEvent, capacity: nat)
    requires Inv(w, capacity) && id in w.recs && RecEnabled(w.recs[id], EnvOf(w, w.recs[id]), step)
    ensures Inv(Step(w, Advance(id, step)), capacity)
  {
    hide RecOk, RecStep, RecEnabled;
    var r, w' := w.recs[id], Step(w, Advance(id, step));
    assert RecInv(w, id);
    RecStepKeeps(r, EnvOf(w, r), step);
    assert forall i | i in w.recs :: RecInv(w, i);
    assert Holders(w') == if r.slot.held && !w'.recs[id].slot.held then Holders(w) - {id} else Holders(w);
  }

  lemma FlagKeeps(w: World, e: Event, capacity: nat)
    requires Inv(w, capacity) && (e.StopPublisher? || e.StopRecords?)
    ensures Inv(Step(w, e), capacity)
  {
    hide RecOk;
    var w' := Step(w, e);
    forall i | i in w'.recs ensures RecInv(w', i) {
      assert RecInv(w, i);
      StopPublisherKeeps(w.recs[i], PublisherStopped(w, w.recs[i].pub), PublisherStopped(w', w.recs[i].pub));
    }
    assert Holders(w') == Holders(w);
  }

  lemma InvKept(w: World, e: Event, capacity: nat)
    requires Inv(w, capacity) && Enabled(w, e)
    ensures Inv(Step(w, e), capacity)
  {
    hide Inv, Step, RecEnabled;
    match e {
      case Publish(id, pub, verdict) => PublishKeeps(w, id, pub, verdict, capacity);
      case Advance(id, step) => AdvanceKeeps(w, id, step, capacity);
      case _ => FlagKeeps(w, e, capacity);
    }
  }

  ghost predicate Next(w: World, w': World) {
    exists e :: Enabled(w, e) && w' == Step(w, e)
  }

  /** A run of a plugin whose gate has `capacity` slots. */
  ghost predicate IsRun(ws: seq<World>, capacity: nat) {
    && |ws| > 0 && ws[0] == World(map[], map[], false, capacity)
    && forall i | 0 <= i < |ws| - 1 :: Next(ws[i], ws[i + 1])
  }

  lemma {:induction false} RunInv(ws: seq<World>, capacity: nat, k: nat)
    requires IsRun(ws, capacity) && k < |ws|
    ensures Inv(ws[k], capacity)
  {
    if k == 0 {
      assert Holders(ws[0]) == {};
    } else {
      RunInv(ws, capacity, k - 1);
      assert Next(ws[k - 1], ws[k - 1 + 1]);
      var e :| Enabled(ws[k - 1], e) && ws[k] == Step(ws[k - 1], e);
      InvKept(ws[k - 1], e, capacity);
    }
  }

  /** No orphan recording: in every interleaving, once the caller has registered the job, its OnStart
      is over and its publisher has stopped and swept, somebody has stopped it. */
  lemma NoOrphan(ws: seq<World>, capacity: nat, k: nat, id: nat)
    requires IsRun(ws, capacity) && k < |ws| && id in ws[k].recs
    requires var r := ws[k].recs[id]; Registered(r) && OnStartDone(r) && r.reg.swept
    ensures StopIssued(ws[k].recs[id])
  {
    RunInv(ws, capacity, k);
  }

  /** Slot conservation: at every moment the free slots and the recordings that hold one make up the
      capacity, and no recording frees its slot twice. */
  lemma SlotsConserved(ws: seq<World>, capacity: nat, k: nat)
    requires IsRun(ws, capacity) && k < |ws|
    ensures ws[k].free + |Holders(ws[k])| == capacity
    ensures forall id | id in ws[k].recs :: ws[k].recs[id].slot.frees <= 1
  {
    RunInv(ws, capacity, k);
  }

  predicate Over(r: Rec) {
    && r.caller.Done?
    && (r.job.NoJob? || r.job.Rejected? || r.job.FailedStart? || r.job.Disposed?)
    && !r.watcher.WaitStarted?
  }

  /** Every admitted slot comes back: when a recording is over, on whatever path, its slot was freed
      exactly once. */
  lemma SlotComesBack(ws: seq<World>, capacity: nat, k: nat, id: nat)
    requires IsRun(ws, capacity) && k < |ws| && id in ws[k].recs && Over(ws[k].recs[id])
    ensures var r := ws[k].recs[id];
      !r.slot.held && r.slot.frees == if NeedsSlot(r.verdict) then 1 else 0
  {
    RunInv(ws, capacity, k);
  }

  /** A recording whose job can still be live holds its slot if and only if neither of two things has
      happened: the caller saw the job stopped, or the start watcher was rejected. */
  lemma SlotKeptUnderLiveJob(ws: seq<World>, capacity: nat, k: nat, id: nat)
    requires IsRun(ws, capacity) && k < |ws| && id in ws[k].recs
    requires var r := ws[k].recs[id];
      NeedsSlot(r.verdict) && !(r.job.Rejected? || r.job.FailedStart? || r.job.Disposed?)
    ensures var r := ws[k].recs[id];
      r.slot.held <==> !r.slot.sawJobStopped && !r.watcher.WatcherRejected?
  {
    RunInv(ws, capacity, k);
  }

  /** Once its caller is done, a recording has got a job exactly if there is no gate or the gate admitted it;
      and it has taken a slot exactly if it was admitted with a release function. */
  lemma JobExactlyIfAdmitted(ws: seq<World>, capacity: nat, k: nat, id: nat)
    requires IsRun(ws, capacity) && k < |ws| && id in ws[k].recs
    ensures var r := ws[k].recs[id];
      && (r.caller.Done? ==> (r.job != NoJob <==> r.verdict.Ungated? || r.verdict.Admit?))
      && (r.slot.held || r.slot.frees > 0 <==> r.verdict == Admit(true))
  {
    RunInv(ws, capacity, k);
  }

  /** A queued, refused or unanswered recording never gets a job here, and holds no slot. */
  lemma NotAdmittedNeverStarts(ws: seq<World>, capacity: nat, k: nat, id: nat)
    requires IsRun(ws, capacity) && k < |ws| && id in ws[k].recs
    requires (ws[k].recs[id].verdict.Queued? || ws[k].recs[id].verdict.Refused? || ws[k].recs[id].verdict.Unset?)
    ensures ws[k].recs[id].job == NoJob && !ws[k].recs[id].slot.held
  {
    RunInv(ws, capacity, k);
  }

  // ----- more jobs than slots -----

  ghost predicate Reached(w: World, capacity: nat) {
    exists ws :: IsRun(ws, capacity) && ws[|ws| - 1] == w
  }

  lemma ReachedNext(w: World, e: Event, capacity: nat)
    requires Reached(w, capacity) && Enabled(w, e)
    ensures Reached(Step(w, e), capacity)
  {
    var ws :| IsRun(ws, capacity) && ws[|ws| - 1] == w;
    assert Next(w, Step(w, e));
    assert IsRun(ws + [Step(w, e)], capacity);
  }

  /** A job that runs after its start watcher was rejected. */
  const UNWATCHED := Rec(
    0, Admit(true), Done, Running, WatcherRejected,
    Registration(true, false, false, true, false, false, false, false), Slot(false, 1, false))

  function Runaways(n: nat): (recs: map<nat, Rec>)
    ensures forall id: nat :: id in recs <==> id < n
    ensures forall id | id in recs :: recs[id] == UNWATCHED
  {
    if n == 0 then map[] else Runaways(n - 1)[n - 1 := UNWATCHED]
  }

  /** The world where `n` such jobs run. */
  function Crowd(n: nat, capacity: nat): World {
    World(Runaways(n), map[], false, capacity)
  }

  /** The same, and recording `n` is `r`. */
  function Joining(n: nat, capacity: nat, r: Rec): World
    requires capacity > 0
  {
    var w := Crowd(n, capacity);
    w.(recs := w.recs[n := r], free := if r.slot.held then capacity - 1 else capacity)
  }

  lemma Joins(n: nat, capacity: nat, r: Rec, step: RecEvent, r': Rec)
    requires capacity > 0 && Reached(Joining(n, capacity, r), capacity)
    requires r.pub == 0 && RecEnabled(r, Env(false, false), step) && r' == RecStep(r, Env(false, false), step)
    requires r'.slot.held ==> r.slot.held
    ensures Reached(Joining(n, capacity, r'), capacity)
  {
    hide Reached, RecStep, RecEnabled;
    var w := Joining(n, capacity, r);
    ReachedNext(w, Advance(n, step), capacity);
    assert w.recs[n := r'] == Joining(n, capacity, r').recs;
  }

  lemma JoinsNew(n: nat, capacity: nat)
    requires capacity > 0 && Reached(Crowd(n, capacity), capacity)
    ensures Reached(Joining(n, capacity, NewRec(0, Admit(true))), capacity)
  {
    hide Reached;
    ReachedNext(Crowd(n, capacity), Publish(n, 0, Admit(true)), capacity);
  }

  lemma JoinsLast(n: nat, capacity: nat)
    requires capacity > 0
    ensures Joining(n, capacity, UNWATCHED) == Crowd(n + 1, capacity)
  {
  }

  lemma CrowdGrows(n: nat, capacity: nat)
    requires capacity > 0 && Reached(Crowd(n, capacity), capacity)
    ensures Reached(Crowd(n + 1, capacity), capacity)
  {
    hide Reached, Joining;
    var r0 := NewRec(0, Admit(true));
    JoinsNew(n, capacity);
    var r1 := StepAddJob(r0, true);
    Joins(n, capacity, r0, CallerStep(true), r1);
    var r2 := StepUse(r1, true);
    Joins(n, capacity, r1, CallerStep(true), r2);
    var r3 := StepRecheck(r2, false);
    Joins(n, capacity, r2, CallerStep(true), r3);
    var r4 := StepLook(r3, false);
    Joins(n, capacity, r3, CallerStep(false), r4);
    var r5 := StepAddWatcher(r4, false);
    Joins(n, capacity, r4, CallerStep(false), r5);
    var r6 := StepStart(r5, true);
    Joins(n, capacity, r5, JobStep(true), r6);
    var r7 := StepStoreStarted(r6);
    Joins(n, capacity, r6, JobStep(true), r7);
    var r8 := StepLoadRequest(r7);
    Joins(n, capacity, r7, JobStep(true), r8);
    JoinsLast(n, capacity);
  }

  /** With one slot or more any number of admitted jobs can run at the same time, if the watchers are
      rejected. */
  lemma {:induction false} MoreJobsThanSlots(n: nat, capacity: nat)
    requires capacity > 0
    ensures Reached(Crowd(n, capacity), capacity)
    ensures forall id: nat | id < n ::
      id in Crowd(n, capacity).recs && var r := Crowd(n, capacity).recs[id]; r.job.Running? && NeedsSlot(r.verdict)
  {
    if n == 0 {
      var w := Crowd(0, capacity);
      assert IsRun([w], capacity) && [w][0] == w;
    } else {
      MoreJobsThanSlots(n - 1, capacity);
      CrowdGrows(n - 1, capacity);
    }
  }
}
