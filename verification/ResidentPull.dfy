/** Pull proxies (pull_proxy.go) and the pull job behind them (puller.go): when a job ends with the
    publishers it feeds, and when a proxy starts one by itself. */
module ResidentPull {
  import opened PublisherState
  import opened Wrappers

  // ----- the job and its publishers -----

  datatype PullConf = PullConf(pubAudio: bool, times: PublishConf)

  /** buildPullPublishConfig. */
  function BuildPullPublishConfig(base: PullConf, stopOnIdle: bool, audio: bool): PullConf {
    if stopOnIdle then PullConf(audio, base.times.(delayCloseTimeout := 5))
    else PullConf(audio, base.times.(delayCloseTimeout := 0, idleTimeout := 0))
  }

  /** shouldStopPullJobOnPublishStop. */
  predicate ShouldStopPullJob(reason: Reason, maxRetry: int) {
    reason == DelayCloseTimeout || reason == IdleTimeout || reason == StopByUser || maxRetry == 0
  }

  /** One wake-up of a publisher's Go, in the state the publisher was in. */
  datatype Moment = Moment(state: PubState, event: GoEvent)

  /** Nobody but Go itself ends a publisher for being idle or unwatched. */
  predicate Lawful(life: seq<Moment>) {
    forall i | 0 <= i < |life| && life[i].event.TaskDone? ::
      life[i].event.reason != DelayCloseTimeout && life[i].event.reason != IdleTimeout
  }

  /** A pull that stops on idle is closed five seconds after its last subscriber; a resident one neither for
      want of subscribers nor for being idle. Nothing else of the settings changes but the audio switch. */
  lemma PullTimes(base: PullConf, stopOnIdle: bool, audio: bool)
    ensures var conf := BuildPullPublishConfig(base, stopOnIdle, audio);
      && conf.pubAudio == audio && conf.times.publishTimeout == base.times.publishTimeout
      && conf.times.delayCloseTimeout == (if stopOnIdle then 5 else 0)
      && conf.times.idleTimeout == if stopOnIdle then base.times.idleTimeout else 0
  {
  }

  /** Why a publisher ended, if it did. */
  function EndOf(conf: PublishConf, life: seq<Moment>): Option<Reason> {
    if |life| == 0 then None
    else if GoExit(life[0].state, conf, life[0].event).Some? then GoExit(life[0].state, conf, life[0].event)
    else EndOf(conf, life[1..])
  }

  /** The life of a publisher ends with the first wake-up that Go returns from: the end of its task always,
      its timer and its data check as PublisherState.EndsByItself says. */
  lemma {:induction false} EndOfFirst(conf: PublishConf, life: seq<Moment>, n: nat)
    requires n < |life| && (life[n].event.TaskDone? || GoExit(life[n].state, conf, life[n].event).Some?)
    requires forall i | 0 <= i < n :: !life[i].event.TaskDone? && GoExit(life[i].state, conf, life[i].event).None?
    ensures life[n].event.TaskDone? ==> EndOf(conf, life) == Some(life[n].event.reason)
    ensures EndOf(conf, life) == GoExit(life[n].state, conf, life[n].event)
    decreases n
  {
    if n > 0 {
      EndOfFirst(conf, life[1..], n - 1);
    }
  }

  datatype Job = Job(stopped: Option<Reason>, restarts: nat)

  /** The hook that PullJob.Publish hangs on the publisher's disposal. */
  function AfterPublisher(job: Job, reason: Reason, maxRetry: int): Job {
    if ShouldStopPullJob(reason, maxRetry) then job.(stopped := Some(reason)) else job.(restarts := job.restarts + 1)
  }

  class PullJob {
    const conf: PullConf
    const maxRetry: int
    var stopped: Option<Reason>
    var restarts: nat

    function Value(): Job
      reads this
    {
      Job(stopped, restarts)
    }

    constructor (conf: PullConf, maxRetry: int)
      ensures this.conf == conf && this.maxRetry == maxRetry && Value() == Job(None, 0)
    {
      this.conf, this.maxRetry, stopped, restarts := conf, maxRetry, None, 0;
    }

    method PublisherDisposed(reason: Reason)
      modifies this
      ensures Value() == AfterPublisher(old(Value()), reason, maxRetry)
    {
      if ShouldStopPullJob(reason, maxRetry) {
        stopped := Some(reason);
      } else {
        restarts := restarts + 1;
      }
    }
  }

  /** The job over successive publishers, up to its end or the first publisher that is still live. */
  function Feed(job: Job, conf: PublishConf, maxRetry: int, lives: seq<seq<Moment>>): Job
    decreases |lives|
  {
    if |lives| == 0 || job.stopped.Some? then job
    else match EndOf(conf, lives[0])
      case None => job
      case Some(reason) => Feed(AfterPublisher(job, reason, maxRetry), conf, maxRetry, lives[1..])
  }

  ghost predicate AllLawful(lives: seq<seq<Moment>>) {
    forall i | 0 <= i < |lives| :: Lawful(lives[i])
  }

  predicate EndsJob(reason: Reason, maxRetry: int) {
    reason.DelayCloseTimeout? || reason.IdleTimeout? || reason.StopByUser? || maxRetry == 0
  }

  /** Publisher `n` is the first whose end ends the job. */
  predicate StopsAt(conf: PublishConf, maxRetry: int, lives: seq<seq<Moment>>, n: nat) {
    && n < |lives| && EndOf(conf, lives[n]).Some? && EndsJob(EndOf(conf, lives[n]).value, maxRetry)
    && forall i | 0 <= i < n :: EndOf(conf, lives[i]).Some? && !EndsJob(EndOf(conf, lives[i]).value, maxRetry)
  }

  /** A resident publisher never ends for being idle or unwatched. */
  lemma {:induction false} ResidentNeverIdle(base: PullConf, audio: bool, life: seq<Moment>)
    requires Lawful(life)
    ensures var end := EndOf(BuildPullPublishConfig(base, false, audio).times, life);
      end != Some(DelayCloseTimeout) && end != Some(IdleTimeout)
    decreases |life|
  {
    if |life| > 0 {
      ResidentNeverIdle(base, audio, life[1..]);
    }
  }

  /** A resident pull with retries is ended by its publishers only through a user stop: any other end,
      in any number, only restarts the puller. */
  lemma {:induction false} ResidentPullSurvives(
      base: PullConf, audio: bool, maxRetry: int, job: Job, lives: seq<seq<Moment>>)
    requires maxRetry != 0 && AllLawful(lives) && job.stopped.None?
    ensures var conf := BuildPullPublishConfig(base, false, audio).times;
      var after := Feed(job, conf, maxRetry, lives);
      && (after.stopped.None? || after.stopped == Some(StopByUser))
      && ((forall i | 0 <= i < |lives| :: EndOf(conf, lives[i]).Some? && EndOf(conf, lives[i]) != Some(StopByUser)) ==>
            after == Job(None, job.restarts + |lives|))
    decreases |lives|
  {
    var conf := BuildPullPublishConfig(base, false, audio).times;
    if |lives| > 0 {
      ResidentNeverIdle(base, audio, lives[0]);
      var end := EndOf(conf, lives[0]);
      if end.Some? && end != Some(StopByUser) {
        ResidentPullSurvives(base, audio, maxRetry, AfterPublisher(job, end.value, maxRetry), lives[1..]);
        assert forall i | 0 <= i < |lives| - 1 :: lives[1..][i] == lives[i + 1];
      }
    }
  }

  /** Successive publishers end the job exactly if one of them ends idle, unwatched or through the user, or
      for any reason when there are no retries, and all before it have ended otherwise: that one's reason
      is the job's. */
  lemma {:induction false} JobEndsExactly(job: Job, conf: PublishConf, maxRetry: int, lives: seq<seq<Moment>>)
    requires job.stopped.None?
    ensures Feed(job, conf, maxRetry, lives).stopped.Some? <==> exists n: nat :: StopsAt(conf, maxRetry, lives, n)
    ensures forall n: nat | StopsAt(conf, maxRetry, lives, n) ::
      Feed(job, conf, maxRetry, lives) == Job(EndOf(conf, lives[n]), job.restarts + n)
    decreases |lives|
  {
    if |lives| > 0 {
      var end := EndOf(conf, lives[0]);
      if end.Some? && !EndsJob(end.value, maxRetry) {
        var next := AfterPublisher(job, end.value, maxRetry);
        JobEndsExactly(next, conf, maxRetry, lives[1..]);
        forall n: nat ensures StopsAt(conf, maxRetry, lives, n + 1) <==> StopsAt(conf, maxRetry, lives[1..], n) {
          assert forall i | 0 <= i < |lives| - 1 :: lives[1..][i] == lives[i + 1];
        }
        forall n: nat | StopsAt(conf, maxRetry, lives, n) ensures n > 0 && StopsAt(conf, maxRetry, lives[1..], n - 1) {
          assert StopsAt(conf, maxRetry, lives, n - 1 + 1);
        }
        if n: nat :| StopsAt(conf, maxRetry, lives[1..], n) {
          assert StopsAt(conf, maxRetry, lives, n + 1);
        }
      } else if end.Some? {
        assert StopsAt(conf, maxRetry, lives, 0);
      }
    }
  }

  /** The two settings are exactly what it takes: publishers can end the job without the user if and
      only if it stops on idle or has no retries. */
  lemma PublisherEndsJobExactly(base: PullConf, stopOnIdle: bool, audio: bool, maxRetry: int)
    ensures (exists lives ::
      AllLawful(lives) &&
      var after := Feed(Job(None, 0), BuildPullPublishConfig(base, stopOnIdle, audio).times, maxRetry, lives);
      after.stopped.Some? && after.stopped != Some(StopByUser)) <==> stopOnIdle || maxRetry == 0
  {
    var conf := BuildPullPublishConfig(base, stopOnIdle, audio).times;
    if stopOnIdle || maxRetry == 0 {
      var state := if stopOnIdle then WaitSubscriber else Init;
      var life := [Moment(state, Timer(false, false))];
      assert EndOf(conf, life) == Some(if stopOnIdle then DelayCloseTimeout else PublishTimeout);
      var lives := [life];
      assert AllLawful(lives) && Feed(Job(None, 0), conf, maxRetry, lives).stopped == EndOf(conf, life);
    } else {
      forall lives | AllLawful(lives)
        ensures var after := Feed(Job(None, 0), conf, maxRetry, lives);
          after.stopped.None? || after.stopped == Some(StopByUser)
      {
        ResidentPullSurvives(base, audio, maxRetry, Job(None, 0), lives);
      }
    }
  }

  // ----- the proxy -----

  datatype ProxyStatus = Offline | Online | Pulling | Disabled

  datatype ProxyConf = ProxyConf(pullOnStart: bool, stopRetryOnAuthFail: bool)

  /** The job of a proxy: none, accepted by the server but without the proxy's dispose hook, or with it. */
  datatype JobState = NoJob | Unhooked | Hooked

  /** `late` counts the calls of Pull whose job ended before they hung their hook on it, and `pulls` the
      accepted jobs. */
  datatype Proxy = Proxy(
    status: ProxyStatus, pullStarted: bool, authFailed: bool, job: JobState, late: nat, pulls: nat)

  /** BasePullProxy.Pull up to the acceptance of the job; the server refuses a second one of a stream. */
  function Pulled(p: Proxy, accepted: bool): Proxy {
    if accepted && p.job == NoJob then p.(authFailed := false, job := Unhooked, pulls := p.pulls + 1)
    else p.(authFailed := false)
  }

  /** The rest of Pull: it notes that a pull has started and hangs the hook on the job, which never runs
      if the job is over. */
  function HookHung(p: Proxy): Proxy {
    if p.job == Unhooked then p.(pullStarted := true, job := Hooked) else p
  }

  function LateHookHung(p: Proxy): Proxy {
    if p.late > 0 then p.(pullStarted := true, late := p.late - 1) else p
  }

  /** The end of the job; only a job with the hook tells the proxy. */
  function JobGone(conf: ProxyConf, p: Proxy, authError: bool): Proxy {
    match p.job
    case NoJob => p
    case Unhooked => p.(job := NoJob, late := p.late + 1)
    case Hooked =>
      p.(pullStarted := false, job := NoJob, authFailed := p.authFailed || (conf.stopRetryOnAuthFail && authError))
  }

  /** A status change pulls by itself: first time online, unless the credentials were refused. */
  predicate AutoPulls(conf: ProxyConf, p: Proxy, status: ProxyStatus) {
    && p.status == Offline && status == Online && conf.pullOnStart && !p.pullStarted
    && !(conf.stopRetryOnAuthFail && p.authFailed)
  }

  function Changed(conf: ProxyConf, p: Proxy, status: ProxyStatus, accepted: bool): Proxy {
    var q := p.(status := status);
    if AutoPulls(conf, p, status) then Pulled(q, accepted) else q
  }

  /** What happens to a proxy: its status is set (by a probe or the API), one of its publishers starts or
      ends, a person pulls, a call of Pull hangs its hook on the job or comes too late, the job ends. */
  datatype Event =
    | SetStatus(status: ProxyStatus, accepted: bool)
    | PublisherStarts
    | PublisherEnds
    | ManualPull(accepted: bool)
    | HangHook
    | HangLateHook
    | JobEnds(authError: bool)

  function Next(conf: ProxyConf, p: Proxy, e: Event): Proxy {
    match e
    case SetStatus(status, accepted) => Changed(conf, p, status, accepted)
    case PublisherStarts => if p.status == Online || p.status == Pulling then p.(status := Pulling) else p
    case PublisherEnds => if p.status == Pulling then p.(status := Online) else p
    case ManualPull(accepted) => Pulled(p, accepted)
    case HangHook => HookHung(p)
    case HangLateHook => LateHookHung(p)
    case JobEnds(authError) => JobGone(conf, p, authError)
  }

  function NewProxy(): Proxy {
    Proxy(Offline, false, false, NoJob, 0, 0)
  }

  class BasePullProxy {
    const conf: ProxyConf
    var status: ProxyStatus
    var pullStarted: bool
    var authFailed: bool
    var job: JobState
    var late: nat
    var pulls: nat

    function Value(): Proxy
      reads this
    {
      Proxy(status, pullStarted, authFailed, job, late, pulls)
    }

    constructor (conf: ProxyConf)
      ensures this.conf == conf && Value() == NewProxy()
    {
      this.conf, status, pullStarted, authFailed, job, late, pulls := conf, Offline, false, false, NoJob, 0, 0;
    }

    /** Pull up to the acceptance of the job. */
    method Pull(accepted: bool)
      modifies this
      ensures Value() == Pulled(old(Value()), accepted)
    {
      authFailed := false;
      if !accepted || job != NoJob {
        return;
      }
      job, pulls := Unhooked, pulls + 1;
    }

    method ChangeStatus(status: ProxyStatus, accepted: bool)
      modifies this
      ensures Value() == Changed(conf, old(Value()), status, accepted)
    {
      if this.status == status {
        return;
      }
      var from := this.status;
      this.status := status;
      if status == Online && conf.pullOnStart && !pullStarted && from == Offline {
        if conf.stopRetryOnAuthFail && authFailed {
          return;
        }
        Pull(accepted);
      }
    }

    /** The rest of Pull, for a job that still runs or one that is over. */
    method HangHook(inTime: bool)
      requires if inTime then job == Unhooked else late > 0
      modifies this
      ensures Value() == if inTime then HookHung(old(Value())) else LateHookHung(old(Value()))
    {
      pullStarted := true;
      if inTime {
        job := Hooked;
      } else {
        late := late - 1;
      }
    }

    /** The job ends; the hook runs if it was there. */
    method JobDisposed(authError: bool)
      requires job != NoJob
      modifies this
      ensures Value() == JobGone(conf, old(Value()), authError)
    {
      if job == Unhooked {
        late := late + 1;
      } else {
        pullStarted := false;
        if conf.stopRetryOnAuthFail && authError {
          authFailed := true;
        }
      }
      job := NoJob;
    }

    /** processPullProxyOnStart and processPullProxyOnDispose: a publisher of the stream comes or goes. */
    method PublisherStarted()
      modifies this
      ensures Value() == Next(conf, old(Value()), PublisherStarts)
    {
      if status == Online || status == Pulling {
        ChangeStatus(Pulling, false);
      }
    }

    method PublisherEnded()
      modifies this
      ensures Value() == Next(conf, old(Value()), PublisherEnds)
    {
      if status == Pulling {
        ChangeStatus(Online, false);
      }
    }
  }

  // ----- runs of a proxy -----

  ghost predicate IsRun(conf: ProxyConf, ps: seq<Proxy>, es: seq<Event>) {
    && |ps| == |es| + 1 && ps[0] == NewProxy()
    && forall i | 0 <= i < |es| :: ps[i + 1] == Next(conf, ps[i], es[i])
  }

  predicate HangsLate(p: Proxy, e: Event) {
    e.HangLateHook? && p.late > 0
  }

  /** A job ends between its acceptance and the hanging of its hook. */
  predicate EndsEarly(p: Proxy, e: Event) {
    e.JobEnds? && p.job == Unhooked
  }

  predicate EndsHooked(p: Proxy, e: Event) {
    e.JobEnds? && p.job == Hooked
  }

  /** Some hook came too late, and no job with a hook has ended since. */
  ghost predicate LateHookSince(ps: seq<Proxy>, es: seq<Event>, n: nat)
    requires n <= |es| <= |ps|
  {
    exists i | 0 <= i < n :: HangsLate(ps[i], es[i]) && forall j | i < j < n :: !EndsHooked(ps[j], es[j])
  }

  lemma LateHookNext(ps: seq<Proxy>, es: seq<Event>, n: nat)
    requires n < |es| <= |ps|
    ensures LateHookSince(ps, es, n + 1) <==>
      HangsLate(ps[n], es[n]) || (LateHookSince(ps, es, n) && !EndsHooked(ps[n], es[n]))
  {
    if LateHookSince(ps, es, n) && !EndsHooked(ps[n], es[n]) {
      var i :| 0 <= i < n && HangsLate(ps[i], es[i]) && forall j | i < j < n :: !EndsHooked(ps[j], es[j]);
      assert forall j | i < j < n + 1 :: !EndsHooked(ps[j], es[j]);
    }
    if LateHookSince(ps, es, n + 1) && !HangsLate(ps[n], es[n]) {
      var i :| 0 <= i < n + 1 && HangsLate(ps[i], es[i]) && forall j | i < j < n + 1 :: !EndsHooked(ps[j], es[j]);
      assert i < n && !EndsHooked(ps[n], es[n]);
    }
  }

  /** Over every run: a proxy believes that it has started a pull exactly while a job with its hook runs,
      or since a hook that came too late. */
  lemma {:induction false} PullStartedExactly(conf: ProxyConf, ps: seq<Proxy>, es: seq<Event>, n: nat)
    requires IsRun(conf, ps, es) && n <= |es|
    ensures ps[n].pullStarted <==> ps[n].job == Hooked || LateHookSince(ps, es, n)
  {
    if n > 0 {
      PullStartedExactly(conf, ps, es, n - 1);
      LateHookNext(ps, es, n - 1);
      assert ps[n] == Next(conf, ps[n - 1], es[n - 1]);
    }
  }

  /** If no job ends before its hook is hung, pullStarted is true exactly while a job with the hook runs. */
  lemma {:induction false} PullStartedIsRunning(conf: ProxyConf, ps: seq<Proxy>, es: seq<Event>, n: nat)
    requires IsRun(conf, ps, es) && n <= |es|
    requires forall i | 0 <= i < n :: !EndsEarly(ps[i], es[i])
    ensures ps[n].pullStarted == (ps[n].job == Hooked) && ps[n].late == 0
  {
    if n > 0 {
      PullStartedIsRunning(conf, ps, es, n - 1);
      assert ps[n] == Next(conf, ps[n - 1], es[n - 1]);
    }
  }

  function After(conf: ProxyConf, p: Proxy, es: seq<Event>): Proxy
    decreases |es|
  {
    if |es| == 0 then p else After(conf, Next(conf, p, es[0]), es[1..])
  }

  lemma {:induction false} StrandedStays(conf: ProxyConf, p: Proxy, es: seq<Event>)
    requires p.pullStarted && p.job == NoJob
    requires forall i | 0 <= i < |es| :: !es[i].ManualPull?
    ensures var after := After(conf, p, es); after.pullStarted && after.job == NoJob && after.pulls == p.pulls
    decreases |es|
  {
    if |es| > 0 {
      StrandedStays(conf, Next(conf, p, es[0]), es[1..]);
    }
  }

  /** Without that, a proxy can believe for ever that it has started a pull: its first job ends too early,
      and whatever happens afterwards only a person starts another. */
  lemma EarlyEndStrandsProxy(conf: ProxyConf, later: seq<Event>)
    requires conf.pullOnStart
    requires forall i | 0 <= i < |later| :: !later[i].ManualPull?
    ensures var start := [SetStatus(Online, true), JobEnds(false), HangLateHook];
      var p := After(conf, NewProxy(), start);
      && p.pullStarted && p.job == NoJob && p.pulls == 1
      && After(conf, p, later).pulls == 1 && After(conf, p, later).pullStarted
  {
    var p1 := Next(conf, NewProxy(), SetStatus(Online, true));
    var p2 := Next(conf, p1, JobEnds(false));
    var p3 := Next(conf, p2, HangLateHook);
    var e1, e2, e3 := SetStatus(Online, true), JobEnds(false), HangLateHook;
    assert [e1, e2, e3][1..] == [e2, e3] && [e2, e3][1..] == [e3] && [e3][1..] == [];
    assert After(conf, p3, []) == p3;
    assert After(conf, p2, [e3]) == p3;
    assert After(conf, p1, [e2, e3]) == p3;
    assert After(conf, NewProxy(), [e1, e2, e3]) == p3;
    StrandedStays(conf, p3, later);
  }

  /** Over every run, early ends included: no job is accepted on top of another, and a proxy does not even
      try while its job has the hook. */
  lemma NoPullOnTop(conf: ProxyConf, ps: seq<Proxy>, es: seq<Event>, n: nat)
    requires IsRun(conf, ps, es) && n < |es|
    ensures ps[n + 1].pulls != ps[n].pulls ==> ps[n].job == NoJob && ps[n + 1].job == Unhooked
    ensures ps[n].job == Hooked ==> forall status :: !AutoPulls(conf, ps[n], status)
  {
    PullStartedExactly(conf, ps, es, n);
    assert ps[n + 1] == Next(conf, ps[n], es[n]);
  }

  /** The proxy calls Pull: a person does, or it goes online for the first time since it was offline, is to
      pull on start, believes in no pull and in no refused credentials. */
  predicate Tries(conf: ProxyConf, p: Proxy, e: Event) {
    || e.ManualPull?
    || (e.SetStatus? && p.status == Offline && e.status == Online && conf.pullOnStart && !p.pullStarted
        && !(conf.stopRetryOnAuthFail && p.authFailed))
  }

  /** A job is accepted exactly if the proxy tries, the server accepts and no other job runs. */
  lemma PullsExactly(conf: ProxyConf, p: Proxy, e: Event)
    ensures Next(conf, p, e).pulls ==
      p.pulls + if Tries(conf, p, e) && e.accepted && p.job == NoJob then 1 else 0
    ensures e.SetStatus? ==> Next(conf, p, e).status == e.status
    ensures e.PublisherStarts? ==>
      Next(conf, p, e).status == if p.status.Online? || p.status.Pulling? then Pulling else p.status
    ensures e.PublisherEnds? ==> Next(conf, p, e).status == if p.status.Pulling? then Online else p.status
    ensures !e.SetStatus? && !e.PublisherStarts? && !e.PublisherEnds? ==> Next(conf, p, e).status == p.status
  {
  }

  /** A job with its hook has ended over refused credentials, which stop the retries, and the proxy has not
      tried since. */
  ghost predicate RefusedSince(conf: ProxyConf, ps: seq<Proxy>, es: seq<Event>, n: nat)
    requires n <= |es| <= |ps|
  {
    conf.stopRetryOnAuthFail && exists i | 0 <= i < n ::
      EndsHooked(ps[i], es[i]) && es[i].authError && forall j | i < j < n :: !Tries(conf, ps[j], es[j])
  }

  lemma RefusedNext(conf: ProxyConf, ps: seq<Proxy>, es: seq<Event>, n: nat)
    requires n < |es| <= |ps|
    ensures RefusedSince(conf, ps, es, n + 1) <==>
      || (conf.stopRetryOnAuthFail && EndsHooked(ps[n], es[n]) && es[n].authError)
      || (RefusedSince(conf, ps, es, n) && !Tries(conf, ps[n], es[n]))
  {
    hide Tries;
    if RefusedSince(conf, ps, es, n) && !Tries(conf, ps[n], es[n]) {
      var i :| 0 <= i < n && EndsHooked(ps[i], es[i]) && es[i].authError
               && forall j | i < j < n :: !Tries(conf, ps[j], es[j]);
      assert forall j | i < j < n + 1 :: !Tries(conf, ps[j], es[j]);
    }
    if RefusedSince(conf, ps, es, n + 1) && !(EndsHooked(ps[n], es[n]) && es[n].authError) {
      var i :| 0 <= i < n + 1 && EndsHooked(ps[i], es[i]) && es[i].authError
               && forall j | i < j < n + 1 :: !Tries(conf, ps[j], es[j]);
      assert i < n && !Tries(conf, ps[n], es[n]);
    }
  }

  /** Over every run the mark of refused credentials is set exactly then. */
  lemma {:induction false} AuthFailedExactly(conf: ProxyConf, ps: seq<Proxy>, es: seq<Event>, n: nat)
    requires IsRun(conf, ps, es) && n <= |es|
    ensures ps[n].authFailed <==> RefusedSince(conf, ps, es, n)
  {
    if n > 0 {
      AuthFailedExactly(conf, ps, es, n - 1);
      RefusedNext(conf, ps, es, n - 1);
      assert ps[n] == Next(conf, ps[n - 1], es[n - 1]);
    }
  }

  /** After refused credentials nothing but a person pulls again, whatever probes and publishers do. */
  lemma {:induction false} AuthFailureStops(conf: ProxyConf, p: Proxy, es: seq<Event>)
    requires conf.stopRetryOnAuthFail && p.authFailed
    requires forall i | 0 <= i < |es| :: !es[i].ManualPull?
    ensures After(conf, p, es).authFailed && After(conf, p, es).pulls == p.pulls
    decreases |es|
  {
    if |es| > 0 {
      AuthFailureStops(conf, Next(conf, p, es[0]), es[1..]);
    }
  }

  /** A job that runs on is the only one: until it ends the number of pulls does not change, whatever
      probes, publishers and people do. */
  lemma {:induction false} RunningJobIsKept(conf: ProxyConf, p: Proxy, es: seq<Event>)
    requires p.job != NoJob
    requires forall i | 0 <= i < |es| :: !es[i].JobEnds?
    ensures After(conf, p, es).job != NoJob && After(conf, p, es).pulls == p.pulls
    decreases |es|
  {
    if |es| > 0 {
      RunningJobIsKept(conf, Next(conf, p, es[0]), es[1..]);
    }
  }
}
