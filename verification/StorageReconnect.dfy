/** Polling reconnection to the desired storage (storage_reconnect.go). Times are nanoseconds. */
module StorageReconnect {
  import opened Wrappers

  const SECOND: int := 1_000_000_000
  const BASE_INTERVAL: int := 5 * SECOND
  const MAX_INTERVAL: int := 300 * SECOND

  function Pow2(n: nat): (p: nat)
    ensures p >= 1
  {
    if n == 0 then 1 else 2 * Pow2(n - 1)
  }

  function Min(a: int, b: int): int {
    if a < b then a else b
  }

  /** The delay in front of attempt `n`: doubled for every failure, never above the maximum. */
  function Backoff(n: int): int {
    if n <= 1 then BASE_INTERVAL else Min(BASE_INTERVAL * Pow2(n - 1), MAX_INTERVAL)
  }

  lemma {:induction false} BackoffMonotone(m: int, n: int)
    requires m <= n
    ensures BASE_INTERVAL <= Backoff(m) <= Backoff(n) <= MAX_INTERVAL
    decreases n - m
  {
    if m < n {
      BackoffMonotone(m, n - 1);
    }
  }

  /** It doubles from attempt to attempt until it meets the maximum. */
  lemma BackoffDoubles(n: int)
    ensures Backoff(1) == BASE_INTERVAL
    ensures n >= 1 ==> Backoff(n + 1) == Min(2 * Backoff(n), MAX_INTERVAL)
  {
    if n >= 2 {
      assert Pow2(n) == 2 * Pow2(n - 1);
    }
  }

  lemma {:induction false} PowGrows(m: nat, n: nat)
    requires m <= n
    ensures Pow2(m) <= Pow2(n)
    decreases n - m
  {
    if m < n {
      PowGrows(m, n - 1);
    }
  }

  method StorageReconnectBackoff(attempt: int) returns (delay: int)
    ensures delay == Backoff(attempt)
  {
    if attempt <= 1 {
      return BASE_INTERVAL;
    }
    delay := BASE_INTERVAL;
    var step := 1;
    while step < attempt
      invariant 1 <= step <= attempt
      invariant delay == BASE_INTERVAL * Pow2(step - 1) <= MAX_INTERVAL
    {
      if delay >= MAX_INTERVAL / 2 {
        PowGrows(step, attempt - 1);
        return MAX_INTERVAL;
      }
      delay := delay * 2;
      step := step + 1;
    }
  }

  // ----- the task -----

  datatype Status = Status(
    desired: string, active: string, degraded: bool, fallback: bool, lastCheck: int, lastError: string)

  /** What readers of the storage see: one backend and the status published with it. */
  datatype Snapshot = Snapshot(backend: int, status: Status)

  /** What the storage registry answers to one connection attempt. */
  datatype Outcome = Connected(backend: int) | Transient(error: string) | Permanent(error: string)

  datatype Reconnect = Reconnect(
    attempt: int, nextAttempt: Option<int>, completed: bool, snapshot: Snapshot)

  /** A tick at `now` tries to connect. The zero deadline never delays. */
  predicate Due(s: Reconnect, now: int) {
    !s.completed && (s.nextAttempt.Some? ==> now >= s.nextAttempt.value)
  }

  function Degraded(s: Snapshot, now: int, e: string): Snapshot {
    Snapshot(s.backend, Status("s3", s.status.active, true, s.status.fallback, now, e))
  }

  function AfterTick(s: Reconnect, now: int, o: Outcome): Reconnect {
    if !Due(s, now) then s
    else match o
      case Connected(b) =>
        s.(nextAttempt := None, completed := true,
           snapshot := Snapshot(b, Status("s3", "s3", false, false, now, "")))
      case Permanent(e) =>
        s.(nextAttempt := None, completed := true, snapshot := Degraded(s.snapshot, now, e))
      case Transient(e) =>
        s.(attempt := s.attempt + 1, nextAttempt := Some(now + Backoff(s.attempt + 1)),
           snapshot := Degraded(s.snapshot, now, e))
  }

  function Fresh(now: int, snapshot: Snapshot): Reconnect {
    Reconnect(1, Some(now + Backoff(1)), false, snapshot)
  }

  class StorageReconnectTask {
    var attempt: int
    var nextAttempt: Option<int>
    var completed: bool
    var snapshot: Snapshot

    function State(): Reconnect
      reads this
    {
      Reconnect(attempt, nextAttempt, completed, snapshot)
    }

    constructor (now: int, snapshot: Snapshot)
      ensures State() == Fresh(now, snapshot)
    {
      var delay := StorageReconnectBackoff(1);
      attempt, nextAttempt, completed := 1, Some(now + delay), false;
      this.snapshot := snapshot;
    }

    method HandleFailure(checkedAt: int, error: string, permanent: bool)
      requires Due(State(), checkedAt)
      modifies this
      ensures State() == AfterTick(old(State()), checkedAt, if permanent then Permanent(error) else Transient(error))
    {
      var current := snapshot.status;
      snapshot := Snapshot(snapshot.backend, Status("s3", current.active, true, current.fallback, checkedAt, error));
      if permanent {
        nextAttempt := None;
        completed := true;
        return;
      }
      attempt := attempt + 1;
      var delay := StorageReconnectBackoff(attempt);
      nextAttempt := Some(checkedAt + delay);
    }

    method Tick(now: int, outcome: Outcome)
      modifies this
      ensures State() == AfterTick(old(State()), now, outcome)
    {
      if completed {
        return;
      }
      if nextAttempt.Some? && now < nextAttempt.value {
        return;
      }
      match outcome
      case Connected(backend) =>
        nextAttempt := None;
        snapshot := Snapshot(backend, Status("s3", "s3", false, false, now, ""));
        completed := true;
      case Transient(e) =>
        HandleFailure(now, e, false);
      case Permanent(e) =>
        HandleFailure(now, e, true);
    }
  }

  // ----- runs -----

  datatype TickEvent = TickEvent(now: int, outcome: Outcome)

  function Run(s: Reconnect, ts: seq<TickEvent>): Reconnect
    decreases |ts|
  {
    if |ts| == 0 then s else Run(AfterTick(s, ts[0].now, ts[0].outcome), ts[1..])
  }

  /** The ticks of a run that tried to connect. */
  function Attempts(s: Reconnect, ts: seq<TickEvent>): seq<TickEvent>
    decreases |ts|
  {
    if |ts| == 0 then []
    else (if Due(s, ts[0].now) then [ts[0]] else []) + Attempts(AfterTick(s, ts[0].now, ts[0].outcome), ts[1..])
  }

  lemma {:induction false} NothingAfterCompletion(s: Reconnect, ts: seq<TickEvent>)
    requires s.completed
    ensures Attempts(s, ts) == [] && Run(s, ts) == s
    decreases |ts|
  {
    if |ts| > 0 {
      NothingAfterCompletion(s, ts[1..]);
    }
  }

  /** The first attempt of a run comes no earlier than the deadline, and each later one no earlier
      than the backoff after the attempt in front of it; every attempt but the last failed
      transiently. */
  lemma {:induction false} Schedule(s: Reconnect, ts: seq<TickEvent>)
    requires s.nextAttempt.Some? && s.attempt >= 1
    ensures var a := Attempts(s, ts);
      && (|a| > 0 ==> a[0].now >= s.nextAttempt.value)
      && forall k | 0 <= k < |a| - 1 ::
           a[k].outcome.Transient? && a[k + 1].now - a[k].now >= Backoff(s.attempt + k + 1)
    decreases |ts|
  {
    if |ts| > 0 {
      var t := ts[0];
      var s' := AfterTick(s, t.now, t.outcome);
      if Due(s, t.now) && !t.outcome.Transient? {
        NothingAfterCompletion(s', ts[1..]);
      } else {
        Schedule(s', ts[1..]);
      }
    }
  }

  /** What a run has done to the snapshot: until a connection succeeds the backend, the reported
      active type and the fallback flag are the initial ones, and any failure leaves it degraded; a
      success installs the connected backend, is reported as such, and completes the task, as does a
      permanent failure. */
  lemma {:induction false} SnapshotKept(s: Reconnect, ts: seq<TickEvent>)
    ensures var a, r := Attempts(s, ts), Run(s, ts);
      if |a| > 0 && a[|a| - 1].outcome.Connected? then
        && r.completed && r.nextAttempt.None? && r.snapshot.backend == a[|a| - 1].outcome.backend
        && r.snapshot.status == Status("s3", "s3", false, false, a[|a| - 1].now, "")
      else
        && r.snapshot.backend == s.snapshot.backend
        && r.snapshot.status.active == s.snapshot.status.active
        && r.snapshot.status.fallback == s.snapshot.status.fallback
        && (|a| > 0 ==>
              && r.snapshot.status.degraded && r.snapshot.status.desired == "s3"
              && r.snapshot.status.lastCheck == a[|a| - 1].now
              && r.snapshot.status.lastError == a[|a| - 1].outcome.error
              && r.completed == a[|a| - 1].outcome.Permanent?)
        && (|a| == 0 ==> r == s)
        && (s.snapshot.status.degraded ==> r.snapshot.status.degraded)
    decreases |ts|
  {
    if |ts| > 0 {
      var t := ts[0];
      var s' := AfterTick(s, t.now, t.outcome);
      if Due(s, t.now) && !t.outcome.Transient? {
        NothingAfterCompletion(s', ts[1..]);
      } else {
        SnapshotKept(s', ts[1..]);
      }
    }
  }

  /** From the start of the task: the first attempt comes no earlier than five seconds later, the next no
      earlier than the doubled delay after it, and so on; before the first nothing has changed. */
  lemma ScheduleFromStart(start: int, snapshot: Snapshot, ts: seq<TickEvent>)
    ensures var a := Attempts(Fresh(start, snapshot), ts);
      && (|a| > 0 ==> a[0].now >= start + 5 * SECOND)
      && (|a| > 1 ==> a[0].outcome.Transient? && a[1].now - a[0].now >= 10 * SECOND)
      && (forall k | 0 <= k < |a| - 1 :: a[k].outcome.Transient? && a[k + 1].now - a[k].now >= Backoff(k + 2))
      && (|a| == 0 ==> Run(Fresh(start, snapshot), ts) == Fresh(start, snapshot))
      && Fresh(start, snapshot).snapshot == snapshot && !Fresh(start, snapshot).completed
  {
    Schedule(Fresh(start, snapshot), ts);
    SnapshotKept(Fresh(start, snapshot), ts);
    BackoffDoubles(1);
  }

  /** Ticks in order, no two of them more than `poll` apart. */
  ghost predicate Polled(last: int, ts: seq<TickEvent>, poll: int)
    decreases |ts|
  {
    |ts| > 0 ==> last <= ts[0].now <= last + poll && Polled(ts[0].now, ts[1..], poll)
  }

  /** The task does try again: polled at least every `poll`, consecutive attempts n and n + 1 are
      less than backoff(n + 1) plus one poll apart. */
  lemma {:induction false} Prompt(s: Reconnect, last: int, ts: seq<TickEvent>, poll: int)
    requires poll > 0 && Polled(last, ts, poll)
    requires s.nextAttempt.Some? && last < s.nextAttempt.value && s.attempt >= 1
    ensures var a := Attempts(s, ts);
      && (|a| > 0 ==> a[0].now < s.nextAttempt.value + poll)
      && forall k | 0 <= k < |a| - 1 :: a[k + 1].now - a[k].now < Backoff(s.attempt + k + 1) + poll
    decreases |ts|
  {
    if |ts| > 0 {
      var t := ts[0];
      var s' := AfterTick(s, t.now, t.outcome);
      if s.completed || (Due(s, t.now) && !t.outcome.Transient?) {
        NothingAfterCompletion(s', ts[1..]);
      } else {
        BackoffMonotone(1, s.attempt + 1);
        Prompt(s', t.now, ts[1..], poll);
      }
    }
  }
}
