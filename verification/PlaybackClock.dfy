/** The ring reader's state machine and playback clock (pkg/av_reader.go). Timestamps are
    nanoseconds; `AbsTime` is a 32-bit count of milliseconds.

    The ring is seen as the log of all frames its writer ever finishes. The writer links a key frame
    into the key-frame list before readers can read it, and the list keeps the latest key frame. */
module PlaybackClock {
  import opened Wrappers

  const MS: int := 1_000_000
  const U32: int := 0x1_0000_0000

  datatype Frame = Frame(seqno: nat, ts: int, idr: bool)

  /** Sequence numbers increase and timestamps never decrease. */
  ghost predicate RingOrdered(log: seq<Frame>) {
    && (forall i, j | 0 <= i < j < |log| :: log[i].seqno < log[j].seqno && log[i].ts <= log[j].ts)
    && (forall i | 0 <= i < |log| :: log[i].seqno < U32)
  }

  /** The playback time of the whole log, from `startTs`, fits the 32-bit millisecond clock. */
  ghost predicate SpanFits(log: seq<Frame>, startTs: int) {
    forall i, j | 0 <= i <= j < |log| :: startTs + 10 * MS + log[j].ts - log[i].ts < U32 * MS
  }

  lemma Later(log: seq<Frame>, i: nat, j: nat)
    requires RingOrdered(log) && i <= j < |log|
    ensures log[i].ts <= log[j].ts && log[i].seqno <= log[j].seqno
    ensures i < j ==> log[i].seqno < log[j].seqno
  {
  }

  /** The latest key frame among the first `n` frames. */
  function LatestIDR(log: seq<Frame>, n: nat): (r: Option<nat>)
    requires n <= |log|
    ensures r.Some? ==> r.value < n && log[r.value].idr && forall i | r.value < i < n :: !log[i].idr
    ensures r.None? ==> forall i | 0 <= i < n :: !log[i].idr
  {
    if n == 0 then None
    else if log[n - 1].idr then Some(n - 1)
    else LatestIDR(log, n - 1)
  }

  datatype ReadState = INIT | FIRST | NORMAL | WAITKEY

  datatype SubMode = Real | Record | Buffer | WaitKey

  /** What one call meets: the configured mode, how many frames the key-frame list has seen when it
      is first asked and when a slow reader asks again, where the writer is, what the buffer search
      finds, which frames were discarded, and the track's last sequence number, speed and size. */
  datatype Call = Call(
    mode: SubMode, visible: nat, visibleAfter: nat, writing: nat, history: Option<nat>,
    discarded: set<nat>, lastSeq: nat, speed: real, size: nat)

  function JumpThreshold(speed: real, size: nat): nat {
    if speed <= 2.0 then size / 2
    else if speed <= 8.0 then size * 3 / 4
    else size * 7 / 8
  }

  /** Milliseconds of a non-negative duration, as a 32-bit clock shows them; 0 is shown as 1. */
  function Shown(d: int): nat
    requires d >= 0
  {
    var ms := d / MS % U32;
    if ms == 0 then 1 else ms
  }

  lemma ShownMonotone(a: int, b: int)
    requires 0 <= a <= b < U32 * MS
    ensures 1 <= Shown(a) <= Shown(b) < U32
  {
    assert a / MS <= b / MS < U32;
  }

  // ----- one call, on values -----

  /** The value of a reader; the frame being read is `log[pos]`. */
  datatype Reader = Reader(
    State: ReadState, FirstSeq: nat, StartTs: int, FirstTs: int, SkipTs: int, beforeJump: int, AbsTime: nat, pos: nat)
  {
    predicate InLog(log: seq<Frame>) {
      State == INIT || pos < |log|
    }

    /** The exact playback time of the current frame. */
    function Time(log: seq<Frame>): int
      requires pos < |log|
    {
      log[pos].ts - SkipTs
    }
  }

  function NewReader(startTs: int): Reader {
    Reader(INIT, 0, startTs, 0, 0, 0, 0, 0)
  }

  predicate Sees(log: seq<Frame>, c: Call) {
    c.visible <= |log| && c.visibleAfter <= |log|
  }

  /** Frame `i` is neither beyond the log nor discarded. */
  predicate Readable(log: seq<Frame>, i: nat, c: Call) {
    i < |log| && i !in c.discarded
  }

  /** Where a fresh reader begins: at the latest key frame, what the buffer search found, or the writer. */
  function StartPos(log: seq<Frame>, c: Call): nat
    requires Sees(log, c)
  {
    var idr := LatestIDR(log, c.visible);
    match c.mode
    case WaitKey => c.writing
    case Buffer => if c.history.Some? then c.history.value else if idr.Some? then idr.value else c.writing
    case _ => if idr.Some? then idr.value else c.writing
  }

  function StartState(log: seq<Frame>, c: Call): ReadState
    requires Sees(log, c)
  {
    var idr := LatestIDR(log, c.visible);
    match c.mode
    case Real => if idr.Some? then FIRST else NORMAL
    case WaitKey => if idr == Some(c.writing) then NORMAL else WAITKEY
    case _ => NORMAL
  }

  /** The reader at `pos` has fallen behind the writer by more than the threshold. */
  predicate Slow(log: seq<Frame>, pos: nat, c: Call)
    requires pos < |log|
  {
    c.mode != Buffer && (c.lastSeq - log[pos].seqno) % U32 > JumpThreshold(c.speed, c.size)
  }

  /** The frame after the one at `pos`, or the latest key frame if a reader in NORMAL state is slow; None
      if one of them cannot be read. */
  function Follow(log: seq<Frame>, pos: nat, normal: bool, c: Call): Option<nat>
    requires Sees(log, c)
  {
    if !Readable(log, pos + 1, c) then None
    else
      var idr := LatestIDR(log, c.visibleAfter);
      if normal && Slow(log, pos + 1, c) && idr.Some? && log[idr.value].seqno > log[pos + 1].seqno then
        if Readable(log, idr.value, c) then idr else None
      else Some(pos + 1)
  }

  /** The first key frame after `pos`; None if a frame up to there cannot be read. */
  function NextKey(log: seq<Frame>, pos: nat, c: Call): (p: Option<nat>)
    requires Sees(log, c)
    ensures p.Some? ==> Readable(log, p.value, c)
    decreases |log| - pos
  {
    var next := Follow(log, pos, false, c);
    if next.None? || log[next.value].idr then next else NextKey(log, next.value, c)
  }

  /** The newer key frame for which a reader leaves its first one. */
  function JumpTo(log: seq<Frame>, r: Reader, c: Call): Option<nat>
    requires Sees(log, c) && r.pos < |log|
  {
    // the frame being read has been written
    var idr := LatestIDR(log, if c.visible > r.pos then c.visible else r.pos + 1);
    if idr.Some? && log[idr.value].seqno != r.FirstSeq then idr else None
  }

  /** The frame that a call plays next; None if it cannot be read. */
  function NextPos(log: seq<Frame>, r: Reader, c: Call): (p: Option<nat>)
    requires Sees(log, c) && r.InLog(log)
    ensures p.Some? ==> Readable(log, p.value, c)
  {
    match r.State
    case INIT => if Readable(log, StartPos(log, c), c) then Some(StartPos(log, c)) else None
    case FIRST =>
      var jump := JumpTo(log, r, c);
      if jump.None? then Follow(log, r.pos, false, c)
      else if Readable(log, jump.value, c) then jump else None
    case NORMAL => Follow(log, r.pos, true, c)
    case WAITKEY => NextKey(log, r.pos, c)
  }

  /** The reader once it has moved to frame `p`, before the clock is set. */
  function MoveTo(log: seq<Frame>, r: Reader, c: Call, p: nat): Reader
    requires Sees(log, c) && r.InLog(log) && p < |log|
  {
    match r.State
    case INIT =>
      var firstTs := if r.FirstTs == 0 then log[p].ts else r.FirstTs;
      r.(State := StartState(log, c), pos := p, FirstTs := firstTs, SkipTs := firstTs - r.StartTs,
         FirstSeq := log[p].seqno)
    case FIRST =>
      if JumpTo(log, r, c).Some? then
        r.(State := NORMAL, pos := p, SkipTs := log[p].ts - r.beforeJump - r.StartTs - 10 * MS)
      else r.(pos := p, beforeJump := log[p].ts - r.FirstTs)
    case _ => r.(State := NORMAL, pos := p)
  }

  function Clocked(log: seq<Frame>, r: Reader): Reader
    requires r.pos < |log|
  {
    r.(AbsTime := if r.Time(log) < 0 then (r.AbsTime + 1) % U32 else Shown(r.Time(log)))
  }

  /** The reader after one call that reads its frame. */
  function After(log: seq<Frame>, r: Reader, c: Call, p: nat): Reader
    requires Sees(log, c) && r.InLog(log) && p < |log|
  {
    Clocked(log, MoveTo(log, r, c, p))
  }

  /** A fresh reader leaves its first key frame for a newer one. */
  predicate Jumps(before: Reader, after: Reader) {
    before.State == FIRST && after.State == NORMAL
  }

  class AVRingReader {
    var State: ReadState
    var FirstSeq: nat
    var StartTs: int
    var FirstTs: int
    var SkipTs: int
    var beforeJump: int
    var AbsTime: nat
    /** The frame being read is `log[pos]`. */
    var pos: nat
    /** Where reading began. */
    ghost var firstPos: nat

    function Value(): Reader
      reads this
    {
      Reader(State, FirstSeq, StartTs, FirstTs, SkipTs, beforeJump, AbsTime, pos)
    }

    constructor (startTs: int)
      ensures Value() == NewReader(startTs)
    {
      State, FirstSeq, StartTs, FirstTs, SkipTs, beforeJump, AbsTime := INIT, 0, startTs, 0, 0, 0, 0;
      pos, firstPos := 0, 0;
    }

    function Exact(log: seq<Frame>): int
      requires pos < |log|
      reads this
    {
      Value().Time(log)
    }

    /** Everything but the shown clock. */
    ghost predicate Tracking(log: seq<Frame>)
      reads this
    {
      && RingOrdered(log) && SpanFits(log, StartTs) && StartTs >= 0
      && (State == INIT ==> FirstTs == 0 && beforeJump == 0)
      && (State != INIT ==>
        && firstPos <= pos < |log|
        && 0 <= Exact(log) <= StartTs + 10 * MS + log[pos].ts - log[firstPos].ts)
      && (State == FIRST ==>
        && FirstTs == log[firstPos].ts && FirstSeq == log[firstPos].seqno && log[firstPos].idr
        && SkipTs == FirstTs - StartTs
        && beforeJump == log[pos].ts - FirstTs
        // a key frame between the first frame and this one would have ended this state
        && (forall i | firstPos < i < pos :: !log[i].idr))
    }

    ghost predicate Valid(log: seq<Frame>)
      reads this
    {
      && Tracking(log)
      && AbsTime == if State == INIT then 0 else Shown(Exact(log))
    }

    method Read(log: seq<Frame>, i: nat, discarded: set<nat>) returns (err: bool)
      modifies `pos
      ensures err <==> i >= |log| || i in discarded
      ensures pos == i
    {
      pos := i;
      err := i >= |log| || i in discarded;
    }

    /** The frame at hand is the specified one, or there is none and the call fails. */
    predicate Reads(err: bool, p: Option<nat>)
      reads `pos
    {
      if p.None? then err else !err && pos == p.value
    }

    method ReadNextFrame(log: seq<Frame>, c: Call) returns (err: bool)
      requires RingOrdered(log) && pos < |log| && Sees(log, c)
      modifies `pos
      ensures Reads(err, Follow(log, old(pos), State == NORMAL, c))
      ensures !err ==> old(pos) < pos < |log|
      ensures !err && State != NORMAL ==> pos == old(pos) + 1
    {
      err := Read(log, pos + 1, c.discarded);
      if err {
        return;
      }
      var jumpThreshold := JumpThreshold(c.speed, c.size);
      if c.mode != Buffer && State == NORMAL && (c.lastSeq - log[pos].seqno) % U32 > jumpThreshold {
        var idr := LatestIDR(log, c.visibleAfter);
        if idr.Some? && log[idr.value].seqno > log[pos].seqno {
          err := Read(log, idr.value, c.discarded);
        }
      }
    }

    method StartReading(log: seq<Frame>, c: Call) returns (err: bool)
      requires Tracking(log) && State == INIT && Sees(log, c)
      modifies this
      ensures Reads(err, NextPos(log, old(Value()), c))
      ensures !err ==> Value() == MoveTo(log, old(Value()), c, pos)
      ensures StartTs == old(StartTs) && AbsTime == old(AbsTime)
      ensures !err ==> Tracking(log) && State != INIT && Exact(log) == StartTs
    {
      hide RingOrdered, SpanFits;
      var startRing := c.writing;
      var idr := LatestIDR(log, c.visible);
      if idr.Some? {
        startRing := idr.value;
      }
      match c.mode {
        case Real =>
          State := if idr.Some? then FIRST else NORMAL;
        case Record =>
          State := NORMAL;
        case Buffer =>
          if c.history.Some? {
            startRing := c.history.value;
          }
          State := NORMAL;
        case WaitKey =>
          startRing := c.writing;
          State := if idr == Some(startRing) then NORMAL else WAITKEY;
      }
      err := Read(log, startRing, c.discarded);
      if err {
        return;
      }
      firstPos := pos;
      if FirstTs == 0 {
        FirstTs := log[pos].ts;
      }
      SkipTs := FirstTs - StartTs;
      FirstSeq := log[pos].seqno;
    }

    /** While a reader is on its first group of pictures, the latest key frame it can see is its
        first frame or lies at or after the current one. */
    lemma FirstSeqIsFirst(log: seq<Frame>, k: nat)
      requires Tracking(log) && State == FIRST && k < |log| && log[k].idr && firstPos <= k
      ensures log[k].seqno == FirstSeq ==> k == firstPos
      ensures log[k].seqno != FirstSeq ==> pos <= k && firstPos < k
    {
      if firstPos < k {
        Later(log, firstPos, k);
      }
    }

    /** A fresh reader on its first group of pictures: reads on, or jumps to a newer key frame. */
    method ReadFirst(log: seq<Frame>, c: Call) returns (err: bool, jumped: bool)
      requires Tracking(log) && State == FIRST && Sees(log, c)
      modifies `pos, `State, `SkipTs, `beforeJump
      ensures Reads(err, NextPos(log, old(Value()), c))
      ensures !err ==> Value() == MoveTo(log, old(Value()), c, pos)
      ensures !err ==> Tracking(log) && old(pos) <= pos && (jumped <==> State == NORMAL)
      ensures !err && !jumped ==> State == FIRST && SkipTs == old(SkipTs)
      ensures !err && jumped ==> Exact(log) - old(Exact(log)) == 10 * MS
    {
      hide RingOrdered, SpanFits;
      jumped := false;
      // the frame being read has been written
      var idr := LatestIDR(log, if c.visible > pos then c.visible else pos + 1);
      FirstSeqIsFirst(log, idr.value);
      if idr.Some? && log[idr.value].seqno != FirstSeq {
        err := Read(log, idr.value, c.discarded);
        if err {
          return;
        }
        Later(log, old(pos), pos);
        Later(log, firstPos, old(pos));
        SkipTs := log[pos].ts - beforeJump - StartTs - 10 * MS;
        State := NORMAL;
        jumped := true;
      } else {
        err := ReadNextFrame(log, c);
        if err {
          return;
        }
        Later(log, old(pos), pos);
        beforeJump := log[pos].ts - FirstTs;
      }
    }

    method ReadNormal(log: seq<Frame>, c: Call) returns (err: bool)
      requires Tracking(log) && State == NORMAL && Sees(log, c)
      modifies `pos
      ensures Reads(err, NextPos(log, old(Value()), c))
      ensures !err ==> Tracking(log) && old(pos) <= pos
    {
      hide SpanFits;
      err := ReadNextFrame(log, c);
      if !err {
        Later(log, old(pos), pos);
      }
    }

    method ReadUntilKey(log: seq<Frame>, c: Call) returns (err: bool)
      requires Tracking(log) && State == WAITKEY && Sees(log, c)
      modifies `pos, `State
      ensures Reads(err, NextPos(log, old(Value()), c))
      ensures !err ==> Tracking(log) && old(pos) <= pos && State == NORMAL && log[pos].idr
      ensures !err ==> forall i | old(pos) < i < pos :: !log[i].idr
    {
      hide RingOrdered, SpanFits;
      while true
        invariant Tracking(log) && State == WAITKEY && old(pos) <= pos
        invariant forall i | old(pos) < i <= pos :: !log[i].idr
        invariant NextKey(log, pos, c) == NextKey(log, old(pos), c)
        decreases |log| - pos
      {
        ghost var before := pos;
        err := ReadNextFrame(log, c);
        if err {
          return;
        }
        Later(log, before, pos);
        if log[pos].idr {
          State := NORMAL;
          return;
        }
      }
    }

    // ----- one call -----

    lemma ExactFits(log: seq<Frame>)
      requires Tracking(log) && State != INIT
      ensures Exact(log) < U32 * MS
    {
    }

    /** The state machine of ReadFrame: moves to the next frame to play. */
    method Advance(log: seq<Frame>, c: Call) returns (err: bool, jumped: bool)
      requires Tracking(log) && Sees(log, c)
      modifies this
      ensures old(Value()).InLog(log) && Reads(err, NextPos(log, old(Value()), c))
      ensures !err ==> Value() == MoveTo(log, old(Value()), c, pos)
      ensures StartTs == old(StartTs) && AbsTime == old(AbsTime)
      ensures old(State) != INIT ==> old(pos) < |log| && 0 <= old(Exact(log))
      ensures !err ==> Tracking(log) && State != INIT && pos < |log| && 0 <= Exact(log) < U32 * MS
      ensures !err && old(State) == INIT ==> Exact(log) == StartTs
      ensures !err && old(State) != INIT ==> old(pos) <= pos && old(Exact(log)) <= Exact(log)
      ensures !err && old(State) != INIT && !jumped ==>
        Exact(log) - old(Exact(log)) == log[pos].ts - log[old(pos)].ts
      ensures !err ==> (jumped <==> Jumps(old(Value()), Value()))
      ensures !err && jumped ==> Exact(log) - old(Exact(log)) == 10 * MS
    {
      hide RingOrdered, SpanFits;
      jumped := false;
      match State {
        case INIT =>
          err := StartReading(log, c);
        case FIRST =>
          err, jumped := ReadFirst(log, c);
        case NORMAL =>
          err := ReadNormal(log, c);
        case WAITKEY =>
          err := ReadUntilKey(log, c);
      }
      if err {
        return;
      }
      if old(State) != INIT {
        Later(log, old(pos), pos);
      }
      ExactFits(log);
    }

    method UpdateClock(log: seq<Frame>) returns (late: bool)
      requires pos < |log|
      modifies `AbsTime
      ensures old(Tracking(log)) ==> Tracking(log)
      ensures late <==> Exact(log) < 0
      ensures AbsTime == if late then (old(AbsTime) + 1) % U32 else Shown(Exact(log))
    {
      late := false;
      if log[pos].ts < SkipTs {
        late := true;
        AbsTime := (AbsTime + 1) % U32;
      } else {
        AbsTime := (log[pos].ts - SkipTs) / MS % U32;
        if AbsTime == 0 {
          AbsTime := 1;
        }
      }
    }

    /** Reads one frame. `late` tells whether the frame was found to lie before SkipTs, `jumped`
        whether a fresh reader left its first key frame for the latest one. */
    method ReadFrame(log: seq<Frame>, c: Call) returns (err: bool, late: bool, jumped: bool)
      requires Valid(log) && Sees(log, c)
      modifies this
      ensures old(Value()).InLog(log) && Reads(err, NextPos(log, old(Value()), c))
      ensures !err ==> Value() == After(log, old(Value()), c, pos)
      ensures StartTs == old(StartTs)
      ensures err ==> AbsTime == old(AbsTime)
      ensures !err ==> Valid(log) && State != INIT && 1 <= AbsTime && old(AbsTime) <= AbsTime < U32
      ensures !late
      // exactly StartTs of playback time at the first frame
      ensures !err && old(State) == INIT ==> Exact(log) == StartTs
      // afterwards playback time advances with the timestamps, but by 10 ms across the jump
      ensures !err && old(State) != INIT ==> old(pos) <= pos
      ensures !err && old(State) != INIT && !jumped ==>
        Exact(log) - old(Exact(log)) == log[pos].ts - log[old(pos)].ts
      ensures !err ==> (jumped <==> Jumps(old(Value()), Value()))
      ensures !err && jumped ==> Exact(log) - old(Exact(log)) == 10 * MS
    {
      hide Tracking;
      late := false;
      err, jumped := Advance(log, c);
      if err {
        return;
      }
      late := UpdateClock(log);
      ShownMonotone(if old(State) == INIT then 0 else old(Exact(log)), Exact(log));
    }
  }

  // ----- whole playbacks -----

  /** `after` is `before` after one call that reads its frame. */
  predicate Played(log: seq<Frame>, before: Reader, c: Call, after: Reader) {
    && Sees(log, c) && before.InLog(log)
    && NextPos(log, before, c) == Some(after.pos) && after == After(log, before, c, after.pos)
  }

  /** The call cannot read its frame. */
  predicate Fails(log: seq<Frame>, before: Reader, c: Call) {
    Sees(log, c) && before.InLog(log) && NextPos(log, before, c) == None
  }

  /** The clock shows the exact playback time, which begins at `startTs` and then goes with the timestamps
      of the frames, but by 10 ms across the jump. */
  predicate OnTime(log: seq<Frame>, startTs: int, before: Reader, after: Reader) {
    && before.InLog(log) && after.pos < |log| && after.State != INIT
    && 0 <= after.Time(log) && 1 <= after.AbsTime == Shown(after.Time(log)) < U32
    && after.Time(log) ==
       if before.State == INIT then startTs
       else if Jumps(before, after) then before.Time(log) + 10 * MS
       else before.Time(log) + log[after.pos].ts - log[before.pos].ts
  }

  /** One playback: a fresh reader, and the readers after each call that read its frame. */
  ghost predicate IsPlayback(log: seq<Frame>, startTs: int, calls: seq<Call>, rs: seq<Reader>) {
    && 0 < |rs| <= |calls| + 1 && rs[0] == NewReader(startTs)
    && forall i | 0 <= i < |rs| - 1 :: Played(log, rs[i], calls[i], rs[i + 1])
  }

  // ----- which frame a call plays -----

  /** Frame `k` is the latest key frame among the first `n`. */
  ghost predicate LatestKey(log: seq<Frame>, n: nat, k: nat) {
    k < n <= |log| && log[k].idr && forall i | k < i < n :: !log[i].idr
  }

  lemma LatestFound(log: seq<Frame>, n: nat, k: nat)
    requires LatestKey(log, n, k)
    ensures LatestIDR(log, n) == Some(k)
  {
  }

  ghost predicate NoKey(log: seq<Frame>, n: nat) {
    n <= |log| && forall i | 0 <= i < n :: !log[i].idr
  }

  /** Where a fresh reader begins: in WaitKey mode at the writer, in Buffer mode at what the buffer search
      finds, else at the latest visible key frame or, without one, at the writer. */
  ghost predicate BeginsAt(log: seq<Frame>, c: Call, k: nat) {
    if c.mode.WaitKey? then k == c.writing
    else if c.mode.Buffer? && c.history.Some? then c.history == Some(k)
    else LatestKey(log, c.visible, k) || (NoKey(log, c.visible) && k == c.writing)
  }

  /** The first call fails exactly if that frame is beyond the log or discarded, and otherwise plays it. In
      Real mode a reader that begins at a key frame is on its first group of pictures; in WaitKey mode one
      that does not begin at the latest key frame waits for the next. */
  lemma StartLaw(log: seq<Frame>, before: Reader, c: Call, k: nat, after: Reader)
    requires before.State == INIT && Sees(log, c) && BeginsAt(log, c, k)
    ensures Fails(log, before, c) <==> k >= |log| || k in c.discarded
    ensures Played(log, before, c, after) ==>
      && after.pos == k < |log| && after.FirstSeq == log[k].seqno
      && (after.State == FIRST <==> c.mode.Real? && LatestKey(log, c.visible, k))
      && (after.State == WAITKEY <==> c.mode.WaitKey? && !LatestKey(log, c.visible, k))
      && (after.State == FIRST || after.State == WAITKEY || after.State == NORMAL)
  {
  }

  /** On its first group of pictures a reader goes to the latest key frame it sees, if that is not the first
      one, and else to the next frame. */
  lemma FirstLaw(log: seq<Frame>, before: Reader, c: Call, k: nat, jumps: bool, after: Reader)
    requires before.State == FIRST && before.pos < |log| && Sees(log, c)
    requires var seen := if c.visible > before.pos then c.visible else before.pos + 1;
      if jumps then LatestKey(log, seen, k) && log[k].seqno != before.FirstSeq
      else k == before.pos + 1 && forall j: nat | LatestKey(log, seen, j) :: log[j].seqno == before.FirstSeq
    ensures Fails(log, before, c) <==> k >= |log| || k in c.discarded
    ensures Played(log, before, c, after) ==>
      after.pos == k && after.State == if jumps then NORMAL else FIRST
  {
  }

  /** The reader is behind the writer by more than the threshold and sees a key frame `k` behind the next. */
  ghost predicate Overtaken(log: seq<Frame>, pos: nat, c: Call, k: nat)
    requires pos + 1 < |log|
  {
    && c.mode != Buffer && (c.lastSeq - log[pos + 1].seqno) % U32 > JumpThreshold(c.speed, c.size)
    && LatestKey(log, c.visibleAfter, k) && log[k].seqno > log[pos + 1].seqno
  }

  /** Afterwards it reads frame by frame, and only if it is overtaken goes on to the latest key frame. */
  lemma NormalLaw(log: seq<Frame>, before: Reader, c: Call, k: nat, after: Reader)
    requires before.State == NORMAL && before.pos < |log| && Sees(log, c)
    requires before.pos + 1 < |log| ==>
      Overtaken(log, before.pos, c, k) ||
      (k == before.pos + 1 && forall j: nat :: !Overtaken(log, before.pos, c, j))
    ensures Fails(log, before, c) <==>
      before.pos + 1 >= |log| || before.pos + 1 in c.discarded || k in c.discarded
    ensures Played(log, before, c, after) ==> after.pos == k && after.State == NORMAL
  {
    if before.pos + 1 < |log| {
      if Overtaken(log, before.pos, c, k) {
        LatestFound(log, c.visibleAfter, k);
      } else if idr: nat :| LatestIDR(log, c.visibleAfter) == Some(idr) {
        assert !Overtaken(log, before.pos, c, idr);
      }
    }
  }

  /** The first key frame after `pos` is `k`. */
  ghost predicate NextKeyAt(log: seq<Frame>, pos: nat, k: nat) {
    pos < k < |log| && log[k].idr && forall i | pos < i < k :: !log[i].idr
  }

  lemma {:induction false} NextKeyExactly(log: seq<Frame>, pos: nat, c: Call)
    requires Sees(log, c)
    ensures var p := NextKey(log, pos, c);
      && (p.Some? ==> NextKeyAt(log, pos, p.value) && forall i | pos < i <= p.value :: i !in c.discarded)
      && (p.None? ==> forall k: nat | NextKeyAt(log, pos, k) :: exists i | pos < i <= k :: i in c.discarded)
    decreases |log| - pos
  {
    if Readable(log, pos + 1, c) && !log[pos + 1].idr {
      NextKeyExactly(log, pos + 1, c);
      assert Follow(log, pos, false, c) == Some(pos + 1);
      var p := NextKey(log, pos, c);
      assert p == NextKey(log, pos + 1, c);
      forall k: nat | NextKeyAt(log, pos, k) ensures p.None? ==> exists i | pos < i <= k :: i in c.discarded {
        assert NextKeyAt(log, pos + 1, k);
        if p.None? {
          var i :| pos + 1 < i <= k && i in c.discarded;
        }
      }
    }
  }

  /** A reader that waits for a key frame plays the first one; it fails exactly if there is none, or a frame
      up to it was discarded. */
  lemma WaitKeyLaw(log: seq<Frame>, before: Reader, c: Call, after: Reader)
    requires before.State == WAITKEY && before.pos < |log| && Sees(log, c)
    ensures Fails(log, before, c) <==>
      !exists k: nat :: NextKeyAt(log, before.pos, k) && forall i | before.pos < i <= k :: i !in c.discarded
    ensures Played(log, before, c, after) ==> NextKeyAt(log, before.pos, after.pos) && after.State == NORMAL
  {
    NextKeyExactly(log, before.pos, c);
  }

  /** How many frames of the ring a reader may be behind: at least half of them, more at higher speed, never
      all. */
  lemma ThresholdGrows(speed: real, faster: real, size: nat)
    requires speed <= faster
    ensures size / 2 <= JumpThreshold(speed, size) <= JumpThreshold(faster, size) <= size * 7 / 8
    ensures speed <= 2.0 ==> JumpThreshold(speed, size) == size / 2
    ensures speed > 8.0 ==> JumpThreshold(speed, size) == size * 7 / 8
  {
  }

  // ----- playback from the latest key frame -----

  /** A reader at `pos` that makes call `c` sees no key frame after number `k`. */
  ghost predicate NoNewer(log: seq<Frame>, c: Call, pos: nat, k: nat) {
    forall i | k < i < |log| && (i < c.visible || i <= pos) :: !log[i].idr
  }

  /** In Real mode with a key frame in sight the first call plays the latest one, at `startTs`; until a newer
      one comes into sight, each call plays the next frame, on time. */
  lemma {:induction false} RealModeReadsOn(
      log: seq<Frame>, startTs: int, calls: seq<Call>, rs: seq<Reader>, k: nat, n: nat)
    requires IsPlayback(log, startTs, calls, rs) && RingOrdered(log) && 1 <= n < |rs|
    requires calls[0].mode.Real? && LatestKey(log, calls[0].visible, k)
    requires forall m | 1 <= m < n :: NoNewer(log, calls[m], rs[m].pos, k)
    ensures rs[n].pos == k + n - 1 < |log| && rs[n].State == FIRST && rs[n].FirstSeq == log[k].seqno
    ensures rs[n].StartTs == startTs && rs[n].FirstTs == log[k].ts
    ensures rs[n].beforeJump == log[rs[n].pos].ts - log[k].ts
    ensures rs[n].Time(log) == startTs + log[rs[n].pos].ts - log[k].ts
  {
    assert Played(log, rs[n - 1], calls[n - 1], rs[n]);
    if n == 1 {
      StartLaw(log, rs[0], calls[0], k, rs[1]);
    } else {
      RealModeReadsOn(log, startTs, calls, rs, k, n - 1);
      assert NoNewer(log, calls[n - 1], rs[n - 1].pos, k);
      FirstLaw(log, rs[n - 1], calls[n - 1], rs[n - 1].pos + 1, false, rs[n]);
    }
  }

  /** The first call that sees a newer key frame plays the latest one, 10 ms of playback time after the frame
      in front, or fails if that was discarded. */
  lemma RealModeJumps(
      log: seq<Frame>, startTs: int, calls: seq<Call>, rs: seq<Reader>, k: nat, n: nat, j: nat)
    requires IsPlayback(log, startTs, calls, rs) && RingOrdered(log) && 1 <= n < |rs| && n < |calls|
    requires calls[0].mode.Real? && LatestKey(log, calls[0].visible, k) && Sees(log, calls[n])
    requires forall m | 1 <= m < n :: NoNewer(log, calls[m], rs[m].pos, k)
    requires k < j && LatestKey(log, if calls[n].visible > rs[n].pos then calls[n].visible else rs[n].pos + 1, j)
    ensures rs[n].InLog(log) && (Fails(log, rs[n], calls[n]) <==> j in calls[n].discarded)
    ensures n + 1 < |rs| ==>
      && rs[n + 1].pos == j && rs[n + 1].State == NORMAL
      && rs[n + 1].Time(log) == startTs + log[rs[n].pos].ts - log[k].ts + 10 * MS
  {
    RealModeReadsOn(log, startTs, calls, rs, k, n);
    FirstLaw(log, rs[n], calls[n], j, true, if n + 1 < |rs| then rs[n + 1] else rs[n]);
  }

  lemma {:induction false} StaysNormal(
      log: seq<Frame>, startTs: int, calls: seq<Call>, rs: seq<Reader>, i: nat, j: nat)
    requires IsPlayback(log, startTs, calls, rs) && i <= j < |rs| && rs[i].State == NORMAL
    ensures rs[j].State == NORMAL
  {
    if i < j {
      StaysNormal(log, startTs, calls, rs, i, j - 1);
      assert Played(log, rs[j - 1], calls[j - 1], rs[j]);
    }
  }

  /** A playback jumps at most once. */
  lemma JumpsOnce(log: seq<Frame>, startTs: int, calls: seq<Call>, rs: seq<Reader>, i: nat, j: nat)
    requires IsPlayback(log, startTs, calls, rs) && i <= j < |rs| - 1
    requires Jumps(rs[i], rs[i + 1]) && Jumps(rs[j], rs[j + 1])
    ensures i == j
  {
    if i < j {
      StaysNormal(log, startTs, calls, rs, i + 1, j);
    }
  }

  /** One call of a playback. */
  method PlayNext(r: AVRingReader, log: seq<Frame>, c: Call) returns (err: bool)
    requires r.Valid(log) && Sees(log, c)
    modifies r
    ensures err ==> Fails(log, old(r.Value()), c)
    ensures !err ==> r.Valid(log) && r.StartTs == old(r.StartTs) && old(r.AbsTime) <= r.AbsTime
    ensures !err ==> Played(log, old(r.Value()), c, r.Value())
    ensures !err ==> OnTime(log, r.StartTs, old(r.Value()), r.Value())
  {
    hide After, NextPos, Shown;
    var failed, _, _ := r.ReadFrame(log, c);
    err := failed;
  }

  /** A whole playback, up to the first call whose frame is beyond the log or discarded: the clock after
      each call. It is always on time and never runs back. */
  method Play(log: seq<Frame>, startTs: int, calls: seq<Call>) returns (clock: seq<nat>, ghost rs: seq<Reader>)
    requires RingOrdered(log) && SpanFits(log, startTs) && startTs >= 0
    requires forall i | 0 <= i < |calls| :: Sees(log, calls[i])
    ensures IsPlayback(log, startTs, calls, rs) && |rs| == |clock| + 1
    ensures |clock| < |calls| ==> Fails(log, rs[|clock|], calls[|clock|])
    ensures forall i | 0 <= i < |clock| :: clock[i] == rs[i + 1].AbsTime && OnTime(log, startTs, rs[i], rs[i + 1])
    ensures forall i, j | 0 <= i < j < |clock| :: clock[i] <= clock[j]
  {
    hide Played, Fails, OnTime, RingOrdered, SpanFits;
    var r := new AVRingReader(startTs);
    clock, rs := [], [r.Value()];
    for i := 0 to |calls|
      invariant fresh(r) && r.Valid(log) && r.StartTs == startTs
      invariant |clock| == i && |rs| == i + 1 && rs[i] == r.Value()
      invariant IsPlayback(log, startTs, calls, rs)
      invariant forall j | 0 <= j < i :: clock[j] == rs[j + 1].AbsTime && OnTime(log, startTs, rs[j], rs[j + 1])
      invariant forall j | 0 <= j < i :: clock[j] <= r.AbsTime
      invariant forall j, k | 0 <= j < k < i :: clock[j] <= clock[k]
    {
      var err := PlayNext(r, log, calls[i]);
      if err {
        return;
      }
      clock, rs := clock + [r.AbsTime], rs + [r.Value()];
    }
  }
}
