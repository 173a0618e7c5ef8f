/** The maximum of a finite set of integers, and the loop that finds it. */
module Maximum {

  lemma HasElement(xs: set<int>)
    requires xs != {}
    ensures exists x :: x in xs
  {
    assert (forall x :: x !in xs) ==> xs == {};
  }

  /** The largest element of `xs`, at least `floor`. */
  ghost function MaxOf(xs: set<int>, floor: int): (m: int)
    ensures m >= floor && (forall x | x in xs :: x <= m) && (m == floor || m in xs)
  {
    if xs == {} then floor
    else
      HasElement(xs);
      var x :| x in xs;
      var rest := xs - {x};
      var m := MaxOf(rest, floor);
      assert forall y | y in xs :: y == x || y in rest;
      if x > m then x else m
  }

  method MaxKey(counts: map<int, int>) returns (max: int)
    ensures max == MaxOf(counts.Keys, 0)
  {
    max := 0;
    var todo := counts.Keys;
    while todo != {}
      invariant todo <= counts.Keys
      invariant max >= 0 && (max == 0 || max in counts.Keys)
      invariant forall k | k in counts.Keys - todo :: k <= max
      decreases todo
    {
      HasElement(todo);
      ghost var before := todo;
      var k :| k in todo;
      todo := todo - {k};
      assert forall j | j in counts.Keys - todo :: j == k || j in counts.Keys - before;
      if k > max {
        max := k;
      }
    }
    assert counts.Keys - todo == counts.Keys;
  }
}

/** Publishers and the subscribers attached to them (publisher.go): the attached set, the per-type
    counters, the counted buffer times and the buffer time derived from them. */
module PublisherState {
  import opened Maximum
  import opened Wrappers

  datatype Kind = Server | Vod | OtherKind

  /** The constant part of a subscriber; the id is unique. */
  datatype Subscriber = Subscriber(id: nat, path: string, kind: Kind, bufferTime: int)

  /** The changing part of a subscriber: the id of the publisher it is or was last attached to, whether
      its waiting clock runs, and how often its waitPublishDone channel was closed. */
  datatype Seat = Seat(publisher: Option<nat>, waiting: bool, closes: nat)

  /** A subscriber handed to publisher `p`: its channel is closed if this is its first publisher. */
  function Arrive(seat: Seat, p: nat): Seat {
    Seat(Some(p), false, if seat.publisher.None? then seat.closes + 1 else seat.closes)
  }

  datatype PubState = Init | Subscribed | WaitSubscriber | Disposed

  /** The value of a publisher. `transferred` and `gone` record that TransferSubscribers and Dispose have
      run: the second does not maintain the counters. `moved` counts, per buffer time, the subscribers that
      transfers have taken away, which `counts` goes on counting. */
  datatype Pub = Pub(
    path: string, state: PubState, subs: set<Subscriber>, counts: map<int, int>, bufferTime: int,
    serverSubs: int, vodSubs: int, transferred: bool, gone: bool, moved: map<int, int>)

  function Count(m: map<int, int>, b: int): int {
    if b in m then m[b] else 0
  }

  function OfKind(subs: set<Subscriber>, kind: Kind): set<Subscriber> {
    set s | s in subs && s.kind == kind
  }

  function WithBuffer(subs: set<Subscriber>, b: int): set<Subscriber> {
    set s | s in subs && s.bufferTime == b
  }

  function Buffers(subs: set<Subscriber>): set<int> {
    set s | s in subs :: s.bufferTime
  }

  function NewPub(path: string, bufferTime: int): Pub {
    Pub(path, Init, {}, map[], bufferTime, 0, 0, false, false, map[])
  }

  function AddTo(p: Pub, s: Subscriber): Pub {
    if s in p.subs then p
    else p.(
      subs := p.subs + {s},
      serverSubs := p.serverSubs + if s.kind == Server then 1 else 0,
      vodSubs := p.vodSubs + if s.kind == Vod then 1 else 0,
      counts := p.counts[s.bufferTime := Count(p.counts, s.bufferTime) + 1],
      bufferTime := if s.bufferTime > p.bufferTime then s.bufferTime else p.bufferTime,
      state := Subscribed)
  }

  function Uncount(m: map<int, int>, b: int): map<int, int> {
    if Count(m, b) == 1 then m - {b} else m[b := Count(m, b) - 1]
  }

  /** The buffer time RemoveSubscriber computes: the largest counted one, not below the default. */
  ghost function Recomputed(subs: set<Subscriber>, counts: map<int, int>, defaultBuffer: int): int {
    if subs == {} then defaultBuffer
    else
      var m := MaxOf(counts.Keys, 0);
      if m < defaultBuffer then defaultBuffer else m
  }

  ghost function RemoveFrom(p: Pub, s: Subscriber, defaultBuffer: int): Pub {
    var server := p.serverSubs - if s.kind == Server then 1 else 0;
    var vod := p.vodSubs - if s.kind == Vod then 1 else 0;
    var counts := Uncount(p.counts, s.bufferTime);
    p.(subs := p.subs - {s}, counts := counts, serverSubs := server, vodSubs := vod,
       bufferTime := Recomputed(p.subs - {s}, counts, defaultBuffer),
       state := if p.state == Subscribed && server == 0 && vod == 0 then WaitSubscriber else p.state)
  }

  /** `moved` after `leaving` have been taken away as well. */
  function MovedAway(moved: map<int, int>, leaving: set<Subscriber>): map<int, int> {
    map b | b in moved.Keys + Buffers(leaving) :: Count(moved, b) + |WithBuffer(leaving, b)|
  }

  /** The source of a transfer, once its server-type subscribers have left. */
  function TransferOut(p: Pub, defaultBuffer: int): Pub {
    p.(subs := p.subs - OfKind(p.subs, Server), serverSubs := 0, bufferTime := defaultBuffer,
       state := if p.state == Subscribed then WaitSubscriber else p.state, transferred := true,
       moved := MovedAway(p.moved, OfKind(p.subs, Server)))
  }

  function DisposeOf(p: Pub): Pub {
    p.(subs := {}, state := Disposed, gone := true)
  }

  // ----- invariants -----

  /** `counts` has the users of each buffer time in `subs` and in `moved`, and no zero entries. */
  ghost predicate CountsOf(counts: map<int, int>, subs: set<Subscriber>, moved: map<int, int>) {
    && (forall b :: Count(counts, b) == |WithBuffer(subs, b)| + Count(moved, b))
    && (forall b | b in counts :: counts[b] > 0)
    && (forall b | b in moved :: moved[b] > 0)
  }

  /** `counts` holds exactly the buffer times in use, each with the number of its users. */
  ghost predicate CountsExact(p: Pub) {
    CountsOf(p.counts, p.subs, map[])
  }

  ghost predicate BufferEnough(p: Pub) {
    forall s | s in p.subs :: s.bufferTime <= p.bufferTime
  }

  ghost predicate CountersExact(p: Pub) {
    p.serverSubs == |OfKind(p.subs, Server)| && p.vodSubs == |OfKind(p.subs, Vod)|
  }

  /** A publisher that waits for subscribers has no server-type one, and no vod one unless a transfer
      has run. */
  ghost predicate WaitsUnwatched(p: Pub) {
    p.state == WaitSubscriber ==>
      OfKind(p.subs, Server) == {} && (!p.transferred ==> OfKind(p.subs, Vod) == {})
  }

  ghost predicate PubInv(p: Pub) {
    && (!p.gone ==> CountersExact(p) && WaitsUnwatched(p) && p.state != Disposed)
    && (!p.gone ==> CountsOf(p.counts, p.subs, p.moved))
    && (!p.gone && !p.transferred ==> p.moved == map[] && BufferEnough(p))
    && (p.state == Disposed || p.state == Init ==> p.subs == {})
  }

  lemma OfKindAdd(subs: set<Subscriber>, s: Subscriber, kind: Kind)
    requires s !in subs
    ensures |OfKind(subs + {s}, kind)| == |OfKind(subs, kind)| + if s.kind == kind then 1 else 0
  {
    assert OfKind(subs + {s}, kind) == if s.kind == kind then OfKind(subs, kind) + {s} else OfKind(subs, kind);
  }

  lemma WithBufferAdd(subs: set<Subscriber>, s: Subscriber, b: int)
    requires s !in subs
    ensures |WithBuffer(subs + {s}, b)| == |WithBuffer(subs, b)| + if s.bufferTime == b then 1 else 0
  {
    assert WithBuffer(subs + {s}, b) == if s.bufferTime == b then WithBuffer(subs, b) + {s} else WithBuffer(subs, b);
  }

  lemma NewPubSound(path: string, bufferTime: int)
    ensures PubInv(NewPub(path, bufferTime))
  {
  }

  lemma AddKeepsCounts(p: Pub, s: Subscriber)
    requires CountsOf(p.counts, p.subs, p.moved) && s !in p.subs
    ensures CountsOf(AddTo(p, s).counts, AddTo(p, s).subs, p.moved)
  {
    var q := AddTo(p, s);
    forall b ensures Count(q.counts, b) == |WithBuffer(q.subs, b)| + Count(p.moved, b) {
      WithBufferAdd(p.subs, s, b);
    }
  }

  lemma AddKeeps(p: Pub, s: Subscriber)
    requires PubInv(p)
    ensures PubInv(AddTo(p, s))
  {
    hide CountsOf;
    if s !in p.subs {
      OfKindAdd(p.subs, s, Server);
      OfKindAdd(p.subs, s, Vod);
      if !p.gone {
        AddKeepsCounts(p, s);
      }
    }
  }

  lemma RemoveKeepsCounts(p: Pub, s: Subscriber)
    requires CountsOf(p.counts, p.subs, p.moved) && s in p.subs
    ensures CountsOf(Uncount(p.counts, s.bufferTime), p.subs - {s}, p.moved)
  {
    var rest, counts := p.subs - {s}, Uncount(p.counts, s.bufferTime);
    assert rest + {s} == p.subs;
    forall b ensures Count(counts, b) == |WithBuffer(rest, b)| + Count(p.moved, b) {
      WithBufferAdd(rest, s, b);
    }
  }

  /** The counted buffer times are those in use and those that transfers have taken away. */
  lemma CountedTimes(counts: map<int, int>, subs: set<Subscriber>, moved: map<int, int>)
    requires CountsOf(counts, subs, moved)
    ensures counts.Keys == Buffers(subs) + moved.Keys
  {
    forall b ensures b in counts <==> b in Buffers(subs) || b in moved {
      assert b in counts <==> Count(counts, b) > 0;
      assert b in moved <==> Count(moved, b) > 0;
      if b in Buffers(subs) {
        var t :| t in subs && t.bufferTime == b;
        assert t in WithBuffer(subs, b);
      } else {
        assert WithBuffer(subs, b) == {};
      }
    }
  }

  /** After a removal that leaves somebody, the buffer time is the maximum of the default, the remaining
      subscribers' and those that transfers have taken away; it suffices for everybody who is left. */
  lemma RemoveRecomputes(p: Pub, s: Subscriber, defaultBuffer: int)
    requires PubInv(p) && !p.gone && s in p.subs && defaultBuffer >= 0
    ensures var q := RemoveFrom(p, s, defaultBuffer);
      && CountsOf(q.counts, q.subs, q.moved) && BufferEnough(q)
      && q.bufferTime ==
         if q.subs == {} then defaultBuffer else MaxOf(Buffers(q.subs) + q.moved.Keys, defaultBuffer)
  {
    hide CountersExact, WaitsUnwatched;
    var q := RemoveFrom(p, s, defaultBuffer);
    RemoveKeepsCounts(p, s);
    hide CountsOf;
    CountedTimes(q.counts, q.subs, q.moved);
    forall t | t in q.subs ensures t.bufferTime <= q.bufferTime {
      assert t.bufferTime in Buffers(q.subs);
    }
  }

  /** Before any transfer that is the maximum of the default and the remaining subscribers'. */
  lemma RemoveRecomputesMax(p: Pub, s: Subscriber, defaultBuffer: int)
    requires PubInv(p) && !p.gone && !p.transferred && s in p.subs && defaultBuffer >= 0
    ensures var q := RemoveFrom(p, s, defaultBuffer);
      CountsExact(q) && q.bufferTime == MaxOf(Buffers(q.subs), defaultBuffer)
  {
    RemoveRecomputes(p, s, defaultBuffer);
    hide CountsOf, CountersExact, WaitsUnwatched;
    var q := RemoveFrom(p, s, defaultBuffer);
    assert Buffers(q.subs) + {} == Buffers(q.subs);
    if q.subs == {} {
      assert Buffers(q.subs) == {};
    }
  }

  lemma RemoveKeepsCounters(p: Pub, s: Subscriber, defaultBuffer: int)
    requires CountersExact(p) && WaitsUnwatched(p) && s in p.subs
    ensures CountersExact(RemoveFrom(p, s, defaultBuffer)) && WaitsUnwatched(RemoveFrom(p, s, defaultBuffer))
  {
    hide Recomputed, Uncount;
    var rest := p.subs - {s};
    assert rest + {s} == p.subs;
    OfKindAdd(rest, s, Server);
    OfKindAdd(rest, s, Vod);
    assert OfKind(rest, Server) <= OfKind(p.subs, Server) && OfKind(rest, Vod) <= OfKind(p.subs, Vod);
  }

  lemma RemoveKeeps(p: Pub, s: Subscriber, defaultBuffer: int)
    requires PubInv(p) && s in p.subs && defaultBuffer >= 0
    ensures PubInv(RemoveFrom(p, s, defaultBuffer))
  {
    hide CountsOf, CountersExact, WaitsUnwatched, Recomputed, BufferEnough;
    if !p.gone {
      RemoveKeepsCounters(p, s, defaultBuffer);
      RemoveRecomputes(p, s, defaultBuffer);
    }
  }

  /** When a watched publisher loses a subscriber, it starts waiting exactly when no server-type and
      no vod subscriber is left. */
  lemma RemoveWaits(p: Pub, s: Subscriber, defaultBuffer: int)
    requires PubInv(p) && !p.gone && s in p.subs && p.state == Subscribed
    ensures var q := RemoveFrom(p, s, defaultBuffer);
      q.state == if OfKind(q.subs, Server) + OfKind(q.subs, Vod) == {} then WaitSubscriber else Subscribed
  {
    hide Recomputed, Uncount, CountsOf;
    RemoveKeepsCounters(p, s, defaultBuffer);
  }

  lemma TransferKeepsCounts(p: Pub, defaultBuffer: int)
    requires CountsOf(p.counts, p.subs, p.moved)
    ensures var q := TransferOut(p, defaultBuffer); CountsOf(q.counts, q.subs, q.moved)
  {
    var q, leaving := TransferOut(p, defaultBuffer), OfKind(p.subs, Server);
    forall b ensures Count(q.counts, b) == |WithBuffer(q.subs, b)| + Count(q.moved, b) {
      assert WithBuffer(p.subs, b) == WithBuffer(q.subs, b) + WithBuffer(leaving, b);
      if b !in q.moved {
        assert WithBuffer(leaving, b) == {};
      }
    }
    forall b | b in q.moved ensures q.moved[b] > 0 {
      if b !in p.moved {
        var t :| t in leaving && t.bufferTime == b;
        assert t in WithBuffer(leaving, b);
      }
    }
  }

  lemma TransferOutKeeps(p: Pub, defaultBuffer: int)
    requires PubInv(p)
    ensures PubInv(TransferOut(p, defaultBuffer)) && TransferOut(p, defaultBuffer).state != Subscribed
  {
    hide CountsOf, MovedAway;
    var q := TransferOut(p, defaultBuffer);
    assert OfKind(q.subs, Server) == {};
    assert OfKind(q.subs, Vod) == OfKind(p.subs, Vod);
    if !p.gone {
      TransferKeepsCounts(p, defaultBuffer);
    }
  }

  /** A transfer takes away exactly the server-type subscribers and leaves the publisher waiting, unless
      nobody has watched it yet. */
  lemma TransferTakes(p: Pub, defaultBuffer: int)
    requires PubInv(p) && !p.gone
    ensures var q := TransferOut(p, defaultBuffer);
      && (forall s :: s in q.subs <==> s in p.subs && s.kind != Server)
      && q.state == (if p.state == Init then Init else WaitSubscriber)
      && q.counts == p.counts && q.vodSubs == p.vodSubs && q.path == p.path
  {
    hide CountersExact, CountsOf, BufferEnough;
  }

  lemma DisposeKeeps(p: Pub)
    requires PubInv(p)
    ensures PubInv(DisposeOf(p))
  {
  }

  lemma DisposedIsEmpty(p: Pub)
    requires PubInv(p) && p.state == Disposed
    ensures p.subs == {}
  {
  }

  /** A transfer keeps exact counts exact if and only if it moves nobody. */
  lemma TransferCounts(p: Pub, defaultBuffer: int)
    requires CountsExact(p)
    ensures CountsExact(TransferOut(p, defaultBuffer)) <==> OfKind(p.subs, Server) == {}
  {
    var q, leaving := TransferOut(p, defaultBuffer), OfKind(p.subs, Server);
    if s :| s in leaving {
      var b := s.bufferTime;
      assert WithBuffer(p.subs, b) == WithBuffer(q.subs, b) + WithBuffer(leaving, b);
      assert s in WithBuffer(leaving, b);
      assert Count(q.counts, b) != |WithBuffer(q.subs, b)| + Count(map[], b);
    } else {
      assert q.subs == p.subs;
    }
  }

  /** A transfer resets the buffer time without looking at who stays: it is still enough for all of
      them exactly when none of those asks for more than the default. */
  lemma TransferBuffer(p: Pub, defaultBuffer: int)
    ensures BufferEnough(TransferOut(p, defaultBuffer)) <==>
      forall s | s in p.subs && s.kind != Server :: s.bufferTime <= defaultBuffer
  {
    var q := TransferOut(p, defaultBuffer);
    assert forall s :: s in q.subs <==> s in p.subs && s.kind != Server;
  }

  /** A vod subscriber left behind by a transfer asks for more than the publisher now keeps. */
  lemma TransferShortensBuffer()
    ensures exists p: Pub :: PubInv(p) && BufferEnough(p) && !BufferEnough(TransferOut(p, 0))
  {
    var s := Subscriber(1, "live", Vod, 5);
    var p0 := NewPub("live", 0);
    AddKeeps(p0, s);
    var p := AddTo(p0, s);
    assert s in TransferOut(p, 0).subs;
    assert PubInv(p) && BufferEnough(p) && !BufferEnough(TransferOut(p, 0));
  }

  // ----- many joining one publisher -----

  /** The buffer time rises just as far as the newcomers ask for. */
  ghost predicate RaisedBy(before: int, after: int, newcomers: set<Subscriber>) {
    after == MaxOf(Buffers(newcomers), before)
  }

  /** `after` is `before` once exactly the subscribers of `joined` have been added. */
  ghost predicate Joined(before: Pub, after: Pub, joined: set<Subscriber>) {
    && after.path == before.path && after.transferred == before.transferred && after.gone == before.gone
    && after.moved == before.moved
    && after.subs == before.subs + joined
    && after.state == (if joined <= before.subs then before.state else Subscribed)
    && RaisedBy(before.bufferTime, after.bufferTime, joined - before.subs)
    && (joined <= before.subs ==> after == before)
    && (PubInv(before) ==> PubInv(after))
  }

  lemma RaisedMore(before: int, after: int, newcomers: set<Subscriber>, s: Subscriber)
    requires RaisedBy(before, after, newcomers)
    ensures RaisedBy(before, if s.bufferTime > after then s.bufferTime else after, newcomers + {s})
  {
    assert Buffers(newcomers + {s}) == Buffers(newcomers) + {s.bufferTime} by {
      assert s in newcomers + {s};
    }
  }

  lemma JoinedNone(p: Pub)
    ensures Joined(p, p, {})
  {
    assert Buffers({} - p.subs) == {};
    assert p.subs + {} == p.subs;
  }

  lemma JoinedMore(before: Pub, after: Pub, joined: set<Subscriber>, s: Subscriber)
    requires Joined(before, after, joined)
    ensures Joined(before, AddTo(after, s), joined + {s})
  {
    hide PubInv, RaisedBy;
    if PubInv(before) {
      AddKeeps(after, s);
    }
    if s in after.subs {
      assert joined + {s} - before.subs == joined - before.subs;
      assert after.subs == before.subs + (joined + {s});
    } else {
      RaisedMore(before.bufferTime, after.bufferTime, joined - before.subs, s);
      assert joined + {s} - before.subs == joined - before.subs + {s};
      assert after.subs + {s} == before.subs + (joined + {s});
    }
  }

  lemma RaisedTwice(before: int, middle: int, after: int, a: set<Subscriber>, b: set<Subscriber>)
    requires RaisedBy(before, middle, a) && RaisedBy(middle, after, b)
    ensures RaisedBy(before, after, a + b)
  {
    assert Buffers(a + b) == Buffers(a) + Buffers(b) by {
      forall x | x in Buffers(a) + Buffers(b) ensures x in Buffers(a + b) {
        var s :| s in a + b && s.bufferTime == x;
      }
    }
  }

  lemma JoinedTwice(before: Pub, middle: Pub, after: Pub, a: set<Subscriber>, b: set<Subscriber>)
    requires a !! b && Joined(before, middle, a) && Joined(middle, after, b)
    ensures Joined(before, after, a + b)
  {
    hide PubInv, RaisedBy;
    RaisedTwice(before.bufferTime, middle.bufferTime, after.bufferTime, a - before.subs, b - middle.subs);
    assert a + b - before.subs == (a - before.subs) + (b - middle.subs);
    assert after.subs == before.subs + (a + b);
  }

  class Publisher {
    const id: nat
    const path: string
    var state: PubState
    var subs: set<Subscriber>
    var counts: map<int, int>
    var bufferTime: int
    var serverSubs: int
    var vodSubs: int
    ghost var transferred: bool
    ghost var gone: bool
    ghost var moved: map<int, int>

    ghost function View(): (v: Pub)
      reads this
      ensures v.path == path && v.subs == subs && v.state == state
    {
      Pub(path, state, subs, counts, bufferTime, serverSubs, vodSubs, transferred, gone, moved)
    }

    constructor (id: nat, path: string, bufferTime: int)
      ensures View() == NewPub(path, bufferTime) && this.id == id
    {
      this.id, this.path, this.bufferTime := id, path, bufferTime;
      state, subs, counts, serverSubs, vodSubs := Init, {}, map[], 0, 0;
      transferred, gone, moved := false, false, map[];
    }

    method AddSubscriber(s: Subscriber, seat: Seat) returns (after: Seat)
      modifies this
      ensures View() == AddTo(old(View()), s)
      ensures after == Arrive(seat, id)
    {
      after := seat.(publisher := Some(id));
      if seat.publisher.None? {
        after := after.(closes := seat.closes + 1);
      }
      after := after.(waiting := false);
      if s !in subs {
        subs := subs + {s};
        if s.kind == Server {
          serverSubs := serverSubs + 1;
        }
        if s.kind == Vod {
          vodSubs := vodSubs + 1;
        }
        counts := counts[s.bufferTime := Count(counts, s.bufferTime) + 1];
        if s.bufferTime > bufferTime {
          bufferTime := s.bufferTime;
        }
        state := Subscribed;
      }
    }

    /** The buffer-time step of RemoveSubscriber. */
    method RecomputeBuffer(defaultBuffer: int)
      modifies this`bufferTime
      ensures bufferTime == Recomputed(subs, counts, defaultBuffer)
    {
      if subs != {} {
        var maxBuf := MaxKey(counts);
        bufferTime := if maxBuf < defaultBuffer then defaultBuffer else maxBuf;
      } else {
        bufferTime := defaultBuffer;
      }
    }

    /** The counting step of RemoveSubscriber. */
    method Decrement(b: int)
      modifies this`counts
      ensures counts == Uncount(old(counts), b)
    {
      counts := counts[b := Count(counts, b) - 1];
      if counts[b] == 0 {
        counts := counts - {b};
      }
    }

    method RemoveSubscriber(s: Subscriber, defaultBuffer: int)
      modifies this
      ensures View() == RemoveFrom(old(View()), s, defaultBuffer)
    {
      hide Recomputed, Uncount;
      subs := subs - {s};
      Decrement(s.bufferTime);
      RecomputeBuffer(defaultBuffer);
      if s.kind == Server {
        serverSubs := serverSubs - 1;
      }
      if s.kind == Vod {
        vodSubs := vodSubs - 1;
      }
      if state == Subscribed && serverSubs == 0 && vodSubs == 0 {
        state := WaitSubscriber;
      }
    }

    /** The end of TransferSubscribers, when `remain` has been collected. */
    method KeepOnly(remain: set<Subscriber>, defaultBuffer: int)
      requires remain == subs - OfKind(subs, Server)
      modifies this
      ensures View() == TransferOut(old(View()), defaultBuffer)
    {
      subs := remain;
      serverSubs := 0;
      bufferTime := defaultBuffer;
      if state == Subscribed {
        state := WaitSubscriber;
      }
      transferred, moved := true, MovedAway(moved, OfKind(old(subs), Server));
    }

    /** The end of Dispose, when every subscriber has been moved elsewhere. */
    method Close()
      modifies this
      ensures View() == DisposeOf(old(View()))
    {
      subs := {};
      state := Disposed;
      gone := true;
    }
  }

  // ----- the exits of Publisher.Go -----

  datatype PublishConf = PublishConf(publishTimeout: int, idleTimeout: int, delayCloseTimeout: int)

  datatype Reason =
    | PublishTimeout | DelayCloseTimeout | IdleTimeout | StopByUser | Kick | OtherReason

  /** What Go is woken by: its timer, its data check (with the time since start, whether each track
      exists, and whether a live track has gone stale), or the end of the task. */
  datatype GoEvent =
    | Timer(paused: bool, hasTrack: bool)
    | DataCheck(paused: bool, sinceStart: int, hasTrack: bool, stale: bool)
    | TaskDone(reason: Reason)

  /** What Publisher.Go returns on an event, if it returns. */
  function GoExit(state: PubState, conf: PublishConf, e: GoEvent): Option<Reason> {
    match e
    case Timer(paused, hasTrack) =>
      if paused then None
      else if state == Init && !hasTrack then Some(PublishTimeout)
      else if state == WaitSubscriber && conf.delayCloseTimeout > 0 then Some(DelayCloseTimeout)
      else None
    case DataCheck(paused, sinceStart, hasTrack, stale) =>
      if paused then None
      else if state == Init && conf.idleTimeout > 0 && sinceStart > conf.idleTimeout then Some(IdleTimeout)
      else if stale then Some(PublishTimeout)
      else if state == Subscribed && conf.publishTimeout > 0 && sinceStart > conf.publishTimeout && !hasTrack then
        Some(PublishTimeout)
      else None
    case TaskDone(reason) => Some(reason)
  }

  /** A paused publisher never ends by itself, nor does a watched one whose tracks deliver. */
  lemma KeptInUse(state: PubState, conf: PublishConf, e: GoEvent)
    requires !e.TaskDone?
    requires e.paused || (state == Subscribed && e.hasTrack && !(e.DataCheck? && e.stale))
    ensures GoExit(state, conf, e) == None
  {
  }

  /** One that is not paused ends for want of data exactly if it has no track when the timer of a new one
      fires, or a track has gone stale, or it is watched without a track beyond its publish timeout; it
      ends as idle exactly if it is new beyond its idle timeout, and for want of subscribers exactly if its
      timer fires while it waits for them and delayed closing is configured. */
  lemma EndsByItself(state: PubState, conf: PublishConf, e: GoEvent)
    requires !e.TaskDone? && !e.paused
    ensures GoExit(state, conf, e) == Some(DelayCloseTimeout) <==>
      e.Timer? && state == WaitSubscriber && conf.delayCloseTimeout > 0
    ensures GoExit(state, conf, e) == Some(IdleTimeout) <==>
      e.DataCheck? && state == Init && 0 < conf.idleTimeout < e.sinceStart
    ensures GoExit(state, conf, e) == Some(PublishTimeout) <==>
      || (e.Timer? && state == Init && !e.hasTrack)
      || (e.DataCheck? && e.stale && !(state == Init && 0 < conf.idleTimeout < e.sinceStart))
      || (e.DataCheck? && state == Subscribed && 0 < conf.publishTimeout < e.sinceStart && !e.hasTrack)
  {
  }

  /** The delay-close exit concerns no server-type subscriber, and no vod one unless a transfer has run. */
  lemma DelayCloseOnlyUnwatched(p: Pub, conf: PublishConf, e: GoEvent)
    requires PubInv(p) && !p.gone && !e.TaskDone?
    requires GoExit(p.state, conf, e) == Some(DelayCloseTimeout)
    ensures forall s | s in p.subs :: s.kind != Server && (!p.transferred ==> s.kind != Vod)
  {
    forall s | s in p.subs ensures s.kind != Server && (!p.transferred ==> s.kind != Vod) {
      assert s in OfKind(p.subs, s.kind);
    }
  }

  /** Somebody is watching, and the publisher is waiting for subscribers nevertheless. */
  ghost predicate WatchedWait(p: Pub) {
    p.state == WaitSubscriber && OfKind(p.subs, Server) + OfKind(p.subs, Vod) != {}
  }

  /** Go can end a publisher for want of subscribers while somebody is watching exactly in that state, if
      delayed closing is configured at all. */
  lemma WatchedCloseExactly(p: Pub, conf: PublishConf)
    requires PubInv(p) && !p.gone
    ensures
      && (exists e: GoEvent :: !e.TaskDone? && GoExit(p.state, conf, e) == Some(DelayCloseTimeout))
      && (exists s | s in p.subs :: s.kind == Server || s.kind == Vod)
      <==> conf.delayCloseTimeout > 0 && WatchedWait(p)
  {
    if exists s | s in p.subs :: s.kind == Server || s.kind == Vod {
      var s :| s in p.subs && (s.kind == Server || s.kind == Vod);
      assert s in OfKind(p.subs, s.kind);
    }
    if conf.delayCloseTimeout > 0 && WatchedWait(p) {
      var s :| s in OfKind(p.subs, Server) + OfKind(p.subs, Vod);
      assert s in p.subs && (s.kind == Server || s.kind == Vod);
      assert GoExit(p.state, conf, Timer(false, true)) == Some(DelayCloseTimeout);
    }
  }

  /** Adding a newcomer ends that state. */
  lemma AddWatchedWait(p: Pub, s: Subscriber)
    ensures WatchedWait(AddTo(p, s)) <==> WatchedWait(p) && s in p.subs
  {
  }

  /** A removal never begins it, and ends it with the last vod subscriber. */
  lemma RemoveWatchedWait(p: Pub, s: Subscriber, defaultBuffer: int)
    requires PubInv(p) && !p.gone && s in p.subs
    ensures WatchedWait(RemoveFrom(p, s, defaultBuffer)) <==> WatchedWait(p) && OfKind(p.subs, Vod) != {s}
  {
    hide Recomputed, Uncount, CountsOf;
    var q := RemoveFrom(p, s, defaultBuffer);
    RemoveKeepsCounters(p, s, defaultBuffer);
    assert OfKind(q.subs, Server) == OfKind(p.subs, Server) - {s};
    assert OfKind(q.subs, Vod) == OfKind(p.subs, Vod) - {s};
  }

  /** A transfer leaves it behind exactly when a vod subscriber is attached. */
  lemma TransferWatchedWait(p: Pub, defaultBuffer: int)
    requires PubInv(p) && !p.gone
    ensures WatchedWait(TransferOut(p, defaultBuffer)) <==> OfKind(p.subs, Vod) != {}
  {
    var q := TransferOut(p, defaultBuffer);
    assert OfKind(q.subs, Server) == {};
    assert OfKind(q.subs, Vod) == OfKind(p.subs, Vod);
    if s :| s in OfKind(p.subs, Vod) {
      assert s in p.subs;
    }
  }
}
