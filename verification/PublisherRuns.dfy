/** Whole runs of one live publisher: subscribers added and removed, and transfers to another one. */
module PublisherRuns {
  import opened Maximum
  import opened PublisherState
  import opened Wrappers

  datatype Event = Add(s: Subscriber) | Remove(s: Subscriber) | Transfer

  /** Only attached subscribers are removed. */
  predicate Enabled(p: Pub, e: Event) {
    e.Remove? ==> e.s in p.subs
  }

  ghost function Next(p: Pub, e: Event, defaultBuffer: int): Pub {
    match e
    case Add(s) => AddTo(p, s)
    case Remove(s) => RemoveFrom(p, s, defaultBuffer)
    case Transfer => TransferOut(p, defaultBuffer)
  }

  ghost predicate IsRun(ps: seq<Pub>, es: seq<Event>, defaultBuffer: int) {
    && |ps| == |es| + 1 && defaultBuffer >= 0 && (exists path, buffer :: ps[0] == NewPub(path, buffer))
    && forall i | 0 <= i < |es| :: Enabled(ps[i], es[i]) && ps[i + 1] == Next(ps[i], es[i], defaultBuffer)
  }

  lemma StepKeeps(p: Pub, e: Event, defaultBuffer: int)
    requires PubInv(p) && !p.gone && Enabled(p, e) && defaultBuffer >= 0
    ensures PubInv(Next(p, e, defaultBuffer)) && !Next(p, e, defaultBuffer).gone
  {
    hide PubInv;
    match e {
      case Add(s) => AddKeeps(p, s);
      case Remove(s) => RemoveKeeps(p, s, defaultBuffer);
      case Transfer => TransferOutKeeps(p, defaultBuffer);
    }
  }

  /** Over every run the server and vod counters are the attached subscribers of those types, the buffer
      counts are those attached or moved away, and waiting means no server-type subscriber. */
  lemma {:induction false} RunInv(ps: seq<Pub>, es: seq<Event>, defaultBuffer: int, n: nat)
    requires IsRun(ps, es, defaultBuffer) && n < |ps|
    ensures PubInv(ps[n]) && !ps[n].gone
  {
    hide PubInv;
    if n == 0 {
      var path, buffer :| ps[0] == NewPub(path, buffer);
      NewPubSound(path, buffer);
    } else {
      RunInv(ps, es, defaultBuffer, n - 1);
      assert ps[n] == Next(ps[n - 1], es[n - 1], defaultBuffer);
      StepKeeps(ps[n - 1], es[n - 1], defaultBuffer);
    }
  }

  // ----- waiting under a watcher -----

  /** A transfer ran with a vod subscriber attached. */
  ghost predicate Abandons(p: Pub, e: Event) {
    e.Transfer? && OfKind(p.subs, Vod) != {}
  }

  /** A newcomer arrives, or the last vod subscriber leaves. */
  ghost predicate Settles(p: Pub, e: Event) {
    (e.Add? && e.s !in p.subs) || (e.Remove? && OfKind(p.subs, Vod) == {e.s})
  }

  lemma WaitsForVod(p: Pub)
    requires PubInv(p) && !p.gone && WatchedWait(p)
    ensures OfKind(p.subs, Vod) != {}
  {
  }

  lemma WatchedWaitStep(p: Pub, e: Event, defaultBuffer: int)
    requires PubInv(p) && !p.gone && Enabled(p, e)
    ensures WatchedWait(Next(p, e, defaultBuffer)) <==> Abandons(p, e) || (WatchedWait(p) && !Settles(p, e))
  {
    hide PubInv, WatchedWait;
    match e {
      case Add(s) => AddWatchedWait(p, s);
      case Remove(s) => RemoveWatchedWait(p, s, defaultBuffer);
      case Transfer =>
        TransferWatchedWait(p, defaultBuffer);
        if WatchedWait(p) {
          WaitsForVod(p);
        }
    }
  }

  ghost predicate AbandonedSince(ps: seq<Pub>, es: seq<Event>, n: nat)
    requires n <= |es| <= |ps|
  {
    exists i | 0 <= i < n :: Abandons(ps[i], es[i]) && forall j | i < j < n :: !Settles(ps[j], es[j])
  }

  lemma AbandonedNext(ps: seq<Pub>, es: seq<Event>, n: nat)
    requires n < |es| <= |ps|
    ensures AbandonedSince(ps, es, n + 1) <==>
      Abandons(ps[n], es[n]) || (AbandonedSince(ps, es, n) && !Settles(ps[n], es[n]))
  {
    hide Abandons, Settles;
    if AbandonedSince(ps, es, n) && !Settles(ps[n], es[n]) {
      var i :| 0 <= i < n && Abandons(ps[i], es[i]) && forall j | i < j < n :: !Settles(ps[j], es[j]);
      assert forall j | i < j < n + 1 :: !Settles(ps[j], es[j]);
    }
    if AbandonedSince(ps, es, n + 1) && !Abandons(ps[n], es[n]) {
      var i :| 0 <= i < n + 1 && Abandons(ps[i], es[i]) && forall j | i < j < n + 1 :: !Settles(ps[j], es[j]);
      assert i < n && !Settles(ps[n], es[n]);
    }
  }

  lemma NothingAbandoned(ps: seq<Pub>, es: seq<Event>)
    requires |es| <= |ps|
    ensures !AbandonedSince(ps, es, 0)
  {
  }

  /** Over every run a publisher waits under somebody who watches it if and only if a transfer has run with
      a vod subscriber attached, and since then no newcomer has come and not all of those have left. */
  lemma {:induction false} WatchedWaitExactly(ps: seq<Pub>, es: seq<Event>, defaultBuffer: int, n: nat)
    requires IsRun(ps, es, defaultBuffer) && n <= |es|
    ensures WatchedWait(ps[n]) <==> AbandonedSince(ps, es, n)
  {
    hide PubInv, Abandons, Settles;
    if n == 0 {
      hide AbandonedSince;
      assert !AbandonedSince(ps, es, 0) by {
        NothingAbandoned(ps, es);
      }
    } else {
      hide AbandonedSince;
      WatchedWaitExactly(ps, es, defaultBuffer, n - 1);
      RunInv(ps, es, defaultBuffer, n - 1);
      WatchedWaitStep(ps[n - 1], es[n - 1], defaultBuffer);
      AbandonedNext(ps, es, n - 1);
    }
  }

  /** So delayed closing can end a publisher under somebody who watches it exactly then: never before a
      transfer has left a vod subscriber behind. */
  lemma WatchedCloseOverRuns(ps: seq<Pub>, es: seq<Event>, defaultBuffer: int, n: nat, conf: PublishConf)
    requires IsRun(ps, es, defaultBuffer) && n <= |es|
    ensures
      && (exists e: GoEvent :: !e.TaskDone? && GoExit(ps[n].state, conf, e) == Some(DelayCloseTimeout))
      && (exists s | s in ps[n].subs :: s.kind == Server || s.kind == Vod)
      <==> conf.delayCloseTimeout > 0 && AbandonedSince(ps, es, n)
  {
    RunInv(ps, es, defaultBuffer, n);
    WatchedWaitExactly(ps, es, defaultBuffer, n);
    hide PubInv, IsRun, AbandonedSince, GoExit, WatchedWait;
    WatchedCloseExactly(ps[n], conf);
  }

  /** Such a run: one vod subscriber comes, a transfer moves nobody, and the delayed close fires with the
      subscriber still attached. */
  lemma VodLeftBehind(path: string)
    ensures exists ps: seq<Pub>, es: seq<Event>, s: Subscriber ::
      && IsRun(ps, es, 0) && |es| == 2 && s.kind == Vod && s in ps[2].subs
      && GoExit(ps[2].state, PublishConf(10, 0, 5), Timer(false, true)) == Some(DelayCloseTimeout)
  {
    var s := Subscriber(1, path, Vod, 0);
    var p0 := NewPub(path, 0);
    var p1 := AddTo(p0, s);
    var p2 := TransferOut(p1, 0);
    var ps, es := [p0, p1, p2], [Add(s), Transfer];
    assert IsRun(ps, es, 0);
    assert s in ps[2].subs && ps[2].state == WaitSubscriber;
  }

  // ----- buffer counts -----

  lemma CountsWithoutMoved(p: Pub)
    requires CountsOf(p.counts, p.subs, p.moved)
    ensures CountsExact(p) <==> p.moved == map[]
  {
    var none: map<int, int> := map[];
    if p.moved.Keys != {} {
      HasElement(p.moved.Keys);
      var b :| b in p.moved.Keys;
      assert Count(p.counts, b) == |WithBuffer(p.subs, b)| + Count(p.moved, b);
      assert Count(p.counts, b) != |WithBuffer(p.subs, b)| + Count(none, b);
      assert !CountsOf(p.counts, p.subs, none);
    }
  }

  lemma MovedNobody(moved: map<int, int>, leaving: set<Subscriber>)
    ensures MovedAway(moved, leaving) == map[] <==> moved == map[] && leaving == {}
  {
    if s :| s in leaving {
      assert s.bufferTime in MovedAway(moved, leaving);
    }
    if b :| b in moved {
      assert b in MovedAway(moved, leaving);
    }
  }

  lemma {:induction false} NobodyMoved(ps: seq<Pub>, es: seq<Event>, defaultBuffer: int, n: nat)
    requires IsRun(ps, es, defaultBuffer) && n <= |es|
    ensures ps[n].moved == map[] <==>
      forall i | 0 <= i < n && es[i].Transfer? :: OfKind(ps[i].subs, Server) == {}
  {
    if n > 0 {
      NobodyMoved(ps, es, defaultBuffer, n - 1);
      var p, e := ps[n - 1], es[n - 1];
      assert ps[n] == Next(p, e, defaultBuffer);
      if e.Transfer? {
        MovedNobody(p.moved, OfKind(p.subs, Server));
      }
    }
  }

  /** Over every run the buffer counts are those of the attached subscribers alone if and only if no
      transfer has moved anybody away. */
  lemma {:induction false} CountsExactly(ps: seq<Pub>, es: seq<Event>, defaultBuffer: int, n: nat)
    requires IsRun(ps, es, defaultBuffer) && n <= |es|
    ensures CountsExact(ps[n]) <==>
      forall i | 0 <= i < n && es[i].Transfer? :: OfKind(ps[i].subs, Server) == {}
  {
    RunInv(ps, es, defaultBuffer, n);
    NobodyMoved(ps, es, defaultBuffer, n);
    CountsWithoutMoved(ps[n]);
  }
}
