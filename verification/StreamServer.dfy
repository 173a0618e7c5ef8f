/** The server that owns the publishers and the collections around them, with the source's loops. Every
    method is proved against the value of the server, a StreamHub.Hub. */
module StreamServer {
  import opened HubLaws
  import opened HubRuns
  import opened PublisherState
  import opened StreamHub
  import opened Wrappers

  class Server {
    const defaultBuffer: nat
    /** Every publisher that ever started, under its id. */
    var publishers: map<nat, Publisher>
    var streams: map<string, nat>
    var seats: Seats
    var waiting: Lists
    var aliases: map<string, Alias>

    /** Publishers are stored under their own id, so no two ids share an object. */
    ghost predicate Ids()
      reads this
    {
      forall id | id in publishers :: publishers[id].id == id
    }

    ghost function State(): (h: Hub)
      reads this, publishers.Values
      ensures h.streams == streams && h.seats == seats && h.waiting == waiting && h.aliases == aliases
      ensures h.pubs.Keys == publishers.Keys
      ensures forall id | id in publishers :: h.pubs[id] == publishers[id].View()
    {
      Hub(map id | id in publishers :: publishers[id].View(), streams, seats, waiting, aliases)
    }

    constructor (defaultBuffer: nat)
      ensures Ids() && Inv(State()) && State() == NewHub() && publishers == map[]
      ensures this.defaultBuffer == defaultBuffer
    {
      this.defaultBuffer := defaultBuffer;
      publishers, streams, seats, waiting, aliases := map[], map[], map[], map[], map[];
    }

    // ----- single steps -----

    /** Publisher.AddSubscriber. */
    method AddSubscriber(p: nat, s: Subscriber)
      requires Ids() && p in publishers && s in seats
      modifies this`seats, publishers[p]
      ensures Ids() && State() == Give(old(State()), s, p)
    {
      hide AddTo, Publisher.View;
      var after := publishers[p].AddSubscriber(s, seats[s]);
      seats := seats[s := after];
      forall id | id in publishers && id != p ensures publishers[id].View() == old(publishers[id].View()) {
        assert publishers[id] != publishers[p];
      }
      assert State().pubs == Give(old(State()), s, p).pubs;
    }

    /** Publisher.RemoveSubscriber. */
    method RemoveSubscriber(p: nat, s: Subscriber)
      requires Ids() && p in publishers
      modifies publishers[p]
      ensures Ids()
      ensures State() == old(State()).(
        pubs := old(State()).pubs[p := RemoveFrom(old(State()).pubs[p], s, defaultBuffer)])
    {
      hide RemoveFrom, Publisher.View;
      publishers[p].RemoveSubscriber(s, defaultBuffer);
      forall id | id in publishers && id != p ensures publishers[id].View() == old(publishers[id].View()) {
        assert publishers[id] != publishers[p];
      }
      assert State().pubs == old(State()).pubs[p := RemoveFrom(old(State()).pubs[p], s, defaultBuffer)];
    }

    method SetAlias(name: string, alias: Alias)
      modifies this`aliases
      ensures State() == old(State()).(aliases := old(aliases)[name := alias])
    {
      aliases := aliases[name := alias];
      assert State().pubs == old(State()).pubs;
    }

    /** A subscriber's own fields as they are when it is created, and their end. */
    method Create(s: Subscriber)
      modifies this`seats
      ensures State() == Admit(old(State()), s)
    {
      seats := seats[s := Seat(None, false, 0)];
      assert State().pubs == old(State()).pubs;
    }

    method Discard(s: Subscriber)
      modifies this`seats
      ensures State() == old(State()).(seats := old(State()).seats - {s})
    {
      seats := seats - {s};
      assert State().pubs == old(State()).pubs;
    }

    /** WaitManager.Wait. */
    method Wait(s: Subscriber)
      requires Ids() && s in seats
      modifies this`seats, this`waiting
      ensures Ids() && State() == Enqueue(old(State()), s)
    {
      seats := seats[s := seats[s].(waiting := true)];
      if s.path in waiting {
        waiting := waiting[s.path := waiting[s.path] + {s}];
      } else {
        assert {} + {s} == {s};
        waiting := waiting[s.path := {s}];
      }
      assert State().pubs == old(State()).pubs;
    }

    /** AddSubscriber as one of several moves since the state `h0`. */
    method GiveNext(ghost h0: Hub, ghost moves: Moves, s: Subscriber, p: nat)
      requires Ids() && p in publishers && s in seats && s !in moves
      requires seats.Keys == h0.seats.Keys && Moved(h0, State(), moves)
      modifies this`seats, publishers[p]
      ensures Ids() && seats.Keys == h0.seats.Keys && Moved(h0, State(), moves[s := Some(p)])
    {
      hide AddTo, Joined, Reseat;
      MovedGive(h0, State(), moves, s, p);
      AddSubscriber(p, s);
    }

    /** Wait as one of several moves since the state `h0`. */
    method WaitNext(ghost h0: Hub, ghost moves: Moves, s: Subscriber)
      requires Ids() && s in seats && s !in moves
      requires seats.Keys == h0.seats.Keys && Moved(h0, State(), moves)
      modifies this`seats, this`waiting
      ensures Ids() && seats.Keys == h0.seats.Keys && Moved(h0, State(), moves[s := None])
    {
      hide Joined, Reseat;
      MovedEnqueue(h0, State(), moves, s);
      Wait(s);
    }

    /** WaitManager.Leave. */
    method Leave(s: Subscriber)
      modifies this`waiting
      ensures State() == old(State()).(waiting :=
        if s.path in old(waiting) then old(waiting)[s.path := old(waiting)[s.path] - {s}] else old(waiting))
    {
      if s.path in waiting {
        waiting := waiting[s.path := waiting[s.path] - {s}];
      }
      assert State().pubs == old(State()).pubs;
    }

    // ----- waking up and transferring -----

    /** The loop of WakeUp. */
    method GiveAll(movers: set<Subscriber>, p: nat)
      requires Ids() && p in publishers && movers <= seats.Keys
      modifies this`seats, publishers[p]
      ensures Ids() && publishers == old(publishers)
      ensures Moved(old(State()), State(), AllTo(movers, p))
    {
      hide Moved, AllTo, Publisher.View;
      ghost var h0 := State();
      var todo := movers;
      MovedNone(h0);
      AllToMore({}, Subscriber(0, "", Server, 0), p);
      assert movers - todo == {};
      while todo != {}
        invariant todo <= movers && Ids() && seats.Keys == h0.seats.Keys
        invariant Moved(h0, State(), AllTo(movers - todo, p))
        decreases todo
      {
        var s :| s in todo;
        AllToMore(movers - todo, s, p);
        assert movers - todo + {s} == movers - (todo - {s});
        GiveNext(h0, AllTo(movers - todo, p), s, p);
        todo := todo - {s};
      }
      assert movers - todo == movers;
    }

    /** WaitManager.WakeUp. */
    method WakeUp(path: string, p: nat)
      requires Ids() && Inv(State()) && p in publishers
      modifies this`seats, this`waiting, publishers[p]
      ensures Ids() && Inv(State()) && publishers == old(publishers)
      ensures Woken(old(State()), State(), path, p)
    {
      hide Inv, Moved, Woken, AllTo, Publisher.View;
      ghost var h0 := State();
      SeatsKnown(h0);
      if path in waiting {
        GiveAll(waiting[path], p);
        ghost var h1 := State();
        waiting := waiting[path := {}];
        assert State().pubs == h1.pubs;
        assert State().(waiting := h0.waiting) == h1;
      }
      WokenByMoves(h0, State(), path, p);
      WokenKeeps(h0, State(), path, p);
    }

    /** The loop of TransferSubscribers. */
    method GiveServers(from: nat, to: nat) returns (remain: set<Subscriber>)
      requires Ids() && from in publishers && to in publishers && from != to && publishers[from].subs <= seats.Keys
      modifies this`seats, publishers[to]
      ensures Ids() && unchanged(publishers[from])
      ensures Moved(old(State()), State(), AllTo(OfKind(publishers[from].subs, Server), to))
      ensures remain == publishers[from].subs - OfKind(publishers[from].subs, Server)
    {
      hide Moved, AllTo, Publisher.View;
      ghost var h0 := State();
      assert publishers[from] != publishers[to];
      var all := publishers[from].subs;
      var todo := all;
      remain := {};
      MovedNone(h0);
      AllToMore({}, Subscriber(0, "", Server, 0), to);
      assert OfKind(all - todo, Server) == {};
      while todo != {}
        invariant todo <= all && Ids() && seats.Keys == h0.seats.Keys
        invariant remain == (all - todo) - OfKind(all, Server)
        invariant Moved(h0, State(), AllTo(OfKind(all - todo, Server), to))
        decreases todo
      {
        var s :| s in todo;
        ghost var moved := OfKind(all - todo, Server);
        assert OfKind(all - (todo - {s}), Server) == if s.kind == Server then moved + {s} else moved;
        if s.kind != Server {
          remain := remain + {s};
        } else {
          AllToMore(moved, s, to);
          GiveNext(h0, AllTo(moved, to), s, to);
        }
        todo := todo - {s};
      }
      assert all - todo == all;
    }

    /** The end of TransferSubscribers. */
    method KeepOnly(p: nat, remain: set<Subscriber>)
      requires Ids() && p in publishers && remain == publishers[p].subs - OfKind(publishers[p].subs, Server)
      modifies publishers[p]
      ensures Ids()
      ensures State() == old(State()).(
        pubs := old(State()).pubs[p := TransferOut(old(State()).pubs[p], defaultBuffer)])
    {
      hide TransferOut, OfKind, Publisher.View;
      publishers[p].KeepOnly(remain, defaultBuffer);
      forall id | id in publishers && id != p ensures publishers[id].View() == old(publishers[id].View()) {
        assert publishers[id] != publishers[p];
      }
      assert State().pubs == old(State()).pubs[p := TransferOut(old(State()).pubs[p], defaultBuffer)];
    }

    /** Publisher.TransferSubscribers. */
    method TransferSubscribers(from: nat, to: nat)
      requires Ids() && Inv(State()) && from in publishers && to in publishers && from != to
      modifies this`seats, publishers[from], publishers[to]
      ensures Ids() && Inv(State()) && publishers == old(publishers)
      ensures Transferred(old(State()), State(), from, to, defaultBuffer)
    {
      hide Inv, Moved, Transferred, AllTo, TransferOut, Publisher.View, OfKind;
      ghost var h0 := State();
      SeatsKnown(h0);
      var remain := GiveServers(from, to);
      ghost var h1 := State();
      assert h1.pubs[from].subs == h0.pubs[from].subs;
      KeepOnly(from, remain);
      TransferredByMoves(h0, h1, State(), from, to, defaultBuffer);
      TransferredKeeps(h0, State(), from, to, defaultBuffer);
    }

    // ----- subscribers come and go -----

    /** The subscriber's processAliasOnStart. */
    method ProcessAliasOnStart(s: Subscriber, rewrite: Option<string>) returns (done: bool)
      requires Ids() && Registered(State()) && s in seats
      modifies this`aliases, this`seats, publishers.Values
      ensures Ids() && publishers == old(publishers) && seats.Keys == old(seats).Keys
      ensures done == Rerouted(old(State()), s.path, rewrite)
      ensures var g := AliasAdded(old(State()), s.path, rewrite);
        State() == if done then Give(g, s, Home(old(State()), s.path, rewrite).value) else g
    {
      hide AddTo, Publisher.View;
      done := false;
      if s.path in aliases {
        if aliases[s.path].publisher.Some? {
          AddSubscriber(aliases[s.path].publisher.value, s);
          done := true;
        }
      } else if rewrite.Some? {
        SetAlias(s.path, Alias(rewrite.value, None, false));
        if rewrite.value in streams {
          AddSubscriber(streams[rewrite.value], s);
          done := true;
        }
      }
    }

    /** The end of Subscriber.Start, for a subscriber that no alias sent anywhere. */
    method Settle(s: Subscriber, maxCount: int) returns (ok: bool)
      requires Ids() && s in seats && (s.path in streams ==> streams[s.path] in publishers)
      modifies this`seats, this`waiting, publishers.Values
      ensures Ids() && publishers == old(publishers)
      ensures ok == !(s.path in streams && 0 < maxCount <= |old(State()).pubs[streams[s.path]].subs|)
      ensures State() ==
        if !ok then old(State()).(seats := old(seats) - {s})
        else if s.path in streams then Give(old(State()), s, streams[s.path]) else Enqueue(old(State()), s)
    {
      hide Give, Enqueue, Publisher.View;
      ok := true;
      if s.path in streams {
        var publisher := streams[s.path];
        if maxCount > 0 && |publishers[publisher].subs| >= maxCount {
          Discard(s);
          return false;
        }
        AddSubscriber(publisher, s);
      } else {
        Wait(s);
      }
    }

    /** Subscriber.Start: it is refused only by a full stream of its own path. */
    method SubscriberStart(s: Subscriber, rewrite: Option<string>, maxCount: int) returns (ok: bool)
      requires Ids() && Inv(State()) && s !in seats
      requires rewrite.Some? ==> rewrite.value != s.path
      modifies this`aliases, this`seats, this`waiting, publishers.Values
      ensures Ids() && Inv(State()) && publishers == old(publishers)
      ensures ok == !Refused(old(State()), s.path, rewrite, maxCount)
      ensures var g := AliasAdded(old(State()), s.path, rewrite);
        State() == if ok then Arrived(g, s, Home(old(State()), s.path, rewrite)) else g
      ensures SubscribeLaw(old(State()), s, rewrite, maxCount, State())
    {
      hide Inv, Registered, Give, Enqueue, AliasAdded, Admit, Publisher.View, SubscribeLaw;
      ghost var h0 := State();
      StartFacts(h0, s, rewrite);
      SameRoute(h0, s, rewrite);
      Create(s);
      ok := true;
      var done := ProcessAliasOnStart(s, rewrite);
      if !done {
        ok := Settle(s, maxCount);
      }
      StartObeys(h0, s, rewrite, maxCount, State());
    }

    /** Subscriber.Dispose. */
    method SubscriberDispose(s: Subscriber)
      requires Ids() && Inv(State()) && s in seats
      modifies this`seats, this`waiting, publishers.Values
      ensures Ids() && Inv(State()) && publishers == old(publishers)
      ensures State() == Depart(old(State()), s, defaultBuffer)
    {
      hide Inv, RemoveFrom, Publisher.View;
      DepartKeeps(State(), s, defaultBuffer);
      var seat := seats[s];
      Discard(s);
      if seat.waiting {
        Leave(s);
      } else if seat.publisher.Some? && seat.publisher.value in publishers
                && publishers[seat.publisher.value].state != Disposed {
        RemoveSubscriber(seat.publisher.value, s);
      }
    }

    // ----- publishers come and go -----

    /** One round of the publisher's processAliasOnStart, whose rounds so far have dealt with `names`. */
    method BindAlias(ghost h0: Hub, ghost names: set<string>, name: string, p: nat)
      requires Ids() && Inv(State()) && Inv(h0) && p in h0.pubs && Unnamed(h0, p)
      requires name in h0.aliases && name !in names && BoundAll(h0, State(), p, names, defaultBuffer)
      modifies this`aliases, this`seats, this`waiting, publishers.Values
      ensures Ids() && Inv(State()) && publishers == old(publishers)
      ensures BoundAll(h0, State(), p, names + {name}, defaultBuffer)
    {
      hide Inv, BoundAll, Woken, Transferred, Publisher.View;
      BindFacts(h0, State(), p, names, name, defaultBuffer);
      AliasTarget(h0, name);
      InvPartition(h0);
      ghost var h := State();
      var alias := aliases[name];
      if alias.target == publishers[p].path {
        if alias.publisher.None? {
          WakeUp(name, p);
          BindUnbound(h0, h, State(), p, names, name, defaultBuffer);
          SetAliasKeeps(State(), name, alias.(publisher := Some(p)));
          SetAlias(name, alias.(publisher := Some(p)));
          return;
        }
        var q := alias.publisher.value;
        if publishers[q].path != alias.target {
          TransferSubscribers(q, p);
          BindLent(h0, h, State(), p, names, name, q, defaultBuffer);
          SetAliasKeeps(State(), name, alias.(publisher := Some(p)));
          SetAlias(name, alias.(publisher := Some(p)));
          return;
        }
      }
      BindSkip(h0, h, p, names, name, defaultBuffer);
    }

    /** The publisher's processAliasOnStart. */
    method BindAliases(p: nat)
      requires Ids() && Inv(State()) && p in publishers && Unnamed(State(), p)
      modifies this`aliases, this`seats, this`waiting, publishers.Values
      ensures Ids() && Inv(State()) && publishers == old(publishers)
      ensures BoundAll(old(State()), State(), p, old(aliases).Keys, defaultBuffer)
    {
      hide Inv, BoundAll, Publisher.View;
      ghost var h0 := State();
      BoundNone(h0, p, defaultBuffer);
      var todo := aliases.Keys;
      assert h0.aliases.Keys - todo == {};
      while todo != {}
        invariant Ids() && Inv(State()) && publishers == old(publishers) && todo <= h0.aliases.Keys
        invariant BoundAll(h0, State(), p, h0.aliases.Keys - todo, defaultBuffer)
        decreases todo
      {
        var name :| name in todo;
        assert h0.aliases.Keys - todo + {name} == h0.aliases.Keys - (todo - {name});
        BindAlias(h0, h0.aliases.Keys - todo, name, p);
        todo := todo - {name};
      }
      assert h0.aliases.Keys - todo == h0.aliases.Keys;
    }

    /** A new publisher is registered under its path. */
    method Open(id: nat, path: string, bufferTime: int)
      requires Ids() && id !in publishers
      modifies this`publishers, this`streams
      ensures Ids() && State() == Opened(old(State()), id, path, bufferTime)
      ensures publishers.Keys == old(publishers).Keys + {id} && fresh(publishers.Values - old(publishers.Values))
    {
      hide Publisher.View;
      var p := new Publisher(id, path, bufferTime);
      publishers := publishers[id := p];
      streams := streams[path := id];
      assert State().pubs == Opened(old(State()), id, path, bufferTime).pubs;
    }

    /** Publisher.Start: refused only when the server has its maximum of streams. */
    method PublisherStart(id: nat, path: string, bufferTime: int, maxCount: int) returns (ok: bool)
      requires Ids() && Inv(State()) && id !in publishers && path !in streams
      modifies this`publishers, this`streams, this`aliases, this`seats, this`waiting, publishers.Values
      ensures Ids() && Inv(State())
      ensures ok == !(0 < maxCount <= |old(streams)|)
      ensures
        if ok then Published(old(State()), State(), id, path, bufferTime, defaultBuffer) else State() == old(State())
      ensures fresh(publishers.Values - old(publishers.Values))
    {
      hide Inv, Woken, BoundAll, Published, Opened, Unnamed, Publisher.View;
      ghost var h0 := State();
      ok := !(maxCount > 0 && |streams| >= maxCount);
      if !ok {
        return;
      }
      OpenedKeeps(h0, id, path, bufferTime);
      Open(id, path, bufferTime);
      WakeUp(path, id);
      ghost var h := State();
      StillUnnamed(h0, h, id, path, bufferTime);
      BindAliases(id);
      PublishedInSteps(h0, h, State(), id, path, bufferTime, defaultBuffer);
    }

    /** The first loop of processAliasOnDispose: aliases of `path` lose their publisher; `related` are
        their names, `doomed` those to be removed at the end. */
    method UnbindAliases(path: string) returns (related: set<string>, doomed: set<string>)
      modifies this`aliases
      ensures State() == old(State()).(aliases := Unbind(old(aliases), path))
      ensures related == Related(old(aliases), path, {})
      ensures doomed == AutoRemoved(old(aliases), path)
    {
      hide UnbindBut, Unbind, Related, AutoRemoved, Publisher.View;
      ghost var aliases0 := aliases;
      UnbindBounds(aliases0, path);
      related, doomed := {}, {};
      var todo := aliases.Keys;
      while todo != {}
        invariant todo <= aliases0.Keys
        invariant aliases == UnbindBut(aliases0, path, todo)
        invariant related == Related(aliases0, path, todo)
        invariant doomed == AutoRemoved(aliases0, path) - todo
        decreases todo
      {
        var name :| name in todo;
        UnbindOne(aliases0, path, todo, name);
        if aliases[name].target == path {
          if aliases[name].autoRemove {
            doomed := doomed + {name};
          }
          aliases := aliases[name := aliases[name].(publisher := None)];
          related := related + {name};
        }
        todo := todo - {name};
      }
      assert State().pubs == old(State()).pubs;
    }

    /** One round of the second loop of processAliasOnDispose, when those in `todo` are left. */
    method EvictOne(ghost h0: Hub, p: nat, related: set<string>, ghost todo: set<Subscriber>, s: Subscriber)
      requires Ids() && Registered(h0) && p in h0.pubs && s in todo && s in h0.pubs[p].subs && s in seats
      requires related == Related(h0.aliases, h0.pubs[p].path, {})
      requires seats.Keys == h0.seats.Keys && publishers.Keys == h0.pubs.Keys && streams == h0.streams
      requires Moved(h0, State(), Done(Evicted(h0, p), todo))
      modifies this`seats, this`waiting, publishers.Values
      ensures Ids() && publishers == old(publishers) && seats.Keys == h0.seats.Keys
      ensures Moved(h0, State(), Done(Evicted(h0, p), todo - {s}))
    {
      hide Moved, Done, Publisher.View, Evicted, Enqueue, Give, Registered, Related;
      EvictedRoute(h0, p, s);
      DoneMore(Evicted(h0, p), todo, s);
      if s.path in related && s.path in streams {
        GiveNext(h0, Done(Evicted(h0, p), todo), s, streams[s.path]);
      } else {
        WaitNext(h0, Done(Evicted(h0, p), todo), s);
      }
    }

    /** The second loop of processAliasOnDispose: every subscriber of `p` moves elsewhere. */
    method Evict(p: nat, related: set<string>)
      requires Ids() && Registered(State()) && p in publishers && publishers[p].subs <= seats.Keys
      requires related == Related(aliases, publishers[p].path, {})
      modifies this`seats, this`waiting, publishers.Values
      ensures Ids() && publishers == old(publishers)
      ensures Moved(old(State()), State(), Evicted(old(State()), p))
    {
      hide Moved, Done, Publisher.View, Evicted, Related, Registered;
      ghost var h0 := State();
      EvictedMeans(h0, p);
      DoneBounds(Evicted(h0, p));
      var todo := publishers[p].subs;
      MovedNone(h0);
      while todo != {}
        invariant Ids() && publishers == old(publishers) && todo <= h0.pubs[p].subs
        invariant streams == h0.streams && seats.Keys == h0.seats.Keys
        invariant Moved(h0, State(), Done(Evicted(h0, p), todo))
        decreases todo
      {
        var s :| s in todo;
        EvictOne(h0, p, related, todo, s);
        todo := todo - {s};
      }
    }

    /** What is left to do once nobody needs the publisher any more. */
    method CloseStream(p: nat, doomed: set<string>)
      requires Ids() && p in publishers
      modifies this`streams, this`aliases, publishers[p]
      ensures Ids()
      ensures State() == old(State()).(
        pubs := old(State()).pubs[p := DisposeOf(old(State()).pubs[p])],
        streams := old(streams) - {publishers[p].path}, aliases := old(aliases) - doomed)
    {
      hide Publisher.View;
      publishers[p].Close();
      streams := streams - {publishers[p].path};
      aliases := aliases - doomed;
      forall id | id in publishers && id != p ensures publishers[id].View() == old(publishers[id].View()) {
        assert publishers[id] != publishers[p];
      }
      assert State().pubs == old(State()).pubs[p := DisposeOf(old(State()).pubs[p])];
    }

    /** Publisher.Dispose with its processAliasOnDispose. */
    method PublisherDispose(p: nat)
      requires Ids() && Inv(State()) && p in publishers
      requires publishers[p].path in streams && streams[publishers[p].path] == p
      modifies this`streams, this`aliases, this`seats, this`waiting, publishers.Values
      ensures Ids() && Inv(State()) && publishers == old(publishers)
      ensures Unpublished(old(State()), State(), p)
    {
      hide Inv, Moved, Evicted, Unpublished, Unbind, AutoRemoved, Related, Publisher.View;
      ghost var h0 := State();
      InvPartition(h0);
      SeatsKnown(h0);
      var path := publishers[p].path;
      var related, doomed := UnbindAliases(path);
      UnbindFacts(h0, path);
      RelatedSame(h0.aliases, path);
      EvictedSame(h0, p);
      Evict(p, related);
      ghost var h := State();
      CloseStream(p, doomed);
      UnpublishedByMoves(h0, h, State(), p);
      UnpublishedKeeps(h0, State(), p);
    }

    // ----- the alias table as administrators edit it -----

    method NameAlias(name: string, alias: Alias)
      requires Ids() && Inv(State()) && name != alias.target
      requires alias.publisher.Some? ==> alias.publisher.value in publishers
      modifies this`aliases
      ensures Ids() && Inv(State()) && State() == old(State()).(aliases := old(aliases)[name := alias])
    {
      SetAliasKeeps(State(), name, alias);
      SetAlias(name, alias);
    }

    method DropAlias(name: string)
      requires Ids() && Inv(State())
      modifies this`aliases
      ensures Ids() && Inv(State()) && State() == old(State()).(aliases := old(aliases) - {name})
    {
      hide Inv, Publisher.View;
      DropAliasKeeps(State(), name);
      aliases := aliases - {name};
      assert State().pubs == old(State()).pubs;
    }
  }

  // ----- whole runs -----

  /** One event, handed to the method that serves it. */
  method Dispatch(server: Server, e: Event)
    requires server.Ids() && Inv(server.State())
    modifies server, server.publishers.Values
    ensures server.Ids() && Inv(server.State())
    ensures HubNext(old(server.State()), e, server.State(), server.defaultBuffer)
    ensures fresh(server.publishers.Values - old(server.publishers.Values))
  {
    hide Inv, Publisher.View, Published, Unpublished, Transferred, Woken, Arrived, AliasAdded, Refused, Home, Depart;
    match e
    case Subscribe(s, rewrite, maxCount) =>
      if s !in server.seats && rewrite != Some(s.path) {
        var _ := server.SubscriberStart(s, rewrite, maxCount);
      }
    case Unsubscribe(s) =>
      if s in server.seats {
        server.SubscriberDispose(s);
      }
    case Publish(id, path, bufferTime, maxCount) =>
      if id !in server.publishers && path !in server.streams {
        var _ := server.PublisherStart(id, path, bufferTime, maxCount);
      }
    case Unpublish(path) =>
      InvPartition(server.State());
      if path in server.streams {
        server.PublisherDispose(server.streams[path]);
      }
    case TransferAll(from, to) =>
      if from in server.publishers && to in server.publishers && from != to {
        server.TransferSubscribers(from, to);
      }
    case WriteAlias(name, alias) =>
      if name != alias.target && (alias.publisher.Some? ==> alias.publisher.value in server.publishers) {
        server.NameAlias(name, alias);
      }
    case EraseAlias(name) => server.DropAlias(name);
    case Wake(path, id) =>
      if id in server.publishers {
        server.WakeUp(path, id);
      }
  }

  /** One event: its effect, and what that means. */
  method Handle(server: Server, e: Event)
    requires server.Ids() && Inv(server.State())
    modifies server, server.publishers.Values
    ensures server.Ids() && Inv(server.State())
    ensures HubNext(old(server.State()), e, server.State(), server.defaultBuffer)
    ensures Law(old(server.State()), e, server.State())
    ensures fresh(server.publishers.Values - old(server.publishers.Values))
  {
    hide Inv, Publisher.View, HubNext, Law;
    ghost var h := server.State();
    Dispatch(server, e);
    LawHolds(h, e, server.State(), server.defaultBuffer);
  }

  /** A run from an empty server; `trace` are its values before, between and after the events. Each event
      obeys its law, and the invariant holds throughout. */
  method Run(events: seq<Event>, defaultBuffer: nat) returns (server: Server, ghost trace: seq<Hub>)
    ensures server.Ids() && IsRun(trace, events, defaultBuffer)
    ensures trace[|events|] == server.State()
    ensures forall i | 0 <= i < |trace| :: Inv(trace[i])
    ensures forall i | 0 <= i < |events| :: Law(trace[i], events[i], trace[i + 1])
  {
    hide Inv, Publisher.View, HubNext, Law;
    server := new Server(defaultBuffer);
    trace := [server.State()];
    for i := 0 to |events|
      invariant fresh(server) && fresh(server.publishers.Values) && server.defaultBuffer == defaultBuffer
      invariant server.Ids() && Inv(server.State()) && IsRun(trace, events[..i], defaultBuffer)
      invariant trace[i] == server.State()
    {
      Handle(server, events[i]);
      trace := trace + [server.State()];
    }
    assert events[..|events|] == events;
    forall i | 0 <= i < |trace| ensures Inv(trace[i]) {
      RunInv(trace, events, defaultBuffer, i);
    }
    forall i | 0 <= i < |events| ensures Law(trace[i], events[i], trace[i + 1]) {
      LawOverRuns(trace, events, defaultBuffer, i);
    }
  }

  /** Three events after which an alias sends its new subscribers to a publisher that is gone: stream "a"
      starts, alias "a" of "b" is created and takes it as a stand-in, and the stream ends. */
  method StandInEnds() returns (server: Server)
    ensures server.Ids() && Inv(server.State())
    ensures "a" in server.aliases && !NamesLive(server.State(), "a")
    ensures forall rewrite :: Home(server.State(), "a", rewrite) == Some(0)
  {
    hide Inv, Publisher.View;
    server := new Server(0);
    var ok := server.PublisherStart(0, "a", 0, 0);
    server.NameAlias("a", Alias("b", Some(0), false));
    InvPartition(server.State());
    server.PublisherDispose(0);
  }
}
