/** Whole runs of the server, as values: what each event does, and what holds after every run. */
module HubRuns {
  import opened PublisherState
  import opened StreamHub
  import opened Wrappers

  datatype Event =
    | Subscribe(s: Subscriber, rewrite: Option<string>, maxCount: int)
    | Unsubscribe(s: Subscriber)
    | Publish(id: nat, path: string, bufferTime: int, maxCount: int)
    | Unpublish(path: string)
    | TransferAll(from: nat, to: nat)
    | WriteAlias(name: string, alias: Alias)
    | EraseAlias(name: string)
    | Wake(path: string, id: nat)

  function NewHub(): Hub {
    Hub(map[], map[], map[], map[], map[])
  }

  /** The subject of the event fits the state; an event that does not fit does not happen. */
  predicate Happens(h: Hub, e: Event) {
    match e
    case Subscribe(s, rewrite, _) => s !in h.seats && rewrite != Some(s.path)
    case Unsubscribe(s) => s in h.seats
    case Publish(id, path, _, _) => id !in h.pubs && path !in h.streams
    case Unpublish(path) => path in h.streams && h.streams[path] in h.pubs
    case TransferAll(from, to) => from in h.pubs && to in h.pubs && from != to
    case WriteAlias(name, alias) =>
      name != alias.target && (alias.publisher.Some? ==> alias.publisher.value in h.pubs)
    case EraseAlias(_) => true
    case Wake(_, id) => id in h.pubs
  }

  /** What an event that happens does to the server. */
  ghost predicate Effect(h: Hub, e: Event, g: Hub, defaultBuffer: int)
    requires Happens(h, e)
  {
    match e
    case Subscribe(s, rewrite, maxCount) =>
      var aliased := AliasAdded(h, s.path, rewrite);
      g == if Refused(h, s.path, rewrite, maxCount) then aliased else Arrived(aliased, s, Home(h, s.path, rewrite))
    case Unsubscribe(s) => g == Depart(h, s, defaultBuffer)
    case Publish(id, path, bufferTime, maxCount) =>
      if 0 < maxCount <= |h.streams| then g == h else Published(h, g, id, path, bufferTime, defaultBuffer)
    case Unpublish(path) => Unpublished(h, g, h.streams[path])
    case TransferAll(from, to) => Transferred(h, g, from, to, defaultBuffer)
    case WriteAlias(name, alias) => g == h.(aliases := h.aliases[name := alias])
    case EraseAlias(name) => g == h.(aliases := h.aliases - {name})
    case Wake(path, id) => Woken(h, g, path, id)
  }

  ghost predicate HubNext(h: Hub, e: Event, g: Hub, defaultBuffer: int) {
    if Happens(h, e) then Effect(h, e, g, defaultBuffer) else g == h
  }

  /** A run from the empty server. */
  ghost predicate IsRun(hs: seq<Hub>, es: seq<Event>, defaultBuffer: int) {
    && |hs| == |es| + 1 && hs[0] == NewHub() && defaultBuffer >= 0
    && forall i | 0 <= i < |es| :: HubNext(hs[i], es[i], hs[i + 1], defaultBuffer)
  }

  lemma HubNextKeeps(h: Hub, e: Event, g: Hub, defaultBuffer: int)
    requires Inv(h) && HubNext(h, e, g, defaultBuffer) && defaultBuffer >= 0
    ensures Inv(g)
  {
    hide Inv, Unpublished, Published, Transferred, Woken, Arrived, AliasAdded, Refused, Home;
    if Happens(h, e) {
      match e {
        case Subscribe(s, rewrite, _) => StartFacts(h, s, rewrite);
        case Unsubscribe(s) => DepartKeeps(h, s, defaultBuffer);
        case Publish(id, path, bufferTime, maxCount) =>
          if !(0 < maxCount <= |h.streams|) {
            PublishedKeeps(h, g, id, path, bufferTime, defaultBuffer);
          }
        case Unpublish(path) =>
          InvPartition(h);
          UnpublishedKeeps(h, g, h.streams[path]);
        case TransferAll(from, to) => TransferredKeeps(h, g, from, to, defaultBuffer);
        case WriteAlias(name, alias) => SetAliasKeeps(h, name, alias);
        case EraseAlias(name) => DropAliasKeeps(h, name);
        case Wake(path, id) => WokenKeeps(h, g, path, id);
      }
    }
  }

  /** Over every run the live subscribers are partitioned, and counters, buffer counts and buffer times of
      the live publishers are right. */
  lemma {:induction false} RunInv(hs: seq<Hub>, es: seq<Event>, defaultBuffer: int, n: nat)
    requires IsRun(hs, es, defaultBuffer) && n < |hs|
    ensures Inv(hs[n])
  {
    if n > 0 {
      hide Inv, HubNext;
      RunInv(hs, es, defaultBuffer, n - 1);
      HubNextKeeps(hs[n - 1], es[n - 1], hs[n], defaultBuffer);
    }
  }

  /** In every state of every run a live subscriber is in exactly one waiting list or publisher. */
  lemma OnePlaceOverRuns(hs: seq<Hub>, es: seq<Event>, defaultBuffer: int, n: nat, s: Subscriber)
    requires IsRun(hs, es, defaultBuffer) && n < |hs| && s in hs[n].seats
    ensures var h := hs[n];
      |set path | path in h.waiting && s in h.waiting[path]| + |set p | p in h.pubs && s in h.pubs[p].subs| == 1
  {
    RunInv(hs, es, defaultBuffer, n);
    hide Inv, IsRun;
    ExactlyOnePlace(hs[n], s);
  }

  predicate Kept(before: Seat, after: Seat) {
    before.publisher.Some? ==> after.publisher.Some?
  }

  lemma ReseatKeeps(seats: Seats, moves: Moves, s: Subscriber)
    requires s in seats
    ensures s in Reseat(seats, moves) && Kept(seats[s], Reseat(seats, moves)[s])
  {
  }

  lemma ArrivedKept(h: Hub, t: Subscriber, rewrite: Option<string>, home: Option<nat>, s: Subscriber)
    requires t !in h.seats && s in h.seats
    ensures var g := AliasAdded(h, t.path, rewrite);
      && s in g.seats && g.seats[s] == h.seats[s]
      && s in Arrived(g, t, home).seats && Arrived(g, t, home).seats[s] == h.seats[s]
  {
    hide AddTo;
  }

  lemma DepartKept(h: Hub, t: Subscriber, defaultBuffer: int)
    requires t in h.seats
    ensures Depart(h, t, defaultBuffer).seats == h.seats - {t}
  {
    hide RemoveFrom;
  }

  /** An event leaves a subscriber's last publisher alone or replaces it, and never takes it away. */
  lemma PublisherKept(h: Hub, e: Event, g: Hub, defaultBuffer: int, s: Subscriber)
    requires HubNext(h, e, g, defaultBuffer) && s in h.seats && s in g.seats
    ensures h.seats[s].publisher.Some? ==> g.seats[s].publisher.Some?
  {
    hide TransferOut, DisposeOf, Refused, Home, PubsGrown, ListsGrown, Joined, BoundAliases, Emptied, EmptiedAll,
      Called, StandIn, AllTo, Evicted, AliasesLeft, OfKind, Reseat, Arrived, AliasAdded, Depart;
    match e {
      case Subscribe(t, rewrite, _) =>
        if t !in h.seats {
          ArrivedKept(h, t, rewrite, Home(h, t.path, rewrite), s);
        }
      case Unsubscribe(t) =>
        if t in h.seats {
          DepartKept(h, t, defaultBuffer);
        }
      case _ =>
    }
    forall moves ensures s in Reseat(h.seats, moves) && Kept(h.seats[s], Reseat(h.seats, moves)[s]) {
      ReseatKeeps(h.seats, moves, s);
    }
  }

  /** So the channel of a subscriber is closed when it gets its first publisher, and at no other event of
      any run. */
  lemma ClosedWithFirstPublisher(hs: seq<Hub>, es: seq<Event>, defaultBuffer: int, n: nat, s: Subscriber)
    requires IsRun(hs, es, defaultBuffer) && n < |es| && s in hs[n].seats && s in hs[n + 1].seats
    ensures hs[n + 1].seats[s].closes - hs[n].seats[s].closes ==
      if hs[n].seats[s].publisher.None? && hs[n + 1].seats[s].publisher.Some? then 1 else 0
  {
    RunInv(hs, es, defaultBuffer, n);
    RunInv(hs, es, defaultBuffer, n + 1);
    hide HubNext, PubInv;
    PublisherKept(hs[n], es[n], hs[n + 1], defaultBuffer, s);
    assert Placed(hs[n], s) && Placed(hs[n + 1], s);
  }
}
