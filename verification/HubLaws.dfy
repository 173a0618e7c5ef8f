/** What each event means for the subscribers and aliases of the server, told by where everybody is before
    and after it, and proved of every event of every run. */
module HubLaws {
  import opened HubRuns
  import opened Maximum
  import opened PublisherState
  import opened StreamHub
  import opened Wrappers

  predicate AttachedTo(h: Hub, s: Subscriber, p: nat) {
    p in h.pubs && s in h.pubs[p].subs && s in h.seats && h.seats[s].publisher == Some(p)
  }

  predicate WaitsAtHome(h: Hub, s: Subscriber) {
    s.path in h.waiting && s in h.waiting[s.path] && s in h.seats && h.seats[s].waiting
  }

  predicate StaysPut(h: Hub, g: Hub, s: Subscriber)
    requires s in h.seats
  {
    s in g.seats && g.seats[s] == h.seats[s]
  }

  /** The path's alias has a publisher, or a pattern rewrites a path without alias to a live stream. */
  predicate AliasDecides(h: Hub, path: string, rewrite: Option<string>) {
    || (path in h.aliases && h.aliases[path].publisher.Some?)
    || (path !in h.aliases && rewrite.Some? && rewrite.value in h.streams)
  }

  /** A new subscriber goes to the publisher of its bound alias, else (without alias) to the live stream its
      path is rewritten to, else to the live stream of its own path, else to the waiting list of its path.
      It is turned away only by a full stream of its own path, when no alias decides. A rewritten path
      without alias gets one. Nobody else is touched. */
  predicate SubscribeLaw(h: Hub, s: Subscriber, rewrite: Option<string>, maxCount: int, g: Hub) {
    if s in h.seats || rewrite == Some(s.path) then g == h
    else
      && (s !in g.seats <==>
            && !AliasDecides(h, s.path, rewrite) && s.path in h.streams && h.streams[s.path] in h.pubs
            && 0 < maxCount <= |h.pubs[h.streams[s.path]].subs|)
      && (s in g.seats ==>
            if s.path in h.aliases && h.aliases[s.path].publisher.Some? then
              AttachedTo(g, s, h.aliases[s.path].publisher.value)
            else if s.path !in h.aliases && rewrite.Some? && rewrite.value in h.streams then
              AttachedTo(g, s, h.streams[rewrite.value])
            else if s.path in h.streams then AttachedTo(g, s, h.streams[s.path])
            else WaitsAtHome(g, s))
      && (forall t | t in h.seats :: StaysPut(h, g, t))
      && g.seats.Keys <= h.seats.Keys + {s} && g.streams == h.streams && g.pubs.Keys == h.pubs.Keys
      && g.aliases ==
         if s.path !in h.aliases && rewrite.Some? then h.aliases[s.path := Alias(rewrite.value, None, false)]
         else h.aliases
  }

  /** A subscriber that ends is taken from its one place, and from nowhere else. */
  predicate UnsubscribeLaw(h: Hub, s: Subscriber, g: Hub) {
    if s !in h.seats then g == h
    else
      && g.seats == h.seats - {s} && g.streams == h.streams && g.aliases == h.aliases
      && g.pubs.Keys == h.pubs.Keys && g.waiting.Keys == h.waiting.Keys
      && (forall p | p in h.pubs :: g.pubs[p].subs == h.pubs[p].subs - {s})
      && (forall p | p in h.pubs && s !in h.pubs[p].subs :: g.pubs[p] == h.pubs[p])
      && (forall path | path in h.waiting :: g.waiting[path] == h.waiting[path] - {s})
  }

  /** Alias `name` of `path` has no publisher, or one of another path. */
  predicate Claimable(h: Hub, name: string, path: string)
    requires name in h.aliases
  {
    var alias := h.aliases[name];
    && alias.target == path
    && (alias.publisher.None? ||
        (alias.publisher.value in h.pubs && h.pubs[alias.publisher.value].path != path))
  }

  /** A waiting subscriber is called by a new publisher of its path, or of the target of its path's alias if
      that has no publisher; an attached one if it is of server type and its publisher serves an alias
      whose target is the new path, being of another path itself. */
  ghost predicate CalledBy(h: Hub, s: Subscriber, path: string)
    requires s in h.seats
  {
    var seat := h.seats[s];
    if seat.waiting then
      s.path == path ||
      (s.path in h.aliases && Claimable(h, s.path, path) && h.aliases[s.path].publisher.None?)
    else
      s.kind == Server && seat.publisher.Some? &&
      exists name | name in h.aliases ::
        Claimable(h, name, path) && h.aliases[name].publisher == seat.publisher
  }

  /** A new publisher gets exactly the subscribers it calls, with the buffer time the most demanding of them
      needs, and exactly the claimable aliases of its path; it is turned away only by the maximum of
      streams. */
  ghost predicate PublishLaw(h: Hub, id: nat, path: string, bufferTime: int, maxCount: int, g: Hub) {
    if id in h.pubs || path in h.streams || 0 < maxCount <= |h.streams| then g == h
    else
      && g.streams == h.streams[path := id] && g.pubs.Keys == h.pubs.Keys + {id} && g.pubs[id].path == path
      && g.pubs[id].state == (if g.pubs[id].subs == {} then Init else Subscribed)
      && g.pubs[id].bufferTime == MaxOf(Buffers(g.pubs[id].subs), bufferTime)
      && g.seats.Keys == h.seats.Keys
      && (forall s | s in h.seats :: if CalledBy(h, s, path) then AttachedTo(g, s, id) else StaysPut(h, g, s))
      && g.aliases.Keys == h.aliases.Keys
      && (forall name | name in h.aliases :: g.aliases[name] ==
            if Claimable(h, name, path) then h.aliases[name].(publisher := Some(id)) else h.aliases[name])
  }

  /** When a stream ends its publisher is disposed of; each of its subscribers goes back to the live stream
      of the path it asked for, if an alias to the ended stream had replaced that, or else waits for that
      path. The aliases of the ended stream lose their publisher or, if so marked, go. */
  predicate UnpublishLaw(h: Hub, path: string, g: Hub) {
    if path !in h.streams || h.streams[path] !in h.pubs then g == h
    else
      var p := h.streams[path];
      && g.streams == h.streams - {path} && g.pubs.Keys == h.pubs.Keys
      && g.pubs[p].state == Disposed && g.pubs[p].subs == {}
      && g.seats.Keys == h.seats.Keys
      && (forall s | s in h.seats ::
            if s !in h.pubs[p].subs then StaysPut(h, g, s)
            else if s.path in h.aliases && h.aliases[s.path].target == path && s.path in h.streams then
              AttachedTo(g, s, h.streams[s.path])
            else WaitsAtHome(g, s))
      && g.aliases.Keys ==
         (set name | name in h.aliases && !(h.aliases[name].target == path && h.aliases[name].autoRemove))
      && (forall name | name in g.aliases :: name in h.aliases && g.aliases[name] ==
            if h.aliases[name].target == path then h.aliases[name].(publisher := None) else h.aliases[name])
  }

  /** A transfer moves exactly the server-type subscribers. */
  predicate TransferLaw(h: Hub, from: nat, to: nat, g: Hub) {
    if from !in h.pubs || to !in h.pubs || from == to then g == h
    else
      && g.streams == h.streams && g.aliases == h.aliases && g.waiting == h.waiting && g.pubs.Keys == h.pubs.Keys
      && g.seats.Keys == h.seats.Keys
      && (forall s | s in h.seats ::
            if s in h.pubs[from].subs && s.kind == Server then AttachedTo(g, s, to) else StaysPut(h, g, s))
  }

  /** Waking a path hands over exactly those who wait for it. */
  predicate WakeLaw(h: Hub, path: string, id: nat, g: Hub) {
    if id !in h.pubs then g == h
    else
      && g.streams == h.streams && g.aliases == h.aliases && g.pubs.Keys == h.pubs.Keys
      && g.seats.Keys == h.seats.Keys
      && (forall s | s in h.seats ::
            if h.seats[s].waiting && s.path == path then AttachedTo(g, s, id) else StaysPut(h, g, s))
  }

  predicate WriteAliasLaw(h: Hub, name: string, alias: Alias, g: Hub) {
    g == if name == alias.target || (alias.publisher.Some? && alias.publisher.value !in h.pubs) then h
         else h.(aliases := h.aliases[name := alias])
  }

  ghost predicate Law(h: Hub, e: Event, g: Hub) {
    match e
    case Subscribe(s, rewrite, maxCount) => SubscribeLaw(h, s, rewrite, maxCount, g)
    case Unsubscribe(s) => UnsubscribeLaw(h, s, g)
    case Publish(id, path, bufferTime, maxCount) => PublishLaw(h, id, path, bufferTime, maxCount, g)
    case Unpublish(path) => UnpublishLaw(h, path, g)
    case TransferAll(from, to) => TransferLaw(h, from, to, g)
    case WriteAlias(name, alias) => WriteAliasLaw(h, name, alias, g)
    case EraseAlias(name) => g == h.(aliases := h.aliases - {name})
    case Wake(path, id) => WakeLaw(h, path, id, g)
  }

  // ----- moves -----

  /** Whoever's seat names a publisher without waiting is in its set, and whoever waits is on its list. */
  lemma SeatMeansPlace(h: Hub, s: Subscriber)
    requires Inv(h) && s in h.seats
    ensures !h.seats[s].waiting ==> h.seats[s].publisher.Some? && AttachedTo(h, s, h.seats[s].publisher.value)
    ensures h.seats[s].waiting ==> WaitsAtHome(h, s)
  {
    hide PubInv;
    assert Placed(h, s);
  }

  lemma PlaceMeansSeat(h: Hub, s: Subscriber)
    requires Inv(h) && s in h.seats
    ensures forall p | p in h.pubs :: s in h.pubs[p].subs <==> !h.seats[s].waiting && h.seats[s].publisher == Some(p)
    ensures forall path | path in h.waiting :: s in h.waiting[path] <==> h.seats[s].waiting && s.path == path
  {
    hide PubInv;
    assert Placed(h, s);
  }

  /** After the given moves everybody is where they lead, and whoever has none stays put. */
  lemma ReseatLaw(h: Hub, g: Hub, moves: Moves)
    requires Inv(g) && g.seats == Reseat(h.seats, moves)
    ensures g.seats.Keys == h.seats.Keys
    ensures forall s | s in h.seats ::
      if s !in moves then StaysPut(h, g, s)
      else if moves[s].Some? then AttachedTo(g, s, moves[s].value) else WaitsAtHome(g, s)
  {
    hide Inv;
    forall s | s in h.seats
      ensures if s !in moves then StaysPut(h, g, s)
              else if moves[s].Some? then AttachedTo(g, s, moves[s].value) else WaitsAtHome(g, s)
    {
      SeatMeansPlace(g, s);
    }
  }

  // ----- the laws -----

  lemma ArrivedMeans(h: Hub, s: Subscriber, home: Option<nat>)
    requires s !in h.seats && (home.Some? ==> home.value in h.pubs)
    ensures var g := Arrived(h, s, home);
      && s in g.seats && g.seats == h.seats[s := g.seats[s]]
      && (if home.Some? then !g.seats[s].waiting && g.seats[s].publisher == home else g.seats[s].waiting)
      && g.streams == h.streams && g.pubs.Keys == h.pubs.Keys && g.aliases == h.aliases
  {
    hide AddTo;
  }

  lemma StreamsLive(h: Hub)
    requires Inv(h)
    ensures forall path | path in h.streams :: h.streams[path] in h.pubs
  {
  }

  lemma SubscribeAdmitted(h: Hub, e: Event, g: Hub, defaultBuffer: int)
    requires Inv(h) && Inv(g) && HubNext(h, e, g, defaultBuffer) && e.Subscribe?
    requires Happens(h, e) && !Refused(h, e.s.path, e.rewrite, e.maxCount)
    ensures SubscribeLaw(h, e.s, e.rewrite, e.maxCount, g)
  {
    hide Inv, Arrived, AttachedTo, WaitsAtHome;
    StreamsLive(h);
    AliasAddedKeeps(h, e.s.path, e.rewrite);
    ArrivedMeans(AliasAdded(h, e.s.path, e.rewrite), e.s, Home(h, e.s.path, e.rewrite));
    SeatMeansPlace(g, e.s);
  }

  lemma SubscribeHolds(h: Hub, e: Event, g: Hub, defaultBuffer: int)
    requires Inv(h) && Inv(g) && HubNext(h, e, g, defaultBuffer) && e.Subscribe?
    ensures SubscribeLaw(h, e.s, e.rewrite, e.maxCount, g)
  {
    hide Inv, Arrived, AttachedTo, WaitsAtHome, Home;
    if Happens(h, e) && !Refused(h, e.s.path, e.rewrite, e.maxCount) {
      SubscribeAdmitted(h, e, g, defaultBuffer);
    }
  }

  lemma StartObeys(h: Hub, s: Subscriber, rewrite: Option<string>, maxCount: int, g: Hub)
    requires Inv(h) && Inv(g) && s !in h.seats && rewrite != Some(s.path)
    requires var aliased := AliasAdded(h, s.path, rewrite);
      g == if Refused(h, s.path, rewrite, maxCount) then aliased else Arrived(aliased, s, Home(h, s.path, rewrite))
    ensures SubscribeLaw(h, s, rewrite, maxCount, g)
  {
    hide Inv, Arrived, AliasAdded, Refused, Home, SubscribeLaw;
    SubscribeHolds(h, Subscribe(s, rewrite, maxCount), g, 0);
  }

  lemma DepartMeans(h: Hub, s: Subscriber, defaultBuffer: int)
    requires Inv(h) && s in h.seats
    ensures var g, seat := Depart(h, s, defaultBuffer), h.seats[s];
      && g.seats == h.seats - {s} && g.streams == h.streams && g.aliases == h.aliases
      && if seat.waiting then
           g.pubs == h.pubs && s.path in h.waiting && g.waiting == h.waiting[s.path := h.waiting[s.path] - {s}]
         else
           && seat.publisher.Some? && seat.publisher.value in h.pubs && g.waiting == h.waiting
           && g.pubs.Keys == h.pubs.Keys && g.pubs[seat.publisher.value].subs == h.pubs[seat.publisher.value].subs - {s}
           && forall p | p in h.pubs && p != seat.publisher.value :: g.pubs[p] == h.pubs[p]
  {
    SeatMeansPlace(h, s);
    assert !h.seats[s].waiting ==> h.pubs[h.seats[s].publisher.value].state != Disposed;
    hide Inv, Recomputed, Uncount;
  }

  lemma UnsubscribeHolds(h: Hub, e: Event, g: Hub, defaultBuffer: int)
    requires Inv(h) && HubNext(h, e, g, defaultBuffer) && e.Unsubscribe?
    ensures UnsubscribeLaw(h, e.s, g)
  {
    hide Inv, Depart;
    if e.s in h.seats {
      PlaceMeansSeat(h, e.s);
      DepartMeans(h, e.s, defaultBuffer);
    }
  }

  lemma TransferHolds(h: Hub, e: Event, g: Hub, defaultBuffer: int)
    requires Inv(h) && Inv(g) && HubNext(h, e, g, defaultBuffer) && e.TransferAll?
    ensures TransferLaw(h, e.from, e.to, g)
  {
    hide Inv, Reseat, Joined, TransferOut;
    if Happens(h, e) {
      ReseatLaw(h, g, AllTo(OfKind(h.pubs[e.from].subs, Server), e.to));
    }
  }

  lemma WakeHolds(h: Hub, e: Event, g: Hub, defaultBuffer: int)
    requires Inv(h) && Inv(g) && HubNext(h, e, g, defaultBuffer) && e.Wake?
    ensures WakeLaw(h, e.path, e.id, g)
  {
    hide Inv, Reseat, Joined;
    if Happens(h, e) {
      ReseatLaw(h, g, AllTo(On(h.waiting, e.path), e.id));
      forall s | s in h.seats ensures s in On(h.waiting, e.path) <==> h.seats[s].waiting && s.path == e.path {
        PlaceMeansSeat(h, s);
        SeatMeansPlace(h, s);
      }
    }
  }

  lemma UnpublishHolds(h: Hub, e: Event, g: Hub, defaultBuffer: int)
    requires Inv(h) && Inv(g) && HubNext(h, e, g, defaultBuffer) && e.Unpublish?
    ensures UnpublishLaw(h, e.path, g)
  {
    hide Partition, Sound, Reseat, Joined, ListsGrown;
    if Happens(h, e) {
      ReseatLaw(h, g, Evicted(h, h.streams[e.path]));
    }
  }

  lemma CalledMeans(h: Hub, s: Subscriber, path: string)
    requires Inv(h) && s in h.seats
    ensures s in Called(h, path) <==> CalledBy(h, s, path)
  {
    hide PubInv, Sound, Registered;
    SeatMeansPlace(h, s);
    PlaceMeansSeat(h, s);
    hide Inv;
    var seat := h.seats[s];
    if !seat.waiting && seat.publisher.Some? {
      if name :| Lends(h, name, path, seat.publisher.value) {
        assert name in h.aliases.Keys && Claimable(h, name, path);
      }
      if name :| name in h.aliases && Claimable(h, name, path) && h.aliases[name].publisher == seat.publisher {
        assert Lends(h, name, path, seat.publisher.value);
      }
    }
  }

  lemma BoundMeans(h: Hub, path: string, p: nat)
    ensures BoundAliases(h, path, p, h.aliases.Keys).Keys == h.aliases.Keys
    ensures forall name | name in h.aliases ::
      BoundAliases(h, path, p, h.aliases.Keys)[name] ==
        if Claimable(h, name, path) then h.aliases[name].(publisher := Some(p)) else h.aliases[name]
  {
  }

  lemma PublishSeats(h: Hub, g: Hub, p: nat, path: string)
    requires Inv(h) && Inv(g) && g.seats == Reseat(h.seats, AllTo(Called(h, path), p))
    ensures g.seats.Keys == h.seats.Keys
    ensures forall s | s in h.seats :: if CalledBy(h, s, path) then AttachedTo(g, s, p) else StaysPut(h, g, s)
  {
    hide Inv, Reseat, Called, CalledBy, AttachedTo, StaysPut;
    ReseatLaw(h, g, AllTo(Called(h, path), p));
    forall s | s in h.seats ensures if CalledBy(h, s, path) then AttachedTo(g, s, p) else StaysPut(h, g, s) {
      CalledMeans(h, s, path);
    }
  }

  lemma PublishedParts(h: Hub, g: Hub, p: nat, path: string, bufferTime: int, defaultBuffer: int)
    requires Published(h, g, p, path, bufferTime, defaultBuffer)
    ensures g.streams == h.streams[path := p] && g.pubs.Keys == h.pubs.Keys + {p} && g.pubs[p].path == path
    ensures g.pubs[p].state == if g.pubs[p].subs == {} then Init else Subscribed
    ensures g.pubs[p].bufferTime == MaxOf(Buffers(g.pubs[p].subs), bufferTime)
    ensures g.seats == Reseat(h.seats, AllTo(Called(h, path), p))
    ensures g.aliases == BoundAliases(h, path, p, h.aliases.Keys)
  {
    hide Joined, Reseat, AllTo, Called, BoundAliases, StandIn, TransferOut, EmptiedAll, Emptied;
    JoinedNew(path, bufferTime, g.pubs[p], Called(h, path));
    JoinedFresh(path, bufferTime, g.pubs[p], Called(h, path));
  }

  lemma PublishNext(h: Hub, e: Event, g: Hub, defaultBuffer: int)
    requires HubNext(h, e, g, defaultBuffer) && e.Publish?
    ensures if e.id in h.pubs || e.path in h.streams || 0 < e.maxCount <= |h.streams| then g == h
            else Published(h, g, e.id, e.path, e.bufferTime, defaultBuffer)
  {
    hide Published;
  }

  lemma PublishHolds(h: Hub, e: Event, g: Hub, defaultBuffer: int)
    requires Inv(h) && Inv(g) && HubNext(h, e, g, defaultBuffer) && e.Publish?
    ensures PublishLaw(h, e.id, e.path, e.bufferTime, e.maxCount, g)
  {
    hide Inv, HubNext, Published, Reseat, AllTo, Called, CalledBy, Claimable, BoundAliases, AttachedTo, StaysPut;
    PublishNext(h, e, g, defaultBuffer);
    if e.id !in h.pubs && e.path !in h.streams && !(0 < e.maxCount <= |h.streams|) {
      PublishedParts(h, g, e.id, e.path, e.bufferTime, defaultBuffer);
      PublishSeats(h, g, e.id, e.path);
      BoundMeans(h, e.path, e.id);
    }
  }

  lemma LawHolds(h: Hub, e: Event, g: Hub, defaultBuffer: int)
    requires Inv(h) && HubNext(h, e, g, defaultBuffer) && defaultBuffer >= 0
    ensures Inv(g) && Law(h, e, g)
  {
    HubNextKeeps(h, e, g, defaultBuffer);
    match e {
      case Subscribe(_, _, _) => hide Inv, HubNext, SubscribeLaw; SubscribeHolds(h, e, g, defaultBuffer);
      case Unsubscribe(_) => hide Inv, HubNext, UnsubscribeLaw; UnsubscribeHolds(h, e, g, defaultBuffer);
      case Publish(_, _, _, _) => hide Inv, HubNext, PublishLaw; PublishHolds(h, e, g, defaultBuffer);
      case Unpublish(_) => hide Inv, HubNext, UnpublishLaw; UnpublishHolds(h, e, g, defaultBuffer);
      case TransferAll(_, _) => hide Inv, HubNext, TransferLaw; TransferHolds(h, e, g, defaultBuffer);
      case Wake(_, _) => hide Inv, HubNext, WakeLaw; WakeHolds(h, e, g, defaultBuffer);
      case _ => hide Inv;
    }
  }

  /** Every event of every run obeys its law. */
  lemma LawOverRuns(hs: seq<Hub>, es: seq<Event>, defaultBuffer: int, n: nat)
    requires IsRun(hs, es, defaultBuffer) && n < |es|
    ensures Law(hs[n], es[n], hs[n + 1])
  {
    RunInv(hs, es, defaultBuffer, n);
    hide Inv, HubNext, Law;
    LawHolds(hs[n], es[n], hs[n + 1], defaultBuffer);
  }
}
