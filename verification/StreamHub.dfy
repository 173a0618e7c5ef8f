/** The server's publishers, subscribers, waiting lists and aliases, and the operations that move
    subscribers between publishers and waiting lists (publisher.go, wait_stream.go, alias.go,
    subscriber.go). All of them run on the server's stream task, one after another. */
module StreamHub {
  import opened Maximum
  import opened PublisherState
  import opened Wrappers

  type Seats = map<Subscriber, Seat>
  type Lists = map<string, set<Subscriber>>

  datatype Alias = Alias(target: string, publisher: Option<nat>, autoRemove: bool)

  /** `pubs` keeps every publisher that ever started, `streams` the live one of each path; `seats` are
      the live subscribers. */
  datatype Hub = Hub(
    pubs: map<nat, Pub>, streams: map<string, nat>, seats: Seats, waiting: Lists,
    aliases: map<string, Alias>)

  // ----- the invariant -----

  /** A live subscriber waits and is in exactly the list of its own path, or does not wait and is in
      exactly the set of its own publisher; its channel was closed when it got its first publisher, and
      never again. */
  ghost predicate Placed(h: Hub, s: Subscriber)
    requires s in h.seats
  {
    var seat := h.seats[s];
    && seat.closes == (if seat.publisher.None? then 0 else 1)
    && (seat.publisher.Some? ==> seat.publisher.value in h.pubs)
    && (if seat.waiting then s.path in h.waiting else seat.publisher.Some?)
    && (forall path | path in h.waiting :: s in h.waiting[path] <==> seat.waiting && path == s.path)
    && (forall p | p in h.pubs :: s in h.pubs[p].subs <==> !seat.waiting && seat.publisher == Some(p))
  }

  ghost predicate Partition(h: Hub) {
    && (forall s | s in h.seats :: Placed(h, s))
    && (forall path | path in h.waiting :: h.waiting[path] <= h.seats.Keys)
    && (forall p | p in h.pubs :: h.pubs[p].subs <= h.seats.Keys)
  }

  ghost predicate Sound(pubs: map<nat, Pub>) {
    forall p | p in pubs :: PubInv(pubs[p])
  }

  ghost predicate Registered(h: Hub) {
    && (forall path | path in h.streams ::
          var p := h.streams[path]; p in h.pubs && h.pubs[p].path == path && !h.pubs[p].gone)
    && (forall name | name in h.aliases ::
          name != h.aliases[name].target &&
          (h.aliases[name].publisher.Some? ==> h.aliases[name].publisher.value in h.pubs))
  }

  ghost predicate Inv(h: Hub) {
    Partition(h) && Sound(h.pubs) && Registered(h)
  }

  lemma SamePartition(h: Hub, g: Hub)
    requires Partition(h) && g.pubs == h.pubs && g.seats == h.seats && g.waiting == h.waiting
    ensures Partition(g)
  {
    forall s | s in g.seats ensures Placed(g, s) {
      assert Placed(h, s);
    }
  }

  // ----- moving many subscribers -----

  /** Where each subscriber on the move goes: to a publisher or (None) to the waiting list of its path. */
  type Moves = map<Subscriber, Option<nat>>

  function SeatAfter(seat: Seat, to: Option<nat>): Seat {
    match to
    case None => seat.(waiting := true)
    case Some(p) => Arrive(seat, p)
  }

  function Reseat(seats: Seats, moves: Moves): Seats {
    map s | s in seats :: if s in moves then SeatAfter(seats[s], moves[s]) else seats[s]
  }

  function To(moves: Moves, p: nat): set<Subscriber> {
    set s | s in moves && moves[s] == Some(p)
  }

  function Queued(moves: Moves, path: string): set<Subscriber> {
    set s | s in moves && moves[s] == None && s.path == path
  }

  function On(lists: Lists, path: string): set<Subscriber> {
    if path in lists then lists[path] else {}
  }

  /** Publisher.AddSubscriber. */
  function Give(h: Hub, s: Subscriber, p: nat): Hub
    requires s in h.seats && p in h.pubs
  {
    h.(pubs := h.pubs[p := AddTo(h.pubs[p], s)], seats := h.seats[s := Arrive(h.seats[s], p)])
  }

  /** WaitManager.Wait. */
  function Enqueue(h: Hub, s: Subscriber): Hub
    requires s in h.seats
  {
    h.(waiting := h.waiting[s.path := On(h.waiting, s.path) + {s}], seats := h.seats[s := h.seats[s].(waiting := true)])
  }

  ghost predicate PubsGrown(pubs0: map<nat, Pub>, pubs: map<nat, Pub>, moves: Moves) {
    && pubs.Keys == pubs0.Keys
    && forall p | p in pubs :: Joined(pubs0[p], pubs[p], To(moves, p))
  }

  ghost predicate ListsGrown(lists0: Lists, lists: Lists, moves: Moves) {
    && (forall path | path in lists0 :: path in lists)
    && (forall path | path in lists :: lists[path] == On(lists0, path) + Queued(moves, path))
    && (forall s | s in moves && moves[s] == None :: s.path in lists)
  }

  /** `h` is `h0` after exactly the given moves; nobody has been taken from an old place yet. */
  ghost predicate Moved(h0: Hub, h: Hub, moves: Moves) {
    && h.streams == h0.streams && h.aliases == h0.aliases
    && h.seats == Reseat(h0.seats, moves)
    && PubsGrown(h0.pubs, h.pubs, moves)
    && ListsGrown(h0.waiting, h.waiting, moves)
  }

  lemma MovedNone(h: Hub)
    ensures Moved(h, h, map[])
  {
    hide Joined;
    forall p | p in h.pubs ensures Joined(h.pubs[p], h.pubs[p], To(map[], p)) {
      JoinedNone(h.pubs[p]);
      assert To(map[], p) == {};
    }
    forall path ensures Queued(map[], path) == {} {
    }
  }

  lemma ReseatMore(seats: Seats, moves: Moves, s: Subscriber, to: Option<nat>)
    requires s in seats && s !in moves
    ensures Reseat(seats, moves[s := to]) == Reseat(seats, moves)[s := SeatAfter(Reseat(seats, moves)[s], to)]
  {
    hide SeatAfter;
  }

  lemma PubsGive(pubs0: map<nat, Pub>, pubs: map<nat, Pub>, moves: Moves, s: Subscriber, p: nat)
    requires PubsGrown(pubs0, pubs, moves) && s !in moves && p in pubs0
    ensures PubsGrown(pubs0, pubs[p := AddTo(pubs[p], s)], moves[s := Some(p)])
  {
    hide Joined, AddTo;
    var more := moves[s := Some(p)];
    forall q | q in pubs ensures Joined(pubs0[q], pubs[p := AddTo(pubs[p], s)][q], To(more, q)) {
      assert To(more, q) == if q == p then To(moves, q) + {s} else To(moves, q);
      JoinedMore(pubs0[p], pubs[p], To(moves, p), s);
    }
  }

  lemma MovedGive(h0: Hub, h: Hub, moves: Moves, s: Subscriber, p: nat)
    requires Moved(h0, h, moves) && s in h0.seats && s !in moves && p in h0.pubs
    ensures Moved(h0, Give(h, s, p), moves[s := Some(p)])
  {
    hide Joined, AddTo, Reseat;
    PubsGive(h0.pubs, h.pubs, moves, s, p);
    ReseatMore(h0.seats, moves, s, Some(p));
    forall path ensures Queued(moves[s := Some(p)], path) == Queued(moves, path) {
    }
  }

  lemma ListsEnqueue(lists0: Lists, lists: Lists, moves: Moves, s: Subscriber)
    requires ListsGrown(lists0, lists, moves) && s !in moves
    ensures ListsGrown(lists0, lists[s.path := On(lists, s.path) + {s}], moves[s := None])
  {
    var more := moves[s := None];
    forall path
      ensures Queued(more, path) == if path == s.path then Queued(moves, path) + {s} else Queued(moves, path)
    {
    }
    if s.path !in lists {
      assert Queued(moves, s.path) == {};
    }
    hide Queued;
  }

  lemma MovedEnqueue(h0: Hub, h: Hub, moves: Moves, s: Subscriber)
    requires Moved(h0, h, moves) && s in h0.seats && s !in moves
    ensures Moved(h0, Enqueue(h, s), moves[s := None])
  {
    hide Joined, Reseat;
    ListsEnqueue(h0.waiting, h.waiting, moves, s);
    ReseatMore(h0.seats, moves, s, None);
    forall p | p in h.pubs ensures To(moves[s := None], p) == To(moves, p) {
    }
  }

  /** Everyone who moved has left the old place and is in the new one. */
  ghost predicate Settled(h0: Hub, h: Hub, moves: Moves) {
    && moves.Keys <= h0.seats.Keys
    && (forall s | s in moves :: if moves[s].Some? then moves[s].value in h.pubs else s.path in h.waiting)
    && h.seats == Reseat(h0.seats, moves) && h.pubs.Keys == h0.pubs.Keys
    && (forall path | path in h0.waiting :: path in h.waiting)
    && (forall path | path in h.waiting ::
          h.waiting[path] == On(h0.waiting, path) - moves.Keys + Queued(moves, path))
    && (forall p | p in h.pubs :: h.pubs[p].subs == h0.pubs[p].subs - moves.Keys + To(moves, p))
  }

  lemma SettledListed(h0: Hub, h: Hub, moves: Moves, s: Subscriber)
    requires Settled(h0, h, moves) && s in h0.seats && Placed(h0, s)
    ensures forall path | path in h.waiting :: s in h.waiting[path] <==> h.seats[s].waiting && path == s.path
  {
    assert h.seats[s] == if s in moves then SeatAfter(h0.seats[s], moves[s]) else h0.seats[s];
  }

  lemma SettledAttached(h0: Hub, h: Hub, moves: Moves, s: Subscriber)
    requires Settled(h0, h, moves) && s in h0.seats && Placed(h0, s)
    ensures forall p | p in h.pubs :: s in h.pubs[p].subs <==> !h.seats[s].waiting && h.seats[s].publisher == Some(p)
  {
    assert h.seats[s] == if s in moves then SeatAfter(h0.seats[s], moves[s]) else h0.seats[s];
  }

  lemma SettledPlaced(h0: Hub, h: Hub, moves: Moves, s: Subscriber)
    requires Settled(h0, h, moves) && s in h0.seats && Placed(h0, s)
    ensures Placed(h, s)
  {
    SettledListed(h0, h, moves, s);
    SettledAttached(h0, h, moves, s);
    hide Queued, To, On;
    assert h.seats[s] == if s in moves then SeatAfter(h0.seats[s], moves[s]) else h0.seats[s];
  }

  lemma SettledPartition(h0: Hub, h: Hub, moves: Moves)
    requires Partition(h0) && Settled(h0, h, moves)
    ensures Partition(h)
  {
    hide Placed;
    forall s | s in h.seats ensures Placed(h, s) {
      SettledPlaced(h0, h, moves, s);
    }
    forall path | path in h.waiting ensures h.waiting[path] <= h.seats.Keys {
      assert On(h0.waiting, path) <= h0.seats.Keys;
    }
  }

  lemma GrownSound(h0: Hub, h: Hub, moves: Moves)
    requires PubsGrown(h0.pubs, h.pubs, moves) && h.streams == h0.streams && h.aliases == h0.aliases
    requires Sound(h0.pubs) && Registered(h0)
    ensures Sound(h.pubs) && Registered(h)
  {
    hide PubInv, RaisedBy;
  }

  function AllTo(movers: set<Subscriber>, p: nat): (moves: Moves)
    ensures moves.Keys == movers
    ensures forall path :: Queued(moves, path) == {}
    ensures forall q :: To(moves, q) == if q == p then movers else {}
  {
    map s | s in movers :: Some(p)
  }

  lemma AllToMore(movers: set<Subscriber>, s: Subscriber, p: nat)
    ensures AllTo(movers + {s}, p) == AllTo(movers, p)[s := Some(p)]
    ensures AllTo({}, p) == map[]
  {
  }

  /** Whoever waits on a path is on no other list and attached nowhere. */
  lemma WaitersOnlyThere(h: Hub, path: string)
    requires Partition(h) && path in h.waiting
    ensures h.waiting[path] <= h.seats.Keys
    ensures forall other | other in h.waiting && other != path :: h.waiting[other] !! h.waiting[path]
    ensures forall p | p in h.pubs :: h.pubs[p].subs !! h.waiting[path]
  {
    assert forall s | s in h.waiting[path] :: Placed(h, s);
  }

  /** Whoever is attached to a publisher is attached to no other and on no list. */
  lemma AttachedOnlyThere(h: Hub, p: nat)
    requires Partition(h) && p in h.pubs
    ensures h.pubs[p].subs <= h.seats.Keys
    ensures forall q | q in h.pubs && q != p :: h.pubs[q].subs !! h.pubs[p].subs
    ensures forall path | path in h.waiting :: h.waiting[path] !! h.pubs[p].subs
  {
    assert forall s | s in h.pubs[p].subs :: Placed(h, s);
  }

  // ----- waking up a waiting list -----

  function Emptied(lists: Lists, path: string): Lists {
    if path in lists then lists[path := {}] else lists
  }

  /** Everyone waiting on `path` has gone to `p`. */
  ghost predicate Woken(h0: Hub, h: Hub, path: string, p: nat) {
    && h.streams == h0.streams && h.aliases == h0.aliases
    && h.seats == Reseat(h0.seats, AllTo(On(h0.waiting, path), p))
    && PubsGrown(h0.pubs, h.pubs, AllTo(On(h0.waiting, path), p))
    && h.waiting == Emptied(h0.waiting, path)
  }

  lemma WokenByMoves(h0: Hub, h: Hub, path: string, p: nat)
    requires path in h0.waiting ==> Moved(h0, h.(waiting := h0.waiting), AllTo(h0.waiting[path], p))
    requires path !in h0.waiting ==> h == h0
    requires h.waiting == Emptied(h0.waiting, path)
    ensures Woken(h0, h, path, p)
  {
    hide Joined, Reseat, AllTo;
    if path !in h0.waiting {
      MovedNone(h0);
      AllToMore({}, Subscriber(0, "", Server, 0), p);
    }
  }

  lemma SeatsKnown(h: Hub)
    requires Inv(h)
    ensures forall path | path in h.waiting :: h.waiting[path] <= h.seats.Keys
    ensures forall p | p in h.pubs :: h.pubs[p].subs <= h.seats.Keys
  {
  }

  lemma WokenSettled(h0: Hub, h: Hub, path: string, p: nat)
    requires Partition(h0) && p in h0.pubs && path in h0.waiting && Woken(h0, h, path, p)
    ensures Settled(h0, h, AllTo(h0.waiting[path], p))
  {
    hide PubInv, RaisedBy, Placed, AllTo, Reseat;
    WaitersOnlyThere(h0, path);
  }

  lemma WokenNobody(h0: Hub, h: Hub, path: string, p: nat)
    requires path !in h0.waiting && Woken(h0, h, path, p)
    ensures h == h0
  {
    hide PubInv, RaisedBy;
    assert Reseat(h0.seats, AllTo({}, p)) == h0.seats;
    assert h.pubs == h0.pubs;
  }

  lemma WokenKeeps(h0: Hub, h: Hub, path: string, p: nat)
    requires Inv(h0) && p in h0.pubs && Woken(h0, h, path, p)
    ensures Inv(h)
  {
    hide PubInv, RaisedBy, Placed, Reseat, Partition, Settled, PubsGrown, AllTo, Registered, Sound;
    GrownSound(h0, h, AllTo(On(h0.waiting, path), p));
    if path in h0.waiting {
      WokenSettled(h0, h, path, p);
      SettledPartition(h0, h, AllTo(h0.waiting[path], p));
    } else {
      WokenNobody(h0, h, path, p);
    }
  }

  // ----- transferring -----

  ghost predicate Transferred(h0: Hub, h: Hub, from: nat, to: nat, defaultBuffer: int)
    requires from in h0.pubs && to in h0.pubs
  {
    var movers := OfKind(h0.pubs[from].subs, Server);
    && h.streams == h0.streams && h.aliases == h0.aliases && h.waiting == h0.waiting
    && h.seats == Reseat(h0.seats, AllTo(movers, to))
    && h.pubs.Keys == h0.pubs.Keys
    && h.pubs == h0.pubs[from := TransferOut(h0.pubs[from], defaultBuffer)][to := h.pubs[to]]
    && Joined(h0.pubs[to], h.pubs[to], movers)
  }

  lemma TransferredByMoves(h0: Hub, h: Hub, g: Hub, from: nat, to: nat, defaultBuffer: int)
    requires from in h0.pubs && to in h0.pubs && from != to && h.waiting == h0.waiting
    requires Moved(h0, h, AllTo(OfKind(h0.pubs[from].subs, Server), to))
    requires g == h.(pubs := h.pubs[from := TransferOut(h.pubs[from], defaultBuffer)])
    ensures Transferred(h0, g, from, to, defaultBuffer)
  {
    hide PubInv, RaisedBy, Reseat, AllTo, TransferOut, ListsGrown, Queued, To, OfKind;
    var moves := AllTo(OfKind(h0.pubs[from].subs, Server), to);
    assert forall q | q in h.pubs && q != to :: To(moves, q) == {} && h.pubs[q] == h0.pubs[q];
    assert g.pubs == h0.pubs[from := TransferOut(h0.pubs[from], defaultBuffer)][to := g.pubs[to]];
  }

  lemma TransferredPubs(h0: Hub, h: Hub, from: nat, to: nat, defaultBuffer: int)
    requires Partition(h0) && from in h0.pubs && to in h0.pubs && from != to
    requires Transferred(h0, h, from, to, defaultBuffer)
    ensures var movers := OfKind(h0.pubs[from].subs, Server); forall q | q in h.pubs ::
      h.pubs[q].subs == h0.pubs[q].subs - movers + if q == to then movers else {}
  {
    hide PubInv, RaisedBy, Placed, Partition, AllTo, Reseat;
    AttachedOnlyThere(h0, from);
    forall q | q in h.pubs && q != from && q != to ensures h.pubs[q] == h0.pubs[q] {
    }
  }

  lemma TransferredLists(h: Hub, from: nat)
    requires Partition(h) && from in h.pubs
    ensures var movers := OfKind(h.pubs[from].subs, Server);
      movers <= h.seats.Keys && forall path | path in h.waiting :: h.waiting[path] == h.waiting[path] - movers + {}
  {
    hide Placed, Partition;
    AttachedOnlyThere(h, from);
  }

  lemma TransferredSettled(h0: Hub, h: Hub, from: nat, to: nat, defaultBuffer: int)
    requires Partition(h0) && from in h0.pubs && to in h0.pubs && from != to
    requires Transferred(h0, h, from, to, defaultBuffer)
    ensures Settled(h0, h, AllTo(OfKind(h0.pubs[from].subs, Server), to))
  {
    hide Joined, Placed, Partition, AllTo, Reseat, Queued, OfKind, TransferOut;
    TransferredPubs(h0, h, from, to, defaultBuffer);
    TransferredLists(h0, from);
    var moves := AllTo(OfKind(h0.pubs[from].subs, Server), to);
    assert forall s | s in moves :: s in To(moves, to);
  }

  lemma TransferredKeeps(h0: Hub, h: Hub, from: nat, to: nat, defaultBuffer: int)
    requires Inv(h0) && from in h0.pubs && to in h0.pubs && from != to
    requires Transferred(h0, h, from, to, defaultBuffer)
    ensures Inv(h)
  {
    hide PubInv, RaisedBy, Placed, Reseat, Partition, Settled, OfKind;
    TransferredSettled(h0, h, from, to, defaultBuffer);
    SettledPartition(h0, h, AllTo(OfKind(h0.pubs[from].subs, Server), to));
    TransferOutKeeps(h0.pubs[from], defaultBuffer);
  }

  // ----- a publisher ends -----

  /** Where a subscriber of the ending publisher of `path` goes: back to the stream that an alias of
      `path` had replaced, if the subscriber asked for that stream and it is live. */
  function Destination(h: Hub, s: Subscriber, path: string): Option<nat> {
    if s.path in h.aliases && h.aliases[s.path].target == path && s.path in h.streams
    then Some(h.streams[s.path]) else None
  }

  function Evicted(h: Hub, p: nat): Moves
    requires p in h.pubs
  {
    map s | s in h.pubs[p].subs :: Destination(h, s, h.pubs[p].path)
  }

  function AliasesLeft(aliases: map<string, Alias>, path: string): map<string, Alias> {
    map name | name in aliases && !(aliases[name].target == path && aliases[name].autoRemove) ::
      if aliases[name].target == path then aliases[name].(publisher := None) else aliases[name]
  }

  /** The moves of everyone who is no longer to do. */
  function Done(moves: Moves, todo: set<Subscriber>): Moves {
    map s | s in moves && s !in todo :: moves[s]
  }

  lemma DoneMore(moves: Moves, todo: set<Subscriber>, s: Subscriber)
    requires s in moves && s in todo
    ensures Done(moves, todo - {s}) == Done(moves, todo)[s := moves[s]] && s !in Done(moves, todo)
  {
  }

  function Unbind(aliases: map<string, Alias>, path: string): map<string, Alias> {
    map name | name in aliases ::
      if aliases[name].target == path then aliases[name].(publisher := None) else aliases[name]
  }

  /** The aliases when those in `todo` have not been looked at yet. */
  function UnbindBut(aliases: map<string, Alias>, path: string, todo: set<string>): map<string, Alias> {
    map name | name in aliases ::
      if aliases[name].target == path && name !in todo then aliases[name].(publisher := None) else aliases[name]
  }

  function Related(aliases: map<string, Alias>, path: string, todo: set<string>): set<string> {
    set name | name in aliases && aliases[name].target == path && name !in todo
  }

  function AutoRemoved(aliases: map<string, Alias>, path: string): set<string> {
    set name | name in aliases && aliases[name].target == path && aliases[name].autoRemove
  }

  lemma UnbindBounds(aliases: map<string, Alias>, path: string)
    ensures UnbindBut(aliases, path, aliases.Keys) == aliases
    ensures UnbindBut(aliases, path, {}) == Unbind(aliases, path)
    ensures Related(aliases, path, aliases.Keys) == {}
    ensures AutoRemoved(aliases, path) - aliases.Keys == {}
    ensures AutoRemoved(aliases, path) - {} == AutoRemoved(aliases, path)
    ensures forall todo :: UnbindBut(aliases, path, todo).Keys == aliases.Keys
  {
  }

  /** One round of the first loop of processAliasOnDispose. */
  lemma UnbindOne(aliases: map<string, Alias>, path: string, todo: set<string>, name: string)
    requires name in todo && name in aliases
    ensures UnbindBut(aliases, path, todo)[name] == aliases[name]
    ensures var related, doomed := Related(aliases, path, todo), AutoRemoved(aliases, path) - todo;
      var bound := UnbindBut(aliases, path, todo);
      var rest := todo - {name};
      if aliases[name].target == path then
        && UnbindBut(aliases, path, rest) == bound[name := aliases[name].(publisher := None)]
        && Related(aliases, path, rest) == related + {name}
        && AutoRemoved(aliases, path) - rest == if aliases[name].autoRemove then doomed + {name} else doomed
      else
        && UnbindBut(aliases, path, rest) == bound && Related(aliases, path, rest) == related
        && AutoRemoved(aliases, path) - rest == doomed
  {
  }

  lemma RelatedSame(aliases: map<string, Alias>, path: string)
    ensures Related(Unbind(aliases, path), path, {}) == Related(aliases, path, {})
  {
  }

  lemma AliasesLeftInSteps(aliases: map<string, Alias>, path: string)
    ensures AliasesLeft(aliases, path) == Unbind(aliases, path) - AutoRemoved(aliases, path)
  {
  }

  ghost predicate Unpublished(h0: Hub, h: Hub, p: nat)
    requires p in h0.pubs
  {
    && h.streams == h0.streams - {h0.pubs[p].path}
    && h.aliases == AliasesLeft(h0.aliases, h0.pubs[p].path)
    && h.seats == Reseat(h0.seats, Evicted(h0, p))
    && h.pubs.Keys == h0.pubs.Keys
    && (forall q | q in h.pubs && q != p :: Joined(h0.pubs[q], h.pubs[q], To(Evicted(h0, p), q)))
    && h.pubs[p] == DisposeOf(h0.pubs[p])
    && ListsGrown(h0.waiting, h.waiting, Evicted(h0, p))
  }

  lemma EvictedElsewhere(h: Hub, p: nat)
    requires Registered(h) && p in h.pubs
    ensures Evicted(h, p).Keys == h.pubs[p].subs
    ensures To(Evicted(h, p), p) == {}
    ensures forall s | s in Evicted(h, p) && Evicted(h, p)[s].Some? :: Evicted(h, p)[s].value in h.pubs
  {
  }

  lemma UnpublishedByMoves(h0: Hub, h: Hub, g: Hub, p: nat)
    requires Registered(h0) && p in h0.pubs
    requires Moved(h0.(aliases := Unbind(h0.aliases, h0.pubs[p].path)), h, Evicted(h0, p))
    requires g.streams == h0.streams - {h0.pubs[p].path}
    requires g.aliases == h.aliases - AutoRemoved(h0.aliases, h0.pubs[p].path)
    requires g.seats == h.seats && g.waiting == h.waiting
    requires p in h.pubs && g.pubs == h.pubs[p := DisposeOf(h.pubs[p])]
    ensures Unpublished(h0, g, p)
  {
    hide PubInv, RaisedBy, Reseat, Evicted, ListsGrown, AliasesLeft, AutoRemoved, Unbind, DisposeOf, Registered;
    EvictedElsewhere(h0, p);
    AliasesLeftInSteps(h0.aliases, h0.pubs[p].path);
  }

  lemma EvictedSame(h: Hub, p: nat)
    requires p in h.pubs
    ensures Evicted(h.(aliases := Unbind(h.aliases, h.pubs[p].path)), p) == Evicted(h, p)
  {
  }

  lemma EvictedMeans(h: Hub, p: nat)
    requires p in h.pubs
    ensures Evicted(h, p).Keys == h.pubs[p].subs
    ensures forall s | s in h.pubs[p].subs :: Evicted(h, p)[s] == Destination(h, s, h.pubs[p].path)
  {
  }

  /** The test in the second loop of processAliasOnDispose finds the specified destination. */
  lemma EvictedRoute(h: Hub, p: nat, s: Subscriber)
    requires Registered(h) && p in h.pubs && s in h.pubs[p].subs
    ensures s in Evicted(h, p) && Evicted(h, p)[s] ==
      if s.path in Related(h.aliases, h.pubs[p].path, {}) && s.path in h.streams then Some(h.streams[s.path]) else None
    ensures s.path in h.streams ==> h.streams[s.path] in h.pubs
  {
  }

  lemma DoneBounds(moves: Moves)
    ensures Done(moves, moves.Keys) == map[] && Done(moves, {}) == moves
  {
  }

  lemma UnbindFacts(h: Hub, path: string)
    requires Registered(h)
    ensures Registered(h.(aliases := Unbind(h.aliases, path)))
    ensures Unbind(h.aliases, path).Keys == h.aliases.Keys
    ensures forall name | name in h.aliases :: Unbind(h.aliases, path)[name].target == h.aliases[name].target
  {
  }

  lemma EvictedUnlisted(h0: Hub, h: Hub, p: nat)
    requires Partition(h0) && p in h0.pubs && ListsGrown(h0.waiting, h.waiting, Evicted(h0, p))
    ensures forall path | path in h.waiting ::
      h.waiting[path] == On(h0.waiting, path) - Evicted(h0, p).Keys + Queued(Evicted(h0, p), path)
  {
    hide Partition, Placed, Destination;
    AttachedOnlyThere(h0, p);
    assert forall path :: On(h0.waiting, path) - Evicted(h0, p).Keys == On(h0.waiting, path);
  }

  lemma EvictedUnattached(h0: Hub, h: Hub, p: nat)
    requires Partition(h0) && Registered(h0) && p in h0.pubs && Unpublished(h0, h, p)
    ensures forall q | q in h.pubs ::
      h.pubs[q].subs == h0.pubs[q].subs - Evicted(h0, p).Keys + To(Evicted(h0, p), q)
  {
    hide Partition, Placed, PubInv, RaisedBy, Reseat, Evicted, Registered, AliasesLeft, ListsGrown;
    AttachedOnlyThere(h0, p);
    EvictedElsewhere(h0, p);
  }

  lemma UnpublishedSettled(h0: Hub, h: Hub, p: nat)
    requires Partition(h0) && Registered(h0) && p in h0.pubs && Unpublished(h0, h, p)
    ensures Settled(h0, h, Evicted(h0, p))
  {
    hide Joined, Placed, Reseat, Evicted, Registered, AliasesLeft, To, Queued;
    EvictedElsewhere(h0, p);
    EvictedUnlisted(h0, h, p);
    EvictedUnattached(h0, h, p);
  }

  lemma DisposedIsGone(p: Pub)
    ensures DisposeOf(p).path == p.path && DisposeOf(p).gone && DisposeOf(p).subs == {}
  {
  }

  lemma UnpublishedKeeps(h0: Hub, h: Hub, p: nat)
    requires Inv(h0) && p in h0.pubs && Unpublished(h0, h, p)
    requires h0.pubs[p].path in h0.streams && h0.streams[h0.pubs[p].path] == p
    ensures Inv(h)
  {
    hide RaisedBy, Placed, Reseat, Partition, Settled, PubInv, Evicted, ListsGrown, DisposeOf;
    UnpublishedSettled(h0, h, p);
    SettledPartition(h0, h, Evicted(h0, p));
    DisposeKeeps(h0.pubs[p]);
    DisposedIsGone(h0.pubs[p]);
    assert Sound(h.pubs) by {
      forall q | q in h.pubs ensures PubInv(h.pubs[q]) {
        assert PubInv(h0.pubs[q]);
      }
    }
  }

  // ----- a subscriber comes and goes -----

  function Admit(h: Hub, s: Subscriber): Hub {
    h.(seats := h.seats[s := Seat(None, false, 0)])
  }

  lemma AddedOne(p: Pub, s: Subscriber)
    ensures AddTo(p, s).subs == p.subs + {s}
  {
  }

  lemma AttachKeepsRegistered(h: Hub, s: Subscriber, p: nat)
    requires Registered(h) && s !in h.seats && p in h.pubs
    ensures Registered(Give(Admit(h, s), s, p))
  {
  }

  lemma AttachKeepsPartition(h: Hub, s: Subscriber, p: nat, q: Pub)
    requires Partition(h) && s !in h.seats && p in h.pubs && q.subs == h.pubs[p].subs + {s}
    ensures Partition(h.(pubs := h.pubs[p := q], seats := h.seats[s := Seat(Some(p), false, 1)]))
  {
    var g := h.(pubs := h.pubs[p := q], seats := h.seats[s := Seat(Some(p), false, 1)]);
    forall t | t in g.seats ensures Placed(g, t) {
      assert t == s || Placed(h, t);
    }
  }

  lemma AttachKeeps(h: Hub, s: Subscriber, p: nat)
    requires Inv(h) && s !in h.seats && p in h.pubs
    ensures Inv(Give(Admit(h, s), s, p))
  {
    hide PubInv, Registered, AddTo, Partition;
    AddKeeps(h.pubs[p], s);
    AddedOne(h.pubs[p], s);
    AttachKeepsPartition(h, s, p, AddTo(h.pubs[p], s));
    assert Admit(h, s).seats[s := Seat(Some(p), false, 1)] == h.seats[s := Seat(Some(p), false, 1)];
    AttachKeepsRegistered(h, s, p);
  }

  lemma EnlistKeepsPartition(h: Hub, s: Subscriber)
    requires Partition(h) && s !in h.seats
    ensures Partition(Enqueue(Admit(h, s), s))
  {
    var g := Enqueue(Admit(h, s), s);
    forall t | t in g.seats ensures Placed(g, t) {
      assert t == s || Placed(h, t);
    }
  }

  lemma EnlistKeeps(h: Hub, s: Subscriber)
    requires Inv(h) && s !in h.seats
    ensures Inv(Enqueue(Admit(h, s), s))
  {
    hide PubInv, Partition;
    EnlistKeepsPartition(h, s);
  }

  /** The alias table sends a new subscriber of `path` somewhere; `rewrite` is the target that the
      configured alias patterns give the path. */
  predicate Rerouted(h: Hub, path: string, rewrite: Option<string>) {
    if path in h.aliases then h.aliases[path].publisher.Some? else rewrite.Some? && rewrite.value in h.streams
  }

  /** Where a new subscriber of `path` belongs; None means the waiting list. */
  function Home(h: Hub, path: string, rewrite: Option<string>): Option<nat> {
    if Rerouted(h, path, rewrite) then
      if path in h.aliases then h.aliases[path].publisher else Some(h.streams[rewrite.value])
    else if path in h.streams then Some(h.streams[path])
    else None
  }

  /** A path without alias that a pattern rewrites gets one. */
  function AliasAdded(h: Hub, path: string, rewrite: Option<string>): Hub {
    if path !in h.aliases && rewrite.Some?
    then h.(aliases := h.aliases[path := Alias(rewrite.value, None, false)]) else h
  }

  function Arrived(h: Hub, s: Subscriber, home: Option<nat>): Hub {
    if home.Some? && home.value in h.pubs then Give(Admit(h, s), s, home.value) else Enqueue(Admit(h, s), s)
  }

  /** The stream of a new subscriber's own path is full, and the alias table does not send it elsewhere. */
  predicate Refused(h: Hub, path: string, rewrite: Option<string>, maxCount: int) {
    && !Rerouted(h, path, rewrite) && path in h.streams && h.streams[path] in h.pubs
    && 0 < maxCount <= |h.pubs[h.streams[path]].subs|
  }

  lemma AliasAddedKeeps(h: Hub, path: string, rewrite: Option<string>)
    requires Inv(h) && (rewrite.Some? ==> rewrite.value != path)
    ensures Inv(AliasAdded(h, path, rewrite))
    ensures Home(h, path, rewrite).Some? ==> Home(h, path, rewrite).value in h.pubs
  {
    hide PubInv, Partition;
    SamePartition(h, AliasAdded(h, path, rewrite));
  }

  lemma ArrivedKeeps(h: Hub, s: Subscriber, home: Option<nat>)
    requires Inv(h) && s !in h.seats && (home.Some? ==> home.value in h.pubs)
    ensures Inv(Arrived(h, s, home))
  {
    hide Inv, Give, Enqueue, Admit;
    if home.Some? {
      AttachKeeps(h, s, home.value);
    } else {
      EnlistKeeps(h, s);
    }
  }

  /** What Subscriber.Start relies on. */
  lemma StartFacts(h: Hub, s: Subscriber, rewrite: Option<string>)
    requires Inv(h) && s !in h.seats && (rewrite.Some? ==> rewrite.value != s.path)
    ensures Inv(AliasAdded(h, s.path, rewrite))
    ensures Home(h, s.path, rewrite).Some? ==> Home(h, s.path, rewrite).value in h.pubs
    ensures Inv(Arrived(AliasAdded(h, s.path, rewrite), s, Home(h, s.path, rewrite)))
    ensures Registered(Admit(h, s)) && (s.path in h.streams ==> h.streams[s.path] in h.pubs)
    ensures AliasAdded(Admit(h, s), s.path, rewrite) == Admit(AliasAdded(h, s.path, rewrite), s)
  {
    hide Partition, Sound, Give, Enqueue;
    AliasAddedKeeps(h, s.path, rewrite);
    ArrivedKeeps(AliasAdded(h, s.path, rewrite), s, Home(h, s.path, rewrite));
  }

  lemma SameRoute(h: Hub, s: Subscriber, rewrite: Option<string>)
    requires s !in h.seats
    ensures Rerouted(Admit(h, s), s.path, rewrite) == Rerouted(h, s.path, rewrite)
    ensures Home(Admit(h, s), s.path, rewrite) == Home(h, s.path, rewrite)
    ensures Admit(h, s).pubs == h.pubs && Admit(h, s).streams == h.streams && Admit(h, s).seats - {s} == h.seats
    ensures s in Admit(h, s).seats
    ensures AliasAdded(h, s.path, rewrite) == Admit(AliasAdded(h, s.path, rewrite), s).(seats := h.seats)
    ensures Admit(AliasAdded(h, s.path, rewrite), s).streams == h.streams
    ensures Admit(AliasAdded(h, s.path, rewrite), s).pubs == h.pubs
    ensures Admit(AliasAdded(h, s.path, rewrite), s).seats == Admit(h, s).seats
  {
  }

  /** Subscriber.Dispose. */
  ghost function Depart(h: Hub, s: Subscriber, defaultBuffer: int): Hub
    requires s in h.seats
  {
    var seat := h.seats[s];
    var g := h.(seats := h.seats - {s});
    if seat.waiting then
      if s.path in h.waiting then g.(waiting := h.waiting[s.path := h.waiting[s.path] - {s}]) else g
    else if seat.publisher.Some? && seat.publisher.value in h.pubs &&
            h.pubs[seat.publisher.value].state != Disposed then
      g.(pubs := h.pubs[seat.publisher.value := RemoveFrom(h.pubs[seat.publisher.value], s, defaultBuffer)])
    else g
  }

  /** Taking one subscriber from everywhere keeps the partition. */
  lemma GonePartition(h: Hub, g: Hub, s: Subscriber)
    requires Partition(h) && g.seats == h.seats - {s}
    requires g.waiting.Keys == h.waiting.Keys && g.pubs.Keys == h.pubs.Keys
    requires forall path | path in h.waiting :: g.waiting[path] == h.waiting[path] - {s}
    requires forall p | p in h.pubs :: g.pubs[p].subs == h.pubs[p].subs - {s}
    ensures Partition(g)
  {
    forall t | t in g.seats ensures Placed(g, t) {
      assert Placed(h, t);
    }
  }

  lemma DepartPartition(h: Hub, s: Subscriber, defaultBuffer: int)
    requires Partition(h) && Sound(h.pubs) && s in h.seats
    ensures Partition(Depart(h, s, defaultBuffer))
    ensures !h.seats[s].waiting ==>
      h.seats[s].publisher.Some? && h.seats[s].publisher.value in h.pubs && s in h.pubs[h.seats[s].publisher.value].subs
  {
    hide PubInv, Recomputed, Uncount;
    assert Placed(h, s);
    if !h.seats[s].waiting && h.pubs[h.seats[s].publisher.value].state == Disposed {
      DisposedIsEmpty(h.pubs[h.seats[s].publisher.value]);
    }
    GonePartition(h, Depart(h, s, defaultBuffer), s) by {
      hide Partition;
    }
  }

  lemma DepartKeeps(h: Hub, s: Subscriber, defaultBuffer: int)
    requires Inv(h) && s in h.seats && defaultBuffer >= 0
    ensures Inv(Depart(h, s, defaultBuffer))
  {
    hide PubInv, Recomputed, Uncount, Partition;
    DepartPartition(h, s, defaultBuffer);
    if !h.seats[s].waiting && h.seats[s].publisher.Some? && h.seats[s].publisher.value in h.pubs {
      var p := h.seats[s].publisher.value;
      if s in h.pubs[p].subs {
        RemoveKeeps(h.pubs[p], s, defaultBuffer);
      }
    }
  }

  // ----- a publisher starts -----

  /** Alias `name` of `path` has no publisher yet. */
  predicate Unbound(h: Hub, name: string, path: string) {
    name in h.aliases && h.aliases[name].target == path && h.aliases[name].publisher.None?
  }

  /** Alias `name` of `path` is served by publisher `q` of another path. */
  predicate Lends(h: Hub, name: string, path: string, q: nat) {
    && name in h.aliases && h.aliases[name].target == path && h.aliases[name].publisher == Some(q)
    && q in h.pubs && h.pubs[q].path != path
  }

  ghost predicate StandIn(h: Hub, q: nat, path: string, names: set<string>) {
    exists name | name in names :: Lends(h, name, path, q)
  }

  /** Binding the aliases in `names` to a new publisher of `path` claims `s`: an unbound alias gives up
      its waiters, a stand-in its server-type subscribers. */
  ghost predicate Claimed(h: Hub, s: Subscriber, path: string, names: set<string>)
    requires s in h.seats
  {
    var seat := h.seats[s];
    if seat.waiting then s.path in names && Unbound(h, s.path, path)
    else s.kind == Server && seat.publisher.Some? && StandIn(h, seat.publisher.value, path, names)
  }

  ghost function Claims(h: Hub, path: string, names: set<string>): set<Subscriber> {
    set s | s in h.seats && Claimed(h, s, path, names)
  }

  function Bound(h: Hub, alias: Alias, path: string, p: nat): Alias {
    if alias.target == path &&
       (alias.publisher.None? || (alias.publisher.value in h.pubs && h.pubs[alias.publisher.value].path != path))
    then alias.(publisher := Some(p)) else alias
  }

  function BoundAliases(h: Hub, path: string, p: nat, names: set<string>): map<string, Alias> {
    map name | name in h.aliases :: if name in names then Bound(h, h.aliases[name], path, p) else h.aliases[name]
  }

  function EmptiedAll(h: Hub, path: string, names: set<string>): Lists {
    map w | w in h.waiting :: if w in names && Unbound(h, w, path) then {} else h.waiting[w]
  }

  ghost predicate StandInsLeft(h0: Hub, h: Hub, p: nat, names: set<string>, defaultBuffer: int)
    requires p in h0.pubs
  {
    && h.pubs.Keys == h0.pubs.Keys
    && Joined(h0.pubs[p], h.pubs[p], Claims(h0, h0.pubs[p].path, names))
    && (forall q | q in h.pubs && q != p ::
          h.pubs[q] == if StandIn(h0, q, h0.pubs[p].path, names) then TransferOut(h0.pubs[q], defaultBuffer)
                       else h0.pubs[q])
  }

  /** The aliases in `names` have been bound to `p`, and nothing else has happened. */
  ghost predicate BoundAll(h0: Hub, h: Hub, p: nat, names: set<string>, defaultBuffer: int)
    requires p in h0.pubs
  {
    var path := h0.pubs[p].path;
    && h.streams == h0.streams
    && h.aliases == BoundAliases(h0, path, p, names)
    && h.seats == Reseat(h0.seats, AllTo(Claims(h0, path, names), p))
    && StandInsLeft(h0, h, p, names, defaultBuffer)
    && h.waiting == EmptiedAll(h0, path, names)
  }

  /** No alias names `p` yet. */
  predicate Unnamed(h: Hub, p: nat) {
    forall name | name in h.aliases :: h.aliases[name].publisher != Some(p)
  }

  lemma ReseatTwice(seats: Seats, a: set<Subscriber>, b: set<Subscriber>, p: nat)
    requires a !! b
    ensures Reseat(Reseat(seats, AllTo(a, p)), AllTo(b, p)) == Reseat(seats, AllTo(a + b, p))
  {
  }

  lemma BoundNone(h: Hub, p: nat, defaultBuffer: int)
    requires p in h.pubs
    ensures BoundAll(h, h, p, {}, defaultBuffer)
  {
    assert Claims(h, h.pubs[p].path, {}) == {};
    JoinedNone(h.pubs[p]);
  }

  lemma ClaimsUnbound(h: Hub, path: string, names: set<string>, name: string)
    requires Partition(h) && Unbound(h, name, path) && name !in names
    ensures Claims(h, path, names + {name}) == Claims(h, path, names) + On(h.waiting, name)
    ensures Claims(h, path, names) !! On(h.waiting, name)
  {
    assert forall q :: !Lends(h, name, path, q);
    assert forall q :: StandIn(h, q, path, names + {name}) <==> StandIn(h, q, path, names);
    assert forall s | s in h.seats :: Placed(h, s);
  }

  lemma AliasesMore(h: Hub, path: string, p: nat, names: set<string>, name: string)
    requires name in h.aliases && name !in names
    ensures BoundAliases(h, path, p, names + {name}) ==
            BoundAliases(h, path, p, names)[name := Bound(h, h.aliases[name], path, p)]
    ensures name in BoundAliases(h, path, p, names) && BoundAliases(h, path, p, names)[name] == h.aliases[name]
  {
    hide Bound;
  }

  lemma EmptiedMore(h: Hub, path: string, names: set<string>, name: string)
    requires name !in names
    ensures EmptiedAll(h, path, names + {name}) ==
            if Unbound(h, name, path) then Emptied(EmptiedAll(h, path, names), name) else EmptiedAll(h, path, names)
    ensures On(EmptiedAll(h, path, names), name) == On(h.waiting, name)
  {
    hide Unbound;
  }

  lemma WokenLeavesOthers(h: Hub, g: Hub, name: string, p: nat)
    requires Woken(h, g, name, p) && p in h.pubs
    ensures g.pubs.Keys == h.pubs.Keys && Joined(h.pubs[p], g.pubs[p], On(h.waiting, name))
    ensures forall q | q in h.pubs && q != p :: g.pubs[q] == h.pubs[q]
  {
    hide PubInv, RaisedBy, Reseat, AllTo;
  }

  lemma StandInMore(h: Hub, path: string, names: set<string>, name: string)
    ensures forall q :: StandIn(h, q, path, names + {name}) <==> StandIn(h, q, path, names) || Lends(h, name, path, q)
  {
    hide Lends;
    forall q ensures StandIn(h, q, path, names + {name}) <==> StandIn(h, q, path, names) || Lends(h, name, path, q) {
      if Lends(h, name, path, q) {
        assert name in names + {name};
      }
      if StandIn(h, q, path, names) {
        var other :| other in names && Lends(h, other, path, q);
        assert other in names + {name};
      }
    }
  }

  lemma BindUnbound(h0: Hub, h: Hub, g: Hub, p: nat, names: set<string>, name: string, defaultBuffer: int)
    requires Partition(h0) && p in h0.pubs && name !in names
    requires Unbound(h0, name, h0.pubs[p].path)
    requires BoundAll(h0, h, p, names, defaultBuffer) && Woken(h, g, name, p)
    ensures name in g.aliases
    ensures BoundAll(h0, g.(aliases := g.aliases[name := g.aliases[name].(publisher := Some(p))]), p,
                     names + {name}, defaultBuffer)
  {
    hide PubsGrown, Reseat, AllTo, Claims, Partition, EmptiedAll, BoundAliases, StandIn, PubInv, RaisedBy;
    var path := h0.pubs[p].path;
    AliasesMore(h0, path, p, names, name);
    EmptiedMore(h0, path, names, name);
    WokenLeavesOthers(h, g, name, p);
    StandInMore(h0, path, names, name);
    ClaimsUnbound(h0, path, names, name);
    ReseatTwice(h0.seats, Claims(h0, path, names), On(h0.waiting, name), p);
    JoinedTwice(h0.pubs[p], h.pubs[p], g.pubs[p], Claims(h0, path, names), On(h0.waiting, name));
  }

  lemma LendsOne(h: Hub, name: string, path: string, q: nat)
    requires Lends(h, name, path, q)
    ensures !Unbound(h, name, path) && q in h.pubs
    ensures forall r | r != q :: !Lends(h, name, path, r)
  {
  }

  lemma ClaimsLent(h: Hub, path: string, names: set<string>, name: string, q: nat)
    requires Partition(h) && Lends(h, name, path, q) && name !in names
    ensures var lent := OfKind(h.pubs[q].subs, Server);
      if StandIn(h, q, path, names) then Claims(h, path, names + {name}) == Claims(h, path, names)
      else Claims(h, path, names + {name}) == Claims(h, path, names) + lent && Claims(h, path, names) !! lent
  {
    hide Lends;
    LendsOne(h, name, path, q);
    StandInMore(h, path, names, name);
    forall s | s in h.seats
      ensures Claimed(h, s, path, names + {name}) <==>
              Claimed(h, s, path, names) || s in OfKind(h.pubs[q].subs, Server)
      ensures Claimed(h, s, path, names) && s in OfKind(h.pubs[q].subs, Server) ==> StandIn(h, q, path, names)
      ensures StandIn(h, q, path, names) && s in OfKind(h.pubs[q].subs, Server) ==> Claimed(h, s, path, names)
    {
      assert Placed(h, s);
    }
  }

  lemma TransferOutTwice(p: Pub, defaultBuffer: int)
    ensures OfKind(TransferOut(p, defaultBuffer).subs, Server) == {}
    ensures TransferOut(TransferOut(p, defaultBuffer), defaultBuffer) == TransferOut(p, defaultBuffer)
  {
  }

  lemma TransferredLeavesOthers(h: Hub, g: Hub, from: nat, to: nat, defaultBuffer: int)
    requires from in h.pubs && to in h.pubs && from != to && Transferred(h, g, from, to, defaultBuffer)
    ensures g.pubs.Keys == h.pubs.Keys && Joined(h.pubs[to], g.pubs[to], OfKind(h.pubs[from].subs, Server))
    ensures g.pubs[from] == TransferOut(h.pubs[from], defaultBuffer)
    ensures forall q | q in h.pubs && q != to && q != from :: g.pubs[q] == h.pubs[q]
  {
    hide PubInv, RaisedBy, Reseat, AllTo, TransferOut;
  }

  lemma BindLent(h0: Hub, h: Hub, g: Hub, p: nat, names: set<string>, name: string, q: nat, defaultBuffer: int)
    requires Partition(h0) && p in h0.pubs && name !in names
    requires Lends(h0, name, h0.pubs[p].path, q)
    requires BoundAll(h0, h, p, names, defaultBuffer) && Transferred(h, g, q, p, defaultBuffer)
    ensures name in g.aliases
    ensures BoundAll(h0, g.(aliases := g.aliases[name := g.aliases[name].(publisher := Some(p))]), p,
                     names + {name}, defaultBuffer)
  {
    hide Joined, Reseat, AllTo, Claims, Partition, EmptiedAll, BoundAliases, StandIn, TransferOut, OfKind;
    var path := h0.pubs[p].path;
    AliasesMore(h0, path, p, names, name);
    EmptiedMore(h0, path, names, name);
    TransferredLeavesOthers(h, g, q, p, defaultBuffer);
    StandInMore(h0, path, names, name);
    ClaimsLent(h0, path, names, name, q);
    if StandIn(h0, q, path, names) {
      TransferOutTwice(h0.pubs[q], defaultBuffer);
      ReseatTwice(h0.seats, Claims(h0, path, names), {}, p);
      assert Claims(h0, path, names) + {} == Claims(h0, path, names);
      JoinedTwice(h0.pubs[p], h.pubs[p], g.pubs[p], Claims(h0, path, names), {});
    } else {
      var lent := OfKind(h0.pubs[q].subs, Server);
      ReseatTwice(h0.seats, Claims(h0, path, names), lent, p);
      JoinedTwice(h0.pubs[p], h.pubs[p], g.pubs[p], Claims(h0, path, names), lent);
    }
  }

  lemma BindSkip(h0: Hub, h: Hub, p: nat, names: set<string>, name: string, defaultBuffer: int)
    requires p in h0.pubs && name in h0.aliases && name !in names && BoundAll(h0, h, p, names, defaultBuffer)
    requires !Unbound(h0, name, h0.pubs[p].path) && forall q :: !Lends(h0, name, h0.pubs[p].path, q)
    ensures BoundAll(h0, h, p, names + {name}, defaultBuffer)
  {
    hide Reseat, AllTo, EmptiedAll, BoundAliases, StandIn, TransferOut;
    var path := h0.pubs[p].path;
    AliasesMore(h0, path, p, names, name);
    EmptiedMore(h0, path, names, name);
    StandInMore(h0, path, names, name);
    assert Claims(h0, path, names + {name}) == Claims(h0, path, names);
    assert Bound(h0, h0.aliases[name], path, p) == h0.aliases[name] by {
      var alias := h0.aliases[name];
      if alias.publisher.Some? {
        assert !Lends(h0, name, path, alias.publisher.value);
      }
    }
  }

  /** What one round of binding may rely on. */
  lemma BindFacts(h0: Hub, h: Hub, p: nat, names: set<string>, name: string, defaultBuffer: int)
    requires Inv(h0) && p in h0.pubs && Unnamed(h0, p) && name in h0.aliases && name !in names
    requires BoundAll(h0, h, p, names, defaultBuffer)
    ensures name in h.aliases && h.aliases[name] == h0.aliases[name] && p in h.pubs
    ensures h.pubs[p].path == h0.pubs[p].path
    ensures forall q | h.aliases[name].publisher == Some(q) ::
      q != p && q in h0.pubs && q in h.pubs && h.pubs[q].path == h0.pubs[q].path
  {
    hide Claims, Reseat, AllTo, EmptiedAll, Partition, Sound;
    AliasesMore(h0, h0.pubs[p].path, p, names, name);
  }

  lemma SetAliasKeeps(h: Hub, name: string, alias: Alias)
    requires Inv(h) && name != alias.target && (alias.publisher.Some? ==> alias.publisher.value in h.pubs)
    ensures Inv(h.(aliases := h.aliases[name := alias]))
  {
    hide PubInv, Partition;
    SamePartition(h, h.(aliases := h.aliases[name := alias]));
  }

  lemma DropAliasKeeps(h: Hub, name: string)
    requires Inv(h)
    ensures Inv(h.(aliases := h.aliases - {name}))
  {
    hide PubInv, Partition;
    SamePartition(h, h.(aliases := h.aliases - {name}));
  }

  lemma InvPartition(h: Hub)
    requires Inv(h)
    ensures Partition(h) && Registered(h)
  {
  }

  lemma AliasTarget(h: Hub, name: string)
    requires Inv(h) && name in h.aliases
    ensures name != h.aliases[name].target
  {
  }

  function Opened(h: Hub, p: nat, path: string, bufferTime: int): Hub {
    h.(pubs := h.pubs[p := NewPub(path, bufferTime)], streams := h.streams[path := p])
  }

  lemma OpenedKeepsPartition(h: Hub, p: nat, path: string, bufferTime: int)
    requires Partition(h) && p !in h.pubs
    ensures Partition(Opened(h, p, path, bufferTime))
  {
    var g := Opened(h, p, path, bufferTime);
    forall s | s in g.seats ensures Placed(g, s) {
      assert Placed(h, s);
    }
  }

  lemma OpenedKeeps(h: Hub, p: nat, path: string, bufferTime: int)
    requires Inv(h) && p !in h.pubs
    ensures Inv(Opened(h, p, path, bufferTime)) && Unnamed(h, p)
  {
    hide PubInv, Partition;
    OpenedKeepsPartition(h, p, path, bufferTime);
    NewPubSound(path, bufferTime);
  }

  lemma StillUnnamed(h0: Hub, h: Hub, p: nat, path: string, bufferTime: int)
    requires Inv(h0) && p !in h0.pubs && Woken(Opened(h0, p, path, bufferTime), h, path, p)
    ensures Unnamed(h, p) && h.aliases == h0.aliases && p in h.pubs
  {
    hide Reseat, AllTo, Joined, PubInv;
  }

  /** Who a new publisher of `path` gets: everyone waiting for the path, and everyone its aliases claim. */
  ghost function Called(h: Hub, path: string): set<Subscriber> {
    On(h.waiting, path) + Claims(h, path, h.aliases.Keys)
  }

  /** Publisher `p` of `path` has started; nobody else was touched. */
  ghost predicate Published(h0: Hub, h: Hub, p: nat, path: string, bufferTime: int, defaultBuffer: int) {
    && h.streams == h0.streams[path := p]
    && h.aliases == BoundAliases(h0, path, p, h0.aliases.Keys)
    && h.seats == Reseat(h0.seats, AllTo(Called(h0, path), p))
    && h.pubs.Keys == h0.pubs.Keys + {p}
    && Joined(NewPub(path, bufferTime), h.pubs[p], Called(h0, path))
    && (forall q | q in h0.pubs :: h.pubs[q] ==
          if StandIn(h0, q, path, h0.aliases.Keys) then TransferOut(h0.pubs[q], defaultBuffer) else h0.pubs[q])
    && h.waiting == Emptied(EmptiedAll(h0, path, h0.aliases.Keys), path)
  }

  /** Opening a publisher and waking its path's list leaves the aliases as they were. */
  ghost predicate SameForAliases(h0: Hub, h: Hub, p: nat, path: string) {
    && h.aliases == h0.aliases && p !in h0.pubs && p in h.pubs && h.pubs[p].path == path
    && h.pubs.Keys == h0.pubs.Keys + {p}
    && forall q | q in h0.pubs :: h.pubs[q] == h0.pubs[q]
  }

  lemma OpenedWoken(h0: Hub, h: Hub, p: nat, path: string, bufferTime: int)
    requires p !in h0.pubs && Woken(Opened(h0, p, path, bufferTime), h, path, p)
    ensures SameForAliases(h0, h, p, path)
    ensures Joined(NewPub(path, bufferTime), h.pubs[p], On(h0.waiting, path))
  {
    hide PubsGrown, Reseat, AllTo, PubInv, RaisedBy, Emptied;
    WokenLeavesOthers(Opened(h0, p, path, bufferTime), h, path, p);
  }

  lemma SameStandIns(h0: Hub, h: Hub, p: nat, path: string, names: set<string>)
    requires Registered(h0) && SameForAliases(h0, h, p, path)
    ensures forall name, q :: Lends(h, name, path, q) <==> Lends(h0, name, path, q)
    ensures forall q :: StandIn(h, q, path, names) <==> StandIn(h0, q, path, names)
    ensures !StandIn(h, p, path, names)
    ensures BoundAliases(h, path, p, names) == BoundAliases(h0, path, p, names)
    ensures forall name :: Unbound(h, name, path) <==> Unbound(h0, name, path)
    ensures !Unbound(h0, path, path)
  {
  }

  lemma SameClaims(h0: Hub, h: Hub, p: nat, path: string, names: set<string>)
    requires Partition(h0) && Registered(h0) && SameForAliases(h0, h, p, path)
    requires h.seats == Reseat(h0.seats, AllTo(On(h0.waiting, path), p))
    ensures Claims(h, path, names) == Claims(h0, path, names)
    ensures Claims(h0, path, names) !! On(h0.waiting, path)
  {
    hide StandIn, Lends, Unbound, SameForAliases, Registered;
    SameStandIns(h0, h, p, path, names);
    forall s | s in h0.seats
      ensures Claimed(h, s, path, names) <==> Claimed(h0, s, path, names)
      ensures Claimed(h0, s, path, names) ==> s !in On(h0.waiting, path)
    {
      assert Placed(h0, s);
    }
  }

  lemma SameLists(h0: Hub, h: Hub, path: string, names: set<string>)
    requires h.waiting == Emptied(h0.waiting, path)
    requires forall name :: Unbound(h, name, path) <==> Unbound(h0, name, path)
    ensures EmptiedAll(h, path, names) == Emptied(EmptiedAll(h0, path, names), path)
  {
    hide Unbound;
  }

  lemma PublishedPubs(h0: Hub, h: Hub, g: Hub, p: nat, path: string, defaultBuffer: int)
    requires Registered(h0) && SameForAliases(h0, h, p, path)
    requires StandInsLeft(h, g, p, h0.aliases.Keys, defaultBuffer)
    ensures g.pubs.Keys == h0.pubs.Keys + {p} && Joined(h.pubs[p], g.pubs[p], Claims(h, path, h0.aliases.Keys))
    ensures forall q | q in h0.pubs ::
      g.pubs[q] == if StandIn(h0, q, path, h0.aliases.Keys) then TransferOut(h0.pubs[q], defaultBuffer)
                   else h0.pubs[q]
  {
    SameStandIns(h0, h, p, path, h0.aliases.Keys);
  }

  lemma PublishedInSteps(h0: Hub, h: Hub, g: Hub, p: nat, path: string, bufferTime: int, defaultBuffer: int)
    requires Inv(h0) && p !in h0.pubs && Woken(Opened(h0, p, path, bufferTime), h, path, p)
    requires p in h.pubs && BoundAll(h, g, p, h.aliases.Keys, defaultBuffer)
    ensures Published(h0, g, p, path, bufferTime, defaultBuffer)
  {
    hide PubsGrown, Reseat, AllTo, Claims, StandIn, Lends, Unbound, BoundAliases, Partition, Registered, TransferOut,
      PubInv, Sound, Emptied, EmptiedAll, On, SameForAliases;
    var names := h0.aliases.Keys;
    OpenedWoken(h0, h, p, path, bufferTime);
    SameStandIns(h0, h, p, path, names);
    SameClaims(h0, h, p, path, names);
    ReseatTwice(h0.seats, On(h0.waiting, path), Claims(h0, path, names), p);
    SameLists(h0, h, path, names);
    PublishedPubs(h0, h, g, p, path, defaultBuffer);
    JoinedTwice(NewPub(path, bufferTime), h.pubs[p], g.pubs[p], On(h0.waiting, path), Claims(h0, path, names));
  }

  lemma JoinedNew(path: string, bufferTime: int, p: Pub, joined: set<Subscriber>)
    requires Joined(NewPub(path, bufferTime), p, joined)
    ensures p.subs == joined && p.path == path && !p.gone
  {
    assert {} + joined == joined;
  }

  lemma JoinedFresh(path: string, bufferTime: int, p: Pub, joined: set<Subscriber>)
    requires Joined(NewPub(path, bufferTime), p, joined)
    ensures p.bufferTime == MaxOf(Buffers(joined), bufferTime)
    ensures p.state == if joined == {} then Init else Subscribed
  {
    assert joined - {} == joined;
  }

  lemma PublishedLists(h: Hub, path: string)
    requires Partition(h)
    ensures Called(h, path) <= h.seats.Keys
    ensures forall w | w in h.waiting ::
      Emptied(EmptiedAll(h, path, h.aliases.Keys), path)[w] == h.waiting[w] - Called(h, path)
    ensures Emptied(EmptiedAll(h, path, h.aliases.Keys), path).Keys == h.waiting.Keys
  {
    forall w, s | w in h.waiting && s in h.waiting[w]
      ensures s in Called(h, path) <==> w == path || Unbound(h, w, path)
    {
      assert Placed(h, s);
    }
    forall s | s in On(h.waiting, path) ensures s in h.seats {
    }
  }

  lemma PublishedSubs(h: Hub, path: string, defaultBuffer: int)
    requires Partition(h)
    ensures forall q | q in h.pubs ::
      h.pubs[q].subs - Called(h, path) ==
        if StandIn(h, q, path, h.aliases.Keys) then TransferOut(h.pubs[q], defaultBuffer).subs else h.pubs[q].subs
  {
    hide StandIn;
    forall q, s | q in h.pubs && s in h.pubs[q].subs
      ensures s in Called(h, path) <==> s.kind == Server && StandIn(h, q, path, h.aliases.Keys)
    {
      assert Placed(h, s);
    }
  }

  lemma PublishedSettled(h0: Hub, h: Hub, p: nat, path: string, bufferTime: int, defaultBuffer: int)
    requires Partition(h0) && p !in h0.pubs && Published(h0, h, p, path, bufferTime, defaultBuffer)
    ensures Settled(Opened(h0, p, path, bufferTime), h, AllTo(Called(h0, path), p))
  {
    hide Joined, Reseat, AllTo, BoundAliases, Partition, Placed, TransferOut, StandIn, Emptied, EmptiedAll, Called;
    PublishedLists(h0, path);
    PublishedSubs(h0, path, defaultBuffer);
    JoinedNew(path, bufferTime, h.pubs[p], Called(h0, path));
    assert forall s | s in AllTo(Called(h0, path), p) :: s in To(AllTo(Called(h0, path), p), p);
  }

  lemma PublishedSound(h0: Hub, h: Hub, p: nat, path: string, bufferTime: int, defaultBuffer: int)
    requires Sound(h0.pubs) && p !in h0.pubs && Published(h0, h, p, path, bufferTime, defaultBuffer)
    ensures Sound(h.pubs)
  {
    hide PubInv, RaisedBy, Reseat, AllTo, BoundAliases, EmptiedAll, Called, StandIn, TransferOut;
    NewPubSound(path, bufferTime);
    forall q | q in h0.pubs ensures PubInv(h.pubs[q]) {
      TransferOutKeeps(h0.pubs[q], defaultBuffer);
    }
  }

  lemma PublishedRegistered(h0: Hub, h: Hub, p: nat, path: string, bufferTime: int, defaultBuffer: int)
    requires Registered(h0) && p !in h0.pubs && Published(h0, h, p, path, bufferTime, defaultBuffer)
    ensures Registered(h)
  {
    hide PubInv, RaisedBy, Reseat, AllTo, EmptiedAll, Called, StandIn;
  }

  lemma PublishedKeeps(h0: Hub, h: Hub, p: nat, path: string, bufferTime: int, defaultBuffer: int)
    requires Inv(h0) && p !in h0.pubs && Published(h0, h, p, path, bufferTime, defaultBuffer)
    ensures Inv(h)
  {
    hide Partition, Settled, Registered, Sound, Published;
    OpenedKeeps(h0, p, path, bufferTime);
    PublishedSettled(h0, h, p, path, bufferTime, defaultBuffer);
    SettledPartition(Opened(h0, p, path, bufferTime), h, AllTo(Called(h0, path), p));
    PublishedSound(h0, h, p, path, bufferTime, defaultBuffer);
    PublishedRegistered(h0, h, p, path, bufferTime, defaultBuffer);
  }

  // ----- what the invariant means for one subscriber -----

  /** Every live subscriber is in exactly one place, and its channel was closed at most once. */
  lemma ExactlyOnePlace(h: Hub, s: Subscriber)
    requires Inv(h) && s in h.seats
    ensures |set path | path in h.waiting && s in h.waiting[path]| + |set p | p in h.pubs && s in h.pubs[p].subs| == 1
    ensures h.seats[s].closes <= 1
  {
    hide PubInv;
    assert Placed(h, s);
    var lists := set path | path in h.waiting && s in h.waiting[path];
    var homes := set p | p in h.pubs && s in h.pubs[p].subs;
    if h.seats[s].waiting {
      assert lists == {s.path} && homes == {};
    } else {
      assert lists == {} && homes == {h.seats[s].publisher.value};
    }
  }

  /** A new publisher gets exactly those waiting for its path or for an unbound alias of it, and the
      server-type subscribers of other paths' publishers that serve such an alias; nobody else moves. */
  lemma PublishedGets(h0: Hub, h: Hub, p: nat, path: string, bufferTime: int, defaultBuffer: int, s: Subscriber)
    requires Inv(h0) && p !in h0.pubs && Published(h0, h, p, path, bufferTime, defaultBuffer) && s in h0.seats
    ensures s in h.pubs[p].subs <==>
      var seat := h0.seats[s];
      if seat.waiting then s.path == path || Unbound(h0, s.path, path)
      else s.kind == Server && exists name :: Lends(h0, name, path, seat.publisher.value)
    ensures s in h.seats && (s in h.pubs[p].subs || h.seats[s] == h0.seats[s])
    ensures h.pubs[p].subs <= h0.seats.Keys
  {
    hide PubInv, EmptiedAll, BoundAliases, TransferOut, RaisedBy;
    SeatsKnown(h0);
    assert Placed(h0, s);
    var seat := h0.seats[s];
    if !seat.waiting {
      if name :| Lends(h0, name, path, seat.publisher.value) {
        assert name in h0.aliases.Keys;
        assert StandIn(h0, seat.publisher.value, path, h0.aliases.Keys);
      }
    }
  }

  /** The subscribers of an ended publisher are back at the stream that an alias to it had replaced, if they
      had asked for that stream and it is live, or wait for their own path. */
  lemma UnpublishedLeaves(h0: Hub, h: Hub, p: nat, s: Subscriber)
    requires Inv(h0) && Inv(h) && p in h0.pubs && Unpublished(h0, h, p) && s in h0.pubs[p].subs
    ensures
      if s.path in h0.aliases && h0.aliases[s.path].target == h0.pubs[p].path && s.path in h0.streams
      then h0.streams[s.path] in h.pubs && s in h.pubs[h0.streams[s.path]].subs
      else s.path in h.waiting && s in h.waiting[s.path]
  {
    hide PubInv, Joined, ListsGrown, AliasesLeft, DisposeOf;
    SeatsKnown(h0);
    assert Placed(h, s);
  }

  /** In every reachable state the delay-close exit of a live publisher concerns none of the live
      server-type subscribers, nor a vod one unless a transfer has run. */
  lemma DelayCloseConcernsNobody(h: Hub, p: nat, conf: PublishConf, e: GoEvent, s: Subscriber)
    requires Inv(h) && p in h.pubs && !h.pubs[p].gone && !e.TaskDone?
    requires GoExit(h.pubs[p].state, conf, e) == Some(DelayCloseTimeout)
    requires s in h.seats && !h.seats[s].waiting && h.seats[s].publisher == Some(p)
    ensures s.kind != Server && (!h.pubs[p].transferred ==> s.kind != Vod)
  {
    hide PubInv, GoExit;
    assert Placed(h, s);
    DelayCloseOnlyUnwatched(h.pubs[p], conf, e);
  }

  /** In every reachable state that exit can end a live publisher under a live subscriber that watches it
      exactly if the publisher waits with one attached, which takes a transfer that left a vod subscriber
      behind (PublisherRuns.WatchedCloseOverRuns). */
  lemma DelayCloseExactly(h: Hub, p: nat, conf: PublishConf)
    requires Inv(h) && p in h.pubs && !h.pubs[p].gone
    ensures
      && (exists e: GoEvent :: !e.TaskDone? && GoExit(h.pubs[p].state, conf, e) == Some(DelayCloseTimeout))
      && (exists s | s in h.seats ::
            !h.seats[s].waiting && h.seats[s].publisher == Some(p) && (s.kind == Server || s.kind == Vod))
      <==> conf.delayCloseTimeout > 0 && WatchedWait(h.pubs[p])
  {
    WatchedCloseExactly(h.pubs[p], conf);
    hide PubInv, GoExit, WatchedWait;
    SeatsKnown(h);
    assert forall s | s in h.seats :: Placed(h, s);
  }

  /** Alias `name`, if it names a publisher, names a live one. */
  predicate NamesLive(h: Hub, name: string)
    requires name in h.aliases
  {
    var publisher := h.aliases[name].publisher;
    publisher.Some? && publisher.value in h.pubs ==> !h.pubs[publisher.value].gone
  }

  /** The end of a publisher clears only the aliases of its own path. One that it served as a stand-in
      goes on naming it, and sends new subscribers of that alias to the dead publisher. */
  lemma UnpublishNamesLive(h0: Hub, h: Hub, p: nat, name: string)
    requires p in h0.pubs && Unpublished(h0, h, p)
    requires name in h0.aliases && name in h.aliases && NamesLive(h0, name)
    ensures var standIn := h0.aliases[name].publisher == Some(p) && h0.aliases[name].target != h0.pubs[p].path;
      && (NamesLive(h, name) <==> !standIn)
      && (standIn ==> forall rewrite :: Home(h, name, rewrite) == Some(p))
  {
    hide PubInv, RaisedBy, Reseat, Evicted, ListsGrown;
    var publisher := h0.aliases[name].publisher;
    if publisher.Some? && publisher.value in h0.pubs && publisher.value != p {
      assert h.pubs[publisher.value].gone == h0.pubs[publisher.value].gone;
    }
  }

  /** A server where this happens: stream "a" stands in for alias "a" of "b" and ends. */
  lemma StandInOutlived(rewrite: Option<string>)
    ensures exists h0, h ::
      && Inv(h0) && Inv(h) && 0 in h0.pubs && Unpublished(h0, h, 0)
      && "a" in h.aliases && NamesLive(h0, "a") && !NamesLive(h, "a") && Home(h, "a", rewrite) == Some(0)
  {
    var empty := Hub(map[], map[], map[], map[], map[]);
    OpenedKeeps(empty, 0, "a", 0);
    var live := Opened(empty, 0, "a", 0);
    SetAliasKeeps(live, "a", Alias("b", Some(0), false));
    var h0 := live.(aliases := map["a" := Alias("b", Some(0), false)]);
    assert live.aliases["a" := Alias("b", Some(0), false)] == h0.aliases;
    var h := h0.(pubs := map[0 := DisposeOf(h0.pubs[0])], streams := map[]);
    assert h0.streams - {"a"} == map[];
    assert Unpublished(h0, h, 0);
    UnpublishedKeeps(h0, h, 0);
  }
}
