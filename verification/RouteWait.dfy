/** Waiting, inside the API routing layer, for a stream to be published
    (grpc_api_route_wait.go). Times are nanoseconds after the call. */
module RouteWait {

  const STREAM_INTERVAL: int := 200_000_000

  /** One probe: the stream is here, or on the peer `target`, or (empty target) nowhere. */
  datatype Probe = Probe(local: bool, target: string)

  datatype Action = Continue | Local | Forward | NotFound

  predicate Empty(p: Probe) {
    !p.local && p.target == ""
  }

  /** Local beats a peer, and an answer beats the deadline. */
  function DecideAPIRouteWaitAction(probe: Probe, expired: bool): (r: (Action, string))
    ensures r.0 == Local <==> probe.local
    ensures r.0 == Forward <==> !probe.local && probe.target != ""
    ensures r.0 == Forward ==> r.1 == probe.target
    ensures r.0 != Forward ==> r.1 == ""
    ensures r.0 == NotFound <==> Empty(probe) && expired
  {
    if probe.local then (Local, "")
    else if probe.target != "" then (Forward, probe.target)
    else if expired then (NotFound, "")
    else (Continue, "")
  }

  /** What the wait meets, by probe number: the answer, the clock when the answer is judged, and
      whether the select after an inconclusive answer picks the cancelled context over a tick. */
  datatype World = World(probe: nat -> Probe, clock: nat -> int, cancelled: nat -> bool)

  /** The i-th received tick comes no earlier than i intervals. */
  ghost predicate TicksInOrder(w: World, interval: int) {
    forall i: nat :: w.clock(i) >= i * interval
  }

  function Tightened(timeout: int, interval: int): int {
    var i := if interval <= 0 then STREAM_INTERVAL else interval;
    if i > timeout then timeout else i
  }

  /** The interval asked for, or the default one if none is, but never longer than the whole window. */
  lemma TightenedMeans(timeout: int, interval: int)
    requires timeout > 0
    ensures 0 < Tightened(timeout, interval) <= timeout
    ensures 0 < interval <= timeout ==> Tightened(timeout, interval) == interval
    ensures interval <= 0 && timeout >= 200_000_000 ==> Tightened(timeout, interval) == 200_000_000
  {
  }

  function CeilDiv(a: int, b: int): int
    requires b > 0
  {
    (a + b - 1) / b
  }

  lemma CeilCovers(a: int, b: int)
    requires a > 0 && b > 0
    ensures CeilDiv(a, b) * b >= a && CeilDiv(a, b) >= 1
  {
    var q := (a + b - 1) / b;
    assert a + b - 1 == q * b + (a + b - 1) % b;
  }

  /** Polls `w.probe` until the stream appears or the window is used up. `probes` counts the probes
      made. */
  method WaitAPIRouteStream(timeout: int, interval: int, w: World)
    returns (action: Action, target: string, probes: nat)
    requires timeout > 0 ==> TicksInOrder(w, Tightened(timeout, interval))
    ensures action != Continue
    ensures probes == 0 <==> timeout <= 0
    ensures timeout > 0 ==> probes <= CeilDiv(timeout, Tightened(timeout, interval)) + 1
    ensures forall i: nat | i + 1 < probes :: Empty(w.probe(i)) && w.clock(i) < timeout && !w.cancelled(i)
    ensures action == Local <==> probes > 0 && w.probe(probes - 1).local
    ensures action == Forward <==>
      probes > 0 && !w.probe(probes - 1).local && w.probe(probes - 1).target != ""
    ensures target == if action == Forward then w.probe(probes - 1).target else ""
    ensures action == NotFound <==>
      timeout <= 0 || (Empty(w.probe(probes - 1)) && (w.clock(probes - 1) >= timeout || w.cancelled(probes - 1)))
  {
    if timeout <= 0 {
      return NotFound, "", 0;
    }
    var interval := interval;
    if interval <= 0 {
      interval := STREAM_INTERVAL;
    }
    if interval > timeout {
      interval := timeout;
    }
    ghost var most := CeilDiv(timeout, interval);
    CeilCovers(timeout, interval);
    probes := 0;
    while true
      invariant 0 <= probes <= most
      invariant forall i: nat | i < probes :: Empty(w.probe(i)) && w.clock(i) < timeout && !w.cancelled(i)
      decreases most - probes
    {
      var result := w.probe(probes);
      var expired := w.clock(probes) >= timeout;
      if probes == most {
        assert w.clock(probes) >= most * interval;
      }
      var decision := DecideAPIRouteWaitAction(result, expired);
      probes := probes + 1;
      if decision.0 != Continue {
        return decision.0, decision.1, probes;
      }
      if w.cancelled(probes - 1) {
        return NotFound, "", probes;
      }
    }
  }
}
