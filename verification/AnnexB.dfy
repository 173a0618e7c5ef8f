/** The byte stream format of Annex B (section B.1.1) of ITU-T H.264, over one flat byte string.

    `FirstStart`, `ReadStep` and `Parse` say what a splitter that sees all the bytes at once
    returns; `Print` writes NAL units in the same format. The chunked reader in AnnexBReader.dfy is
    proved against them.
  */
module AnnexB {

  newtype Byte = b: int | 0 <= b < 256

  type Bytes = seq<Byte>

  /** A 3-byte start code begins at `i`. */
  predicate Three(s: Bytes, i: nat) {
    i + 3 <= |s| && s[i] == 0 && s[i + 1] == 0 && s[i + 2] == 1
  }

  /** A 4-byte start code begins at `i`. */
  predicate Four(s: Bytes, i: nat) {
    i + 4 <= |s| && s[i] == 0 && s[i + 1] == 0 && s[i + 2] == 0 && s[i + 3] == 1
  }

  predicate StartAt(s: Bytes, i: nat) {
    Three(s, i) || Four(s, i)
  }

  function StartLen(s: Bytes, i: nat): (n: nat)
    requires StartAt(s, i)
    ensures n <= |s| - i && 3 <= n <= 4
  {
    if Four(s, i) then 4 else 3
  }

  /** The first start code at or after `i`, or |s|. */
  function Scan(s: Bytes, i: nat): (k: nat)
    requires i <= |s|
    ensures i <= k <= |s|
    ensures k < |s| ==> StartAt(s, k)
    ensures forall j: nat | i <= j < k :: !StartAt(s, j)
    decreases |s| - i
  {
    if i == |s| || StartAt(s, i) then i else Scan(s, i + 1)
  }

  /** The position of the first start code, or |s| when there is none. */
  function FirstStart(s: Bytes): (k: nat)
    ensures k <= |s|
    ensures k < |s| ==> StartAt(s, k)
    ensures forall j: nat | j < k :: !StartAt(s, j)
  {
    Scan(s, 0)
  }

  /** The first start code is the only position with those two properties. */
  lemma FirstStartUnique(s: Bytes, k: nat)
    requires k <= |s| && (k < |s| ==> StartAt(s, k))
    requires forall j: nat | j < k :: !StartAt(s, j)
    ensures k == FirstStart(s)
  {
    var f := FirstStart(s);
    assert k <= f;
  }

  lemma StartBoundsFirst(s: Bytes, j: nat)
    requires StartAt(s, j)
    ensures FirstStart(s) <= j
  {
  }

  /** A first start code is never the tail of a longer one: the byte in front of it is not 00. */
  lemma FirstStartNotPrecededByZero(s: Bytes)
    requires 0 < FirstStart(s) < |s| && Three(s, FirstStart(s))
    ensures s[FirstStart(s) - 1] != 0
  {
    var k := FirstStart(s);
    assert !StartAt(s, k - 1);
  }

  /** What one read does: nothing complete yet, garbage in front, or one NAL unit of `len` payload
      bytes behind a start code of `code` bytes. */
  datatype Step = Incomplete | Invalid | Nalu(code: nat, len: nat)

  function ReadStep(s: Bytes): (r: Step)
    ensures r.Nalu? ==> 3 <= r.code <= 4 && r.code + r.len < |s|
  {
    var k := FirstStart(s);
    if k == |s| then Incomplete
    else if k > 0 then Invalid
    else
      var body := s[StartLen(s, 0)..];
      var n := FirstStart(body);
      if n == |body| then Incomplete else Nalu(StartLen(s, 0), n)
  }

  /** A read reports invalid data exactly if there is a start code, but not in front. */
  lemma InvalidExactly(s: Bytes)
    ensures ReadStep(s) == Invalid <==> (exists j: nat :: StartAt(s, j)) && !StartAt(s, 0)
  {
    if j: nat :| StartAt(s, j) {
      StartBoundsFirst(s, j);
    }
  }

  /** It returns a NAL unit exactly if there is a start code in front and another one behind it; then the
      unit ends at the first of those. */
  lemma NaluExactly(s: Bytes)
    ensures ReadStep(s).Nalu? <==> StartAt(s, 0) && exists j: nat :: StartAt(s[StartLen(s, 0)..], j)
    ensures var r := ReadStep(s); r.Nalu? ==>
      && r.code == StartLen(s, 0) && StartAt(s[r.code..], r.len)
      && forall j: nat | j < r.len :: !StartAt(s[r.code..], j)
  {
    if StartAt(s, 0) {
      StartBoundsFirst(s, 0);
      if j: nat :| StartAt(s[StartLen(s, 0)..], j) {
        StartBoundsFirst(s[StartLen(s, 0)..], j);
      }
    }
  }

  /** The payloads a reader of the whole string returns, in order. */
  function Parse(s: Bytes): seq<Bytes> {
    match ReadStep(s)
    case Nalu(code, len) => [s[code..code + len]] + Parse(s[code + len..])
    case _ => []
  }

  // ----- appending bytes never changes a decision that was taken -----

  lemma StartStable(s: Bytes, t: Bytes, i: nat)
    requires i + 3 <= |s|
    ensures Three(s + t, i) == Three(s, i)
    ensures i + 4 <= |s| ==> Four(s + t, i) == Four(s, i)
  {
  }

  /** A start code that was found stays the first one, with the same length. */
  lemma FoundStartIsStable(s: Bytes, t: Bytes)
    requires FirstStart(s) < |s|
    ensures FirstStart(s + t) == FirstStart(s)
    ensures StartLen(s + t, FirstStart(s)) == StartLen(s, FirstStart(s))
  {
    var k := FirstStart(s);
    StartStable(s, t, k);
    forall j: nat | j < k ensures !StartAt(s + t, j) {
      StartStable(s, t, j);
      assert !StartAt(s, j);
    }
    FirstStartUnique(s + t, k);
  }

  lemma StepIsStable(s: Bytes, t: Bytes)
    requires ReadStep(s) != Incomplete
    ensures ReadStep(s + t) == ReadStep(s)
  {
    FoundStartIsStable(s, t);
    if ReadStep(s).Nalu? {
      var c := StartLen(s, 0);
      FoundStartIsStable(s[c..], t);
      assert (s + t)[c..] == s[c..] + t;
    }
  }

  /** The position of a NAL unit's end is the position of a start code, so what is left of an
      aligned string after a read is aligned again. */
  lemma RestStartsWithCode(s: Bytes)
    requires ReadStep(s).Nalu?
    ensures var r := ReadStep(s); StartAt(s[r.code + r.len..], 0)
  {
    var r := ReadStep(s);
    assert s[r.code..][r.len..] == s[r.code + r.len..];
    assert StartAt(s[r.code..], r.len);
  }

  /** A payload never contains a start code. */
  lemma PayloadHasNoStart(s: Bytes)
    requires ReadStep(s).Nalu?
    ensures var r := ReadStep(s); var p := s[r.code..r.code + r.len];
      forall j: nat :: !StartAt(p, j)
  {
    var r := ReadStep(s);
    var body := s[r.code..];
    assert s[r.code..r.code + r.len] == body[..r.len];
    assert body == body[..r.len] + body[r.len..];
    forall j: nat ensures !StartAt(body[..r.len], j) {
      if StartAt(body[..r.len], j) {
        assert StartAt(body, j);
      }
    }
  }

  // ----- runs: appended chunks interleaved with reads -----

  datatype Event = Append(chunk: Bytes) | Read

  /** All bytes handed over during a run. */
  function Appended(es: seq<Event>): Bytes {
    if |es| == 0 then []
    else (if es[0].Append? then es[0].chunk else []) + Appended(es[1..])
  }

  /** The unread bytes after one read. */
  function AfterRead(view: Bytes): (rest: Bytes)
    ensures |rest| <= |view|
  {
    match ReadStep(view)
    case Nalu(code, len) => view[code + len..]
    case _ => view
  }

  function ReadOutput(view: Bytes): seq<Bytes> {
    match ReadStep(view)
    case Nalu(code, len) => [view[code..code + len]]
    case _ => []
  }

  /** The payloads emitted by a run that starts with `view` unread. */
  function Emitted(view: Bytes, es: seq<Event>): seq<Bytes>
    decreases |es|
  {
    if |es| == 0 then []
    else match es[0]
      case Append(chunk) => Emitted(view + chunk, es[1..])
      case Read => ReadOutput(view) + Emitted(AfterRead(view), es[1..])
  }

  /** The unread bytes after a run. */
  function Unread(view: Bytes, es: seq<Event>): Bytes
    decreases |es|
  {
    if |es| == 0 then view
    else match es[0]
      case Append(chunk) => Unread(view + chunk, es[1..])
      case Read => Unread(AfterRead(view), es[1..])
  }

  lemma ParseOne(s: Bytes, code: nat, unit: Bytes, rest: Bytes)
    requires ReadStep(s) == Nalu(code, |unit|)
    requires s[code..code + |unit|] == unit && s[code + |unit|..] == rest
    ensures Parse(s) == [unit] + Parse(rest)
  {
  }

  lemma ReadWithFuture(view: Bytes, future: Bytes, code: nat, len: nat)
    requires ReadStep(view) == Nalu(code, len)
    ensures ReadStep(view + future) == Nalu(code, len)
    ensures (view + future)[code..code + len] == view[code..code + len]
    ensures (view + future)[code + len..] == view[code + len..] + future
  {
    StepIsStable(view, future);
  }

  lemma ParseAfterRead(view: Bytes, future: Bytes)
    ensures Parse(view + future) == ReadOutput(view) + Parse(AfterRead(view) + future)
  {
    match ReadStep(view)
    case Nalu(code, len) =>
      ReadWithFuture(view, future, code, len);
      var unit := view[code..code + len];
      assert ReadOutput(view) == [unit];
      ParseOne(view + future, code, unit, AfterRead(view) + future);
    case _ =>
  }

  lemma RunAppend(view: Bytes, chunk: Bytes, es: seq<Event>)
    ensures Emitted(view, [Append(chunk)] + es) == Emitted(view + chunk, es)
    ensures Unread(view, [Append(chunk)] + es) == Unread(view + chunk, es)
    ensures Appended([Append(chunk)] + es) == chunk + Appended(es)
  {
    assert ([Append(chunk)] + es)[1..] == es;
  }

  lemma RunRead(view: Bytes, es: seq<Event>)
    ensures Emitted(view, [Read] + es) == ReadOutput(view) + Emitted(AfterRead(view), es)
    ensures Unread(view, [Read] + es) == Unread(AfterRead(view), es)
    ensures Appended([Read] + es) == Appended(es)
  {
    assert ([Read] + es)[1..] == es;
    assert [] + Appended(es) == Appended(es);
  }

  lemma PlusAssoc(a: seq<Bytes>, b: seq<Bytes>, c: seq<Bytes>)
    ensures (a + b) + c == a + (b + c)
  {
  }

  /** What was emitted so far, followed by what is still to be parsed, is the flat parse. */
  ghost predicate Balanced(view: Bytes, es: seq<Event>) {
    Emitted(view, es) + Parse(Unread(view, es)) == Parse(view + Appended(es))
  }

  lemma BalancedAppend(view: Bytes, chunk: Bytes, es: seq<Event>)
    requires Balanced(view + chunk, es)
    ensures Balanced(view, [Append(chunk)] + es)
  {
    RunAppend(view, chunk, es);
    assert view + chunk + Appended(es) == view + (chunk + Appended(es));
  }

  lemma BalancedRead(view: Bytes, es: seq<Event>)
    requires Balanced(AfterRead(view), es)
    ensures Balanced(view, [Read] + es)
  {
    RunRead(view, es);
    ParseAfterRead(view, Appended(es));
    PlusAssoc(ReadOutput(view), Emitted(AfterRead(view), es), Parse(Unread(AfterRead(view), es)));
  }

  /** Chunk invariance: however a stream is cut and whenever reads happen, the emitted units are a
      prefix of the flat parse of the whole stream, and the unread bytes parse to the rest. It needs
      no assumption on the stream. */
  lemma {:induction false} ChunkInvariance(view: Bytes, es: seq<Event>)
    ensures Balanced(view, es)
    ensures Emitted(view, es) <= Parse(view + Appended(es))
    decreases |es|
  {
    if |es| == 0 {
      assert view + [] == view;
    } else {
      assert es == [es[0]] + es[1..];
      match es[0]
      case Append(chunk) =>
        ChunkInvariance(view + chunk, es[1..]);
        BalancedAppend(view, chunk, es[1..]);
      case Read =>
        ChunkInvariance(AfterRead(view), es[1..]);
        BalancedRead(view, es[1..]);
    }
  }

  /** After event `i` of a run, what is still to come completes what was emitted. */
  ghost predicate Tracks(emitted: seq<Bytes>, view: Bytes, es: seq<Event>, i: nat)
    requires i <= |es|
  {
    && emitted + Emitted(view, es[i..]) == Emitted([], es)
    && Unread(view, es[i..]) == Unread([], es)
  }

  lemma TracksEvent(emitted: seq<Bytes>, view: Bytes, es: seq<Event>, i: nat)
    requires i < |es| && Tracks(emitted, view, es, i)
    ensures match es[i]
      case Append(chunk) => Tracks(emitted, view + chunk, es, i + 1)
      case Read => Tracks(emitted + ReadOutput(view), AfterRead(view), es, i + 1)
  {
    var later := es[i + 1..];
    assert es[i..] == [es[i]] + later;
    match es[i]
    case Append(chunk) =>
      RunAppend(view, chunk, later);
    case Read =>
      RunRead(view, later);
      PlusAssoc(emitted, ReadOutput(view), Emitted(AfterRead(view), later));
  }

  /** Once a read emits nothing, a run from scratch has emitted exactly the flat parse. Two runs
      over the same bytes that have both reached that point emitted the same units. */
  lemma DrainedRunEmitsParse(es: seq<Event>)
    requires !ReadStep(Unread([], es)).Nalu?
    ensures Emitted([], es) == Parse(Appended(es))
  {
    ChunkInvariance([], es);
    assert [] + Appended(es) == Appended(es);
  }

  /** On a stream that starts with a start code no read of any run ever reports garbage. */
  lemma {:induction false} AlignedRunNeverInvalid(view: Bytes, es: seq<Event>, future: Bytes)
    requires StartAt(view + Appended(es) + future, 0)
    ensures ReadStep(Unread(view, es)) != Invalid
    decreases |es|
  {
    if |es| == 0 {
      assert view + Appended(es) + future == view + future;
      StartBoundsFirst(view + future, 0);
      if FirstStart(view) < |view| {
        FoundStartIsStable(view, future);
      }
    } else {
      match es[0]
      case Append(chunk) =>
        assert view + chunk + Appended(es[1..]) + future == view + Appended(es) + future;
        AlignedRunNeverInvalid(view + chunk, es[1..], future);
      case Read =>
        assert Appended(es) == Appended(es[1..]);
        if ReadStep(view).Nalu? {
          RestStartsWithCode(view);
          var rest := AfterRead(view);
          var all := rest + Appended(es[1..]) + future;
          assert all[..|rest|] == rest;
          assert StartAt(all, 0);
        }
        AlignedRunNeverInvalid(AfterRead(view), es[1..], future);
    }
  }

  // ----- printing -----

  /** A NAL unit and whether a 4-byte start code is written in front of it. */
  datatype Unit = Unit(long: bool, payload: Bytes)

  function Code(long: bool): (c: Bytes)
    ensures StartAt(c, 0) && StartLen(c, 0) == |c|
  {
    if long then [0, 0, 0, 1] else [0, 0, 1]
  }

  /** Every unit behind its start code, and a closing start code. */
  function Print(units: seq<Unit>, closing: bool): Bytes {
    if |units| == 0 then Code(closing)
    else Code(units[0].long) + units[0].payload + Print(units[1..], closing)
  }

  function Payloads(units: seq<Unit>): seq<Bytes> {
    if |units| == 0 then [] else [units[0].payload] + Payloads(units[1..])
  }

  /** Whether the start code that follows unit 0 of `units` is a 4-byte one. */
  function NextLong(units: seq<Unit>, closing: bool): bool
    requires |units| > 0
  {
    if |units| == 1 then closing else units[1].long
  }

  /** Unit 0 can be read back in front of the start code that follows it: its payload holds no
      00 00 01 and, in front of a 3-byte start code, does not end in 00. Payloads that obey section
      7.4.1 of ITU-T H.264 always can. */
  ghost predicate Clean(units: seq<Unit>, closing: bool)
    requires |units| > 0
  {
    var p := units[0].payload;
    (forall j: nat :: !Three(p, j)) && (NextLong(units, closing) || p == [] || p[|p| - 1] != 0)
  }

  ghost predicate Printable(units: seq<Unit>, closing: bool) {
    |units| > 0 ==> Clean(units, closing) && Printable(units[1..], closing)
  }

  lemma PrintStartsWithCode(units: seq<Unit>, closing: bool)
    ensures var l := if |units| == 0 then closing else units[0].long;
      Code(l) <= Print(units, closing)
  {
  }

  lemma DirtyEndsEarlier(p: Bytes, long: bool, rest: Bytes)
    ensures (exists j: nat :: Three(p, j)) || (!long && p != [] && p[|p| - 1] == 0)
      ==> FirstStart(p + (Code(long) + rest)) < |p|
  {
    var s := p + (Code(long) + rest);
    if j: nat :| Three(p, j) {
      assert Three(s, j);
      StartBoundsFirst(s, j);
    } else if !long && p != [] && p[|p| - 1] == 0 {
      assert s[|p|] == 0 && s[|p| + 1] == 0 && s[|p| + 2] == 1;
      assert Four(s, |p| - 1);
      StartBoundsFirst(s, |p| - 1);
    }
  }

  lemma CodeInFrontIsDirty(p: Bytes, long: bool, rest: Bytes, k: nat)
    requires k < |p| && StartAt(p + (Code(long) + rest), k)
    ensures (exists j: nat :: Three(p, j)) || (!long && p[|p| - 1] == 0)
  {
    var s := p + (Code(long) + rest);
    assert s[|p|] == 0 && s[|p| + 1] == 0 && s[|p| + 2] == (if long then 0 else 1);
    var m := if Four(s, k) then k + 1 else k;
    assert Three(s, m);
    if m + 3 <= |p| {
      assert Three(p, m);
    }
  }

  /** Where the payload ends when a start code follows: at its own end exactly when it is clean. */
  lemma PayloadEnd(p: Bytes, long: bool, rest: Bytes)
    ensures var s := p + (Code(long) + rest);
      && FirstStart(s) <= |p|
      && (FirstStart(s) == |p| <==>
          (forall j: nat :: !Three(p, j)) && (long || p == [] || p[|p| - 1] != 0))
  {
    var s := p + (Code(long) + rest);
    assert s[|p|..] == Code(long) + rest;
    assert StartAt(s, |p|) by {
      assert s[|p|] == Code(long)[0] && s[|p| + 1] == Code(long)[1] && s[|p| + 2] == Code(long)[2];
      if long { assert s[|p| + 3] == Code(long)[3]; }
    }
    var k := FirstStart(s);
    if k < |p| {
      assert s[k] == p[k];
      CodeInFrontIsDirty(p, long, rest, k);
    } else {
      DirtyEndsEarlier(p, long, rest);
    }
  }

  /** Reading one printed unit: its payload up to the first start code behind it. */
  lemma ReadUnit(long: bool, body: Bytes)
    requires FirstStart(body) < |body|
    ensures ReadStep(Code(long) + body) == Nalu(|Code(long)|, FirstStart(body))
  {
    var c := Code(long);
    var s := c + body;
    assert s[|c|..] == body;
    assert forall i | 0 <= i < |c| :: s[i] == c[i];
    StartBoundsFirst(s, 0);
  }

  lemma ParseSplit(code: Bytes, body: Bytes, n: nat)
    requires n <= |body| && ReadStep(code + body) == Nalu(|code|, n)
    ensures Parse(code + body) == [body[..n]] + Parse(body[n..])
  {
    var s := code + body;
    assert s[|code|..|code| + n] == body[..n];
    assert s[|code| + n..] == body[n..];
    ParseOne(s, |code|, body[..n], body[n..]);
  }

  lemma ParseCode(long: bool)
    ensures Parse(Code(long)) == []
  {
    var s := Code(long);
    StartBoundsFirst(s, 0);
    assert s[|s|..] == [];
  }

  lemma AppendAssoc(a: Bytes, b: Bytes, c: Bytes)
    ensures (a + b) + c == a + (b + c)
  {
  }

  lemma PrintCons(units: seq<Unit>, closing: bool) returns (code: Bytes, rest: Bytes)
    requires |units| > 0
    ensures code == Code(NextLong(units, closing))
    ensures Print(units[1..], closing) == code + rest
    ensures Print(units, closing) == Code(units[0].long) + (units[0].payload + (code + rest))
  {
    var tail := Print(units[1..], closing);
    code := Code(NextLong(units, closing));
    PrintStartsWithCode(units[1..], closing);
    rest := tail[|code|..];
    AppendAssoc(Code(units[0].long), units[0].payload, tail);
  }

  /** How a printed unit is parsed: up to the first start code behind its own. */
  lemma UnitShape(long: bool, p: Bytes, next: bool, rest: Bytes) returns (n: nat)
    ensures n <= |p|
    ensures n == |p| <==> (forall j: nat :: !Three(p, j)) && (next || p == [] || p[|p| - 1] != 0)
    ensures var body := p + (Code(next) + rest);
      Parse(Code(long) + body) == [p[..n]] + Parse(body[n..])
  {
    var body := p + (Code(next) + rest);
    PayloadEnd(p, next, rest);
    n := FirstStart(body);
    ReadUnit(long, body);
    ParseSplit(Code(long), body, n);
    assert body[..n] == p[..n];
  }

  /** How a printed list of units is parsed, with `n` the place of the first start code behind the
      first one. */
  lemma PrintedShape(units: seq<Unit>, closing: bool) returns (n: nat)
    requires |units| > 0
    ensures var p, tail := units[0].payload, Print(units[1..], closing);
      && n <= |p|
      && (n == |p| <==> Clean(units, closing))
      && Parse(Print(units, closing)) == [p[..n]] + Parse((p + tail)[n..])
  {
    var code, rest := PrintCons(units, closing);
    n := UnitShape(units[0].long, units[0].payload, NextLong(units, closing), rest);
  }

  lemma ConsEq(x: Bytes, a: seq<Bytes>, b: seq<Bytes>)
    ensures [x] + a == [x] + b <==> a == b
  {
    assert ([x] + a)[1..] == a && ([x] + b)[1..] == b;
  }

  lemma HeadDiffers(x: Bytes, a: seq<Bytes>, y: Bytes, b: seq<Bytes>)
    requires |x| != |y|
    ensures [x] + a != [y] + b
  {
    assert ([x] + a)[0] == x && ([y] + b)[0] == y;
  }

  lemma RoundTripUnit(units: seq<Unit>, closing: bool)
    requires |units| > 0
    ensures Parse(Print(units, closing)) == Payloads(units)
      <==> Clean(units, closing) && Parse(Print(units[1..], closing)) == Payloads(units[1..])
  {
    var p, tail := units[0].payload, Print(units[1..], closing);
    var n := PrintedShape(units, closing);
    if n == |p| {
      assert p[..n] == p && (p + tail)[n..] == tail;
      ConsEq(p, Parse(tail), Payloads(units[1..]));
    } else {
      HeadDiffers(p[..n], Parse((p + tail)[n..]), p, Payloads(units[1..]));
    }
  }

  /** Round trip: printed units are read back unchanged exactly when they are printable. */
  lemma {:induction false} RoundTrip(units: seq<Unit>, closing: bool)
    ensures Parse(Print(units, closing)) == Payloads(units) <==> Printable(units, closing)
    decreases |units|
  {
    if |units| == 0 {
      ParseCode(closing);
    } else {
      RoundTrip(units[1..], closing);
      RoundTripUnit(units, closing);
    }
  }

  /** Reading a printable stream back through any chunking yields exactly the payloads. */
  lemma RoundTripChunked(units: seq<Unit>, closing: bool, es: seq<Event>)
    requires Printable(units, closing)
    requires Appended(es) == Print(units, closing)
    requires !ReadStep(Unread([], es)).Nalu?
    ensures Emitted([], es) == Payloads(units)
  {
    DrainedRunEmitsParse(es);
    RoundTrip(units, closing);
  }
}
