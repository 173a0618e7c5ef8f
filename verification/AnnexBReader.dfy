/** The chunked Annex B reader (pkg/annexb_reader.go): a cursor over a list of byte chunks. Every
    operation is stated over `View()`, the flat string of unread bytes. */
module AnnexBReader {
  import opened AnnexB

  function Concat(bufs: seq<Bytes>): Bytes {
    if |bufs| == 0 then [] else bufs[0] + Concat(bufs[1..])
  }

  lemma {:induction false} ConcatSnoc(bufs: seq<Bytes>, b: Bytes)
    ensures Concat(bufs + [b]) == Concat(bufs) + b
  {
    if |bufs| == 0 {
      assert bufs + [b] == [b];
    } else {
      ConcatSnoc(bufs[1..], b);
      assert (bufs + [b])[1..] == bufs[1..] + [b];
    }
  }

  /** The bytes from chunk `o0`, offset `o1`, to the end. */
  function Rest(bufs: seq<Bytes>, o0: nat, o1: nat): Bytes
    requires o0 < |bufs| ==> o1 <= |bufs[o0]|
  {
    if o0 < |bufs| then bufs[o0][o1..] + Concat(bufs[o0 + 1..]) else []
  }

  lemma RestNext(bufs: seq<Bytes>, o0: nat, o1: nat)
    requires o0 < |bufs| && o1 <= |bufs[o0]|
    ensures var m := |bufs[o0]| - o1;
      m <= |Rest(bufs, o0, o1)| && Rest(bufs, o0 + 1, 0) == Rest(bufs, o0, o1)[m..]
  {
    if o0 + 1 < |bufs| {
      assert bufs[o0 + 1..][0] == bufs[o0 + 1] && bufs[o0 + 1..][1..] == bufs[o0 + 2..];
    }
  }

  lemma RestWithin(bufs: seq<Bytes>, o0: nat, o1: nat, n: nat)
    requires o0 < |bufs| && o1 + n <= |bufs[o0]|
    ensures n <= |Rest(bufs, o0, o1)|
    ensures Rest(bufs, o0, o1 + n) == Rest(bufs, o0, o1)[n..]
  {
    var c, d := bufs[o0][o1..], Concat(bufs[o0 + 1..]);
    assert (c + d)[n..] == c[n..] + d;
    assert c[n..] == bufs[o0][o1 + n..];
  }

  lemma RestFromChunk(bufs: seq<Bytes>, o0: nat, o1: nat)
    requires o0 < |bufs| && o1 <= |bufs[o0]|
    ensures Rest(bufs[o0..], 0, o1) == Rest(bufs, o0, o1)
    ensures |Concat(bufs[o0..])| == o1 + |Rest(bufs, o0, o1)|
  {
    assert bufs[o0..][0] == bufs[o0] && bufs[o0..][1..] == bufs[o0 + 1..];
  }

  lemma {:induction false} DropChunksShorter(bufs: seq<Bytes>, o0: nat)
    requires o0 <= |bufs|
    ensures |Concat(bufs[o0..])| <= |Concat(bufs)|
  {
    if o0 == 0 {
      assert bufs[0..] == bufs;
    } else {
      DropChunksShorter(bufs[1..], o0 - 1);
      assert bufs[1..][o0 - 1..] == bufs[o0..];
    }
  }

  lemma RestSnoc(bufs: seq<Bytes>, o0: nat, o1: nat, b: Bytes)
    requires o0 <= |bufs| && (o0 < |bufs| ==> o1 <= |bufs[o0]|) && (o0 == |bufs| ==> o1 == 0)
    ensures Rest(bufs + [b], o0, o1) == Rest(bufs, o0, o1) + b
  {
    if o0 < |bufs| {
      assert (bufs + [b])[o0 + 1..] == bufs[o0 + 1..] + [b];
      ConcatSnoc(bufs[o0 + 1..], b);
    } else {
      assert (bufs + [b])[o0 + 1..] == [];
    }
  }

  lemma AdvanceNext(bufs: seq<Bytes>, o0: nat, o1: nat, view: Bytes, d: nat)
    requires o0 < |bufs| && o1 <= |bufs[o0]| && d <= |view| && Rest(bufs, o0, o1) == view[d..]
    ensures var m := |bufs[o0]| - o1;
      d + m <= |view| && Rest(bufs, o0 + 1, 0) == view[d + m..]
  {
    RestNext(bufs, o0, o1);
  }

  lemma AdvanceWithin(bufs: seq<Bytes>, o0: nat, o1: nat, n: nat, view: Bytes, d: nat)
    requires o0 < |bufs| && o1 + n <= |bufs[o0]| && d <= |view| && Rest(bufs, o0, o1) == view[d..]
    ensures d + n <= |view| && Rest(bufs, o0, o1 + n) == view[d + n..]
  {
    RestWithin(bufs, o0, o1, n);
  }

  /** A list of byte chunks; its chunks are shared, never written. */
  class Memory {
    var Buffers: seq<Bytes>
    var Size: int

    constructor ()
      ensures Buffers == [] && Size == 0
    {
      Buffers, Size := [], 0;
    }

    function Content(): Bytes
      reads this
    {
      Concat(Buffers)
    }

    method PushOne(b: Bytes)
      modifies this
      ensures Buffers == old(Buffers) + [b] && Size == old(Size) + |b|
      ensures Content() == old(Content()) + b
    {
      ConcatSnoc(Buffers, b);
      Buffers, Size := Buffers + [b], Size + |b|;
    }
  }

  datatype ReadError = NoError | InvalidData

  /** What a read moves to `withStart`: the unit behind its start code, or nothing. */
  function ConsumedWithStart(view: Bytes): Bytes {
    view[..|view| - |AfterRead(view)|]
  }

  lemma NaluRead(view: Bytes, code: nat, len: nat)
    requires FirstStart(view) == 0 && view != [] && code == StartLen(view, 0)
    requires FirstStart(view[code..]) == len < |view| - code
    ensures ReadStep(view) == Nalu(code, len)
    ensures ConsumedWithStart(view) == view[..code + len]
    ensures Concat(ReadOutput(view)) == view[code..code + len]
    ensures AfterRead(view) == view[code + len..]
  {
    assert ReadOutput(view) == [view[code..code + len]];
    assert ReadOutput(view)[1..] == [];
  }

  function Skip(s: Bytes, k: nat): Bytes {
    if k <= |s| then s[k..] else []
  }

  lemma SkipAppend(s: Bytes, t: Bytes, k: nat)
    ensures |s| >= k ==> Skip(s + t, k) == Skip(s, k) + t[0..]
    ensures |s| < k && |s| + |t| <= k ==> Skip(s + t, k) == Skip(s, k)
    ensures |s| < k < |s| + |t| ==> Skip(s + t, k) == Skip(s, k) + t[k - |s|..]
  {
  }

  class AnnexBReader {
    var Buffers: seq<Bytes>
    var Size: int
    var Length: int
    var offset0: int
    var offset1: int

    predicate CursorOk()
      reads this
    {
      && 0 <= offset0 <= |Buffers|
      && 0 <= offset1
      && (offset0 < |Buffers| ==> offset1 <= |Buffers[offset0]|)
      && (offset0 == |Buffers| ==> offset1 == 0)
    }

    /** The unread bytes. */
    ghost function View(): Bytes
      requires CursorOk()
      reads this
    {
      Rest(Buffers, offset0, offset1)
    }

    /** `Size` is not constrained: ClipFront does not always keep it equal to the retained bytes. */
    ghost predicate Valid()
      reads this
    {
      && CursorOk()
      && Length == |View()|
    }

    constructor ()
      ensures Valid() && View() == [] && Size == 0 && Buffers == []
    {
      Buffers, Size, Length, offset0, offset1 := [], 0, 0, 0, 0;
    }

    method AppendBuffer(buf: Bytes)
      requires Valid()
      modifies this
      ensures Valid() && View() == old(View()) + buf
      ensures Buffers == old(Buffers) + [buf] && Size == old(Size) + |buf|
    {
      RestSnoc(Buffers, offset0, offset1, buf);
      Buffers, Size := Buffers + [buf], Size + |buf|;
      Length := Length + |buf|;
    }

    /** Drops what was read. The unread bytes stay; `Size` stays equal to the retained bytes exactly
        when the cursor was not both past a chunk and inside one. */
    method ClipFront()
      requires Valid()
      modifies this
      ensures Valid() && View() == old(View())
      ensures old(Size) == |Concat(old(Buffers))| ==>
        (Size == |Concat(Buffers)| <==> old(offset0) == 0 || old(offset1) == 0)
      ensures old(Size) == old(Length) ==> Buffers == old(Buffers) && Size == old(Size)
    {
      ghost var bufs, o0, o1 := Buffers, offset0, offset1;
      var readOffset := Size - Length;
      DropChunksShorter(Buffers, offset0);
      if offset0 < |Buffers| {
        RestFromChunk(Buffers, offset0, offset1);
      }
      if readOffset == 0 {
        return;
      }
      if offset0 > 0 {
        Buffers := Buffers[offset0..];
        Size := Size - readOffset;
        offset0 := 0;
      }
      assert View() == old(View());
      assert |Concat(Buffers)| == o1 + Length;
      if offset1 > 0 && |Buffers| > 0 {
        var buf := Buffers[0];
        RestWithin(Buffers, 0, 0, offset1);
        assert Buffers == [buf] + Buffers[1..];
        Buffers := Buffers[0 := buf[offset1..]];
        assert Buffers[1..] == old(Buffers)[o0..][1..];
        Size := Size - offset1;
        offset1 := 0;
      }
    }

    method GetByteAt(pos: nat) returns (b: Byte)
      requires Valid()
      ensures b == if pos < |View()| then View()[pos] else 0
    {
      b := 0;
      if pos >= Length {
        return;
      }
      var currentPos := 0;
      var bufferIndex := offset0;
      var bufferOffset := offset1;
      while bufferIndex < |Buffers|
        invariant 0 <= currentPos <= pos
        invariant offset0 <= bufferIndex <= |Buffers| && 0 <= bufferOffset
        invariant bufferIndex < |Buffers| ==> bufferOffset <= |Buffers[bufferIndex]|
        invariant Rest(Buffers, bufferIndex, bufferOffset) == View()[currentPos..]
      {
        var buf := Buffers[bufferIndex];
        var available := |buf| - bufferOffset;
        if currentPos + available > pos {
          assert View()[pos] == View()[currentPos..][pos - currentPos];
          return buf[bufferOffset + (pos - currentPos)];
        }
        AdvanceNext(Buffers, bufferIndex, bufferOffset, View(), currentPos);
        currentPos := currentPos + available;
        bufferIndex := bufferIndex + 1;
        bufferOffset := 0;
      }
    }

    /** Finds the least position at which a start code begins, 4-byte codes first. */
    method FindStartCode() returns (pos: int, startCodeLen: int, found: bool)
      requires Valid()
      ensures found <==> FirstStart(View()) < |View()|
      ensures found ==> pos == FirstStart(View()) && startCodeLen == StartLen(View(), pos)
      ensures !found ==> pos == 0 && startCodeLen == 0
    {
      if Length < 3 {
        return 0, 0, false;
      }
      ghost var view := View();
      for i := 0 to Length - 2
        invariant forall j: nat | j < i :: !StartAt(view, j)
      {
        var b0 := GetByteAt(i);
        var b1 := GetByteAt(i + 1);
        var b2 := GetByteAt(i + 2);
        var b3 := GetByteAt(i + 3);
        if i <= Length - 4 {
          if b0 == 0 && b1 == 0 && b2 == 0 && b3 == 1 {
            assert Four(view, i);
            FirstStartUnique(view, i);
            return i, 4, true;
          }
        }
        assert !Four(view, i);
        if b0 == 0 && b1 == 0 && b2 == 1 {
          assert Three(view, i);
          FirstStartUnique(view, i);
          var before := 1;
          if i > 0 {
            before := GetByteAt(i - 1);
            FirstStartNotPrecededByZero(view);
          }
          if i == 0 || before != 0 {
            return i, 3, true;
          }
        }
        assert !StartAt(view, i);
      }
      FirstStartUnique(view, |view|);
      return 0, 0, false;
    }

    method GetCurrentBuffer() returns (buf: Bytes)
      requires Valid()
      ensures buf == if offset0 < |Buffers| then Buffers[offset0][offset1..] else []
      ensures buf <= View()
    {
      if offset0 >= |Buffers| {
        return [];
      }
      return Buffers[offset0][offset1..];
    }

    /** Skips `n` unread bytes, at most all of them. */
    method Forward(n: int)
      requires Valid()
      modifies `Length, `offset0, `offset1
      ensures Valid()
      ensures View() == old(View())[if n <= 0 then 0 else if n > old(Length) then old(Length) else n..]
    {
      if n <= 0 || Length <= 0 {
        return;
      }
      var n := if n > Length then Length else n;
      ghost var view, d := View(), 0;
      ghost var all := n;
      Length := Length - n;
      while n > 0 && offset0 < |Buffers|
        invariant 0 <= n && 0 <= d && d + n == all <= |view| && Length == |view| - all
        invariant CursorOk() && View() == view[d..]
        decreases |Buffers| - offset0
      {
        var cur := Buffers[offset0];
        var remain := |cur| - offset1;
        if n < remain {
          AdvanceWithin(Buffers, offset0, offset1, n, view, d);
          offset1 := offset1 + n;
          n := 0;
          return;
        }
        AdvanceNext(Buffers, offset0, offset1, view, d);
        n := n - remain;
        d := d + remain;
        offset0 := offset0 + 1;
        offset1 := 0;
      }
      assert |view[d..]| == |view| - d;
      assert n == 0;
    }

    method SkipCurrentBuffer()
      requires Valid()
      modifies `Length, `offset0, `offset1
      ensures Valid()
      ensures offset0 == if old(offset0) < |Buffers| then old(offset0) + 1 else old(offset0)
      ensures View() == old(View())[if old(offset0) < |Buffers| then |Buffers[old(offset0)]| - old(offset1) else 0..]
    {
      if offset0 < |Buffers| {
        RestNext(Buffers, offset0, offset1);
        var curBufLen := |Buffers[offset0]| - offset1;
        Length := Length - curBufLen;
        offset0 := offset0 + 1;
        offset1 := 0;
      }
    }

    /** The look-ahead of ReadNALU: skips the start code, searches the next one, and goes back. */
    method FindPayloadEnd(startCodeLen: nat) returns (pos: int, found: bool)
      requires Valid() && startCodeLen <= |View()|
      modifies `Length, `offset0, `offset1
      ensures Length == old(Length) && offset0 == old(offset0) && offset1 == old(offset1)
      ensures var body := old(View())[startCodeLen..];
        && (found <==> FirstStart(body) < |body|) && (found ==> pos == FirstStart(body))
    {
      var saveOffset0, saveOffset1, saveLength := offset0, offset1, Length;
      Forward(startCodeLen);
      var codeLen: int;
      pos, codeLen, found := FindStartCode();
      offset0, offset1, Length := saveOffset0, saveOffset1, saveLength;
    }

    /** The rest of the current chunk, at most `max` bytes of it, moving the cursor behind it. */
    method TakeFromChunk(max: nat) returns (segment: Bytes)
      requires Valid() && offset0 < |Buffers|
      requires max <= |View()|
      modifies `Length, `offset0, `offset1
      ensures Valid()
      ensures |segment| <= max
      ensures |segment| < max ==> offset0 == old(offset0) + 1
      ensures segment + View() == old(View())
    {
      ghost var view := View();
      var buf := GetCurrentBuffer();
      var readLen := |buf|;
      if readLen > max {
        readLen := max;
      }
      segment := buf[..readLen];
      assert segment == view[..readLen];
      if readLen == |buf| {
        SkipCurrentBuffer();
      } else {
        Forward(readLen);
      }
    }

    /** The copy loop at the end of ReadNALU: moves the start code and the payload out, chunk by
        chunk. */
    method EmitUnit(startCodeLen: nat, len: nat, withStart: Memory?, withoutStart: Memory?)
      requires Valid()
      requires startCodeLen + len <= |View()|
      requires withStart == null || withStart != withoutStart
      modifies this`Length, this`offset0, this`offset1, withStart, withoutStart
      ensures Valid()
      ensures View() == old(View())[startCodeLen + len..]
      ensures withStart != null ==>
        withStart.Content() == old(withStart.Content()) + old(View())[..startCodeLen + len]
      ensures withoutStart != null ==>
        withoutStart.Content() == old(withoutStart.Content()) + old(View())[startCodeLen..startCodeLen + len]
    {
      ghost var view, out := View(), [];
      var remaining := startCodeLen + len;
      var skipForWithout := startCodeLen;
      while remaining > 0 && offset0 < |Buffers|
        invariant Valid() && 0 <= remaining && |out| + remaining == startCodeLen + len
        invariant out + View() == view
        invariant withStart != null ==> withStart.Content() == old(withStart.Content()) + out
        invariant withoutStart != null ==>
          withoutStart.Content() == old(withoutStart.Content()) + Skip(out, startCodeLen)
        invariant withoutStart != null ==> skipForWithout == if |out| < startCodeLen then startCodeLen - |out| else 0
        decreases remaining, |Buffers| - offset0
      {
        ghost var unread := View();
        var segment := TakeFromChunk(remaining);
        AppendAssoc(out, segment, View());
        if withStart != null {
          withStart.PushOne(segment);
          AppendAssoc(old(withStart.Content()), out, segment);
        }
        if withoutStart != null {
          SkipAppend(out, segment, startCodeLen);
          if skipForWithout >= |segment| {
            skipForWithout := skipForWithout - |segment|;
          } else {
            AppendAssoc(old(withoutStart.Content()), Skip(out, startCodeLen), segment[skipForWithout..]);
            withoutStart.PushOne(segment[skipForWithout..]);
            skipForWithout := 0;
          }
        }
        remaining := remaining - |segment|;
        out := out + segment;
      }
      assert remaining == 0;
      assert view[..|out|] == out;
    }

    /** Reads one complete NAL unit. A unit is complete when the next start code has arrived; that
        start code stays unread. In every other outcome nothing is consumed and nothing is output. */
    method ReadNALU(withStart: Memory?, withoutStart: Memory?) returns (err: ReadError)
      requires Valid()
      requires withStart == null || withStart != withoutStart
      modifies this, withStart, withoutStart
      ensures Valid()
      // an error exactly for a start code that is not in front
      ensures err == InvalidData <==> (exists j: nat :: StartAt(old(View()), j)) && !StartAt(old(View()), 0)
      ensures err == InvalidData <==> ReadStep(old(View())) == Invalid
      // a unit is consumed exactly if there is a start code in front and another one behind it
      ensures View() != old(View()) <==>
        StartAt(old(View()), 0) && exists j: nat :: StartAt(old(View())[StartLen(old(View()), 0)..], j)
      ensures View() == AfterRead(old(View()))
      ensures old(Size) == old(Length) ==> Buffers == old(Buffers) && Size == old(Size)
      ensures withStart != null ==> withStart.Content() == old(withStart.Content()) + ConsumedWithStart(old(View()))
      ensures withoutStart != null ==>
        withoutStart.Content() == old(withoutStart.Content()) + Concat(ReadOutput(old(View())))
    {
      ClipFront();
      ghost var view := View();
      InvalidExactly(view);
      NaluExactly(view);
      var firstPos, startCodeLen, found := FindStartCode();
      if !found {
        return NoError;
      }
      if firstPos > 0 {
        return InvalidData;
      }
      var nextPosAfterStart, nextFound := FindPayloadEnd(startCodeLen);
      if !nextFound {
        return NoError;
      }
      NaluRead(view, startCodeLen, nextPosAfterStart);
      EmitUnit(startCodeLen, nextPosAfterStart, withStart, withoutStart);
      err := NoError;
    }
  }

  lemma StartOfPrefix(view: Bytes, code: nat, len: nat)
    requires ReadStep(view) == Nalu(code, len)
    ensures var c := view[..code + len]; StartAt(c, 0) && StartLen(c, 0) == code
  {
    assert StartAt(view, 0) && code == StartLen(view, 0);
  }

  /** A read splits the unread bytes, and what it emits without a start code is what it emits with
      one, minus the start code. */
  lemma NaluConservation(view: Bytes)
    ensures ConsumedWithStart(view) + AfterRead(view) == view
    ensures ReadOutput(view) != [] ==>
      var c := ConsumedWithStart(view);
      StartAt(c, 0) && ReadOutput(view) == [c[StartLen(c, 0)..]]
    ensures ReadOutput(view) == [] ==> AfterRead(view) == view
  {
    var k := |view| - |AfterRead(view)|;
    match ReadStep(view)
    case Nalu(code, len) =>
      NaluRead(view, code, len);
      assert view[..code + len][code..] == view[code..code + len];
      StartOfPrefix(view, code, len);
    case _ =>
  }

  /** One read into a fresh memory, as AnnexB.Parse does for each NAL unit: the unit, if any. */
  method ReadUnit(r: AnnexBReader) returns (units: seq<Bytes>)
    requires r.Valid()
    modifies r
    ensures r.Valid() && r.View() == AfterRead(old(r.View()))
    ensures units == ReadOutput(old(r.View()))
  {
    ghost var view := r.View();
    var out := new Memory();
    var before := r.Length;
    var _ := r.ReadNALU(null, out);
    units := if r.Length < before then [out.Content()] else [];
    NaluConservation(view);
    if ReadOutput(view) != [] {
      assert Concat(ReadOutput(view)) == ReadOutput(view)[0] + Concat(ReadOutput(view)[1..]);
      assert out.Content() == ReadOutput(view)[0];
    }
  }

  /** A reader fed chunk by chunk, with reads in between, emits what the run of AnnexB says. */
  method Drive(es: seq<Event>) returns (emitted: seq<Bytes>, r: AnnexBReader)
    ensures emitted == Emitted([], es)
    ensures fresh(r) && r.Valid() && r.View() == Unread([], es)
  {
    r := new AnnexBReader();
    emitted := [];
    assert es[0..] == es;
    for i := 0 to |es|
      invariant fresh(r) && r.Valid()
      invariant Tracks(emitted, r.View(), es, i)
    {
      TracksEvent(emitted, r.View(), es, i);
      match es[i]
      case Append(chunk) =>
        r.AppendBuffer(chunk);
      case Read =>
        var units := ReadUnit(r);
        emitted := emitted + units;
    }
  }

  lemma RestLength(first: Bytes, second: Bytes, o0: nat, o1: nat)
    requires o0 <= 1 && o1 <= |if o0 == 0 then first else second|
    ensures |Rest([first, second], o0, o1)| == (if o0 == 0 then |first| else 0) + |second| - o1
  {
    assert [first, second][1..] == [second] && [first, second][2..] == [] && [second][1..] == [];
    assert Concat([second]) == second + Concat([]);
    assert [first, second][o0 + 1..] == if o0 == 0 then [second] else [];
  }

  /** A reader whose Size has come apart from the bytes it retains: one read that ends inside the second
      chunk, and the clean-up in front of the next. */
  method SizeDrifts() returns (r: AnnexBReader)
    ensures r.Valid() && r.Size != |Concat(r.Buffers)|
  {
    r := new AnnexBReader();
    var first: Bytes, second: Bytes := [0, 0, 1, 7], [7, 0, 0, 1, 8];
    r.AppendBuffer(first);
    r.AppendBuffer(second);
    var view := first + second;
    assert r.View() == view;
    FirstStartUnique(view, 0);
    assert !StartAt(view[3..], 0) && !StartAt(view[3..], 1);
    FirstStartUnique(view[3..], 2);
    assert ReadStep(view) == Nalu(3, 2);
    var _ := r.ReadNALU(null, null);
    assert r.Buffers == [first, second];
    assert r.offset0 == 1 && r.offset1 == 1 by {
      assert Rest(r.Buffers, r.offset0, r.offset1) == view[5..];
      if r.offset0 <= 1 {
        RestLength(first, second, r.offset0, r.offset1);
      }
    }
    assert Concat(r.Buffers) == view by {
      assert r.Buffers[1..] == [second] && r.Buffers[1..][1..] == [];
    }
    r.ClipFront();
  }
}
