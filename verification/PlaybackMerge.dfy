/** The two-way merge of a subscriber's playback loop (SubscribeHandler.Run in subscriber.go): one
    video and one audio reader, and at most one frame of each held back.

    Both readers are live, frames are compared by timestamp (SyncMode 0), key-frame-only playback is
    off, the speed is below 8 and the publisher does not change. */
module PlaybackMerge {
  import opened Wrappers

  datatype Frame = Frame(ts: int, data: int)

  /** An audio frame and the reader's SkipTs at the time the frame was read. */
  datatype AudioRead = AudioRead(frame: Frame, skipTs: int)

  datatype Delivery = Audio(frame: Frame) | Video(frame: Frame)

  function Videos(ds: seq<Delivery>): seq<Frame> {
    if |ds| == 0 then []
    else Videos(ds[..|ds| - 1]) + (if ds[|ds| - 1].Video? then [ds[|ds| - 1].frame] else [])
  }

  function Audios(ds: seq<Delivery>): seq<Frame> {
    if |ds| == 0 then []
    else Audios(ds[..|ds| - 1]) + (if ds[|ds| - 1].Audio? then [ds[|ds| - 1].frame] else [])
  }

  /** The frames of `audio` that `kept` marks. */
  function Kept(audio: seq<AudioRead>, kept: seq<bool>): seq<Frame>
    requires |audio| == |kept|
  {
    if |audio| == 0 then []
    else
      var n := |audio| - 1;
      Kept(audio[..n], kept[..n]) + (if kept[n] then [audio[n].frame] else [])
  }

  function Held(f: Option<Frame>): seq<Frame> {
    if f.Some? then [f.value] else []
  }

  /** Everything delivered after the first callback is at or before `ts`. */
  ghost predicate NotAfter(ds: seq<Delivery>, ts: int) {
    forall i | 1 <= i < |ds| :: ds[i].frame.ts <= ts
  }

  /** Sorted by timestamp, the first callback aside. */
  ghost predicate SortedAfterFirst(ds: seq<Delivery>) {
    forall i, j | 1 <= i < j < |ds| :: ds[i].frame.ts <= ds[j].frame.ts
  }

  ghost predicate VideoOrdered(video: seq<Frame>) {
    forall i, j | 0 <= i < j < |video| :: video[i].ts <= video[j].ts
  }

  ghost predicate AudioOrdered(audio: seq<AudioRead>) {
    forall i, j | 0 <= i < j < |audio| :: audio[i].frame.ts <= audio[j].frame.ts
  }

  /** Nothing that is held or still to be read belongs in front of a delivered frame. */
  ghost predicate NoneLate(
    ds: seq<Delivery>, video: seq<Frame>, vi: nat, audio: seq<AudioRead>, ai: nat,
    heldVideo: seq<Frame>, heldAudio: seq<Frame>)
  {
    && (forall k | vi <= k < |video| :: NotAfter(ds, video[k].ts))
    && (forall k | ai <= k < |audio| :: NotAfter(ds, audio[k].frame.ts))
    && (forall f | f in heldVideo :: NotAfter(ds, f.ts))
    && (forall f | f in heldAudio :: NotAfter(ds, f.ts))
  }

  /** The state of a playback: what was delivered, how far each reader is, which audio frames were
      not skipped, and what is held. */
  datatype Playback = Playback(
    ds: seq<Delivery>, vi: nat, heldVideo: seq<Frame>, ai: nat, kept: seq<bool>, heldAudio: seq<Frame>)

  /** Every video frame read was delivered once, in order, or is the one held; so was every audio
      frame read, unless it was below SkipTs. */
  ghost predicate Conserved(p: Playback, video: seq<Frame>, audio: seq<AudioRead>)
    requires p.vi <= |video| && p.ai <= |audio| && |p.kept| == p.ai
  {
    && Videos(p.ds) + p.heldVideo == video[..p.vi]
    && Audios(p.ds) + p.heldAudio == Kept(audio[..p.ai], p.kept)
    && (forall i | 0 <= i < p.ai :: !p.kept[i] ==> audio[i].frame.ts < audio[i].skipTs)
  }

  /** The callbacks after the first video frame are sorted, and nothing to come is late. */
  ghost predicate InOrder(p: Playback, video: seq<Frame>, audio: seq<AudioRead>) {
    && SortedAfterFirst(p.ds)
    && (p.ds != [] ==> video != [] && p.ds[0] == Video(video[0]))
    && NoneLate(p.ds, video, p.vi, audio, p.ai, p.heldVideo, p.heldAudio)
  }

  ghost predicate Accounted(p: Playback, video: seq<Frame>, audio: seq<AudioRead>) {
    && p.vi <= |video|
    && p.ai <= |audio| && |p.kept| == p.ai
    && |p.heldVideo| <= 1 && |p.heldAudio| <= 1
    && Conserved(p, video, audio)
    && InOrder(p, video, audio)
  }

  lemma NothingAccounted(video: seq<Frame>, audio: seq<AudioRead>)
    ensures Accounted(Playback([], 0, [], 0, [], []), video, audio)
  {
  }

  lemma DeliverKeepsOrder(ds: seq<Delivery>, d: Delivery)
    ensures SortedAfterFirst(ds) && NotAfter(ds, d.frame.ts) ==> SortedAfterFirst(ds + [d])
    ensures forall ts :: NotAfter(ds, ts) && (|ds| == 0 || d.frame.ts <= ts) ==> NotAfter(ds + [d], ts)
  {
  }

  lemma DeliverGrows(ds: seq<Delivery>, d: Delivery)
    ensures Videos(ds + [d]) == Videos(ds) + if d.Video? then [d.frame] else []
    ensures Audios(ds + [d]) == Audios(ds) + if d.Audio? then [d.frame] else []
  {
    assert (ds + [d])[..|ds|] == ds;
  }

  lemma KeptGrows(audio: seq<AudioRead>, n: nat, kept: seq<bool>, k: bool)
    requires n < |audio| && |kept| == n
    ensures Kept(audio[..n + 1], kept + [k]) == Kept(audio[..n], kept) + if k then [audio[n].frame] else []
  {
    assert audio[..n + 1][..n] == audio[..n] && (kept + [k])[..n] == kept;
  }

  lemma ReadVideo(p: Playback, video: seq<Frame>, audio: seq<AudioRead>)
    requires Accounted(p, video, audio) && p.heldVideo == [] && p.vi < |video|
    ensures Accounted(p.(vi := p.vi + 1, heldVideo := [video[p.vi]]), video, audio)
  {
    assert video[..p.vi + 1] == video[..p.vi] + [video[p.vi]];
  }

  lemma ReadAudio(p: Playback, video: seq<Frame>, audio: seq<AudioRead>)
    requires Accounted(p, video, audio) && p.heldAudio == [] && p.ai < |audio|
    ensures Accounted(
      p.(ai := p.ai + 1, kept := p.kept + [true], heldAudio := [audio[p.ai].frame]), video, audio)
  {
    hide Videos, Audios, Kept;
    KeptGrows(audio, p.ai, p.kept, true);
  }

  /** The frame just read is skipped instead of held. */
  lemma SkipAudio(p: Playback, video: seq<Frame>, audio: seq<AudioRead>)
    requires Accounted(p, video, audio) && p.heldAudio == [] && p.ai < |audio|
    requires audio[p.ai].frame.ts < audio[p.ai].skipTs
    ensures Accounted(p.(ai := p.ai + 1, kept := p.kept + [false]), video, audio)
  {
    hide Videos, Audios, Kept;
    KeptGrows(audio, p.ai, p.kept, false);
  }

  function Delivered(p: Playback, d: Delivery): Playback {
    if d.Video? then p.(ds := p.ds + [d], heldVideo := []) else p.(ds := p.ds + [d], heldAudio := [])
  }

  lemma DeliverConserves(p: Playback, d: Delivery, video: seq<Frame>, audio: seq<AudioRead>)
    requires p.vi <= |video| && p.ai <= |audio| && |p.kept| == p.ai && Conserved(p, video, audio)
    requires if d.Video? then p.heldVideo == [d.frame] else p.heldAudio == [d.frame]
    ensures Conserved(Delivered(p, d), video, audio)
  {
    DeliverGrows(p.ds, d);
  }

  lemma DeliverInOrder(p: Playback, d: Delivery, video: seq<Frame>, audio: seq<AudioRead>)
    requires InOrder(p, video, audio) && NotAfter(p.ds, d.frame.ts)
    requires p.ds == [] ==> video != [] && d == Video(video[0])
    requires p.ds != [] ==>
      && (forall k | p.vi <= k < |video| :: d.frame.ts <= video[k].ts)
      && (forall k | p.ai <= k < |audio| :: d.frame.ts <= audio[k].frame.ts)
      && (forall f | f in p.heldVideo :: d.frame.ts <= f.ts)
      && (forall f | f in p.heldAudio :: d.frame.ts <= f.ts)
    ensures InOrder(Delivered(p, d), video, audio)
  {
    DeliverKeepsOrder(p.ds, d);
  }

  /** The held video frame goes out: it is the very first callback, or no later than the held audio
      frame. */
  lemma DeliverVideo(p: Playback, video: seq<Frame>, audio: seq<AudioRead>)
    requires Accounted(p, video, audio) && VideoOrdered(video) && AudioOrdered(audio)
    requires p.vi > 0 && p.heldVideo == [video[p.vi - 1]]
    requires p.ds == [] ==> p.vi == 1 && p.heldAudio == []
    requires p.ds != [] ==>
      p.ai > 0 && p.heldAudio == [audio[p.ai - 1].frame] && video[p.vi - 1].ts <= audio[p.ai - 1].frame.ts
    ensures Accounted(Delivered(p, Video(video[p.vi - 1])), video, audio)
  {
    var d := Video(video[p.vi - 1]);
    assert d.frame in p.heldVideo;
    DeliverConserves(p, d, video, audio);
    DeliverInOrder(p, d, video, audio);
  }

  /** The held audio frame goes out: no later than the held video frame. */
  lemma DeliverAudio(p: Playback, video: seq<Frame>, audio: seq<AudioRead>)
    requires Accounted(p, video, audio) && VideoOrdered(video) && AudioOrdered(audio)
    requires p.ai > 0 && p.heldAudio == [audio[p.ai - 1].frame]
    requires p.vi > 0 && p.heldVideo == [video[p.vi - 1]]
    requires p.ds != [] && audio[p.ai - 1].frame.ts <= video[p.vi - 1].ts
    ensures Accounted(Delivered(p, Audio(audio[p.ai - 1].frame)), video, audio)
  {
    var d := Audio(audio[p.ai - 1].frame);
    assert d.frame in p.heldAudio;
    DeliverConserves(p, d, video, audio);
    DeliverInOrder(p, d, video, audio);
  }

  // ----- the merge, without loops -----

  /** The first video frame from number `k` on that is later than `ts`. */
  function FirstLater(video: seq<Frame>, k: nat, ts: int): (j: nat)
    requires k <= |video|
    ensures k <= j <= |video| && (j < |video| ==> video[j].ts > ts)
    ensures forall i | k <= i < j :: video[i].ts <= ts
    decreases |video| - k
  {
    if k == |video| || video[k].ts > ts then k else FirstLater(video, k + 1, ts)
  }

  /** Which video frame comes next once `n` audio frames are settled: the second one at first; an audio
      frame that is later than the next video frame lets that and all further ones pass that are not later
      than itself. */
  function Turn(video: seq<Frame>, audio: seq<AudioRead>, n: nat): (t: nat)
    requires n <= |audio|
    ensures t >= 1
  {
    if n == 0 then 1
    else
      var t := Turn(video, audio, n - 1);
      if t < |video| && audio[n - 1].frame.ts > video[t].ts
      then FirstLater(video, t + 1, audio[n - 1].frame.ts) else t
  }

  /** Audio frame `i` is below SkipTs and not later than the next video frame. */
  predicate Skipped(video: seq<Frame>, audio: seq<AudioRead>, i: nat)
    requires i < |audio|
  {
    var t := Turn(video, audio, i);
    audio[i].frame.ts < audio[i].skipTs && (t < |video| ==> audio[i].frame.ts <= video[t].ts)
  }

  function VideoOut(video: seq<Frame>, start: nat, end: nat): seq<Delivery>
    requires end <= |video|
    decreases end
  {
    if end <= start then [] else VideoOut(video, start, end - 1) + [Video(video[end - 1])]
  }

  /** The callbacks when `n` audio frames are settled and `v` video frames are sent: each audio frame that is
      not skipped goes out right before the video frame whose turn it then is. */
  function Out(video: seq<Frame>, audio: seq<AudioRead>, n: nat, v: nat): seq<Delivery>
    requires n <= |audio| && v <= |video|
    decreases n
  {
    if n == 0 then VideoOut(video, 0, v)
    else
      var t := Turn(video, audio, n);
      Out(video, audio, n - 1, if t <= v then t else v)
        + (if Skipped(video, audio, n - 1) then [] else [Audio(audio[n - 1].frame)])
        + VideoOut(video, t, v)
  }

  lemma OutVideo(video: seq<Frame>, audio: seq<AudioRead>, n: nat, v: nat)
    requires n <= |audio| && v < |video| && (n > 0 ==> Turn(video, audio, n) <= v)
    ensures Out(video, audio, n, v + 1) == Out(video, audio, n, v) + [Video(video[v])]
  {
    hide Skipped, Turn;
    var start := if n == 0 then 0 else Turn(video, audio, n);
    assert VideoOut(video, start, v + 1) == VideoOut(video, start, v) + [Video(video[v])];
  }

  lemma OutAudio(video: seq<Frame>, audio: seq<AudioRead>, n: nat)
    requires n < |audio| && Turn(video, audio, n + 1) <= |video|
    ensures var t := Turn(video, audio, n + 1);
      Out(video, audio, n + 1, t) ==
        Out(video, audio, n, t) + if Skipped(video, audio, n) then [] else [Audio(audio[n].frame)]
  {
    hide Skipped, Turn;
    var t := Turn(video, audio, n + 1);
    assert VideoOut(video, t, t) == [];
  }

  /** A playback has made exactly the callbacks of the merge. */
  ghost predicate Merged(p: Playback, video: seq<Frame>, audio: seq<AudioRead>) {
    && |p.heldVideo| <= p.vi <= |video| && |p.heldAudio| <= p.ai <= |audio|
    && p.ds == Out(video, audio, p.ai - |p.heldAudio|, p.vi - |p.heldVideo|)
  }

  /** It is the turn of the video reader: at the start, or with an audio frame held whose turn has not come. */
  ghost predicate VideoTurn(p: Playback, video: seq<Frame>, audio: seq<AudioRead>) {
    && Merged(p, video, audio) && p.heldVideo == []
    && if p.heldAudio == [] then p.ai == 0
       else |p.heldAudio| == 1 && Turn(video, audio, p.ai - 1) < p.vi <= Turn(video, audio, p.ai)
            && audio[p.ai - 1].frame.ts > video[Turn(video, audio, p.ai - 1)].ts
  }

  /** It is the turn of the audio reader, with the next video frame held. */
  ghost predicate AudioTurn(p: Playback, video: seq<Frame>, audio: seq<AudioRead>) {
    && Merged(p, video, audio) && p.heldAudio == [] && |p.heldVideo| == 1
    && p.vi - 1 == Turn(video, audio, p.ai)
  }

  function TakeVideo(p: Playback, video: seq<Frame>): Playback
    requires p.vi < |video|
  {
    p.(vi := p.vi + 1, heldVideo := [video[p.vi]])
  }

  function TakeAudio(p: Playback, audio: seq<AudioRead>): Playback
    requires p.ai < |audio|
  {
    p.(ai := p.ai + 1, kept := p.kept + [true], heldAudio := [audio[p.ai].frame])
  }

  lemma TurnsMerged(p: Playback, video: seq<Frame>, audio: seq<AudioRead>)
    requires VideoTurn(p, video, audio) || AudioTurn(p, video, audio)
    ensures Merged(p, video, audio)
  {
  }

  lemma NothingMerged(video: seq<Frame>, audio: seq<AudioRead>)
    ensures VideoTurn(Playback([], 0, [], 0, [], []), video, audio)
    ensures Merged(Playback([], 0, [], 0, [], []), video, audio)
  {
    assert VideoOut(video, 0, 0) == [];
  }

  lemma TakenMerged(p: Playback, video: seq<Frame>, audio: seq<AudioRead>)
    requires Merged(p, video, audio)
    ensures p.heldVideo == [] && p.vi < |video| ==> Merged(TakeVideo(p, video), video, audio)
    ensures p.heldAudio == [] && p.ai < |audio| ==> Merged(TakeAudio(p, audio), video, audio)
  {
  }

  lemma TurnNotYet(video: seq<Frame>, audio: seq<AudioRead>, n: nat, v: nat)
    requires n < |audio| && v < |video| && Turn(video, audio, n) < v <= Turn(video, audio, n + 1)
    requires video[v].ts <= audio[n].frame.ts && audio[n].frame.ts > video[Turn(video, audio, n)].ts
    ensures v < Turn(video, audio, n + 1)
  {
  }

  /** A video frame goes out: the first, or one that is not later than the held audio frame. */
  lemma VideoGoesOut(p: Playback, video: seq<Frame>, audio: seq<AudioRead>)
    requires VideoTurn(p, video, audio) && p.vi < |video|
    requires p.heldAudio != [] ==> video[p.vi].ts <= audio[p.ai - 1].frame.ts
    ensures VideoTurn(Delivered(TakeVideo(p, video), Video(video[p.vi])), video, audio)
  {
    hide Out, Turn;
    if p.heldAudio != [] {
      TurnNotYet(video, audio, p.ai - 1, p.vi);
      OutVideo(video, audio, p.ai - 1, p.vi);
    } else {
      OutVideo(video, audio, 0, p.vi);
    }
  }

  /** The held audio frame goes out in front of a video frame that is later. */
  lemma HeldAudioGoesOut(p: Playback, video: seq<Frame>, audio: seq<AudioRead>)
    requires VideoTurn(p, video, audio) && p.vi < |video| && p.ai > 0 && p.heldAudio == [audio[p.ai - 1].frame]
    requires video[p.vi].ts > audio[p.ai - 1].frame.ts
    ensures AudioTurn(Delivered(TakeVideo(p, video), Audio(audio[p.ai - 1].frame)), video, audio)
  {
    hide Out;
    assert Turn(video, audio, p.ai) == p.vi;
    OutAudio(video, audio, p.ai - 1);
  }

  lemma SecondVideoHeld(p: Playback, video: seq<Frame>, audio: seq<AudioRead>)
    requires VideoTurn(p, video, audio) && p.vi == 1 < |video| && p.heldAudio == []
    ensures AudioTurn(TakeVideo(p, video), video, audio)
  {
    hide Out;
  }

  /** The held video frame goes out in front of an audio frame that is later. */
  lemma HeldVideoGoesOut(p: Playback, video: seq<Frame>, audio: seq<AudioRead>)
    requires AudioTurn(p, video, audio) && p.ai < |audio| && p.heldVideo == [video[p.vi - 1]]
    requires audio[p.ai].frame.ts > video[p.vi - 1].ts
    ensures VideoTurn(Delivered(TakeAudio(p, audio), Video(video[p.vi - 1])), video, audio)
  {
    hide Out;
    OutVideo(video, audio, p.ai, p.vi - 1);
  }

  /** An audio frame that is not later than the held video frame goes out, or is skipped. */
  lemma AudioSettles(p: Playback, video: seq<Frame>, audio: seq<AudioRead>)
    requires AudioTurn(p, video, audio) && p.ai < |audio| && audio[p.ai].frame.ts <= video[p.vi - 1].ts
    ensures audio[p.ai].frame.ts >= audio[p.ai].skipTs ==>
      AudioTurn(Delivered(TakeAudio(p, audio), Audio(audio[p.ai].frame)), video, audio)
    ensures audio[p.ai].frame.ts < audio[p.ai].skipTs ==>
      AudioTurn(p.(ai := p.ai + 1, kept := p.kept + [false]), video, audio)
  {
    hide Out;
    assert Turn(video, audio, p.ai + 1) == p.vi - 1;
    OutAudio(video, audio, p.ai);
  }

  /** The merge of two video frames and an audio frame: an audio frame that is later than the second video
      frame goes out last, whatever SkipTs is; any other goes out in front of it, or is skipped below
      SkipTs. Of two frames with the same timestamp the one that was just read goes out first. */
  lemma SmallMerge(first: Frame, next: Frame, a: AudioRead)
    ensures Out([first, next], [a], 1, 2) ==
      if a.frame.ts > next.ts then [Video(first), Video(next), Audio(a.frame)]
      else if a.frame.ts >= a.skipTs then [Video(first), Audio(a.frame), Video(next)]
      else [Video(first), Video(next)]
  {
    var video := [first, next];
    assert Turn(video, [a], 0) == 1;
    assert VideoOut(video, 0, 1) == VideoOut(video, 0, 0) + [Video(first)];
    assert VideoOut(video, 0, 2) == VideoOut(video, 0, 1) + [Video(next)];
    assert VideoOut(video, 1, 2) == VideoOut(video, 1, 1) + [Video(next)];
    assert VideoOut(video, 2, 2) == [];
  }

  /** A video frame with the timestamp of a held audio frame goes out in front of it. */
  lemma TieWithHeldAudio(first: Frame, earlier: Frame, tied: Frame, a: AudioRead)
    requires earlier.ts < a.frame.ts == tied.ts
    ensures Out([first, earlier, tied], [a], 1, 3) == [Video(first), Video(earlier), Video(tied), Audio(a.frame)]
  {
    var three := [first, earlier, tied];
    assert Turn(three, [a], 0) == 1;
    assert FirstLater(three, 2, a.frame.ts) == 3;
    assert Turn(three, [a], 1) == 3;
    assert VideoOut(three, 0, 1) == VideoOut(three, 0, 0) + [Video(first)];
    assert VideoOut(three, 0, 2) == VideoOut(three, 0, 1) + [Video(earlier)];
    assert VideoOut(three, 0, 3) == VideoOut(three, 0, 2) + [Video(tied)];
    assert VideoOut(three, 3, 3) == [];
  }

  /** In any merge an audio frame at or above SkipTs is not skipped, and one below it is, unless it is later
      than the second video frame. */
  lemma SkipsBelow(video: seq<Frame>, audio: seq<AudioRead>, i: nat)
    requires VideoOrdered(video) && i < |audio| && |video| > 1
    ensures audio[i].frame.ts >= audio[i].skipTs ==> !Skipped(video, audio, i)
    ensures audio[i].frame.ts < audio[i].skipTs && audio[i].frame.ts <= video[1].ts ==> Skipped(video, audio, i)
  {
    var t := Turn(video, audio, i);
    if t < |video| {
      assert video[1].ts <= video[t].ts;
    }
  }

  // ----- the loops -----

  /** Whether playback goes on, a reader has ended, a callback has failed, or the subscriber was stopped. */
  datatype Status = Playing | Ended | Failed | Halted

  /** Why playback stops, at once: a reader has nothing more and nothing of it is held, the last callback made
      was the first to fail, or the last look was the first to find the subscriber stopped. */
  ghost predicate Stops(
    status: Status, p: Playback, video: seq<Frame>, audio: seq<AudioRead>, okCallbacks: nat, checks: nat,
    okChecks: nat)
  {
    && |p.ds| <= okCallbacks + (if status.Failed? then 1 else 0)
    && match status
       case Playing => checks <= okChecks
       case Ended =>
         && checks <= okChecks
         && ((p.vi == |video| && p.heldVideo == []) || (p.ai == |audio| && p.heldAudio == []))
       case Failed => checks <= okChecks && |p.ds| == okCallbacks + 1
       case Halted => checks == okChecks + 1
  }

  /** At the head of the video loop no video frame is held, and either playback has just begun or an
      audio frame is held: the video reader is never advanced while its frame is held. */
  ghost predicate BetweenLoops(
    p: Playback, audio: seq<AudioRead>, audioFrame: Option<Frame>, videoFrame: Option<Frame>, initState: int)
  {
    && videoFrame == None
    && p.heldAudio == Held(audioFrame)
    && (if audioFrame == None
        then initState == p.vi == |p.ds| <= 1
        else p.ds != [] && 0 < p.ai <= |audio| && audioFrame == Some(audio[p.ai - 1].frame))
  }

  /** At the head of the audio loop the last video frame read is held and no audio frame is. */
  ghost predicate VideoHeld(p: Playback, video: seq<Frame>, videoFrame: Option<Frame>) {
    && p.ds != [] && p.heldAudio == []
    && 0 < p.vi <= |video| && videoFrame == Some(video[p.vi - 1])
  }

  class SubscribeHandler {
    var audioFrame: Option<Frame>
    var videoFrame: Option<Frame>
    /** The callbacks made, in order. */
    var delivered: seq<Delivery>
    /** How often the loop has looked whether the subscriber was stopped. */
    var checks: nat

    constructor ()
      ensures audioFrame == None && videoFrame == None && delivered == [] && checks == 0
    {
      audioFrame, videoFrame, delivered, checks := None, None, [], 0;
    }

    /** The subscriber is found stopped from its `okChecks`-th look on. */
    method Stopped(okChecks: nat) returns (stopped: bool)
      modifies `checks
      ensures checks == old(checks) + 1 && stopped == (checks > okChecks)
    {
      checks := checks + 1;
      stopped := checks > okChecks;
    }

    /** The callback fails once `okCallbacks` of them have succeeded; the frame counts as delivered. */
    method SendAudioFrame(okCallbacks: nat) returns (err: bool)
      requires audioFrame.Some?
      modifies `audioFrame, `delivered
      ensures delivered == old(delivered) + [Audio(old(audioFrame).value)] && audioFrame == None
      ensures err == (|delivered| > okCallbacks)
    {
      delivered := delivered + [Audio(audioFrame.value)];
      err := |delivered| > okCallbacks;
      audioFrame := None;
    }

    method SendVideoFrame(okCallbacks: nat) returns (err: bool)
      requires videoFrame.Some?
      modifies `videoFrame, `delivered
      ensures delivered == old(delivered) + [Video(old(videoFrame).value)] && videoFrame == None
      ensures err == (|delivered| > okCallbacks)
    {
      delivered := delivered + [Video(videoFrame.value)];
      err := |delivered| > okCallbacks;
      videoFrame := None;
    }

    ghost predicate Mirrors(p: Playback)
      reads this
    {
      && p.ds == delivered && p.heldVideo == Held(videoFrame)
      && (p.heldAudio == [] || p.heldAudio == Held(audioFrame))
    }

    /** The inner video loop: sends video frames until one is later than the held audio frame, which
        then goes out, or until the second video frame of the playback. */
    method PlayVideo(
        video: seq<Frame>, audio: seq<AudioRead>, okCallbacks: nat, okChecks: nat, p0: Playback, initState0: int)
      returns (p: Playback, initState: int, status: Status)
      requires VideoOrdered(video) && AudioOrdered(audio)
      requires Accounted(p0, video, audio) && Mirrors(p0) && VideoTurn(p0, video, audio)
      requires BetweenLoops(p0, audio, audioFrame, videoFrame, initState0)
      requires checks <= okChecks && |p0.ds| <= okCallbacks
      modifies this
      ensures Accounted(p, video, audio) && Mirrors(p) && p0.ai == p.ai && p0.vi <= p.vi
      ensures Merged(p, video, audio) && Stops(status, p, video, audio, okCallbacks, checks, okChecks)
      ensures status == Playing ==> p0.vi < p.vi && VideoHeld(p, video, videoFrame) && AudioTurn(p, video, audio)
    {
      hide Conserved, InOrder, VideoTurn, AudioTurn, Merged;
      p, initState := p0, initState0;
      var err := false;
      TurnsMerged(p, video, audio);
      while !err
        invariant Accounted(p, video, audio) && Mirrors(p) && p0.ai == p.ai && p0.vi <= p.vi
        invariant Merged(p, video, audio) && checks <= okChecks
        invariant |p.ds| <= okCallbacks + if err then 1 else 0
        invariant err ==> |p.ds| > okCallbacks
        invariant !err ==> BetweenLoops(p, audio, audioFrame, videoFrame, initState) && VideoTurn(p, video, audio)
        decreases |video| - p.vi
      {
        if p.vi == |video| {
          return p, initState, Ended;
        }
        ghost var before := p;
        ReadVideo(p, video, audio);
        TakenMerged(p, video, audio);
        videoFrame := Some(video[p.vi]);
        p := TakeVideo(p, video);
        var stopped := Stopped(okChecks);
        if stopped {
          return p, initState, Halted;
        }
        if audioFrame.Some? {
          if videoFrame.value.ts > audioFrame.value.ts {
            DeliverAudio(p, video, audio);
            HeldAudioGoesOut(before, video, audio);
            p := Delivered(p, Audio(audioFrame.value));
            TurnsMerged(p, video, audio);
            err := SendAudioFrame(okCallbacks);
            return p, initState, if err then Failed else Playing;
          }
        } else {
          initState := initState + 1;
          if initState >= 2 {
            SecondVideoHeld(before, video, audio);
            return p, initState, Playing;
          }
        }
        DeliverVideo(p, video, audio);
        VideoGoesOut(before, video, audio);
        p := Delivered(p, Video(videoFrame.value));
        TurnsMerged(p, video, audio);
        err := SendVideoFrame(okCallbacks);
      }
      return p, initState, Failed;
    }

    /** The inner audio loop: sends or skips audio frames until one is later than the held video
        frame, which then goes out. */
    method PlayAudio(video: seq<Frame>, audio: seq<AudioRead>, okCallbacks: nat, okChecks: nat, p0: Playback)
      returns (p: Playback, status: Status)
      requires VideoOrdered(video) && AudioOrdered(audio)
      requires Accounted(p0, video, audio) && Mirrors(p0) && AudioTurn(p0, video, audio)
      requires VideoHeld(p0, video, videoFrame)
      requires checks <= okChecks && |p0.ds| <= okCallbacks
      modifies this
      ensures Accounted(p, video, audio) && Mirrors(p) && p0.vi == p.vi && p0.ai <= p.ai
      ensures Merged(p, video, audio) && Stops(status, p, video, audio, okCallbacks, checks, okChecks)
      ensures status == Playing ==> BetweenLoops(p, audio, audioFrame, videoFrame, 2) && VideoTurn(p, video, audio)
    {
      hide Conserved, InOrder, VideoTurn, AudioTurn, Merged;
      p := p0;
      var err := false;
      TurnsMerged(p, video, audio);
      while !err
        invariant Accounted(p, video, audio) && Mirrors(p) && p0.vi == p.vi && p0.ai <= p.ai
        invariant Merged(p, video, audio) && checks <= okChecks
        invariant |p.ds| <= okCallbacks + if err then 1 else 0
        invariant err ==> |p.ds| > okCallbacks
        invariant !err ==> VideoHeld(p, video, videoFrame) && AudioTurn(p, video, audio)
        decreases |audio| - p.ai
      {
        if p.ai == |audio| {
          return p, Ended;
        }
        ghost var before := p;
        TakenMerged(p, video, audio);
        audioFrame := Some(audio[p.ai].frame);
        var stopped := Stopped(okChecks);
        if stopped {
          ReadAudio(p, video, audio);
          p := TakeAudio(p, audio);
          return p, Halted;
        }
        if videoFrame.Some? {
          if audioFrame.value.ts > videoFrame.value.ts {
            ReadAudio(p, video, audio);
            p := TakeAudio(p, audio);
            DeliverVideo(p, video, audio);
            HeldVideoGoesOut(before, video, audio);
            p := Delivered(p, Video(videoFrame.value));
            TurnsMerged(p, video, audio);
            err := SendVideoFrame(okCallbacks);
            return p, if err then Failed else Playing;
          }
        }
        AudioSettles(before, video, audio);
        if audioFrame.value.ts >= audio[p.ai].skipTs {
          ReadAudio(p, video, audio);
          p := TakeAudio(p, audio);
          DeliverAudio(p, video, audio);
          p := Delivered(p, Audio(audioFrame.value));
          TurnsMerged(p, video, audio);
          err := SendAudioFrame(okCallbacks);
        } else {
          SkipAudio(p, video, audio);
          p := p.(ai := p.ai + 1, kept := p.kept + [false]);
          TurnsMerged(p, video, audio);
        }
      }
      return p, Failed;
    }

    /** Plays `video` and `audio` until a reader has nothing more, a callback fails or the subscriber is
        found stopped, which can leave the frame just read held. The returned state counts the frames
        read, marks the audio frames that were not skipped, and holds the audio frame that was read but
        neither delivered nor skipped. */
    method Run(video: seq<Frame>, audio: seq<AudioRead>, okCallbacks: nat, okChecks: nat)
      returns (p: Playback, status: Status)
      requires VideoOrdered(video) && AudioOrdered(audio)
      requires audioFrame == None && videoFrame == None && delivered == [] && checks == 0
      modifies this
      ensures Accounted(p, video, audio)
      ensures p.ds == delivered && p.heldVideo == Held(videoFrame)
      ensures p.heldAudio == [] || p.heldAudio == Held(audioFrame)
      // the callbacks made are those of the merge
      ensures Merged(p, video, audio)
      // playback stops only for a reason, and at once
      ensures status != Playing && Stops(status, p, video, audio, okCallbacks, checks, okChecks)
    {
      hide Conserved, InOrder, VideoTurn, AudioTurn, Merged;
      var initState := 0;
      status := Playing;
      p := Playback([], 0, [], 0, [], []);
      NothingAccounted(video, audio);
      NothingMerged(video, audio);
      while status == Playing
        invariant Accounted(p, video, audio) && Mirrors(p) && Merged(p, video, audio)
        invariant Stops(status, p, video, audio, okCallbacks, checks, okChecks)
        invariant status == Playing ==>
          BetweenLoops(p, audio, audioFrame, videoFrame, initState) && VideoTurn(p, video, audio)
        decreases |video| - p.vi + |audio| - p.ai, if status == Playing then 1 else 0
      {
        var stopped := Stopped(okChecks);
        if stopped {
          status := Halted;
        } else {
          p, initState, status := PlayVideo(video, audio, okCallbacks, okChecks, p, initState);
          if status == Playing {
            p, status := PlayAudio(video, audio, okCallbacks, okChecks, p);
          }
        }
      }
    }
  }
}
