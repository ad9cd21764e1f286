/** The browser side of the audio transport: framing, the in-flight window and reconciliation. */
module SttClient {
  import opened Common
  import opened Pcm
  import R = Resampler

  const MAX_IN_FLIGHT := 6
  const MAX_QUEUED_FRAMES := 150

  /** A frame that was sent under a sequence number and not yet acknowledged. */
  datatype Entry = Entry(sequence: nat, frame: Frame)

  datatype Client = Client(
    streamOpen: bool,
    pendingPcm: seq<int>,
    frameQueue: seq<Frame>,
    inFlight: seq<Entry>,
    pendingAcks: nat,
    nextSequence: nat,
    serverNextSequence: nat,
    active: bool,
    committing: bool,
    commitRequested: bool)

  /** The window as the source keeps it: ascending keys below `nextSequence`, counted in `pendingAcks`. */
  ghost predicate Windowed(c: Client) {
    && c.pendingAcks == |c.inFlight| <= MAX_IN_FLIGHT
    && (forall i, j :: 0 <= i < j < |c.inFlight| ==> c.inFlight[i].sequence < c.inFlight[j].sequence)
    && (forall i :: 0 <= i < |c.inFlight| ==> c.inFlight[i].sequence < c.nextSequence)
  }

  function Min(a: nat, b: nat): nat {
    if a <= b then a else b
  }

  /** The stream has just been opened and capture started. */
  function Started(): Client {
    Client(true, [], [], [], 0, 0, 0, true, false, false)
  }

  /** `fail`: the stream state is reset and the recording ends. */
  function Failed(c: Client): Client {
    Client(false, [], [], [], 0, 0, 0, false, false, false)
  }

  /** How many frames a flush moves: until the queue, the window or the socket is exhausted. */
  function FlushCount(c: Client, online: bool, room: nat): nat {
    if !online || !c.streamOpen then 0
    else Min(Min(|c.frameQueue|, if c.pendingAcks < MAX_IN_FLIGHT then MAX_IN_FLIGHT - c.pendingAcks else 0), room)
  }

  /** The entries sent when n queued frames are numbered from `nextSequence`. */
  function Outgoing(c: Client, n: nat): (sent: seq<Entry>)
    requires n <= |c.frameQueue|
    ensures |sent| == n
  {
    seq(n, i requires 0 <= i < n => Entry(c.nextSequence + i, c.frameQueue[i]))
  }

  function Sent(c: Client, online: bool, room: nat): seq<Entry> {
    Outgoing(c, FlushCount(c, online, room))
  }

  /** The next n queued frames numbered and moved into the window. */
  function Moved(c: Client, n: nat): Client
    requires n <= |c.frameQueue|
  {
    c.(frameQueue := c.frameQueue[n..],
       inFlight := c.inFlight + Outgoing(c, n),
       pendingAcks := |c.inFlight| + n,
       nextSequence := c.nextSequence + n)
  }

  function Flushed(c: Client, online: bool, room: nat): Client {
    Moved(c, FlushCount(c, online, room))
  }

  predicate Overflows(c: Client, pcm: seq<int>, frameSamples: nat)
    requires frameSamples > 0
  {
    |c.frameQueue| + |Frames(c.pendingPcm + pcm, frameSamples)| > MAX_QUEUED_FRAMES
    && |Frames(c.pendingPcm + pcm, frameSamples)| > 0
  }

  /** Effect of captured PCM before the flush that follows it. */
  function Framed(c: Client, pcm: seq<int>, frameSamples: nat): Client
    requires frameSamples > 0
  {
    if |pcm| == 0 then c
    else if Overflows(c, pcm, frameSamples) then Failed(c)
    else
      c.(pendingPcm := Leftover(c.pendingPcm + pcm, frameSamples),
         frameQueue := c.frameQueue + Frames(c.pendingPcm + pcm, frameSamples))
  }

  /** The entries at or above a sequence number, in order. */
  function From(entries: seq<Entry>, next: nat): (kept: seq<Entry>)
    ensures forall e | e in kept :: e in entries && e.sequence >= next
    ensures |kept| <= |entries|
  {
    if |entries| == 0 then []
    else if entries[0].sequence >= next then [entries[0]] + From(entries[1..], next)
    else From(entries[1..], next)
  }

  lemma {:induction false} FromHas(entries: seq<Entry>, next: nat)
    ensures forall e :: e in From(entries, next) <==> e in entries && e.sequence >= next
  {
    if |entries| > 0 {
      FromHas(entries[1..], next);
      assert entries == [entries[0]] + entries[1..];
    }
  }

  function FramesOf(entries: seq<Entry>): (frames: seq<Frame>)
    ensures |frames| == |entries|
    ensures forall i :: 0 <= i < |entries| ==> frames[i] == entries[i].frame
  {
    seq(|entries|, i requires 0 <= i < |entries| => entries[i].frame)
  }

  /** A chunk acknowledgement, before the flush that follows it. */
  function Acknowledged(c: Client, next: nat): Client {
    var kept := From(c.inFlight, next);
    c.(serverNextSequence := next, inFlight := kept, pendingAcks := |kept|)
  }

  /** The detector asks for a commit while the microphone is live. */
  predicate VadStops(c: Client, autoCommit: bool) {
    autoCommit && c.active && !c.committing
  }

  function VadStopped(c: Client): Client {
    c.(active := false, committing := true, commitRequested := true, frameQueue := [], pendingPcm := [])
  }

  function Reconciled(c: Client, authoritative: nat): Client {
    c.(inFlight := [],
       pendingAcks := 0,
       frameQueue := FramesOf(From(c.inFlight, authoritative)) + c.frameQueue,
       serverNextSequence := authoritative,
       nextSequence := authoritative)
  }

  /** `stop` up to the point where it waits for the microphone to be released. */
  function StopBegun(c: Client): Client {
    if !c.active || c.committing then c else c.(active := false, committing := true)
  }

  /** The rest of `stop`: the last partial frame is queued whatever its length. */
  function StopEnded(c: Client): Client {
    c.(commitRequested := true,
       frameQueue := if |c.pendingPcm| > 0 then c.frameQueue + [c.pendingPcm] else c.frameQueue,
       pendingPcm := [])
  }

  // ---- sorting the replayed entries ----

  ghost predicate Ascending(entries: seq<Entry>) {
    forall i, j :: 0 <= i < j < |entries| ==> entries[i].sequence < entries[j].sequence
  }

  function Insert(e: Entry, sorted: seq<Entry>): seq<Entry> {
    if |sorted| == 0 || e.sequence <= sorted[0].sequence then [e] + sorted
    else [sorted[0]] + Insert(e, sorted[1..])
  }

  function Sort(entries: seq<Entry>): seq<Entry> {
    if |entries| == 0 then [] else Insert(entries[0], Sort(entries[1..]))
  }

  lemma {:induction false} SortFixesAscending(entries: seq<Entry>)
    requires Ascending(entries)
    ensures Sort(entries) == entries
  {
    if |entries| > 0 {
      SortFixesAscending(entries[1..]);
    }
  }

  lemma {:induction false} FromAscending(entries: seq<Entry>, next: nat)
    requires Ascending(entries)
    ensures Ascending(From(entries, next))
  {
    if |entries| > 0 {
      FromAscending(entries[1..], next);
      assert forall e | e in From(entries[1..], next) :: e in entries[1..];
      assert forall e | e in entries[1..] :: entries[0].sequence < e.sequence;
    }
  }

  lemma {:induction false} FromSnoc(entries: seq<Entry>, e: Entry, next: nat)
    ensures From(entries + [e], next) == From(entries, next) + if e.sequence >= next then [e] else []
  {
    if |entries| > 0 {
      assert (entries + [e])[1..] == entries[1..] + [e];
      FromSnoc(entries[1..], e, next);
    }
  }

  // ---- every operation keeps the window ----

  lemma WindowCounts(c: Client)
    requires Windowed(c)
    ensures c.pendingAcks == |c.inFlight| <= MAX_IN_FLIGHT
    ensures Ascending(c.inFlight)
  {
  }

  /** The flush stops exactly when the queue, the window or the socket is exhausted. */
  lemma FlushCountIsExhaustive(c: Client, online: bool, room: nat)
    ensures var n := FlushCount(c, online, room);
            && n <= |c.frameQueue| && n <= room
            && (n > 0 ==> online && c.streamOpen && c.pendingAcks + n <= 6)
            && (online && c.streamOpen ==> n == |c.frameQueue| || n == room || c.pendingAcks + n >= 6)
  {
  }

  lemma SameWindow(c: Client, d: Client)
    requires Windowed(c)
    requires d.inFlight == c.inFlight && d.pendingAcks == c.pendingAcks && d.nextSequence == c.nextSequence
    ensures Windowed(d)
  {
  }

  lemma EmptyWindow(c: Client)
    requires c.inFlight == [] && c.pendingAcks == 0
    ensures Windowed(c)
  {
  }

  lemma OutgoingSnoc(c: Client, n: nat)
    requires n < |c.frameQueue|
    ensures Outgoing(c, n + 1) == Outgoing(c, n) + [Entry(c.nextSequence + n, c.frameQueue[n])]
  {
  }

  lemma FlushKeepsWindow(c: Client, online: bool, room: nat)
    requires Windowed(c)
    ensures Windowed(Flushed(c, online, room))
  {
  }

  lemma AcknowledgeKeepsWindow(c: Client, next: nat)
    requires Windowed(c)
    ensures Windowed(Acknowledged(c, next))
  {
    FromAscending(c.inFlight, next);
  }

  lemma MovedNone(c: Client)
    requires c.pendingAcks == |c.inFlight|
    ensures Moved(c, 0) == c && Outgoing(c, 0) == []
  {
    assert c.frameQueue[0..] == c.frameQueue;
    assert c.inFlight + Outgoing(c, 0) == c.inFlight;
  }

  lemma MovedSnoc(c: Client, n: nat)
    requires n < |c.frameQueue|
    ensures var d := Moved(c, n);
            && |d.frameQueue| > 0
            && Moved(c, n + 1) == d.(frameQueue := d.frameQueue[1..],
                                     inFlight := d.inFlight + [Entry(d.nextSequence, d.frameQueue[0])],
                                     pendingAcks := |d.inFlight| + 1,
                                     nextSequence := d.nextSequence + 1)
            && |d.inFlight| == |c.inFlight| + n && |d.frameQueue| == |c.frameQueue| - n
            && Outgoing(c, n + 1) == Outgoing(c, n) + [Entry(d.nextSequence, d.frameQueue[0])]
  {
    var d := Moved(c, n);
    assert d.frameQueue[1..] == c.frameQueue[n + 1..];
    assert Outgoing(c, n + 1) == Outgoing(c, n) + [Entry(c.nextSequence + n, c.frameQueue[n])];
    assert c.inFlight + (Outgoing(c, n) + [Entry(c.nextSequence + n, c.frameQueue[n])])
        == (c.inFlight + Outgoing(c, n)) + [Entry(c.nextSequence + n, c.frameQueue[n])];
  }

  lemma CutOne(pcm: seq<int>, size: nat)
    requires 0 < size <= |pcm|
    ensures Frames(pcm, size) == [pcm[..size]] + Frames(pcm[size..], size)
    ensures Leftover(pcm, size) == Leftover(pcm[size..], size)
  {
  }

  lemma CutNone(pcm: seq<int>, size: nat)
    requires |pcm| < size
    ensures Frames(pcm, size) == [] && Leftover(pcm, size) == pcm
  {
  }

  lemma FramedIs(c: Client, pcm: seq<int>, size: nat)
    requires size > 0 && |pcm| > 0
    ensures Framed(c, pcm, size)
         == if Overflows(c, pcm, size) then Failed(c)
            else c.(pendingPcm := Leftover(c.pendingPcm + pcm, size),
                    frameQueue := c.frameQueue + Frames(c.pendingPcm + pcm, size))
  {
  }

  lemma OneMoreProduct(n: nat, size: nat)
    ensures (n + 1) * size == n * size + size
  {
  }

  lemma ProductsOrder(a: nat, b: nat, size: nat)
    requires a <= b
    ensures a * size <= b * size
  {
  }

  lemma {:induction false} FrameCount(pcm: seq<int>, size: nat)
    requires size > 0
    ensures |Frames(pcm, size)| * size <= |pcm| < (|Frames(pcm, size)| + 1) * size
    decreases |pcm|
  {
    if |pcm| >= size {
      FrameCount(pcm[size..], size);
      OneMoreProduct(|Frames(pcm[size..], size)|, size);
      OneMoreProduct(|Frames(pcm, size)|, size);
    }
  }

  /** The number of full frames is the only n with n frames' worth of samples and not one frame more. */
  lemma FrameCountIs(pcm: seq<int>, size: nat, n: nat)
    requires size > 0 && n * size <= |pcm| < (n + 1) * size
    ensures |Frames(pcm, size)| == n
  {
    var k := |Frames(pcm, size)|;
    FrameCount(pcm, size);
    if k < n {
      ProductsOrder(k + 1, n, size);
    } else if n < k {
      ProductsOrder(n + 1, k, size);
    }
  }

  /**
   Captured samples that complete n frames fail the client exactly when n is not zero and the frames queued would pass a
   hundred and fifty; a failed client has forgotten its stream and everything in it.
   */
  lemma FailsIffQueueIsFull(c: Client, pcm: seq<int>, size: nat, n: nat)
    requires size > 0 && |pcm| > 0 && n * size <= |c.pendingPcm| + |pcm| < (n + 1) * size
    ensures var d := Framed(c, pcm, size);
            if n > 0 && |c.frameQueue| + n > 150
            then !d.streamOpen && !d.active && !d.committing && d.frameQueue == [] && d.inFlight == [] && d.pendingPcm == []
            else && d.streamOpen == c.streamOpen && d.active == c.active && d.committing == c.committing
                 && d.inFlight == c.inFlight && |d.frameQueue| == |c.frameQueue| + n
                 && |d.pendingPcm| < size
                 && Flatten(d.frameQueue) + d.pendingPcm == Flatten(c.frameQueue) + c.pendingPcm + pcm
  {
    FrameCountIs(c.pendingPcm + pcm, size, n);
    FramedIs(c, pcm, size);
    FramedContent(c.frameQueue, c.pendingPcm, pcm, size);
    hide Frames, Leftover, Framed, Flatten;
  }

  lemma FramedContent(queue: seq<Frame>, pending: seq<int>, pcm: seq<int>, size: nat)
    requires size > 0
    ensures Flatten(queue + Frames(pending + pcm, size)) + Leftover(pending + pcm, size) == Flatten(queue) + pending + pcm
  {
    FramesKeepSamples(pending + pcm, size);
    FlattenConcat(queue, Frames(pending + pcm, size));
    hide Frames, Leftover, Flatten;
    RegroupSamples(Flatten(queue), Flatten(Frames(pending + pcm, size)), Leftover(pending + pcm, size), pending, pcm);
  }

  lemma RegroupSamples(a: seq<int>, b: seq<int>, c: seq<int>, d: seq<int>, e: seq<int>)
    requires b + c == d + e
    ensures (a + b) + c == a + d + e
  {
    assert (a + b) + c == a + (b + c);
    assert a + (d + e) == a + d + e;
  }

  lemma Regroup(cut: seq<Frame>, frame: Frame, rest: seq<Frame>)
    ensures cut + ([frame] + rest) == (cut + [frame]) + rest
  {
  }

  /** The client object of the source. */
  class ServerSttClient {
    const frameSamples: nat
    const resampler: R.LinearResampler
    var streamOpen: bool
    var pendingPcm: seq<int>
    var frameQueue: seq<Frame>
    var inFlight: seq<Entry>
    var pendingAcks: nat
    var nextSequence: nat
    var serverNextSequence: nat
    var active: bool
    var committing: bool
    var commitRequested: bool

    ghost function View(): Client
      reads this
    {
      Client(streamOpen, pendingPcm, frameQueue, inFlight, pendingAcks, nextSequence, serverNextSequence,
             active, committing, commitRequested)
    }

    ghost predicate Valid()
      reads this, resampler
    {
      frameSamples > 0 && resampler.Valid() && Windowed(View())
    }

    constructor (frameSamples: nat, resampler: R.LinearResampler)
      requires frameSamples > 0 && resampler.Valid()
      ensures Valid() && View() == Started()
      ensures this.frameSamples == frameSamples && this.resampler == resampler
    {
      this.frameSamples := frameSamples;
      this.resampler := resampler;
      streamOpen := true;
      pendingPcm, frameQueue, inFlight := [], [], [];
      pendingAcks, nextSequence, serverNextSequence := 0, 0, 0;
      active, committing, commitRequested := true, false, false;
    }

    method Fail()
      modifies this
      ensures View() == Failed(old(View()))
    {
      active := false;
      committing := false;
      streamOpen := false;
      nextSequence, serverNextSequence, pendingAcks := 0, 0, 0;
      frameQueue, inFlight, pendingPcm := [], [], [];
      commitRequested := false;
    }

    /** Numbers queued frames and sends them; `room` is how many the socket buffer still takes. */
    method FlushFrames(online: bool, room: nat) returns (sent: seq<Entry>)
      requires Valid()
      modifies this
      ensures Valid()
      ensures sent == Sent(old(View()), online, room)
      ensures View() == Flushed(old(View()), online, room)
    {
      hide Windowed, Outgoing, FlushCount, Moved, R.LinearResampler.Valid;
      sent := [];
      ghost var before := View();
      WindowCounts(before);
      FlushCountIsExhaustive(before, online, room);
      MovedNone(before);
      if !online || !streamOpen {
        assert Flushed(before, online, room) == before;
        return;
      }
      ghost var limit := FlushCount(before, online, room);
      while |frameQueue| > 0 && pendingAcks < MAX_IN_FLIGHT && |sent| < room
        invariant |sent| <= limit
        invariant sent == Outgoing(before, |sent|)
        invariant View() == Moved(before, |sent|)
        invariant |frameQueue| == |before.frameQueue| - |sent| && pendingAcks == |before.inFlight| + |sent|
        decreases |frameQueue|
      {
        OutgoingSnoc(before, |sent|);
        MovedSnoc(before, |sent|);
        var frame := frameQueue[0];
        frameQueue := frameQueue[1..];
        var sequence := nextSequence;
        nextSequence := nextSequence + 1;
        inFlight := inFlight + [Entry(sequence, frame)];
        pendingAcks := |inFlight|;
        sent := sent + [Entry(sequence, frame)];
      }
      assert |sent| == limit;
      FlushKeepsWindow(before, online, room);
    }

    /**
     Resamples, quantises and frames what the microphone delivered, then flushes; `opening` tells whether a
     request to open a stream is unanswered, `capturing` whether the resampler has been set up.
     */
    method HandleSamples(samples: seq<real>, opening: bool, capturing: bool, online: bool, room: nat)
      returns (sent: seq<Entry>)
      requires Valid()
      modifies this, resampler
      ensures Valid()
      ensures !((old(active) || opening) && capturing) ==>
                View() == old(View()) && resampler.View() == old(resampler.View()) && sent == []
      ensures (old(active) || opening) && capturing ==>
                resampler.View() == R.PushState(resampler.rates, old(resampler.View()), samples)
      ensures (old(active) || opening) && capturing ==>
                var pcm := QuantizeAll(R.PushOutput(resampler.rates, old(resampler.View()), samples));
                if |pcm| == 0 then View() == old(View()) && sent == []
                else
                  var framed := Framed(old(View()), pcm, frameSamples);
                  View() == Flushed(framed, online, room) && sent == Sent(framed, online, room)
    {
      sent := [];
      if !active && !opening {
        return;
      }
      if !capturing {
        return;
      }
      var resampled := resampler.Push(samples);
      if |resampled| == 0 {
        return;
      }
      var pcm: seq<int> := [];
      for i := 0 to |resampled|
        invariant View() == old(View()) && Valid() && |pcm| == i
        invariant resampler.View() == R.PushState(resampler.rates, old(resampler.View()), samples)
        invariant forall j :: 0 <= j < i ==> pcm[j] == Quantize(resampled[j])
      {
        pcm := pcm + [Quantize(resampled[i])];
      }
      assert pcm == QuantizeAll(resampled);
      var failed := AppendPcm(pcm);
      if failed {
        assert Sent(Failed(old(View())), online, room) == [];
        assert Flushed(Failed(old(View())), online, room) == Failed(old(View()));
        return;
      }
      sent := FlushFrames(online, room);
    }

    /** The framing loop; reports whether the reconnect buffer overflowed. */
    method AppendPcm(pcm: seq<int>) returns (failed: bool)
      requires Valid() && |pcm| > 0
      modifies this
      ensures Valid()
      ensures failed == Overflows(old(View()), pcm, frameSamples)
      ensures View() == Framed(old(View()), pcm, frameSamples)
    {
      hide Windowed, R.LinearResampler.Valid, Frames, Leftover, Framed;
      ghost var before := View();
      ghost var all := pendingPcm + pcm;
      ghost var cut: seq<Frame> := [];
      pendingPcm := pendingPcm + pcm;
      assert cut + Frames(all, frameSamples) == Frames(all, frameSamples);
      while |pendingPcm| >= frameSamples
        invariant cut + Frames(pendingPcm, frameSamples) == Frames(all, frameSamples)
        invariant Leftover(pendingPcm, frameSamples) == Leftover(all, frameSamples)
        invariant View() == before.(pendingPcm := pendingPcm, frameQueue := before.frameQueue + cut)
        invariant |cut| > 0 ==> |before.frameQueue| + |cut| <= MAX_QUEUED_FRAMES
        decreases |pendingPcm|
      {
        var frame := pendingPcm[..frameSamples];
        CutOne(pendingPcm, frameSamples);
        pendingPcm := pendingPcm[frameSamples..];
        frameQueue := frameQueue + [frame];
        Regroup(cut, frame, Frames(pendingPcm, frameSamples));
        assert before.frameQueue + (cut + [frame]) == (before.frameQueue + cut) + [frame];
        cut := cut + [frame];
        if |frameQueue| > MAX_QUEUED_FRAMES {
          FramedIs(before, pcm, frameSamples);
          Fail();
          EmptyWindow(View());
          return true;
        }
      }
      CutNone(pendingPcm, frameSamples);
      FramedIs(before, pcm, frameSamples);
      assert cut == Frames(all, frameSamples);
      SameWindow(before, View());
      return false;
    }

    /** Deletes every in-flight entry below the server's cursor. */
    method DropAcknowledged(next: nat)
      modifies this`inFlight, this`pendingAcks
      ensures inFlight == From(old(inFlight), next)
      ensures forall e :: e in inFlight <==> e in old(inFlight) && e.sequence >= next
      ensures pendingAcks == |inFlight|
    {
      var kept: seq<Entry> := [];
      for i := 0 to |inFlight|
        invariant inFlight == old(inFlight)
        invariant kept == From(inFlight[..i], next)
      {
        assert inFlight[..i + 1] == inFlight[..i] + [inFlight[i]];
        FromSnoc(inFlight[..i], inFlight[i], next);
        if inFlight[i].sequence >= next {
          kept := kept + [inFlight[i]];
        }
      }
      assert inFlight[..|inFlight|] == inFlight;
      FromHas(inFlight, next);
      inFlight := kept;
      pendingAcks := |inFlight|;
    }

    /** A chunk acknowledgement, with the detector's recommendation. */
    method OnChunkAck(next: nat, autoCommit: bool, online: bool, room: nat) returns (sent: seq<Entry>)
      requires Valid()
      modifies this
      ensures Valid()
      ensures var acked := Acknowledged(old(View()), next);
              if VadStops(acked, autoCommit)
              then View() == VadStopped(acked) && sent == []
              else View() == Flushed(acked, online, room) && sent == Sent(acked, online, room)
      ensures autoCommit && old(active) && !old(committing) ==>
                !active && committing && frameQueue == [] && pendingPcm == [] && sent == []
      ensures !(autoCommit && old(active) && !old(committing)) ==>
                active == old(active) && committing == old(committing) && pendingPcm == old(pendingPcm)
    {
      hide Windowed, R.LinearResampler.Valid;
      serverNextSequence := next;
      DropAcknowledged(next);
      assert View() == Acknowledged(old(View()), next);
      AcknowledgeKeepsWindow(old(View()), next);
      if autoCommit && active && !committing {
        active := false;
        committing := true;
        commitRequested := true;
        frameQueue := [];
        pendingPcm := [];
        SameWindow(Acknowledged(old(View()), next), View());
        return [];
      }
      sent := FlushFrames(online, room);
    }

    /** Puts the unaccepted in-flight frames back in front of the queue and renumbers from the server's cursor. */
    method ReconcileAfterReconnect(authoritative: nat)
      requires Valid()
      modifies this
      ensures Valid()
      ensures View() == Reconciled(old(View()), authoritative)
    {
      hide Windowed, Sort;
      WindowCounts(View());
      var replay := Sort(From(inFlight, authoritative));
      FromAscending(inFlight, authoritative);
      SortFixesAscending(From(inFlight, authoritative));
      inFlight := [];
      pendingAcks := 0;
      frameQueue := FramesOf(replay) + frameQueue;
      serverNextSequence := authoritative;
      nextSequence := authoritative;
      EmptyWindow(View());
    }

    /** The user ends the recording; tells whether the microphone must now be released. */
    method BeginStop() returns (begun: bool)
      requires Valid()
      modifies this
      ensures Valid()
      ensures begun == (old(active) && !old(committing))
      ensures View() == StopBegun(old(View()))
    {
      if !active || committing {
        return false;
      }
      active := false;
      committing := true;
      SameWindow(old(View()), View());
      return true;
    }

    /** The microphone has been released; the commit itself is sent once everything is acknowledged. */
    method EndStop(online: bool, room: nat) returns (sent: seq<Entry>)
      requires Valid()
      modifies this
      ensures Valid()
      ensures var ended := StopEnded(old(View()));
              if |old(pendingPcm)| > 0
              then View() == Flushed(ended, online, room) && sent == Sent(ended, online, room)
              else View() == ended && sent == []
    {
      sent := [];
      if |pendingPcm| > 0 {
        frameQueue := frameQueue + [pendingPcm];
        pendingPcm := [];
        sent := FlushFrames(online, room);
      }
      commitRequested := true;
    }

    /** `waitForDrain` lets a commit go out exactly when nothing is queued and nothing is in flight. */
    method Drained() returns (yes: bool)
      ensures yes <==> View().frameQueue == [] && View().inFlight == []
    {
      yes := !(|frameQueue| > 0 || |inFlight| > 0);
    }
  }
}
