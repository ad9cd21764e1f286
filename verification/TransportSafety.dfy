/** What every run of the audio transport keeps. */
module TransportSafety {
  import opened Common
  import opened Pcm
  import opened AudioStream
  import opened SpeechBridge
  import opened SttClient
  import opened Transport

  // ---- the client's numbering ----

  /** The lowest sequence number the client still holds for replay. */
  function Lowest(c: Client): int {
    c.nextSequence - |c.inFlight|
  }

  /**
   Sequence number k carries frame k: the queue is what follows `nextSequence`, the window is the
   contiguous stretch before it, and everything below the window has been accepted by the server.
   */
  ghost predicate Numbered(c: Client, frames: seq<Frame>, kept: nat, accepted: nat) {
    c.streamOpen ==>
      && c.nextSequence <= kept <= |frames|
      && c.frameQueue == frames[c.nextSequence..kept]
      && c.pendingAcks == |c.inFlight| <= MAX_IN_FLIGHT
      && 0 <= Lowest(c) <= accepted
      && c.serverNextSequence <= accepted
      && (forall i :: 0 <= i < |c.inFlight| ==>
            c.inFlight[i] == Entry(Lowest(c) + i, frames[Lowest(c) + i]))
  }

  /** Every entry carries the frame of its own number. */
  ghost predicate Genuine(entries: seq<Entry>, frames: seq<Frame>) {
    forall i :: 0 <= i < |entries| ==>
      entries[i].sequence < |frames| && entries[i].frame == frames[entries[i].sequence]
  }

  /** Numbering the next n queued frames keeps every number on its frame. */
  lemma NumberingKeepsNumbers(c: Client, n: nat, frames: seq<Frame>, kept: nat, accepted: nat)
    requires Numbered(c, frames, kept, accepted) && c.streamOpen && n <= |c.frameQueue| && |c.inFlight| + n <= MAX_IN_FLIGHT
    ensures var d := Moved(c, n);
            Numbered(d, frames, kept, accepted) && Lowest(d) == Lowest(c)
    ensures Genuine(Outgoing(c, n), frames)
  {
    assert forall i :: 0 <= i < |c.frameQueue| ==> c.frameQueue[i] == frames[c.nextSequence + i];
    assert frames[c.nextSequence..kept][n..] == frames[c.nextSequence + n..kept];
    var d := Moved(c, n);
    forall i | 0 <= i < |d.inFlight|
      ensures d.inFlight[i] == Entry(Lowest(d) + i, frames[Lowest(d) + i])
    {
      if i >= |c.inFlight| {
        assert d.inFlight[i] == Outgoing(c, n)[i - |c.inFlight|];
      }
    }
  }

  lemma FlushKeepsNumbers(c: Client, online: bool, room: nat, frames: seq<Frame>, kept: nat, accepted: nat)
    requires Numbered(c, frames, kept, accepted)
    ensures Numbered(Flushed(c, online, room), frames, kept, accepted)
    ensures Genuine(Sent(c, online, room), frames)
    ensures c.streamOpen ==> Lowest(Flushed(c, online, room)) == Lowest(c)
  {
    if c.streamOpen {
      NumberingKeepsNumbers(c, FlushCount(c, online, room), frames, kept, accepted);
    }
  }

  lemma {:induction false} FromContiguous(entries: seq<Entry>, low: nat, next: nat)
    requires forall i :: 0 <= i < |entries| ==> entries[i].sequence == low + i
    ensures var cut := if next <= low then 0 else if next >= low + |entries| then |entries| else next - low;
            From(entries, next) == entries[cut..]
  {
    if |entries| > 0 {
      FromContiguous(entries[1..], low + 1, next);
    }
  }

  lemma AcknowledgeKeepsNumbers(c: Client, next: nat, frames: seq<Frame>, kept: nat, accepted: nat)
    requires Numbered(c, frames, kept, accepted)
    requires next <= accepted
    ensures Numbered(Acknowledged(c, next), frames, kept, accepted)
  {
    hide From;
    if c.streamOpen {
      FromContiguous(c.inFlight, Lowest(c), next);
    }
  }

  lemma ReplayIsWindowTail(c: Client, authoritative: nat, frames: seq<Frame>, kept: nat, accepted: nat)
    requires Numbered(c, frames, kept, accepted) && c.streamOpen
    requires Lowest(c) <= authoritative
    ensures FramesOf(From(c.inFlight, authoritative))
         == if authoritative <= c.nextSequence then frames[authoritative..c.nextSequence] else []
  {
    hide From;
    FromContiguous(c.inFlight, Lowest(c), authoritative);
  }

  /** Reconciling keeps the numbering exactly when the server is not ahead of what the client has numbered. */
  lemma ReconcileKeepsNumbersIff(c: Client, authoritative: nat, frames: seq<Frame>, kept: nat, accepted: nat)
    requires Numbered(c, frames, kept, accepted) && c.streamOpen
    requires Lowest(c) <= authoritative <= accepted
    ensures Numbered(Reconciled(c, authoritative), frames, kept, accepted)
       <==> authoritative <= c.nextSequence
  {
    hide From, FramesOf;
    ReplayIsWindowTail(c, authoritative, frames, kept, accepted);
    if authoritative <= c.nextSequence {
      assert frames[authoritative..c.nextSequence] + frames[c.nextSequence..kept] == frames[authoritative..kept];
    } else {
      assert |Reconciled(c, authoritative).frameQueue| == kept - c.nextSequence;
    }
  }

  lemma MoreAccepted(c: Client, frames: seq<Frame>, kept: nat, accepted: nat, later: nat)
    requires Numbered(c, frames, kept, accepted) && accepted <= later
    ensures Numbered(c, frames, kept, later)
  {
  }

  lemma QueueingKeepsNumbers(c: Client, d: Client, frames: seq<Frame>, more: seq<Frame>, accepted: nat)
    requires Numbered(c, frames, |frames|, accepted)
    requires d.streamOpen == c.streamOpen && d.frameQueue == c.frameQueue + more
    requires d.inFlight == c.inFlight && d.pendingAcks == c.pendingAcks
    requires d.nextSequence == c.nextSequence && d.serverNextSequence == c.serverNextSequence
    ensures Numbered(d, frames + more, |frames + more|, accepted)
  {
    if c.streamOpen {
      assert (frames + more)[c.nextSequence..] == frames[c.nextSequence..] + more;
    }
  }

  // ---- the messages in transit ----

  /** The first n frames are not everything that was captured. */
  ghost predicate Short(h: History, n: nat) {
    n <= |h.frames| && |Flatten(h.frames[..n])| < |h.captured|
  }

  /** What holds from the moment the client asks for a commit until the provider's answer. */
  ghost predicate SoundCommit(s: Sys, hasty: bool) {
    var c, h := s.client, s.history;
    && !c.active && (h.stopped || h.detectorFired)
    && (hasty ==> Short(h, s.stream.nextSequence))
    && (!hasty ==>
          && c.pendingPcm == []
          && (!h.detectorFired ==> |h.frames| <= s.stream.nextSequence && h.captured == Flatten(h.frames)))
  }

  ghost predicate SoundRequest(m: ToServer, s: Sys) {
    match m
    case ReconnectRequest(next) => next <= s.stream.nextSequence
    case Chunk(chunk) =>
      chunk.sequence < |s.history.frames| && chunk.audio == Some(Bytes(s.history.frames[chunk.sequence]))
    case CommitRequest(hasty) => SoundCommit(s, hasty)
  }

  ghost predicate SoundReply(m: ToClient, s: Sys) {
    match m
    case Ack(next, autoCommit) => next <= s.stream.nextSequence && (autoCommit ==> s.history.detectorFired)
    case Reconnected(next) =>
      next <= s.stream.nextSequence && (s.client.streamOpen ==> Lowest(s.client) <= next)
    case Committed => true
    case ErrorReply => true
  }

  /** A hasty commit is under way. */
  ghost predicate Hurried(requests: seq<ToServer>) {
    CommitRequest(true) in requests
  }

  /** Every chunk ahead of a hasty commit has been accepted already. */
  ghost predicate Spent(requests: seq<ToServer>, next: nat) {
    forall i, j :: 0 <= i < j < |requests| && requests[i].Chunk? && requests[j] == CommitRequest(true) ==>
      requests[i].chunk.sequence < next
  }

  ghost predicate Channels(s: Sys) {
    && (forall i :: 0 <= i < |s.toServer| ==> SoundRequest(s.toServer[i], s))
    && Spent(s.toServer, s.stream.nextSequence)
    && (forall i :: 0 <= i < |s.toClient| ==> SoundReply(s.toClient[i], s))
    && (forall i :: 0 < i < |s.toClient| ==> !s.toClient[i].Reconnected?)
    && (s.serving && !s.attached ==> s.toClient == [])
    && (s.attached ==> s.serving)
    && (s.serving && !s.phase.Idle? ==> s.attached)
  }

  // ---- the server and the provider ----

  /** Frames the provider has been handed or will be handed by the push in progress. */
  function Accounted(s: Sys): int {
    |s.provider.received| + if s.phase.InPush? then 1 else 0
  }

  ghost predicate Ordered(received: seq<Received>, frames: seq<Frame>, bound: nat) {
    && (forall i, j :: 0 <= i < j < |received| ==> received[i].sequence < received[j].sequence)
    && (forall i :: 0 <= i < |received| ==>
          received[i].sequence < bound <= |frames| && received[i].audio == Bytes(frames[received[i].sequence]))
  }

  ghost predicate Complete(received: seq<Received>) {
    forall i :: 0 <= i < |received| ==> received[i].sequence == i
  }

  ghost predicate Server(s: Sys) {
    var next := s.stream.nextSequence;
    && next <= |s.history.frames|
    && s.stream.bufferedBytes <= s.stream.config.maxBufferedBytes
    && s.stream.nextSequence == s.stream.acceptedChunks
    && s.provider.commitCalls == (if s.provider.committed then 1 else 0)
    && s.stream.bufferedBytes <= s.stream.acceptedBytes
    && s.stream.bufferedBytes == (if s.phase.InPush? then |s.phase.audio| else 0)
    && (s.phase.InPush? ==>
          && next > 0 && !s.provider.committed
          && s.phase.result.sequence == next - 1 && s.phase.result.nextSequence == next
          && s.phase.audio == Bytes(s.history.frames[next - 1]))
    && Ordered(s.provider.received, s.history.frames, if s.phase.InPush? then next - 1 else next)
    && (!s.history.pushFailed ==> Complete(s.provider.received))
    && (!s.history.pushFailed && !s.provider.committed ==> Accounted(s) == next)
  }

  // ---- the recording ----

  /** What a commit requested by the client leaves behind. */
  ghost predicate Ended(s: Sys) {
    var c, h := s.client, s.history;
    if h.hasty then Short(h, |s.provider.received|)
    else !h.detectorFired ==>
      !c.active && c.pendingPcm == [] && |s.provider.received| == |h.frames| && h.captured == Flatten(h.frames)
  }

  ghost predicate Recording(s: Sys) {
    var c, h := s.client, s.history;
    && (c.active ==> c.streamOpen && !c.committing && !h.stopped)
    && (c.committing ==> h.stopped || h.detectorFired)
    && (c.pendingPcm != [] ==> c.streamOpen && (c.active || s.stopping))
    && (c.active || c.pendingPcm != [] || (c.streamOpen && !h.detectorFired) ==>
          h.kept == |h.frames| && h.captured == Flatten(h.frames) + c.pendingPcm)
    && Flatten(h.frames) <= h.captured
    && ((s.drains > 0 || s.stopping) && c.streamOpen ==> c.committing)
    && (s.phase.InCommit? ==> if s.phase.byUser then SoundCommit(s, s.phase.hasty) else h.detectorFired)
    && (s.provider.committed ==> h.userCommitted || h.detectorFired)
    && (h.userCommitted ==> s.provider.committed)
    && (h.userCommitted && !h.pushFailed ==> Ended(s))
  }

  ghost predicate Inv(s: Sys) {
    && s.frameSamples > 0
    && Numbered(s.client, s.history.frames, s.history.kept, s.stream.nextSequence)
    && Channels(s)
    && Server(s)
    && Recording(s)
  }

  lemma StartInv(sessionId: string, generation: nat, config: StreamConfig, frameSamples: nat)
    requires frameSamples > 0
    ensures Inv(Start(sessionId, generation, config, frameSamples))
  {
  }

  // ---- one step ----

  lemma ChunksAreSound(s: Sys, sent: seq<Entry>, i: nat)
    requires Genuine(sent, s.history.frames) && i < |sent|
    ensures SoundRequest(Chunks(s, sent)[i], s)
  {
  }

  /** What a step may do to the record once nothing is captured any more. */
  ghost predicate Settles(s: Sys, t: Sys) {
    && s.history.frames <= t.history.frames
    && (s.history.stopped ==> t.history.stopped)
    && (s.history.detectorFired ==> t.history.detectorFired)
    && (!s.client.active ==>
          && !t.client.active && t.history.captured == s.history.captured
          && (s.client.pendingPcm == [] ==> t.client.pendingPcm == [] && t.history.frames == s.history.frames))
  }

  lemma ShortStays(h: History, later: History, n: nat)
    requires Short(h, n) && h.frames <= later.frames && |h.captured| <= |later.captured|
    ensures Short(later, n)
  {
    assert later.frames[..n] == h.frames[..n];
  }

  lemma CommitStaysSound(s: Sys, t: Sys, hasty: bool)
    requires SoundCommit(s, hasty) && Settles(s, t)
    requires s.stream.nextSequence <= t.stream.nextSequence
    requires hasty ==> t.stream.nextSequence == s.stream.nextSequence
    ensures SoundCommit(t, hasty)
  {
    hide Flatten;
    if hasty {
      ShortStays(s.history, t.history, s.stream.nextSequence);
    }
  }

  /** Requests stay sound while frames are appended and the server accepts more. */
  lemma RequestsStaySound(s: Sys, t: Sys)
    requires forall i :: 0 <= i < |s.toServer| ==> SoundRequest(s.toServer[i], s)
    requires Settles(s, t)
    requires s.stream.nextSequence <= t.stream.nextSequence
    requires Hurried(s.toServer) ==> t.stream.nextSequence == s.stream.nextSequence
    ensures forall i :: 0 <= i < |s.toServer| ==> SoundRequest(s.toServer[i], t)
  {
    hide SoundCommit;
    forall i | 0 <= i < |s.toServer|
      ensures SoundRequest(s.toServer[i], t)
    {
      assert SoundRequest(s.toServer[i], s);
      if s.toServer[i].CommitRequest? {
        CommitStaysSound(s, t, s.toServer[i].hasty);
      }
    }
  }

  lemma RepliesStaySound(s: Sys, t: Sys)
    requires forall i :: 0 <= i < |s.toClient| ==> SoundReply(s.toClient[i], s)
    requires s.stream.nextSequence <= t.stream.nextSequence
    requires t.client.streamOpen ==> s.client.streamOpen
    requires t.client.streamOpen ==> forall i :: 0 <= i < |s.toClient| && s.toClient[i].Reconnected? ==>
               Lowest(t.client) <= s.toClient[i].nextSequence
    requires s.history.detectorFired ==> t.history.detectorFired
    ensures forall i :: 0 <= i < |s.toClient| ==> SoundReply(s.toClient[i], t)
  {
    forall i | 0 <= i < |s.toClient|
      ensures SoundReply(s.toClient[i], t)
    {
      assert SoundReply(s.toClient[i], s);
    }
  }

  lemma RepliesKeepLowest(s: Sys, t: Sys)
    requires forall i :: 0 <= i < |s.toClient| ==> SoundReply(s.toClient[i], s)
    requires s.stream.nextSequence <= t.stream.nextSequence
    requires t.client.streamOpen ==> s.client.streamOpen && Lowest(t.client) == Lowest(s.client)
    requires s.history.detectorFired ==> t.history.detectorFired
    ensures forall i :: 0 <= i < |s.toClient| ==> SoundReply(s.toClient[i], t)
  {
    forall i | 0 <= i < |s.toClient|
      ensures SoundReply(s.toClient[i], t)
    {
      assert SoundReply(s.toClient[i], s);
    }
  }

  lemma SameServer(s: Sys, t: Sys)
    requires Server(s)
    requires t.stream == s.stream && t.provider == s.provider && t.phase == s.phase
    requires t.history.frames == s.history.frames && t.history.pushFailed == s.history.pushFailed
    ensures Server(t)
  {
  }

  lemma SameRecording(s: Sys, t: Sys)
    requires Recording(s)
    requires t.stream == s.stream && t.provider == s.provider && t.phase == s.phase && t.history == s.history
    requires t.stopping == s.stopping && t.drains == s.drains
    requires t.client.streamOpen == s.client.streamOpen && t.client.active == s.client.active
    requires t.client.committing == s.client.committing && t.client.pendingPcm == s.client.pendingPcm
    ensures Recording(t)
  {
    hide Flatten, Short;
  }

  /** Flushing a well-numbered client keeps the invariant. */
  lemma FlushInv(s: Sys, c: Client, room: nat)
    requires Inv(s.(client := c))
    ensures Inv(Flush(s, c, room))
  {
    var r := s.(client := c);
    var t := Flush(s, c, room);
    SameServer(r, t);
    SameRecording(r, t);
    hide Server, Recording;
    FlushKeepsNumbers(c, s.online, room, s.history.frames, s.history.kept, s.stream.nextSequence);
    hide Numbered, Flushed, SoundCommit;
    assert t.client.streamOpen == c.streamOpen && Settles(r, t) by {
      FlushMovesFrames(c, s.online, room);
    }
    FlushedRequestsAreSound(r, t, Sent(c, s.online, room));
    hide Sent, SoundRequest, Spent;
    RepliesKeepLowest(r, t);
  }

  lemma FlushedRequestsAreSound(s: Sys, t: Sys, sent: seq<Entry>)
    requires forall i :: 0 <= i < |s.toServer| ==> SoundRequest(s.toServer[i], s)
    requires Spent(s.toServer, s.stream.nextSequence) && Settles(s, t) && Genuine(sent, s.history.frames)
    requires t.stream == s.stream && t.history == s.history && t.toServer == s.toServer + Chunks(s, sent)
    ensures forall i :: 0 <= i < |t.toServer| ==> SoundRequest(t.toServer[i], t)
    ensures Spent(t.toServer, t.stream.nextSequence)
  {
    hide SoundCommit;
    RequestsStaySound(s, t);
    forall i | 0 <= i < |t.toServer|
      ensures SoundRequest(t.toServer[i], t)
    {
      if i >= |s.toServer| {
        ChunksAreSound(s, sent, i - |s.toServer|);
      }
    }
  }

  lemma FlushMovesFrames(c: Client, online: bool, room: nat)
    ensures var d := Flushed(c, online, room);
            && d.streamOpen == c.streamOpen && d.active == c.active && d.committing == c.committing
            && d.pendingPcm == c.pendingPcm
  {
  }

  lemma FailInv(s: Sys)
    requires Inv(s)
    ensures Inv(s.(client := Failed(s.client)))
  {
    var t := s.(client := Failed(s.client));
    RequestsStaySound(s, t);
    RepliesKeepLowest(s, t);
  }

  lemma OrderedGrows(received: seq<Received>, frames: seq<Frame>, more: seq<Frame>, bound: nat)
    requires Ordered(received, frames, bound)
    requires bound <= |frames|
    ensures Ordered(received, frames + more, bound)
  {
  }

  /** Captured audio or the end of the user's stop appends frames to the queue. */
  function Queued(s: Sys, d: Client, more: seq<Frame>, captured: seq<int>): Sys {
    var frames := s.history.frames + more;
    s.(client := d, history := s.history.(captured := captured, frames := frames, kept := |frames|))
  }

  ghost predicate Extends(c: Client, d: Client, more: seq<Frame>) {
    && d.streamOpen == c.streamOpen && d.frameQueue == c.frameQueue + more
    && d.inFlight == c.inFlight && d.pendingAcks == c.pendingAcks
    && d.nextSequence == c.nextSequence && d.serverNextSequence == c.serverNextSequence
    && d.active == c.active && d.committing == c.committing
  }

  /** An active client captures, or one that has stopped queues its last partial frame. */
  ghost predicate Queues(s: Sys, d: Client, more: seq<Frame>, captured: seq<int>) {
    && Extends(s.client, d, more)
    && |s.history.captured| <= |captured|
    && (s.client.active || (s.client.pendingPcm != [] && d.pendingPcm == [] && captured == s.history.captured))
    && captured == Flatten(s.history.frames + more) + d.pendingPcm
  }

  lemma QueuedServer(s: Sys, d: Client, more: seq<Frame>, captured: seq<int>)
    requires Server(s)
    ensures Server(Queued(s, d, more, captured))
  {
    OrderedGrows(s.provider.received, s.history.frames, more,
                 if s.phase.InPush? then s.stream.nextSequence - 1 else s.stream.nextSequence);
  }

  lemma QueuedRecording(s: Sys, d: Client, more: seq<Frame>, captured: seq<int>)
    requires Recording(s) && Queues(s, d, more, captured)
    ensures Recording(Queued(s, d, more, captured))
  {
    hide Flatten, Short;
    var t := Queued(s, d, more, captured);
    if s.phase.InCommit? && s.phase.byUser {
      ShortStays(s.history, t.history, s.stream.nextSequence);
    }
    if s.history.hasty && s.history.userCommitted && !s.history.pushFailed {
      ShortStays(s.history, t.history, |s.provider.received|);
    }
  }

  lemma QueuedInv(s: Sys, d: Client, more: seq<Frame>, captured: seq<int>)
    requires Inv(s) && Queues(s, d, more, captured)
    ensures Inv(Queued(s, d, more, captured))
  {
    var t := Queued(s, d, more, captured);
    QueuedServer(s, d, more, captured);
    QueuedRecording(s, d, more, captured);
    QueueingKeepsNumbers(s.client, d, s.history.frames, more, s.stream.nextSequence);
    hide Server, Recording, Numbered, Flatten;
    RequestsStaySound(s, t);
    RepliesKeepLowest(s, t);
  }

  lemma CapturedSamplesAreFramed(frames: seq<Frame>, pending: seq<int>, pcm: seq<int>, size: nat)
    requires size > 0
    ensures (Flatten(frames) + pending) + pcm
         == Flatten(frames + Frames(pending + pcm, size)) + Leftover(pending + pcm, size)
  {
    hide Flatten, Frames, Leftover;
    var more, rest := Frames(pending + pcm, size), Leftover(pending + pcm, size);
    FramesKeepSamples(pending + pcm, size);
    FlattenConcat(frames, more);
    assert (Flatten(frames) + pending) + pcm == Flatten(frames) + (pending + pcm);
    assert Flatten(frames) + (Flatten(more) + rest) == (Flatten(frames) + Flatten(more)) + rest;
  }

  lemma RecordingOfPending(s: Sys)
    requires Inv(s) && (s.client.active || s.client.pendingPcm != [])
    ensures s.client.streamOpen && s.history.captured == Flatten(s.history.frames) + s.client.pendingPcm
  {
  }

  lemma CaptureInv(s: Sys, pcm: seq<int>, room: nat)
    requires Inv(s)
    ensures Inv(OnCapture(s, pcm, room))
  {
    if s.client.active && |pcm| > 0 {
      if Overflows(s.client, pcm, s.frameSamples) {
        FailInv(s);
      } else {
        RecordingOfPending(s);
        var frames, pending := s.history.frames, s.client.pendingPcm;
        var more := Frames(pending + pcm, s.frameSamples);
        var framed := Framed(s.client, pcm, s.frameSamples);
        CapturedSamplesAreFramed(frames, pending, pcm, s.frameSamples);
        hide Inv, Flatten, Frames, Leftover, Flush;
        var t := Queued(s, framed, more, s.history.captured + pcm);
        QueuedInv(s, framed, more, s.history.captured + pcm);
        FlushInv(t, framed, room);
        assert OnCapture(s, pcm, room) == Flush(t.(client := s.client), framed, room);
        FlushReplacesClient(t, s.client, framed, room);
      }
    }
  }

  lemma FlushReplacesClient(s: Sys, c: Client, d: Client, room: nat)
    ensures Flush(s.(client := c), d, room) == Flush(s, d, room)
  {
  }

  lemma StopBeginsInv(s: Sys)
    requires Inv(s)
    ensures Inv(OnStopBegins(s))
  {
    hide Flatten, Ordered, Complete;
    var t := OnStopBegins(s);
    RequestsStaySound(s, t);
    RepliesKeepLowest(s, t);
  }

  /** The bookkeeping of the stop and of the waiting commits. */
  lemma DrainsInv(s: Sys, stopping: bool, drains: nat)
    requires Inv(s)
    requires s.client.pendingPcm == [] || stopping == s.stopping
    requires (drains > 0 || stopping) && s.client.streamOpen ==> s.client.committing
    ensures Inv(s.(stopping := stopping, drains := drains))
  {
    var t := s.(stopping := stopping, drains := drains);
    SameServer(s, t);
    hide Flatten, Numbered, Server;
    RequestsStaySound(s, t);
    RepliesKeepLowest(s, t);
  }

  lemma CommitNoted(s: Sys)
    requires Inv(s) && s.client.pendingPcm == []
    ensures Inv(s.(client := s.client.(commitRequested := true)))
  {
    var t := s.(client := s.client.(commitRequested := true));
    SameServer(s, t);
    hide Flatten, Server;
    RequestsStaySound(s, t);
    RepliesKeepLowest(s, t);
  }

  lemma StoppingCommits(s: Sys)
    requires Inv(s) && s.stopping
    ensures s.client.streamOpen ==> s.client.committing
  {
  }

  lemma LastFrameInv(s: Sys)
    requires Inv(s) && s.client.pendingPcm != []
    ensures Inv(Queued(s, StopEnded(s.client), [s.client.pendingPcm], s.history.captured))
  {
    var frames, pending := s.history.frames, s.client.pendingPcm;
    var ended := StopEnded(s.client);
    RecordingOfPending(s);
    FlattenSnoc(frames, pending);
    hide Inv, Flatten;
    assert s.history.captured == Flatten(frames + [pending]) + ended.pendingPcm;
    QueuedInv(s, ended, [pending], s.history.captured);
  }

  lemma StopEndsEmptyInv(s: Sys)
    requires Inv(s) && s.stopping && s.client.pendingPcm == []
    ensures Inv(s.(stopping := false, drains := s.drains + 1, client := StopEnded(s.client)))
  {
    StoppingCommits(s);
    CommitNoted(s);
    hide Inv;
    assert StopEnded(s.client) == s.client.(commitRequested := true);
    DrainsInv(s.(client := StopEnded(s.client)), false, s.drains + 1);
  }

  lemma StopEndsFrameInv(s: Sys, room: nat)
    requires Inv(s) && s.stopping && s.client.pendingPcm != []
    ensures var t := Queued(s, StopEnded(s.client), [s.client.pendingPcm], s.history.captured);
            Inv(Flush(t.(stopping := false, drains := s.drains + 1), StopEnded(s.client), room))
  {
    StoppingCommits(s);
    LastFrameInv(s);
    hide Inv, Flush;
    var t := Queued(s, StopEnded(s.client), [s.client.pendingPcm], s.history.captured);
    DrainsInv(t, false, s.drains + 1);
    FlushInv(t.(stopping := false, drains := s.drains + 1), StopEnded(s.client), room);
  }

  lemma StopEndsInv(s: Sys, room: nat)
    requires Inv(s) && s.stopping
    ensures Inv(OnStopEnds(s, room))
  {
    hide Inv, Flush;
    var ended := StopEnded(s.client);
    if |s.client.pendingPcm| == 0 {
      StopEndsEmptyInv(s);
    } else {
      StopEndsFrameInv(s, room);
      var t := Queued(s, ended, [s.client.pendingPcm], s.history.captured).(stopping := false, drains := s.drains + 1);
      FlushReplacesClient(t, s.client, ended, room);
      assert OnStopEnds(s, room) == Flush(t.(client := s.client), ended, room);
    }
  }

  /** When queue and window are empty the server has accepted every frame kept. */
  lemma DrainedIsAccepted(s: Sys)
    requires Inv(s) && Enabled(s, SendCommit)
    ensures s.history.kept <= s.stream.nextSequence <= |s.history.frames|
    ensures !s.client.active && (s.history.stopped || s.history.detectorFired)
  {
    assert |s.history.frames[s.client.nextSequence..s.history.kept]| == 0;
  }

  lemma CommitLeavesSound(s: Sys)
    requires Inv(s) && Enabled(s, SendCommit)
    ensures SoundCommit(s, |s.client.pendingPcm| > 0)
  {
    var c, h := s.client, s.history;
    DrainedIsAccepted(s);
    assert c.pendingPcm != [] || !h.detectorFired ==> h.kept == |h.frames| && h.captured == Flatten(h.frames) + c.pendingPcm;
    assert h.frames[..|h.frames|] == h.frames;
    hide Inv, Flatten;
  }

  lemma SendCommitInv(s: Sys)
    requires Inv(s) && Enabled(s, SendCommit)
    ensures Inv(Next(s, SendCommit))
  {
    var t := Next(s, SendCommit);
    var hasty := |s.client.pendingPcm| > 0;
    DrainedIsAccepted(s);
    CommitLeavesSound(s);
    SameServer(s, t);
    hide Flatten, Server, Numbered, Short;
    RequestsStaySound(s, t);
    RepliesKeepLowest(s, t);
    forall i | 0 <= i < |s.toServer| && s.toServer[i].Chunk? && hasty
      ensures s.toServer[i].chunk.sequence < s.stream.nextSequence
    {
      assert SoundRequest(s.toServer[i], s);
    }
  }

  /** Cutting the connection, dialling again, and losing both channels. */
  lemma ConnectionInv(s: Sys, a: Action)
    requires Inv(s) && (a.Drop? || a.Redial?)
    ensures Inv(Next(s, a))
  {
    hide Begin, AfterBegin, Flatten, Admission, AfterAdmission;
  }

  lemma RaiseInv(s: Sys, reported: bool)
    requires Inv(s) && !s.phase.InPush?
    ensures Inv(Raise(s, reported))
  {
    var t := Raise(s, reported);
    RepliesKeepLowest(s, t);
    assert forall i :: 0 <= i < |s.toClient| ==> t.toClient[i] == s.toClient[i];
  }

  lemma ReplyInv(s: Sys, m: ToClient)
    requires Inv(s) && SoundReply(m, s)
    requires s.serving ==> s.attached
    requires m.Reconnected? ==> s.toClient == []
    ensures Inv(Reply(s, m))
  {
    var t := Reply(s, m);
    RequestsStaySound(s, t);
    RepliesKeepLowest(s, t);
    if s.serving {
      assert SoundReply(m, t);
    }
  }

  lemma TakeRequest(s: Sys)
    requires Inv(s) && |s.toServer| > 0
    ensures Inv(s.(toServer := s.toServer[1..]))
    ensures SoundRequest(s.toServer[0], s.(toServer := s.toServer[1..]))
    ensures s.toServer[0].Chunk? && Hurried(s.toServer[1..]) ==> s.toServer[0].chunk.sequence < s.stream.nextSequence
  {
    var t := s.(toServer := s.toServer[1..]);
    SameServer(s, t);
    hide Flatten, Server, Numbered;
    RequestsStaySound(s, t);
    RepliesKeepLowest(s, t);
  }

  lemma AttachInv(s: Sys)
    requires Inv(s) && s.serving
    ensures Inv(s.(attached := true, stream := s.stream.(reconnectCount := s.stream.reconnectCount + 1)))
  {
    hide Flatten, Ordered, Complete, Numbered;
    var u := s.(attached := true, stream := s.stream.(reconnectCount := s.stream.reconnectCount + 1));
    RequestsStaySound(s, u);
    RepliesKeepLowest(s, u);
  }

  lemma UnattachedIsIdle(s: Sys)
    requires Inv(s) && s.serving && !s.attached
    ensures s.toClient == [] && s.phase.Idle?
  {
  }

  lemma LowestAccepted(s: Sys)
    requires Inv(s)
    ensures SoundReply(Reconnected(s.stream.nextSequence), s)
  {
  }

  lemma ReconnectRequestInv(s: Sys, next: nat)
    requires Inv(s) && s.serving
    ensures Inv(OnReconnectRequest(s, next))
  {
    hide Inv, SoundReply, ReconnectRefusal;
    if s.attached {
      NothingToProve(s);
      ReplyInv(s, ErrorReply);
    } else if ReconnectRefusal(s.stream, s.stream.sessionId, true, s.stream.generation, next).Some? {
      UnattachedIsIdle(s);
      RaiseInv(s, true);
    } else {
      UnattachedIsIdle(s);
      AttachInv(s);
      var u := s.(attached := true, stream := s.stream.(reconnectCount := s.stream.reconnectCount + 1));
      LowestAccepted(u);
      ReplyInv(u, Reconnected(s.stream.nextSequence));
    }
  }

  lemma NothingToProve(s: Sys)
    ensures SoundReply(ErrorReply, s) && SoundReply(Committed, s)
  {
  }

  /** The handler accepts at most the chunk it was sent. */
  lemma BeginAdvances(st: StreamState, committed: bool, chunk: ChunkMessage)
    ensures AfterBegin(st, committed, chunk).nextSequence == st.nextSequence
         || (chunk.sequence == st.nextSequence && AfterBegin(st, committed, chunk).nextSequence == chunk.sequence + 1)
  {
  }

  /** The stream after the handler has looked at a sound chunk. */
  lemma BeginInv(s: Sys, chunk: ChunkMessage)
    requires Inv(s) && s.phase.Idle? && s.attached && SoundRequest(Chunk(chunk), s)
    requires Hurried(s.toServer) ==> chunk.sequence < s.stream.nextSequence
    ensures var begun := Begin(s.stream, s.provider.committed, chunk);
            var t := s.(stream := AfterBegin(s.stream, s.provider.committed, chunk));
            && (begun.Pushing? ==> Inv(t.(phase := InPush(begun.result, begun.audio))))
            && (!begun.Pushing? ==> Inv(t))
            && (begun.Replied? ==> begun.result.nextSequence <= t.stream.nextSequence)
  {
    var begun := Begin(s.stream, s.provider.committed, chunk);
    var t := s.(stream := AfterBegin(s.stream, s.provider.committed, chunk));
    var u := if begun.Pushing? then t.(phase := InPush(begun.result, begun.audio)) else t;
    BeginServer(s, chunk);
    BeginAdvances(s.stream, s.provider.committed, chunk);
    MoreAccepted(s.client, s.history.frames, s.history.kept, s.stream.nextSequence, t.stream.nextSequence);
    hide Begin, AfterBegin, Server, Numbered;
    RequestsStaySound(s, u);
    RepliesKeepLowest(s, u);
  }

  lemma BeginServer(s: Sys, chunk: ChunkMessage)
    requires Server(s) && s.phase.Idle? && SoundRequest(Chunk(chunk), s)
    ensures var begun := Begin(s.stream, s.provider.committed, chunk);
            var t := s.(stream := AfterBegin(s.stream, s.provider.committed, chunk));
            && t.stream.nextSequence >= s.stream.nextSequence
            && (begun.Pushing? ==> Server(t.(phase := InPush(begun.result, begun.audio))))
            && (!begun.Pushing? ==> Server(t))
            && (begun.Replied? ==> begun.result.nextSequence <= t.stream.nextSequence)
  {
  }

  lemma ChunkInv(s: Sys, chunk: ChunkMessage)
    requires Inv(s) && s.phase.Idle? && SoundRequest(Chunk(chunk), s)
    requires Hurried(s.toServer) ==> chunk.sequence < s.stream.nextSequence
    ensures Inv(OnChunk(s, chunk))
  {
    if !s.attached {
      RaiseInv(s, true);
    } else {
      BeginInv(s, chunk);
      var u := s.(stream := AfterBegin(s.stream, s.provider.committed, chunk));
      match Begin(s.stream, s.provider.committed, chunk)
      case Refused(_) => RaiseInv(u, true);
      case Replied(result) => ReplyInv(u, Ack(result.nextSequence, false));
      case Pushing(_, _) =>
    }
  }

  lemma CommitRequestInv(s: Sys, hasty: bool)
    requires Inv(s) && s.phase.Idle? && SoundRequest(CommitRequest(hasty), s)
    ensures Inv(OnCommitRequest(s, hasty))
  {
    if !s.attached {
      RaiseInv(s, true);
    } else if s.provider.committed {
      ReplyInv(s, Committed);
    } else {
      var u := s.(phase := InCommit(true, hasty));
      RequestsStaySound(s, u);
      RepliesKeepLowest(s, u);
    }
  }

  lemma ServerReceiveInv(s: Sys)
    requires Inv(s) && Enabled(s, ServerReceive)
    ensures Inv(OnServerReceive(s))
  {
    hide Inv, SoundRequest, OnReconnectRequest, OnChunk, OnCommitRequest;
    var t := s.(toServer := s.toServer[1..]);
    TakeRequest(s);
    match s.toServer[0]
    case ReconnectRequest(next) => ReconnectRequestInv(t, next);
    case Chunk(chunk) => ChunkInv(t, chunk);
    case CommitRequest(hasty) => CommitRequestInv(t, hasty);
  }

  lemma PushRaisesInv(s: Sys)
    requires Inv(s) && s.phase.InPush?
    ensures Inv(s.(stream := AfterPush(s.stream, |s.phase.audio|), phase := Idle,
                   history := s.history.(pushFailed := true)))
  {
    hide Flatten, Numbered;
    var u := s.(stream := AfterPush(s.stream, |s.phase.audio|), phase := Idle,
                history := s.history.(pushFailed := true));
    RequestsStaySound(s, u);
    RepliesKeepLowest(s, u);
  }

  /** The state once the provider's push has returned, before the reply. */
  function Pushed(s: Sys, autoCommit: bool): Sys
    requires s.phase.InPush?
  {
    s.(stream := AfterPush(s.stream, |s.phase.audio|), phase := Idle,
       provider := Delivered(s.provider, s.phase.result.sequence, s.phase.audio),
       history := s.history.(detectorFired := s.history.detectorFired || autoCommit))
  }

  lemma PushReturnsIs(s: Sys, autoCommit: bool, replied: bool)
    requires s.phase.InPush?
    ensures var answered := Reply(Pushed(s, autoCommit), Ack(s.phase.result.nextSequence, autoCommit));
            OnPushReturns(s, true, autoCommit, replied)
            == if autoCommit && (s.serving || replied) then answered.(phase := InCommit(false, false)) else answered
  {
    hide AfterPush, Delivered, Raise;
  }

  lemma PushSucceedsInv(s: Sys, autoCommit: bool)
    requires Inv(s) && s.phase.InPush?
    ensures Inv(Pushed(s, autoCommit))
  {
    hide Flatten, Numbered;
    var u := Pushed(s, autoCommit);
    RequestsStaySound(s, u);
    RepliesKeepLowest(s, u);
  }

  lemma DetectorCommitsInv(s: Sys)
    requires Inv(s) && s.phase.Idle? && s.history.detectorFired
    requires s.serving ==> s.attached
    ensures Inv(s.(phase := InCommit(false, false)))
  {
    hide Flatten, Numbered, Ordered, Complete;
    var u := s.(phase := InCommit(false, false));
    RequestsStaySound(s, u);
    RepliesKeepLowest(s, u);
  }

  lemma PushRaisedInv(s: Sys, replied: bool)
    requires Inv(s) && s.phase.InPush?
    ensures Inv(OnPushReturns(s, false, false, replied))
  {
    PushRaisesInv(s);
    hide Inv;
    RaiseInv(s.(stream := AfterPush(s.stream, |s.phase.audio|), phase := Idle,
                history := s.history.(pushFailed := true)), replied);
  }

  lemma PushSucceededInv(s: Sys, autoCommit: bool, replied: bool)
    requires Inv(s) && s.phase.InPush?
    ensures Inv(OnPushReturns(s, true, autoCommit, replied))
  {
    assert s.serving ==> s.attached;
    assert s.phase.result.nextSequence == s.stream.nextSequence;
    var u, ack := Pushed(s, autoCommit), Ack(s.phase.result.nextSequence, autoCommit);
    PushReturnsIs(s, autoCommit, replied);
    PushSucceedsInv(s, autoCommit);
    PushKeepsCursor(s.stream, |s.phase.audio|);
    PushAnsweredInv(s, u, autoCommit);
    ReplyKeepsServer(u, ack);
    assert u.phase.Idle? && u.serving == s.serving && u.attached == s.attached && (autoCommit ==> u.history.detectorFired);
    hide *;
    if autoCommit && (s.serving || replied) {
      DetectorCommitsInv(Reply(u, ack));
    }
  }

  lemma PushReturnsInv(s: Sys, ok: bool, autoCommit: bool, replied: bool)
    requires Inv(s) && s.phase.InPush?
    ensures Inv(OnPushReturns(s, ok, autoCommit, replied))
  {
    hide Inv, AfterPush, Delivered, Reply, Raise;
    if ok {
      PushSucceededInv(s, autoCommit, replied);
    } else {
      PushRaisedInv(s, replied);
    }
  }

  lemma PushKeepsCursor(st: StreamState, size: nat)
    ensures AfterPush(st, size).nextSequence == st.nextSequence
  {
  }

  lemma ReplyKeepsServer(s: Sys, m: ToClient)
    ensures var t := Reply(s, m);
            t.phase == s.phase && t.history == s.history && t.serving == s.serving && t.attached == s.attached
  {
  }

  lemma PushAnsweredInv(s: Sys, u: Sys, autoCommit: bool)
    requires Inv(u) && s.phase.InPush? && s.phase.result.nextSequence <= u.stream.nextSequence
    requires autoCommit ==> u.history.detectorFired
    requires u.serving ==> u.attached
    ensures Inv(Reply(u, Ack(s.phase.result.nextSequence, autoCommit)))
  {
    hide Inv;
    ReplyInv(u, Ack(s.phase.result.nextSequence, autoCommit));
  }

  /** The state once the provider's commit has returned, before the reply. */
  function Answered(s: Sys, ok: bool): Sys
    requires s.phase.InCommit?
  {
    s.(provider := AfterCommit(s.provider, ok), phase := Idle,
       history := if ok && s.phase.byUser && !s.provider.committed
                  then s.history.(userCommitted := true, hasty := s.phase.hasty) else s.history)
  }

  lemma AnsweredServer(s: Sys, ok: bool)
    requires Server(s) && s.phase.InCommit?
    ensures Server(Answered(s, ok))
    ensures !s.history.pushFailed && !s.provider.committed ==> |s.provider.received| == s.stream.nextSequence
  {
    hide Ordered, Complete;
  }

  lemma AnsweredRecording(s: Sys, ok: bool)
    requires Server(s) && Recording(s) && s.phase.InCommit?
    ensures Recording(Answered(s, ok))
  {
    AnsweredServer(s, ok);
    assert s.stream.nextSequence <= |s.history.frames|;
    hide Server, Flatten, Short;
    var h, later := s.history, Answered(s, ok).history;
    if h.hasty && h.userCommitted && !h.pushFailed {
      ShortStays(h, later, |s.provider.received|);
    }
    if s.phase.byUser && s.phase.hasty {
      ShortStays(h, later, s.stream.nextSequence);
    }
  }

  lemma AnsweredInv(s: Sys, ok: bool)
    requires Inv(s) && s.phase.InCommit?
    ensures Inv(Answered(s, ok))
  {
    var t := Answered(s, ok);
    AnsweredServer(s, ok);
    AnsweredRecording(s, ok);
    hide Server, Recording, Numbered;
    RequestsStaySound(s, t);
    RepliesKeepLowest(s, t);
  }

  lemma CommitReturnsInv(s: Sys, ok: bool)
    requires Inv(s) && s.phase.InCommit?
    ensures Inv(OnCommitReturns(s, ok))
  {
    assert s.serving ==> s.attached;
    AnsweredInv(s, ok);
    hide Inv;
    if ok {
      NothingToProve(Answered(s, ok));
      ReplyInv(Answered(s, ok), Committed);
    } else {
      RaiseInv(Answered(s, ok), true);
    }
  }

  lemma TakeReply(s: Sys)
    requires Inv(s) && |s.toClient| > 0
    ensures Inv(s.(toClient := s.toClient[1..]))
    ensures SoundReply(s.toClient[0], s)
    ensures forall i :: 0 <= i < |s.toClient| - 1 ==> !s.toClient[1..][i].Reconnected?
  {
    hide Flatten, Numbered, Ordered, Complete;
    var t := s.(toClient := s.toClient[1..]);
    RequestsStaySound(s, t);
    forall i | 0 <= i < |t.toClient|
      ensures SoundReply(t.toClient[i], t) && !t.toClient[i].Reconnected?
    {
      assert SoundReply(s.toClient[i + 1], s);
    }
  }

  /** A step of the client alone, taken when no reconnect reply is waiting behind it. */
  lemma ClientInv(s: Sys, d: Client, kept: nat, awaiting: bool, drains: nat)
    requires Inv(s)
    requires forall i :: 0 <= i < |s.toClient| ==> !s.toClient[i].Reconnected?
    requires d.streamOpen == s.client.streamOpen
    requires Numbered(d, s.history.frames, kept, s.stream.nextSequence)
    requires (d.committing == s.client.committing && d.active == s.client.active
              && d.pendingPcm == s.client.pendingPcm && kept == s.history.kept)
          || (s.history.detectorFired && s.client.active && !d.active && d.committing && d.pendingPcm == [])
    requires drains == s.drains || d.committing
    ensures Inv(s.(client := d, awaiting := awaiting, drains := drains, history := s.history.(kept := kept)))
  {
    var u := s.(client := d, awaiting := awaiting, drains := drains, history := s.history.(kept := kept));
    SameServer(s, u);
    hide Flatten, Numbered, Server, Short;
    RequestsStaySound(s, u);
    RepliesStaySound(s, u);
  }

  lemma ClientReceiveInv(s: Sys, room: nat)
    requires Inv(s) && Enabled(s, ClientReceive(room))
    requires ReplyInRange(s, ClientReceive(room))
    ensures Inv(OnClientReceive(s, room))
  {
    var t := s.(toClient := s.toClient[1..]);
    TakeReply(s);
    if s.client.streamOpen {
      var h := s.history;
      match s.toClient[0]
      case Ack(next, autoCommit) =>
        var acked := Acknowledged(s.client, next);
        AcknowledgeKeepsNumbers(s.client, next, h.frames, h.kept, s.stream.nextSequence);
        if VadStops(acked, autoCommit) {
          VadStopKeepsNumbers(acked, h.frames, h.kept, s.stream.nextSequence);
          hide Inv, Numbered;
          ClientInv(t, VadStopped(acked), s.client.nextSequence, s.awaiting, s.drains);
        } else {
          hide Inv, Numbered;
          ClientInv(t, acked, h.kept, s.awaiting, s.drains);
          assert t.history.(kept := h.kept) == t.history;
          FlushInv(t, acked, room);
        }
      case Reconnected(next) =>
        ReconcileKeepsNumbersIff(s.client, next, h.frames, h.kept, s.stream.nextSequence);
        hide Inv, Numbered;
        ClientInv(t, Reconciled(s.client, next), h.kept, false, if s.client.committing then s.drains + 1 else s.drains);
      case Committed =>
      case ErrorReply =>
        if s.awaiting {
          ErrorWhileAwaitingInv(t);
        } else {
          FailInv(t);
        }
    }
  }

  lemma VadStopKeepsNumbers(c: Client, frames: seq<Frame>, kept: nat, accepted: nat)
    requires Numbered(c, frames, kept, accepted)
    ensures Numbered(VadStopped(c), frames, c.nextSequence, accepted)
  {
  }

  lemma ErrorWhileAwaitingInv(s: Sys)
    requires Inv(s)
    ensures Inv(s.(online := false, awaiting := false, toServer := [], toClient := [], serving := false, attached := false))
  {
    hide Flatten, Numbered, Ordered, Complete;
  }

  lemma LeaveDrainInv(s: Sys)
    requires Inv(s) && s.drains > 0
    ensures Inv(s.(drains := s.drains - 1))
  {
    assert (s.drains > 0 || s.stopping) && s.client.streamOpen ==> s.client.committing;
    hide Inv;
    DrainsInv(s, s.stopping, s.drains - 1);
  }

  /** One step of any kind keeps the invariant, provided a reconnect reply is in range. */
  lemma StepInv(s: Sys, a: Action)
    requires Inv(s) && ReplyInRange(s, a)
    ensures Inv(Next(s, a))
  {
    if Enabled(s, a) {
      match a
      case Capture(pcm, room) => CaptureInv(s, pcm, room);
      case Tick(room) => FlushInv(s, s.client, room);
      case StopBegins => StopBeginsInv(s);
      case StopEnds(room) => StopEndsInv(s, room);
      case SendCommit => SendCommitInv(s);
      case LeaveDrain => LeaveDrainInv(s);
      case GiveUp => FailInv(s);
      case Drop => ConnectionInv(s, a);
      case Redial => ConnectionInv(s, a);
      case ServerReceive => ServerReceiveInv(s);
      case PushReturns(ok, autoCommit, replied) => PushReturnsInv(s, ok, autoCommit, replied);
      case CommitReturns(ok) => CommitReturnsInv(s, ok);
      case ClientReceive(room) => ClientReceiveInv(s, room);
    }
  }

  lemma {:induction false} RunInv(s: Sys, actions: seq<Action>)
    requires Inv(s) && RepliesInRange(s, actions)
    ensures Inv(Run(s, actions))
  {
    if |actions| > 0 {
      RunInv(s, actions[..|actions| - 1]);
      StepInv(Run(s, actions[..|actions| - 1]), actions[|actions| - 1]);
    }
  }
}
