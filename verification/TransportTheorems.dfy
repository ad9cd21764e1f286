/** The guarantees of the audio transport over whole runs, and the run that breaks them. */
module TransportTheorems {
  import opened Common
  import opened Pcm
  import opened AudioStream
  import opened SpeechBridge
  import opened SttClient
  import opened Transport
  import opened TransportSafety

  /** All the bytes the provider was given, in order. */
  function Heard(received: seq<Received>): seq<Byte> {
    if |received| == 0 then [] else Heard(received[..|received| - 1]) + received[|received| - 1].audio
  }

  lemma {:induction false} CompleteIsPrefix(received: seq<Received>, frames: seq<Frame>, bound: nat)
    requires Ordered(received, frames, bound) && Complete(received)
    requires |received| <= |frames|
    ensures Heard(received) == Bytes(Flatten(frames[..|received|]))
  {
    if |received| > 0 {
      var n := |received| - 1;
      assert received[n].sequence == n;
      CompleteIsPrefix(received[..n], frames, bound);
      assert frames[..n + 1] == frames[..n] + [frames[n]];
      FlattenSnoc(frames[..n], frames[n]);
      BytesConcat(Flatten(frames[..n]), frames[n]);
    }
  }

  lemma PrefixesFlatten(frames: seq<Frame>, n: nat, captured: seq<int>)
    requires n <= |frames| && Flatten(frames) <= captured
    ensures Flatten(frames[..n]) <= captured
    ensures Bytes(Flatten(frames[..n])) <= Bytes(captured)
  {
    assert frames == frames[..n] + frames[n..];
    FlattenConcat(frames[..n], frames[n..]);
    var m := |Flatten(frames[..n])|;
    assert captured == Flatten(frames[..n]) + captured[m..];
    BytesConcat(Flatten(frames[..n]), captured[m..]);
  }

  lemma CompleteFits(s: Sys)
    requires Inv(s) && !s.history.pushFailed
    ensures Complete(s.provider.received)
    ensures |s.provider.received| <= s.stream.nextSequence <= |s.history.frames|
    ensures Ordered(s.provider.received, s.history.frames, s.stream.nextSequence)
  {
    if |s.provider.received| > 0 {
      assert s.provider.received[|s.provider.received| - 1].sequence == |s.provider.received| - 1;
    }
  }

  /**
   In every run whose reconnect replies stay in range, the provider hears frames in order and each at
   most once; if no push raised, it hears exactly a prefix of the captured audio. The window and the
   server's buffer stay bounded and the provider is committed at most once.
   */
  lemma ProviderHearsCapturedAudio(sessionId: string, generation: nat, config: StreamConfig, frameSamples: nat,
                                   actions: seq<Action>)
    requires frameSamples > 0
    requires RepliesInRange(Start(sessionId, generation, config, frameSamples), actions)
    ensures var t := Run(Start(sessionId, generation, config, frameSamples), actions);
            var received, frames := t.provider.received, t.history.frames;
            && (forall i, j :: 0 <= i < j < |received| ==> received[i].sequence < received[j].sequence)
            && (forall i :: 0 <= i < |received| ==>
                  received[i].sequence < |frames| && received[i].audio == Bytes(frames[received[i].sequence]))
            && (!t.history.pushFailed ==>
                  && (forall i :: 0 <= i < |received| ==> received[i].sequence == i)
                  && Heard(received) <= Bytes(t.history.captured))
            && (t.client.streamOpen ==> |t.client.inFlight| <= 6)
            && t.stream.bufferedBytes <= t.stream.config.maxBufferedBytes
            && t.provider.commitCalls <= 1
  {
    var s := Start(sessionId, generation, config, frameSamples);
    var t := Run(s, actions);
    StartInv(sessionId, generation, config, frameSamples);
    RunInv(s, actions);
    if !t.history.pushFailed {
      CompleteFits(t);
      CompleteIsPrefix(t.provider.received, t.history.frames, t.stream.nextSequence);
      PrefixesFlatten(t.history.frames, |t.provider.received|, t.history.captured);
    }
  }

  /**
   When a commit requested by the client has been processed, no detector fired and no push raised, the provider
   has heard every captured sample, the last partial frame included, if and only if that commit left the client
   after the partial frame had been queued.
   */
  lemma UserCommitIsCompleteIff(sessionId: string, generation: nat, config: StreamConfig, frameSamples: nat,
                                actions: seq<Action>)
    requires frameSamples > 0
    requires RepliesInRange(Start(sessionId, generation, config, frameSamples), actions)
    ensures var t := Run(Start(sessionId, generation, config, frameSamples), actions);
            t.history.userCommitted && !t.history.detectorFired && !t.history.pushFailed ==>
              (Heard(t.provider.received) == Bytes(t.history.captured) <==> !t.history.hasty)
  {
    var s := Start(sessionId, generation, config, frameSamples);
    var t := Run(s, actions);
    StartInv(sessionId, generation, config, frameSamples);
    RunInv(s, actions);
    if t.history.userCommitted && !t.history.detectorFired && !t.history.pushFailed {
      CompleteFits(t);
      CompleteIsPrefix(t.provider.received, t.history.frames, t.stream.nextSequence);
      EndedOf(t);
      hide Inv, Flatten, Bytes, Run, RepliesInRange;
      assert t.history.frames[..|t.history.frames|] == t.history.frames;
      if t.history.hasty {
        assert |Bytes(t.history.captured)| == 2 * |t.history.captured|;
      }
    }
  }

  lemma EndedOf(s: Sys)
    requires Inv(s) && s.history.userCommitted && !s.history.pushFailed
    ensures Ended(s)
  {
  }

  /** No commit that left too early is on its way, being processed or done. */
  ghost predicate Unhurried(s: Sys) {
    !Hurried(s.toServer) && !(s.phase.InCommit? && s.phase.hasty) && !s.history.hasty
  }

  lemma FlushStaysUnhurried(s: Sys, c: Client, room: nat)
    requires Unhurried(s)
    ensures Unhurried(Flush(s, c, room))
  {
    var sent := Sent(c, s.online, room);
    forall m | m in Chunks(s, sent)
      ensures m.Chunk?
    {
    }
  }

  lemma ReceivingStaysUnhurried(s: Sys)
    requires Unhurried(s) && Enabled(s, ServerReceive)
    ensures Unhurried(OnServerReceive(s))
  {
    hide OnReconnectRequest, OnChunk, OnCommitRequest;
    var t := s.(toServer := s.toServer[1..]);
    assert forall m | m in t.toServer :: m in s.toServer;
    assert s.toServer[0] in s.toServer;
    match s.toServer[0]
    case ReconnectRequest(next) => ReconnectStaysUnhurried(t, next);
    case Chunk(chunk) => ChunkStaysUnhurried(t, chunk);
    case CommitRequest(hasty) => CommitStaysUnhurried(t);
  }

  lemma ReconnectStaysUnhurried(s: Sys, next: nat)
    requires Unhurried(s)
    ensures Unhurried(OnReconnectRequest(s, next))
  {
    hide ReconnectRefusal;
  }

  lemma ChunkStaysUnhurried(s: Sys, chunk: ChunkMessage)
    requires Unhurried(s)
    ensures Unhurried(OnChunk(s, chunk))
  {
    hide Begin, AfterBegin;
  }

  lemma CommitStaysUnhurried(s: Sys)
    requires Unhurried(s)
    ensures Unhurried(OnCommitRequest(s, false))
  {
  }

  lemma ClientStaysUnhurried(s: Sys, room: nat)
    requires Unhurried(s) && Enabled(s, ClientReceive(room))
    ensures Unhurried(OnClientReceive(s, room))
  {
    hide Flush, Acknowledged, Reconciled;
    if s.client.streamOpen && s.toClient[0].Ack? {
      FlushStaysUnhurried(s.(toClient := s.toClient[1..]), Acknowledged(s.client, s.toClient[0].nextSequence), room);
    }
  }

  lemma CaptureStaysUnhurried(s: Sys, pcm: seq<int>, room: nat)
    requires s.frameSamples > 0 && Unhurried(s)
    ensures Unhurried(OnCapture(s, pcm, room))
  {
    hide Flush, Overflows, Framed, Frames;
    var h := s.history;
    var frames := h.frames + Frames(s.client.pendingPcm + pcm, s.frameSamples);
    FlushStaysUnhurried(s.(history := h.(captured := h.captured + pcm, frames := frames, kept := |frames|)),
                        Framed(s.client, pcm, s.frameSamples), room);
  }

  lemma StopStaysUnhurried(s: Sys, room: nat)
    requires Unhurried(s)
    ensures Unhurried(OnStopEnds(s, room))
  {
    hide Flush;
    var h := s.history;
    FlushStaysUnhurried(s.(stopping := false, drains := s.drains + 1,
                           history := h.(frames := h.frames + [s.client.pendingPcm], kept := |h.frames| + 1)),
                        StopEnded(s.client), room);
  }

  lemma PushStaysUnhurried(s: Sys, ok: bool, autoCommit: bool, replied: bool)
    requires Unhurried(s) && s.phase.InPush?
    ensures Unhurried(OnPushReturns(s, ok, autoCommit, replied))
  {
    hide AfterPush, Delivered;
  }

  lemma CommitReturnStaysUnhurried(s: Sys, ok: bool)
    requires Unhurried(s) && s.phase.InCommit?
    ensures Unhurried(OnCommitReturns(s, ok))
  {
    hide AfterCommit;
  }

  lemma PatienceAvoidsHaste(s: Sys, a: Action)
    requires s.frameSamples > 0 && Unhurried(s) && PatientStep(s, a)
    ensures Unhurried(Next(s, a))
  {
    hide Flush, OnCapture, OnStopEnds, OnServerReceive, OnClientReceive, OnPushReturns, OnCommitReturns;
    if Enabled(s, a) {
      match a
      case Capture(pcm, room) => CaptureStaysUnhurried(s, pcm, room);
      case Tick(room) => FlushStaysUnhurried(s, s.client, room);
      case StopBegins =>
      case StopEnds(room) => StopStaysUnhurried(s, room);
      case SendCommit =>
      case LeaveDrain =>
      case GiveUp =>
      case Drop =>
      case Redial =>
      case ServerReceive => ReceivingStaysUnhurried(s);
      case PushReturns(ok, autoCommit, replied) => PushStaysUnhurried(s, ok, autoCommit, replied);
      case CommitReturns(ok) => CommitReturnStaysUnhurried(s, ok);
      case ClientReceive(room) => ClientStaysUnhurried(s, room);
    }
  }

  lemma {:induction false} PatientRunsAreNotHasty(s: Sys, actions: seq<Action>)
    requires s.frameSamples > 0 && Unhurried(s) && Patient(s, actions)
    ensures Unhurried(Run(s, actions))
  {
    if |actions| > 0 {
      PatientRunsAreNotHasty(s, actions[..|actions| - 1]);
      PatienceAvoidsHaste(Run(s, actions[..|actions| - 1]), actions[|actions| - 1]);
    }
  }

  /** The client that never commits with samples still pending: a commit means that everything was heard. */
  lemma UserCommitIsComplete(sessionId: string, generation: nat, config: StreamConfig, frameSamples: nat,
                             actions: seq<Action>)
    requires frameSamples > 0
    requires RepliesInRange(Start(sessionId, generation, config, frameSamples), actions)
    requires Patient(Start(sessionId, generation, config, frameSamples), actions)
    ensures var t := Run(Start(sessionId, generation, config, frameSamples), actions);
            t.history.userCommitted && !t.history.detectorFired && !t.history.pushFailed ==>
              Heard(t.provider.received) == Bytes(t.history.captured)
  {
    UserCommitIsCompleteIff(sessionId, generation, config, frameSamples, actions);
    PatientRunsAreNotHasty(Start(sessionId, generation, config, frameSamples), actions);
  }

  /** Samples are pending after the recording only while the user's stop waits for the microphone. */
  lemma PendingWhileStopping(sessionId: string, generation: nat, config: StreamConfig, frameSamples: nat,
                             actions: seq<Action>)
    requires frameSamples > 0
    requires RepliesInRange(Start(sessionId, generation, config, frameSamples), actions)
    ensures var t := Run(Start(sessionId, generation, config, frameSamples), actions);
            t.client.pendingPcm != [] && !t.client.active ==> t.stopping
  {
    StartInv(sessionId, generation, config, frameSamples);
    RunInv(Start(sessionId, generation, config, frameSamples), actions);
  }

  // ---- nothing is pushed after a commit ----

  lemma PushBeforeCommit(s: Sys)
    requires Inv(s)
    ensures s.frameSamples > 0 && (s.phase.InPush? ==> !s.provider.committed)
  {
  }

  lemma ReturnsKeepProvider(s: Sys)
    requires s.phase.InPush? ==> !s.provider.committed
    ensures s.phase.InPush? ==> forall ok, autoCommit, replied ::
              s.provider.received <= OnPushReturns(s, ok, autoCommit, replied).provider.received
    ensures s.phase.InCommit? ==> forall ok :: s.provider.received <= OnCommitReturns(s, ok).provider.received
    ensures s.phase.InCommit? && s.provider.committed ==> forall ok :: OnCommitReturns(s, ok).provider == s.provider
  {
    hide Reply, Raise, AfterPush;
  }

  lemma StepKeepsProvider(s: Sys, a: Action)
    requires s.frameSamples > 0 && (s.phase.InPush? ==> !s.provider.committed)
    ensures s.provider.received <= Next(s, a).provider.received
    ensures s.provider.committed ==> Next(s, a).provider == s.provider
  {
    ReturnsKeepProvider(s);
    hide OnCapture, OnStopBegins, OnStopEnds, OnServerReceive, OnPushReturns, OnCommitReturns, OnClientReceive, Flush;
  }

  lemma {:induction false} RunSplits(s: Sys, before: seq<Action>, after: seq<Action>)
    requires s.frameSamples > 0
    ensures Run(s, before + after) == Run(Run(s, before), after)
    ensures RepliesInRange(s, before + after) <==> RepliesInRange(s, before) && RepliesInRange(Run(s, before), after)
  {
    if |after| == 0 {
      assert before + after == before;
    } else {
      var n := |after| - 1;
      assert (before + after)[..|before| + n] == before + after[..n];
      RunSplits(s, before, after[..n]);
    }
  }

  /** Whatever follows, the provider's audio only grows, and not at all once it is committed. */
  lemma {:induction false} CommitFreezesProvider(s: Sys, before: seq<Action>, after: seq<Action>)
    requires Inv(s) && RepliesInRange(s, before + after)
    ensures Run(s, before).provider.received <= Run(s, before + after).provider.received
    ensures Run(s, before).provider.committed ==> Run(s, before + after).provider == Run(s, before).provider
    decreases |after|
  {
    hide Inv, Next, ReplyInRange;
    if |after| == 0 {
      assert before + after == before;
    } else {
      var n := |after| - 1;
      assert (before + after)[..|before| + n] == before + after[..n];
      CommitFreezesProvider(s, before, after[..n]);
      RunInv(s, before + after[..n]);
      PushBeforeCommit(Run(s, before + after[..n]));
      StepKeepsProvider(Run(s, before + after[..n]), after[n]);
    }
  }

  // ---- the detector ends the recording ----

  /** A recording client that is told to commit stops at once and throws away what it has not sent; nothing leaves. */
  lemma DetectorEndsRecording(s: Sys, room: nat)
    requires s.frameSamples > 0 && Enabled(s, ClientReceive(room)) && s.client.streamOpen
    requires s.toClient[0].Ack? && s.toClient[0].autoCommit && s.client.active && !s.client.committing
    ensures var t := Next(s, ClientReceive(room));
            && !t.client.active && t.client.committing && t.client.frameQueue == [] && t.client.pendingPcm == []
            && t.toServer == s.toServer && t.history.captured == s.history.captured
  {
    hide Flush, From;
  }

  /** Any other acknowledgement leaves the recording as it is, and loses no frame at or above the server's cursor. */
  lemma OtherAcksKeepRecording(s: Sys, room: nat)
    requires s.frameSamples > 0 && Enabled(s, ClientReceive(room)) && s.client.streamOpen
    requires s.toClient[0].Ack? && !(s.toClient[0].autoCommit && s.client.active && !s.client.committing)
    ensures var t := Next(s, ClientReceive(room));
            && t.client.active == s.client.active && t.client.committing == s.client.committing
            && t.client.pendingPcm == s.client.pendingPcm
            && FramesOf(t.client.inFlight) + t.client.frameQueue
               == FramesOf(From(s.client.inFlight, s.toClient[0].nextSequence)) + s.client.frameQueue
  {
    hide From;
    var acked := Acknowledged(s.client, s.toClient[0].nextSequence);
    FlushKeepsFrames(acked, s.online, room);
  }

  lemma FlushKeepsFrames(c: Client, online: bool, room: nat)
    ensures var d := Flushed(c, online, room);
            FramesOf(d.inFlight) + d.frameQueue == FramesOf(c.inFlight) + c.frameQueue
  {
    var d, n := Flushed(c, online, room), FlushCount(c, online, room);
    assert FramesOf(d.inFlight) == FramesOf(c.inFlight) + c.frameQueue[..n];
    assert c.frameQueue[..n] + c.frameQueue[n..] == c.frameQueue;
  }

  lemma ReceivingKeepsIdle(s: Sys, room: nat)
    requires Enabled(s, ClientReceive(room)) && !s.client.active
    ensures !OnClientReceive(s, room).client.active
  {
    hide From, FramesOf, Flush;
  }

  lemma StoppingKeepsIdle(s: Sys, room: nat)
    requires !s.client.active
    ensures !OnStopEnds(s, room).client.active && !Flush(s, s.client, room).client.active && OnStopBegins(s) == s
  {
    hide Flush;
  }

  lemma IdleClientCapturesNothing(s: Sys, a: Action)
    requires s.frameSamples > 0 && !s.client.active
    ensures !Next(s, a).client.active && Next(s, a).history.captured == s.history.captured
  {
    if a.ClientReceive? && Enabled(s, a) {
      ReceivingKeepsIdle(s, a.room);
    }
    StoppingKeepsIdle(s, if a.StopEnds? || a.Tick? then a.room else 0);
    hide Flush, OnStopBegins, OnStopEnds, OnServerReceive, OnPushReturns, OnCommitReturns, OnClientReceive, Overflows, Framed;
  }

  /** A recording that has ended never goes on: whatever follows, nothing more is captured. */
  lemma {:induction false} EndedRecordingStaysEnded(s: Sys, actions: seq<Action>)
    requires s.frameSamples > 0 && !s.client.active
    ensures !Run(s, actions).client.active && Run(s, actions).history.captured == s.history.captured
  {
    hide Next;
    if |actions| > 0 {
      EndedRecordingStaysEnded(s, actions[..|actions| - 1]);
      IdleClientCapturesNothing(Run(s, actions[..|actions| - 1]), actions[|actions| - 1]);
    }
  }

  /** Once a recording client has received the detector's recommendation, nothing is captured for the rest of the run. */
  lemma NothingCapturedAfterDetector(s: Sys, before: seq<Action>, room: nat, after: seq<Action>)
    requires s.frameSamples > 0
    requires var t := Run(s, before);
             && Enabled(t, ClientReceive(room)) && t.client.streamOpen && t.toClient[0].Ack? && t.toClient[0].autoCommit
             && t.client.active && !t.client.committing
    ensures Run(s, before + [ClientReceive(room)] + after).history.captured == Run(s, before).history.captured
  {
    var t := Run(s, before);
    var received := before + [ClientReceive(room)];
    assert received[..|before|] == before;
    DetectorEndsRecording(t, room);
    RunSplits(s, received, after);
    hide Next;
    EndedRecordingStaysEnded(Run(s, received), after);
  }

  // ---- quiet runs stay in range ----

  ghost predicate Behind(s: Sys) {
    s.client.streamOpen ==>
      && s.stream.nextSequence <= s.client.nextSequence
      && (forall i :: 0 <= i < |s.toServer| && s.toServer[i].Chunk? ==>
            s.toServer[i].chunk.sequence < s.client.nextSequence && !s.awaiting)
      && (forall i :: 0 <= i < |s.toClient| && s.toClient[i].Reconnected? ==>
            s.awaiting && s.toClient[i].nextSequence == s.stream.nextSequence)
      && (s.awaiting ==> s.online)
      && (s.awaiting && s.phase.InPush? ==> false)
  }

  lemma FlushStaysBehind(s: Sys, c: Client, room: nat)
    requires Behind(s.(client := c))
    requires s.awaiting ==> |Flush(s, c, room).toServer| <= |s.toServer|
    ensures Behind(Flush(s, c, room))
  {
    var t := Flush(s, c, room);
    var sent := Sent(c, s.online, room);
    assert s.awaiting ==> |sent| == 0;
    forall i | 0 <= i < |t.toServer| && t.toServer[i].Chunk? && c.streamOpen
      ensures t.toServer[i].chunk.sequence < t.client.nextSequence && !s.awaiting
    {
      if i >= |s.toServer| {
        assert t.toServer[i] == Chunks(s, sent)[i - |s.toServer|];
      } else {
        assert t.toServer[i] == s.toServer[i];
      }
    }
  }

  lemma CaptureStaysBehind(s: Sys, pcm: seq<int>, room: nat)
    requires s.frameSamples > 0 && Behind(s) && QuietStep(s, Capture(pcm, room))
    ensures Behind(OnCapture(s, pcm, room))
  {
    hide Overflows, Frames, Leftover, Flushed, Sent, Behind;
    if s.client.active && |pcm| > 0 {
      if Overflows(s.client, pcm, s.frameSamples) {
        ClosedIsBehind(OnCapture(s, pcm, room));
      } else {
        var h := s.history;
        var frames := h.frames + Frames(s.client.pendingPcm + pcm, s.frameSamples);
        var t := s.(history := h.(captured := h.captured + pcm, frames := frames, kept := |frames|));
        var framed := Framed(s.client, pcm, s.frameSamples);
        SameCursorBehind(s, t.(client := framed));
        FlushStaysBehind(t, framed, room);
      }
    }
  }

  lemma ClosedIsBehind(s: Sys)
    requires !s.client.streamOpen
    ensures Behind(s)
  {
  }

  lemma SameCursorBehind(s: Sys, t: Sys)
    requires Behind(s)
    requires t.client.streamOpen == s.client.streamOpen && t.client.nextSequence == s.client.nextSequence
    requires t.toServer == s.toServer && t.toClient == s.toClient
    requires t.awaiting == s.awaiting && t.online == s.online
    requires t.stream.nextSequence == s.stream.nextSequence && (t.phase.InPush? ==> s.phase.InPush?)
    ensures Behind(t)
  {
  }

  lemma StopStaysBehind(s: Sys, room: nat)
    requires s.frameSamples > 0 && Behind(s) && s.stopping && QuietStep(s, StopEnds(room))
    ensures Behind(OnStopEnds(s, room))
  {
    hide Flushed, Sent, Behind;
    var h, pending := s.history, s.client.pendingPcm;
    var t := s.(stopping := false, drains := s.drains + 1);
    SameCursorBehind(s, t.(client := StopEnded(s.client)));
    if |pending| > 0 {
      var u := t.(history := h.(frames := h.frames + [pending], kept := |h.frames| + 1));
      SameCursorBehind(s, u.(client := StopEnded(s.client)));
      FlushStaysBehind(u, StopEnded(s.client), room);
    }
  }

  lemma RaiseStaysBehind(s: Sys, reported: bool)
    requires Behind(s)
    ensures Behind(Raise(s, reported))
  {
    var t := Raise(s, reported);
    forall i | 0 <= i < |t.toClient| && t.toClient[i].Reconnected?
      ensures t.toClient[i] == s.toClient[i]
    {
    }
  }

  lemma ReplyStaysBehind(s: Sys, m: ToClient)
    requires Behind(s)
    requires m.Reconnected? && s.client.streamOpen ==> s.awaiting && m.nextSequence == s.stream.nextSequence
    ensures Behind(Reply(s, m))
  {
  }

  lemma TakingStaysBehind(s: Sys)
    requires Behind(s)
    ensures |s.toServer| > 0 ==> Behind(s.(toServer := s.toServer[1..]))
    ensures |s.toClient| > 0 ==> Behind(s.(toClient := s.toClient[1..]))
  {
  }

  /** A request for reconnection only travels while the client waits for its answer. */
  ghost predicate AsksOnlyWaiting(s: Sys) {
    forall i :: 0 <= i < |s.toServer| && s.toServer[i].ReconnectRequest? ==>
      i == 0 && s.awaiting && !s.attached && s.toClient == []
  }

  lemma ReconnectStaysBehind(s: Sys, next: nat)
    requires Behind(s) && s.awaiting
    ensures Behind(OnReconnectRequest(s, next))
  {
    hide Behind;
    var u := s.(attached := true, stream := s.stream.(reconnectCount := s.stream.reconnectCount + 1));
    ReplyStaysBehind(s, ErrorReply);
    RaiseStaysBehind(s, true);
    SameCursorBehind(s, u);
    ReplyStaysBehind(u, Reconnected(s.stream.nextSequence));
  }

  lemma AcceptingStaysBehind(s: Sys, chunk: ChunkMessage)
    requires Behind(s)
    requires s.client.streamOpen ==> chunk.sequence < s.client.nextSequence && !s.awaiting
    ensures Behind(s.(stream := AfterBegin(s.stream, s.provider.committed, chunk)))
  {
    BeginAdvances(s.stream, s.provider.committed, chunk);
    hide AfterBegin;
  }

  lemma ChunkStaysBehind(s: Sys, chunk: ChunkMessage)
    requires Behind(s)
    requires s.client.streamOpen ==> chunk.sequence < s.client.nextSequence && !s.awaiting
    ensures Behind(OnChunk(s, chunk))
  {
    if !s.attached {
      RaiseStaysBehind(s, true);
    } else {
      var u := s.(stream := AfterBegin(s.stream, s.provider.committed, chunk));
      AcceptingStaysBehind(s, chunk);
      hide AfterBegin, Begin;
      match Begin(s.stream, s.provider.committed, chunk)
      case Refused(_) => RaiseStaysBehind(u, true);
      case Replied(result) => ReplyStaysBehind(u, Ack(result.nextSequence, false));
      case Pushing(_, _) =>
    }
  }

  lemma ReceiveStaysBehind(s: Sys)
    requires Behind(s) && AsksOnlyWaiting(s) && Enabled(s, ServerReceive)
    ensures Behind(OnServerReceive(s))
  {
    var t := s.(toServer := s.toServer[1..]);
    TakingStaysBehind(s);
    match s.toServer[0]
    case ReconnectRequest(next) =>
      assert s.toServer[0].ReconnectRequest?;
      ReconnectStaysBehind(t, next);
    case Chunk(chunk) =>
      assert s.toServer[0].Chunk?;
      ChunkStaysBehind(t, chunk);
    case CommitRequest(hasty) =>
      hide Behind;
      RaiseStaysBehind(t, true);
      ReplyStaysBehind(t, Committed);
      SameCursorBehind(t, t.(phase := InCommit(true, hasty)));
  }

  lemma FailedPushStaysBehind(s: Sys, replied: bool)
    requires Behind(s) && s.phase.InPush?
    ensures Behind(OnPushReturns(s, false, false, replied))
  {
    hide Behind;
    var u := s.(stream := AfterPush(s.stream, |s.phase.audio|), history := s.history.(pushFailed := true));
    SameCursorBehind(s, u);
    RaiseStaysBehind(u, replied);
  }

  lemma PushStaysBehind(s: Sys, ok: bool, autoCommit: bool, replied: bool)
    requires Behind(s) && s.phase.InPush?
    ensures Behind(OnPushReturns(s, ok, autoCommit, replied))
  {
    hide Behind;
    if !ok {
      FailedPushStaysBehind(s, replied);
      hide AfterPush, Delivered, Raise, Reply;
    } else {
      var u, m := Pushed(s, autoCommit), Ack(s.phase.result.nextSequence, autoCommit);
      PushReturnsIs(s, autoCommit, replied);
      SameCursorBehind(s, u);
      ReplyStaysBehind(u, m);
      SameCursorBehind(Reply(u, m), Reply(u, m).(phase := InCommit(false, false)));
      hide *;
    }
  }

  lemma CommitStaysBehind(s: Sys, ok: bool)
    requires Behind(s) && s.phase.InCommit?
    ensures Behind(OnCommitReturns(s, ok))
  {
    hide Behind;
    var t := Answered(s, ok);
    SameCursorBehind(s, t);
    ReplyStaysBehind(t, Committed);
    RaiseStaysBehind(t, true);
  }

  lemma AckStaysBehind(s: Sys, next: nat, autoCommit: bool, room: nat)
    requires s.frameSamples > 0 && Behind(s) && Enabled(s, ClientReceive(room)) && s.client.streamOpen
    requires s.toClient[0] == Ack(next, autoCommit)
    requires s.awaiting ==> |OnClientReceive(s, room).toServer| <= |s.toServer|
    ensures Behind(OnClientReceive(s, room))
  {
    var t := s.(toClient := s.toClient[1..]);
    TakingStaysBehind(s);
    hide Behind;
    var acked := Acknowledged(s.client, next);
    if VadStops(acked, autoCommit) {
      SameCursorBehind(t, t.(client := VadStopped(acked), history := s.history.(kept := s.client.nextSequence)));
    } else {
      SameCursorBehind(t, t.(client := acked));
      FlushStaysBehind(t, acked, room);
    }
  }

  lemma ReconciledIsBehind(s: Sys, next: nat, room: nat)
    requires Behind(s) && Enabled(s, ClientReceive(room)) && s.client.streamOpen
    requires s.toClient[0] == Reconnected(next)
    requires forall i :: 0 < i < |s.toClient| ==> !s.toClient[i].Reconnected?
    ensures Behind(OnClientReceive(s, room))
  {
    hide From, FramesOf;
    assert s.toClient[0].Reconnected?;
    assert forall i :: 0 < i < |s.toClient| ==> s.toClient[1..][i - 1] == s.toClient[i];
    assert forall i :: 0 <= i < |s.toServer| ==> !s.toServer[i].Chunk?;
  }

  lemma ClientStaysBehind(s: Sys, room: nat)
    requires s.frameSamples > 0 && Behind(s) && Enabled(s, ClientReceive(room))
    requires QuietStep(s, ClientReceive(room))
    requires s.client.streamOpen ==> forall i :: 0 < i < |s.toClient| ==> !s.toClient[i].Reconnected?
    ensures Behind(OnClientReceive(s, room))
  {
    TakingStaysBehind(s);
    hide Behind;
    if s.client.streamOpen {
      match s.toClient[0]
      case Ack(next, autoCommit) => AckStaysBehind(s, next, autoCommit, room);
      case Reconnected(next) => ReconciledIsBehind(s, next, room);
      case Committed =>
      case ErrorReply => ClosedOrOfflineIsBehind(s, room);
    }
  }

  lemma ClosedOrOfflineIsBehind(s: Sys, room: nat)
    requires Behind(s) && Enabled(s, ClientReceive(room)) && s.client.streamOpen && s.toClient[0].ErrorReply?
    ensures Behind(OnClientReceive(s, room))
  {
  }

  lemma BehindIsInRange(s: Sys, a: Action)
    requires Behind(s)
    ensures ReplyInRange(s, a)
  {
  }

  lemma PlainStaysBehind(s: Sys, a: Action)
    requires s.frameSamples > 0 && Behind(s) && (a.SendCommit? || a.GiveUp? || a.Drop? || a.Redial?)
    ensures Behind(Next(s, a))
  {
    hide OnCapture, OnStopBegins, OnStopEnds, OnServerReceive, OnPushReturns, OnCommitReturns, OnClientReceive, Flush;
  }

  lemma StopAndLeaveStayBehind(s: Sys)
    requires s.frameSamples > 0 && Behind(s)
    ensures Behind(Next(s, StopBegins)) && Behind(Next(s, LeaveDrain))
  {
    SameCursorBehind(s, OnStopBegins(s));
    SameCursorBehind(s, Next(s, LeaveDrain));
    hide Behind, Flush;
  }

  /** The quiet client never falls behind what the server has accepted. */
  lemma QuietKeepsBehind(s: Sys, a: Action)
    requires Inv(s) && Behind(s) && AsksOnlyWaiting(s) && QuietStep(s, a)
    ensures Behind(Next(s, a)) && ReplyInRange(s, a)
  {
    BehindIsInRange(s, a);
    StopAndLeaveStayBehind(s);
    hide Behind, ReplyInRange, OnCapture, OnStopBegins, OnStopEnds, OnServerReceive, OnPushReturns, OnCommitReturns, OnClientReceive, Flush;
    if Enabled(s, a) {
      match a
      case Capture(pcm, room) => CaptureStaysBehind(s, pcm, room);
      case Tick(room) => FlushStaysBehind(s, s.client, room);
      case StopEnds(room) => StopStaysBehind(s, room);
      case ServerReceive => ReceiveStaysBehind(s);
      case PushReturns(ok, autoCommit, replied) => PushStaysBehind(s, ok, autoCommit, replied);
      case CommitReturns(ok) => CommitStaysBehind(s, ok);
      case ClientReceive(room) => ClientStaysBehind(s, room);
      case StopBegins =>
      case LeaveDrain =>
      case _ => PlainStaysBehind(s, a);
    }
  }

  lemma AppendingAsksNothing(s: Sys, t: Sys)
    requires AsksOnlyWaiting(s)
    requires |s.toServer| <= |t.toServer| && t.toServer[..|s.toServer|] == s.toServer
    requires forall i :: |s.toServer| <= i < |t.toServer| ==> !t.toServer[i].ReconnectRequest?
    requires t.awaiting == s.awaiting && t.attached == s.attached && t.toClient == s.toClient
    ensures AsksOnlyWaiting(t)
  {
    forall i | 0 <= i < |t.toServer| && t.toServer[i].ReconnectRequest?
      ensures i == 0 && t.awaiting && !t.attached && t.toClient == []
    {
      assert s.toServer[i] == t.toServer[i];
    }
  }

  lemma FlushAsksNothing(s: Sys, c: Client, room: nat)
    requires AsksOnlyWaiting(s)
    ensures AsksOnlyWaiting(Flush(s, c, room))
  {
    hide Flushed, Sent, AsksOnlyWaiting;
    AppendingAsksNothing(s, Flush(s, c, room));
  }

  ghost predicate AsksNothing(s: Sys) {
    forall i :: 0 <= i < |s.toServer| ==> !s.toServer[i].ReconnectRequest?
  }

  lemma ReceivingAsksNothing(s: Sys)
    requires AsksOnlyWaiting(s) && Enabled(s, ServerReceive)
    ensures AsksNothing(OnServerReceive(s))
  {
    var t := s.(toServer := s.toServer[1..]);
    assert AsksNothing(t);
    HandlingAsksNothing(t);
    hide AsksNothing, AsksOnlyWaiting, OnReconnectRequest, OnChunk, OnCommitRequest;
  }

  lemma HandlingAsksNothing(s: Sys)
    requires AsksNothing(s)
    ensures forall next: nat :: AsksNothing(OnReconnectRequest(s, next))
    ensures forall chunk: ChunkMessage :: AsksNothing(OnChunk(s, chunk))
    ensures forall hasty: bool :: AsksNothing(OnCommitRequest(s, hasty))
  {
    hide Begin, AfterBegin, ReconnectRefusal;
  }

  lemma ClientAsksNothing(s: Sys, room: nat)
    requires AsksNothing(s) && Enabled(s, ClientReceive(room))
    ensures AsksOnlyWaiting(OnClientReceive(s, room))
  {
    hide Flushed, Sent, Acknowledged, Reconciled, Flush;
    if s.client.streamOpen && s.toClient[0].Ack? {
      FlushAsksNothing(s.(toClient := s.toClient[1..]), Acknowledged(s.client, s.toClient[0].nextSequence), room);
    }
  }

  lemma PushAsksNothing(s: Sys, ok: bool, autoCommit: bool, replied: bool)
    requires AsksOnlyWaiting(s) && (s.serving ==> s.attached) && s.phase.InPush?
    ensures AsksOnlyWaiting(OnPushReturns(s, ok, autoCommit, replied))
  {
    hide AfterPush, Delivered;
  }

  lemma CommitReturnAsksNothing(s: Sys, ok: bool)
    requires AsksOnlyWaiting(s) && (s.serving ==> s.attached) && s.phase.InCommit?
    ensures AsksOnlyWaiting(OnCommitReturns(s, ok))
  {
    hide AfterCommit;
  }

  lemma CaptureAsksNothing(s: Sys, pcm: seq<int>, room: nat)
    requires s.frameSamples > 0 && AsksOnlyWaiting(s)
    ensures AsksOnlyWaiting(OnCapture(s, pcm, room))
  {
    hide Flush, Overflows, Framed, Frames;
    var h := s.history;
    var frames := h.frames + Frames(s.client.pendingPcm + pcm, s.frameSamples);
    FlushAsksNothing(s.(history := h.(captured := h.captured + pcm, frames := frames, kept := |frames|)),
                     Framed(s.client, pcm, s.frameSamples), room);
  }

  lemma StopAsksNothing(s: Sys, room: nat)
    requires AsksOnlyWaiting(s)
    ensures AsksOnlyWaiting(OnStopEnds(s, room))
  {
    hide Flush;
    var h := s.history;
    FlushAsksNothing(s.(stopping := false, drains := s.drains + 1,
                        history := h.(frames := h.frames + [s.client.pendingPcm], kept := |h.frames| + 1)),
                     StopEnded(s.client), room);
  }

  lemma AsksStayWaiting(s: Sys, a: Action)
    requires Inv(s) && AsksOnlyWaiting(s)
    ensures AsksOnlyWaiting(Next(s, a))
  {
    assert s.serving && !s.phase.Idle? ==> s.attached;
    hide Inv, Flush, OnCapture, OnStopEnds, OnServerReceive, OnClientReceive, OnPushReturns, OnCommitReturns;
    if Enabled(s, a) {
      match a
      case Capture(pcm, room) => CaptureAsksNothing(s, pcm, room);
      case Tick(room) => FlushAsksNothing(s, s.client, room);
      case StopBegins =>
      case StopEnds(room) => StopAsksNothing(s, room);
      case SendCommit => AppendingAsksNothing(s, Next(s, a));
      case LeaveDrain =>
      case GiveUp =>
      case Drop =>
      case Redial =>
      case ServerReceive => ReceivingAsksNothing(s);
      case PushReturns(ok, autoCommit, replied) => PushAsksNothing(s, ok, autoCommit, replied);
      case CommitReturns(ok) => CommitReturnAsksNothing(s, ok);
      case ClientReceive(room) => ClientAsksNothing(s, room);
    }
  }

  lemma {:induction false} QuietRunsStayInRange(sessionId: string, generation: nat, config: StreamConfig,
                                                frameSamples: nat, actions: seq<Action>)
    requires frameSamples > 0
    requires Quiet(Start(sessionId, generation, config, frameSamples), actions)
    ensures RepliesInRange(Start(sessionId, generation, config, frameSamples), actions)
    ensures Behind(Run(Start(sessionId, generation, config, frameSamples), actions))
    ensures AsksOnlyWaiting(Run(Start(sessionId, generation, config, frameSamples), actions))
  {
    var s := Start(sessionId, generation, config, frameSamples);
    StartInv(sessionId, generation, config, frameSamples);
    if |actions| > 0 {
      var earlier := actions[..|actions| - 1];
      QuietRunsStayInRange(sessionId, generation, config, frameSamples, earlier);
      RunInv(s, earlier);
      QuietKeepsBehind(Run(s, earlier), actions[|actions| - 1]);
      AsksStayWaiting(Run(s, earlier), actions[|actions| - 1]);
    }
  }
}
