/** A chunk sent before the reconnect reply, followed by a second drop: one frame is heard twice. */
module TransportCounterexample {
  import opened Common
  import opened Pcm
  import opened AudioStream
  import opened SpeechBridge
  import opened SttClient
  import opened Transport
  import opened TransportTheorems

  const CONFIG := StreamConfig(1024, 32768)

  const F0: Frame := [7]
  const F1: Frame := [8]

  const FIRST_PUSH: seq<Action> := [Capture(F0, 6), ServerReceive, PushReturns(true, false, false)]

  const RECONNECT: seq<Action> := [Drop, Redial]

  /** The first frame is heard, its acknowledgement is lost, the client dials again. */
  const FIRST_DROP := FIRST_PUSH + RECONNECT

  const EARLY_SEND: seq<Action> := [Capture(F1, 6), ServerReceive]

  const EARLY_PUSH: seq<Action> := [ServerReceive, PushReturns(true, false, false), ClientReceive(6)]

  /** The second frame leaves before the reply and is heard; the reply puts it back in the queue. */
  const EARLY_CHUNK := EARLY_SEND + EARLY_PUSH

  const SECOND_REPLY: seq<Action> := [ServerReceive, ClientReceive(6)]

  const SECOND_PUSH: seq<Action> := [Tick(6), ServerReceive, PushReturns(true, false, false)]

  /** The second drop: the server is ahead, and the queued frame gets the wrong number. */
  const SECOND_DROP := RECONNECT + SECOND_REPLY + SECOND_PUSH

  function Begun(): Sys {
    Start("s", 0, CONFIG, 1)
  }

  function StreamAt(next: nat, reconnects: nat): StreamState {
    StreamState("s", CONFIG, 0, next, 0, next, 2 * next, 0, reconnects, false)
  }

  function HeardOf(frames: seq<Frame>): seq<Received> {
    seq(|frames|, i requires 0 <= i < |frames| => Received(i, Bytes(frames[i])))
  }

  function AfterFirstPush(): Sys {
    AfterFirstDrop().(online := true, awaiting := false, toServer := [], toClient := [Ack(1, false)], serving := true, attached := true)
  }

  function AfterFirstDrop(): Sys {
    Sys(Client(true, [], [], [Entry(0, F0)], 1, 1, 0, true, false, false), 1, true, true, false, 0,
        [ReconnectRequest(0)], [], true, false, Idle,
        StreamAt(1, 0), ProviderStream(HeardOf([F0]), false, 0),
        History([7], [F0], 1, false, false, false, false, false))
  }

  function AfterEarlyChunk(): Sys {
    Sys(Client(true, [], [F1], [], 0, 1, 1, true, false, false), 1, true, false, false, 0,
        [], [Ack(2, false)], true, true, Idle,
        StreamAt(2, 1), ProviderStream(HeardOf([F0, F1]), false, 0),
        History([7, 8], [F0, F1], 2, false, false, false, false, false))
  }

  function ChunkOf(number: nat, frame: Frame): ToServer {
    Chunk(ChunkMessage(number, 0, Some(Bytes(frame))))
  }

  function AfterEarlySend(): Sys {
    Sys(Client(true, [], [], [Entry(0, F0), Entry(1, F1)], 2, 2, 0, true, false, false), 1, true, true, false, 0,
        [ChunkOf(1, F1)], [Reconnected(1)], true, true, Idle,
        StreamAt(1, 1), ProviderStream(HeardOf([F0]), false, 0),
        History([7, 8], [F0, F1], 2, false, false, false, false, false))
  }

  function AfterSecondRedial(): Sys {
    AfterEarlyChunk().(awaiting := true, toServer := [ReconnectRequest(1)], toClient := [], attached := false)
  }

  function AfterSecondReply(): Sys {
    AfterSecondRedial().(client := Client(true, [], [F1], [], 0, 2, 2, true, false, false), awaiting := false,
                         toServer := [], attached := true, stream := StreamAt(2, 2))
  }

  lemma Captures(s: Sys, pcm: seq<int>, room: nat)
    requires s.frameSamples > 0
    ensures Next(s, Capture(pcm, room)) == OnCapture(s, pcm, room)
  {
    hide OnCapture, OnStopBegins, OnStopEnds, OnServerReceive, OnPushReturns, OnCommitReturns, OnClientReceive, Flush;
  }

  lemma EndsStop(s: Sys, room: nat)
    requires s.frameSamples > 0 && s.stopping
    ensures Next(s, StopEnds(room)) == OnStopEnds(s, room)
  {
    hide OnCapture, OnStopBegins, OnStopEnds, OnServerReceive, OnPushReturns, OnCommitReturns, OnClientReceive, Flush;
  }

  lemma Receives(s: Sys)
    requires s.frameSamples > 0 && Enabled(s, ServerReceive)
    ensures Next(s, ServerReceive) == OnServerReceive(s)
  {
    hide OnCapture, OnStopBegins, OnStopEnds, OnServerReceive, OnPushReturns, OnCommitReturns, OnClientReceive, Flush;
  }

  lemma Pushes(s: Sys)
    requires s.frameSamples > 0 && s.phase.InPush?
    ensures Next(s, PushReturns(true, false, false)) == OnPushReturns(s, true, false, false)
  {
    hide OnCapture, OnStopBegins, OnStopEnds, OnServerReceive, OnPushReturns, OnCommitReturns, OnClientReceive, Flush;
  }

  lemma Commits(s: Sys)
    requires s.frameSamples > 0 && s.phase.InCommit?
    ensures Next(s, CommitReturns(true)) == OnCommitReturns(s, true)
  {
    hide OnCapture, OnStopBegins, OnStopEnds, OnServerReceive, OnPushReturns, OnCommitReturns, OnClientReceive, Flush;
  }

  lemma ClientReceives(s: Sys)
    requires s.frameSamples > 0 && Enabled(s, ClientReceive(6))
    ensures Next(s, ClientReceive(6)) == OnClientReceive(s, 6)
  {
    hide OnCapture, OnStopBegins, OnStopEnds, OnServerReceive, OnPushReturns, OnCommitReturns, OnClientReceive, Flush;
  }

  lemma FramesOfOne(sample: int)
    ensures Frames([] + [sample], 1) == [[sample]] && Leftover([] + [sample], 1) == []
  {
    assert ([] + [sample])[..1] == [sample];
  }

  lemma FlushOfOne(s: Sys, c: Client, f: Frame)
    requires s.online && c.streamOpen && c.frameQueue == [f] && c.pendingAcks == |c.inFlight| < 6
    ensures Flush(s, c, 6) == s.(
      client := c.(frameQueue := [], inFlight := c.inFlight + [Entry(c.nextSequence, f)],
                   pendingAcks := |c.inFlight| + 1, nextSequence := c.nextSequence + 1),
      toServer := s.toServer + [Chunk(ChunkMessage(c.nextSequence, s.stream.generation, Some(Bytes(f))))])
  {
    assert Sent(c, true, 6) == [Entry(c.nextSequence, f)];
    assert Outgoing(c, 1) == [Entry(c.nextSequence, f)];
    assert c.frameQueue[1..] == [];
  }

  lemma CaptureOfOne(s: Sys, sample: int)
    requires s.online && s.client.streamOpen && s.client.active && s.frameSamples == 1
    requires s.client.pendingPcm == [] && s.client.frameQueue == [] && s.client.pendingAcks == |s.client.inFlight| < 6
    ensures var c, h := s.client, s.history;
            Next(s, Capture([sample], 6)) == s.(
              client := c.(inFlight := c.inFlight + [Entry(c.nextSequence, [sample])],
                           pendingAcks := |c.inFlight| + 1, nextSequence := c.nextSequence + 1),
              toServer := s.toServer + [Chunk(ChunkMessage(c.nextSequence, s.stream.generation, Some(Bytes([sample]))))],
              history := h.(captured := h.captured + [sample], frames := h.frames + [[sample]], kept := |h.frames| + 1))
  {
    FramesOfOne(sample);
    assert [[sample]][0] == [sample];
    var h := s.history;
    var framed := Framed(s.client, [sample], 1);
    assert framed.frameQueue == [[sample]];
    FlushOfOne(s.(history := h.(captured := h.captured + [sample], frames := h.frames + [[sample]],
                                kept := |h.frames| + 1)), framed, [sample]);
  }

  /** States that follow one another by the listed actions are the states of the run. */
  lemma {:induction false} TraceIsRun(states: seq<Sys>, actions: seq<Action>)
    requires |states| == |actions| + 1
    requires forall i :: 0 <= i < |states| ==> states[i].frameSamples > 0
    requires forall i :: 0 <= i < |actions| ==> states[i + 1] == Next(states[i], actions[i])
    ensures Run(states[0], actions) == states[|actions|]
  {
    hide Next;
    if |actions| > 0 {
      var n := |actions| - 1;
      TraceIsRun(states[..n + 1], actions[..n]);
    }
  }

  lemma FirstPush()
    ensures Run(Begun(), FIRST_PUSH) == AfterFirstPush()
  {
    var s0 := Begun();
    CaptureOfOne(s0, 7);
    var s1 := Next(s0, Capture(F0, 6));
    Receives(s1);
    var s2 := OnServerReceive(s1);
    Pushes(s2);
    hide Next;
    assert [] + [Received(0, Bytes(F0))] == HeardOf([F0]);
    assert OnPushReturns(s2, true, false, false) == AfterFirstPush();
    TraceIsRun([s0, s1, s2, AfterFirstPush()], FIRST_PUSH);
  }

  lemma FirstRedial()
    ensures Run(AfterFirstPush(), RECONNECT) == AfterFirstDrop()
  {
    var s1 := Next(AfterFirstPush(), Drop);
    TraceIsRun([AfterFirstPush(), s1, AfterFirstDrop()], RECONNECT);
  }

  lemma EarlySend()
    ensures Run(AfterFirstDrop(), EARLY_SEND) == AfterEarlySend()
  {
    var s0 := AfterFirstDrop();
    CaptureOfOne(s0, 8);
    var s1 := Next(s0, Capture(F1, 6));
    assert s1.toServer[1..] == [ChunkOf(1, F1)];
    TraceIsRun([s0, s1, AfterEarlySend()], EARLY_SEND);
  }

  lemma EarlyPush()
    ensures Run(AfterEarlySend(), EARLY_PUSH) == AfterEarlyChunk()
  {
    var s0 := AfterEarlySend();
    Receives(s0);
    var s1 := OnServerReceive(s0);
    Pushes(s1);
    var s2 := OnPushReturns(s1, true, false, false);
    ClientReceives(s2);
    hide Next;
    assert HeardOf([F0]) + [Received(1, Bytes(F1))] == HeardOf([F0, F1]);
    assert [Reconnected(1), Ack(2, false)][1..] == [Ack(2, false)];
    assert s2.client.inFlight[1..] == [Entry(1, F1)];
    assert FramesOf([Entry(1, F1)]) + [] == [F1];
    assert OnClientReceive(s2, 6) == AfterEarlyChunk();
    TraceIsRun([s0, s1, s2, AfterEarlyChunk()], EARLY_PUSH);
  }

  lemma SecondRedial()
    ensures Run(AfterEarlyChunk(), RECONNECT) == AfterSecondRedial()
  {
    var s1 := Next(AfterEarlyChunk(), Drop);
    TraceIsRun([AfterEarlyChunk(), s1, AfterSecondRedial()], RECONNECT);
  }

  lemma SecondReply()
    ensures Run(AfterSecondRedial(), SECOND_REPLY) == AfterSecondReply()
  {
    Receives(AfterSecondRedial());
    var s1 := OnServerReceive(AfterSecondRedial());
    ClientReceives(s1);
    hide Next;
    TraceIsRun([AfterSecondRedial(), s1, AfterSecondReply()], SECOND_REPLY);
  }

  lemma SecondPush()
    ensures var t := Run(AfterSecondReply(), SECOND_PUSH);
            t.provider.received == HeardOf([F0, F1, F1]) && t.history.frames == [F0, F1] && !t.history.pushFailed
  {
    var s0 := AfterSecondReply();
    FlushOfOne(s0, s0.client, F1);
    var s1 := Flush(s0, s0.client, 6);
    Receives(s1);
    var s2 := OnServerReceive(s1);
    Pushes(s2);
    var s3 := OnPushReturns(s2, true, false, false);
    assert Next(s0, Tick(6)) == s1 by {
      hide Flush;
    }
    hide Next;
    assert HeardOf([F0, F1]) + [Received(2, Bytes(F1))] == HeardOf([F0, F1, F1]);
    TraceIsRun([s0, s1, s2, s3], SECOND_PUSH);
  }

  /** Two frames were captured, three chunks were heard: the second frame twice, the second time as number two. */
  lemma EarlyChunkIsHeardTwice()
    ensures var t := Run(Begun(), FIRST_DROP + EARLY_CHUNK + SECOND_DROP);
            && t.history.frames == [F0, F1]
            && t.provider.received == [Received(0, Bytes(F0)), Received(1, Bytes(F1)), Received(2, Bytes(F1))]
            && !t.history.pushFailed
  {
    hide Next, Run;
    FirstPush();
    FirstRedial();
    RunSplits(Begun(), FIRST_PUSH, RECONNECT);
    EarlySend();
    EarlyPush();
    RunSplits(AfterFirstDrop(), EARLY_SEND, EARLY_PUSH);
    SecondRedial();
    SecondReply();
    SecondPush();
    RunSplits(AfterEarlyChunk(), RECONNECT, SECOND_REPLY);
    RunSplits(AfterEarlyChunk(), RECONNECT + SECOND_REPLY, SECOND_PUSH);
    RunSplits(Begun(), FIRST_DROP, EARLY_CHUNK);
    RunSplits(Begun(), FIRST_DROP + EARLY_CHUNK, SECOND_DROP);
    assert HeardOf([F0, F1, F1]) == [Received(0, Bytes(F0)), Received(1, Bytes(F1)), Received(2, Bytes(F1))];
  }

  // ---- a commit that leaves while the user's stop waits for the microphone ----

  /** One sample is pending when the connection drops; the user stops before the reconnect reply arrives. */
  const STOP_WHILE_AWAY: seq<Action> := [Capture(F0, 6), Drop, Redial, StopBegins, ServerReceive, ClientReceive(6)]

  /** The reply makes the client commit at once, and the provider is committed. */
  const COMMIT_AT_ONCE: seq<Action> := [SendCommit, ServerReceive, CommitReturns(true), ClientReceive(6)]

  /** The microphone has been released: the last frame is sent and acknowledged. */
  const LATE_FRAME: seq<Action> := [StopEnds(6), ServerReceive, ClientReceive(6)]

  function BegunByTwos(): Sys {
    Start("s", 0, CONFIG, 2)
  }

  function StoppedWhileAway(): Sys {
    Sys(Client(true, F0, [], [], 0, 0, 0, false, true, false), 2, true, false, true, 1,
        [], [], true, true, Idle,
        StreamAt(0, 1), NEW_PROVIDER,
        History([7], [], 0, true, false, false, false, false))
  }

  function CommittedAtOnce(): Sys {
    StoppedWhileAway().(drains := 0, provider := ProviderStream([], true, 1),
                        history := History([7], [], 0, true, false, false, true, true))
  }

  /** A trace whose reconnect replies are in range is a run whose replies are. */
  lemma {:induction false} TraceInRange(states: seq<Sys>, actions: seq<Action>)
    requires |states| == |actions| + 1
    requires forall i :: 0 <= i < |states| ==> states[i].frameSamples > 0
    requires forall i :: 0 <= i < |actions| ==> states[i + 1] == Next(states[i], actions[i])
    requires forall i :: 0 <= i < |actions| ==> ReplyInRange(states[i], actions[i])
    ensures RepliesInRange(states[0], actions)
  {
    hide Next, ReplyInRange;
    if |actions| > 0 {
      var n := |actions| - 1;
      TraceInRange(states[..n + 1], actions[..n]);
      TraceIsRun(states[..n + 1], actions[..n]);
    }
  }

  lemma FlushOfNone(s: Sys, c: Client)
    requires c.frameQueue == [] && c.pendingAcks == |c.inFlight|
    ensures Flush(s, c, 6) == s.(client := c)
  {
    assert Sent(c, s.online, 6) == [];
    assert c.inFlight + [] == c.inFlight;
    assert c.frameQueue[0..] == c.frameQueue;
  }

  /** The state after the capture: one sample is pending, nothing has been sent. */
  function OnePending(): Sys {
    BegunByTwos().(client := Started().(pendingPcm := F0),
                   history := BegunByTwos().history.(captured := F0))
  }

  lemma PendingOfOne()
    ensures Next(BegunByTwos(), Capture(F0, 6)) == OnePending()
  {
    var s0 := BegunByTwos();
    var d := s0.client.(pendingPcm := F0);
    Captures(s0, F0, 6);
    hide Next, Frames, Leftover;
    PendingFrames();
    assert Framed(s0.client, F0, 2) == d;
    var t := s0.(history := s0.history.(captured := F0));
    FlushOfNone(t, d);
    hide Flush, Framed;
    assert [] + F0 == F0;
    assert OnCapture(s0, F0, 6) == Flush(t, d, 6);
  }

  lemma PendingFrames()
    ensures Frames([] + F0, 2) == [] && Leftover([] + F0, 2) == F0
  {
    assert [] + F0 == F0;
  }

  function Offline(): Sys {
    OnePending().(online := false, serving := false, attached := false)
  }

  function Dialled(): Sys {
    OnePending().(awaiting := true, attached := false, toServer := [ReconnectRequest(0)])
  }

  /** The user has stopped; the partial frame is not queued yet. */
  function StopPending(): Sys {
    Dialled().(client := Client(true, F0, [], [], 0, 0, 0, false, true, false), stopping := true,
               history := History([7], [], 0, true, false, false, false, false))
  }

  function ReconnectedWhileStopping(): Sys {
    StopPending().(toServer := [], toClient := [Reconnected(0)], attached := true, stream := StreamAt(0, 1))
  }

  lemma GoingAway()
    ensures Next(OnePending(), Drop) == Offline()
    ensures Next(Offline(), Redial) == Dialled()
    ensures Next(Dialled(), StopBegins) == StopPending()
  {
    hide OnCapture, OnStopEnds, OnServerReceive, OnPushReturns, OnCommitReturns, OnClientReceive, Flush;
  }

  lemma ComingBack()
    ensures Next(StopPending(), ServerReceive) == ReconnectedWhileStopping()
    ensures Next(ReconnectedWhileStopping(), ClientReceive(6)) == StoppedWhileAway()
  {
    Receives(StopPending());
    ClientReceives(ReconnectedWhileStopping());
    hide Next;
    assert [ReconnectRequest(0)][1..] == [];
    assert FramesOf(From([], 0)) + [] == [];
  }

  lemma StopWhileAway()
    ensures Run(BegunByTwos(), STOP_WHILE_AWAY) == StoppedWhileAway()
    ensures RepliesInRange(BegunByTwos(), STOP_WHILE_AWAY)
  {
    PendingOfOne();
    GoingAway();
    ComingBack();
    hide Next;
    var states := [BegunByTwos(), OnePending(), Offline(), Dialled(), StopPending(), ReconnectedWhileStopping(),
                   StoppedWhileAway()];
    TraceIsRun(states, STOP_WHILE_AWAY);
    TraceInRange(states, STOP_WHILE_AWAY);
  }

  lemma CommitAtOnce()
    ensures Run(StoppedWhileAway(), COMMIT_AT_ONCE) == CommittedAtOnce()
    ensures RepliesInRange(StoppedWhileAway(), COMMIT_AT_ONCE)
  {
    var s0 := StoppedWhileAway();
    var s1 := s0.(drains := 0, toServer := [CommitRequest(true)]);
    assert Next(s0, SendCommit) == s1;
    Receives(s1);
    var s2 := s0.(drains := 0, phase := InCommit(true, true));
    Commits(s2);
    var s3 := CommittedAtOnce().(toClient := [Committed]);
    ClientReceives(s3);
    hide Next;
    assert OnServerReceive(s1) == s2;
    assert OnCommitReturns(s2, true) == s3;
    assert OnClientReceive(s3, 6) == CommittedAtOnce();
    TraceIsRun([s0, s1, s2, s3, CommittedAtOnce()], COMMIT_AT_ONCE);
    TraceInRange([s0, s1, s2, s3, CommittedAtOnce()], COMMIT_AT_ONCE);
  }

  function LateFrameSent(): Sys {
    CommittedAtOnce().(stopping := false, drains := 1, toServer := [ChunkOf(0, F0)],
                       client := Client(true, [], [], [Entry(0, F0)], 1, 1, 0, false, true, true),
                       history := History([7], [F0], 1, true, false, false, true, true))
  }

  lemma LateFrameLeaves()
    ensures Next(CommittedAtOnce(), StopEnds(6)) == LateFrameSent()
  {
    var s0 := CommittedAtOnce();
    EndsStop(s0, 6);
    hide Next;
    var t := s0.(stopping := false, drains := 1, history := s0.history.(frames := [F0], kept := 1));
    FlushOfOne(t, StopEnded(s0.client), F0);
    hide Flush;
    assert OnStopEnds(s0, 6) == Flush(t, StopEnded(s0.client), 6);
  }

  /** The late frame is accepted, and not forwarded. */
  function LateFrameRefused(): Sys {
    LateFrameSent().(toServer := [], toClient := [Ack(1, false)],
                     stream := StreamAt(1, 1).(bufferedBytes := 0, acceptedBytes := 2))
  }

  lemma LateFrameArrives()
    ensures Next(LateFrameSent(), ServerReceive) == LateFrameRefused()
  {
    Receives(LateFrameSent());
    hide Next;
    assert [ChunkOf(0, F0)][1..] == [];
  }

  lemma LateFrameAcknowledged()
    ensures Next(LateFrameRefused(), ClientReceive(6))
         == LateFrameRefused().(toClient := [], client := Client(true, [], [], [], 0, 1, 1, false, true, true))
  {
    var s := LateFrameRefused();
    ClientReceives(s);
    hide Next;
    assert From([Entry(0, F0)], 1) == [] by {
      assert From([Entry(0, F0)][1..], 1) == [];
    }
    FlushOfNone(s.(toClient := []), Acknowledged(s.client, 1));
    hide Flush, From;
  }

  lemma LateFrame()
    ensures RepliesInRange(CommittedAtOnce(), LATE_FRAME)
    ensures var t := Run(CommittedAtOnce(), LATE_FRAME);
            && t.history == History([7], [F0], 1, true, false, false, true, true)
            && t.provider.received == [] && t.stream.nextSequence == 1
            && t.client.frameQueue == [] && t.client.inFlight == []
  {
    LateFrameLeaves();
    LateFrameArrives();
    LateFrameAcknowledged();
    hide Next;
    var last := LateFrameRefused().(toClient := [], client := Client(true, [], [], [], 0, 1, 1, false, true, true));
    TraceIsRun([CommittedAtOnce(), LateFrameSent(), LateFrameRefused(), last], LATE_FRAME);
    TraceInRange([CommittedAtOnce(), LateFrameSent(), LateFrameRefused(), last], LATE_FRAME);
  }

  /**
   The user's stop waits for the microphone while the connection comes back: the commit overtakes the last
   frame, which the server then acknowledges and nobody hears.
   */
  lemma HastyCommitLosesTheEnd()
    ensures RepliesInRange(BegunByTwos(), STOP_WHILE_AWAY + COMMIT_AT_ONCE + LATE_FRAME)
    ensures var t := Run(BegunByTwos(), STOP_WHILE_AWAY + COMMIT_AT_ONCE + LATE_FRAME);
            && t.history.userCommitted && !t.history.detectorFired && !t.history.pushFailed && t.history.hasty
            && t.history.captured == [7] && t.history.frames == [[7]]
            && t.stream.nextSequence == 1 && t.client.frameQueue == [] && t.client.inFlight == []
            && t.provider.received == []
  {
    hide Next, Run, RepliesInRange;
    StopWhileAway();
    CommitAtOnce();
    LateFrame();
    RunSplits(BegunByTwos(), STOP_WHILE_AWAY, COMMIT_AT_ONCE);
    RunSplits(BegunByTwos(), STOP_WHILE_AWAY + COMMIT_AT_ONCE, LATE_FRAME);
  }
}
