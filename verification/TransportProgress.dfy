/**
 Undisturbed exchanges deliver: from any state in which client and server are in step, each exchange brings one frame to
 the provider, whatever acknowledgements get lost and however often the connection drops in between.
 */
module TransportProgress {
  import opened Common
  import opened Pcm
  import opened AudioStream
  import opened SpeechBridge
  import opened SttClient
  import opened Transport
  import opened TransportTheorems

  // ---- client and server in step ----

  predicate FitsIn(config: StreamConfig, frame: Frame) {
    0 < |frame| && 2 * |frame| <= config.maxChunkBytes && 2 * |frame| <= config.maxBufferedBytes
  }

  ghost predicate Consecutive(entries: seq<Entry>, from: nat) {
    forall i :: 0 <= i < |entries| ==> entries[i].sequence == from + i
  }

  /** The frames the provider has not been given yet, in order. */
  function Waiting(c: Client): seq<Frame> {
    FramesOf(c.inFlight) + c.frameQueue
  }

  /** Both ends are idle, and exactly the frames in flight are on their way. */
  ghost predicate Connected(s: Sys) {
    && s.online && s.serving && s.attached && !s.awaiting && s.phase.Idle? && s.client.streamOpen
    && s.toClient == [] && s.toServer == Chunks(s, s.client.inFlight)
  }

  /** The server expects the first frame in flight, or the next one to be numbered. */
  ghost predicate Level(c: Client, st: StreamState) {
    && !st.closed && st.bufferedBytes == 0
    && Consecutive(c.inFlight, st.nextSequence) && c.nextSequence == st.nextSequence + |c.inFlight|
    && c.serverNextSequence <= st.nextSequence && c.pendingAcks == |c.inFlight| <= 6
  }

  ghost predicate AllFit(c: Client, config: StreamConfig) {
    forall i :: 0 <= i < |Waiting(c)| ==> FitsIn(config, Waiting(c)[i])
  }

  ghost predicate InStep(s: Sys) {
    Connected(s) && Level(s.client, s.stream) && AllFit(s.client, s.stream.config) && !s.provider.committed
  }

  lemma ChunksConcat(s: Sys, a: seq<Entry>, b: seq<Entry>)
    ensures Chunks(s, a + b) == Chunks(s, a) + Chunks(s, b)
  {
  }

  lemma ChunksIgnore(s: Sys, t: Sys, entries: seq<Entry>)
    requires t.stream.generation == s.stream.generation
    ensures Chunks(t, entries) == Chunks(s, entries)
  {
  }

  lemma WaitingMoved(c: Client, n: nat)
    requires n <= |c.frameQueue|
    ensures Waiting(Moved(c, n)) == Waiting(c)
    ensures FramesOf(c.inFlight + Outgoing(c, n)) == FramesOf(c.inFlight) + c.frameQueue[..n]
  {
    assert c.frameQueue == c.frameQueue[..n] + c.frameQueue[n..];
    assert FramesOf(c.inFlight + Outgoing(c, n)) == FramesOf(c.inFlight) + c.frameQueue[..n];
  }

  /** A flush keeps client and server in step and delivers nothing by itself. */
  lemma FlushStaysInStep(s: Sys, room: nat)
    requires InStep(s)
    ensures var t := Flush(s, s.client, room);
            && InStep(t) && Waiting(t.client) == Waiting(s.client)
            && (room > 0 && |s.client.frameQueue| > 0 ==> |t.client.inFlight| > 0)
            && |t.client.frameQueue| <= |s.client.frameQueue|
            && t == s.(client := t.client, toServer := t.toServer)
            && t.client == s.client.(frameQueue := t.client.frameQueue, inFlight := t.client.inFlight,
                                     pendingAcks := t.client.pendingAcks, nextSequence := t.client.nextSequence)
  {
    var n := FlushCount(s.client, s.online, room);
    WaitingMoved(s.client, n);
    ChunksConcat(s, s.client.inFlight, Outgoing(s.client, n));
    var t := Flush(s, s.client, room);
    ChunksIgnore(s, t, t.client.inFlight);
    hide Waiting, ChunkOf, FramesOf;
  }

  // ---- one exchange ----

  /** The server takes the first frame in flight and hands it to the provider. */
  lemma ServerTakesFrame(s: Sys)
    requires InStep(s) && |s.client.inFlight| > 0
    ensures |s.toServer| > 0
    ensures var frame := s.client.inFlight[0].frame;
            var next := s.stream.nextSequence + 1;
            OnServerReceive(s)
            == s.(toServer := s.toServer[1..],
                  phase := InPush(ChunkResult(false, s.stream.nextSequence, next, 2 * |frame|), Bytes(frame)),
                  stream := s.stream.(bufferedBytes := 2 * |frame|, acceptedChunks := s.stream.acceptedChunks + 1,
                                      acceptedBytes := s.stream.acceptedBytes + 2 * |frame|, nextSequence := next))
  {
    assert Waiting(s.client)[0] == s.client.inFlight[0].frame;
    assert FitsIn(s.stream.config, Waiting(s.client)[0]);
    assert s.toServer[0] == ChunkOf(s, s.client.inFlight[0]);
    hide Waiting, Bytes;
  }

  /** The provider has been given a frame: what it holds and what the client still has to be told. */
  lemma ProviderTakesFrame(s: Sys, autoCommit: bool, replied: bool)
    requires s.phase.InPush? && s.serving && s.stream.bufferedBytes == |s.phase.audio| && !autoCommit
    ensures OnPushReturns(s, true, autoCommit, replied)
         == s.(provider := Delivered(s.provider, s.phase.result.sequence, s.phase.audio), phase := Idle,
               stream := s.stream.(bufferedBytes := 0), toClient := s.toClient + [Ack(s.phase.result.nextSequence, false)])
  {
  }

  lemma FromNext(entries: seq<Entry>, from: nat)
    requires Consecutive(entries, from) && |entries| > 0
    ensures From(entries, from + 1) == entries[1..]
    ensures From(entries, from) == entries
  {
    FromAll(entries[1..], from + 1);
    FromAll(entries, from);
  }

  lemma {:induction false} FromAll(entries: seq<Entry>, from: nat)
    requires forall i :: 0 <= i < |entries| ==> entries[i].sequence >= from
    ensures From(entries, from) == entries
  {
    if |entries| > 0 {
      FromAll(entries[1..], from);
    }
  }

  /** The frame handed over: the server is one ahead of the client, which has not heard of it yet. */
  ghost predicate Handed(s: Sys, t: Sys) {
    && |s.client.inFlight| > 0 && |s.toServer| > 0
    && var e := s.client.inFlight[0];
       t == s.(toServer := s.toServer[1..], toClient := [Ack(s.stream.nextSequence + 1, false)],
               provider := Delivered(s.provider, s.stream.nextSequence, Bytes(e.frame)),
               stream := s.stream.(nextSequence := s.stream.nextSequence + 1, acceptedChunks := s.stream.acceptedChunks + 1,
                                   acceptedBytes := s.stream.acceptedBytes + 2 * |e.frame|))
  }

  lemma FrameIsHanded(s: Sys, replied: bool)
    requires InStep(s) && |s.client.inFlight| > 0
    ensures |s.toServer| > 0 && OnServerReceive(s).phase.InPush?
    ensures Handed(s, OnPushReturns(OnServerReceive(s), true, false, replied))
  {
    ServerTakesFrame(s);
    var t := OnServerReceive(s);
    ProviderTakesFrame(t, false, replied);
    hide OnServerReceive, OnPushReturns, AllFit, Bytes;
    assert s.stream.bufferedBytes == 0;
  }

  lemma WaitingDropsFirst(c: Client)
    requires |c.inFlight| > 0
    ensures Waiting(c) == [c.inFlight[0].frame] + Waiting(c.(inFlight := c.inFlight[1..]))
  {
    assert FramesOf(c.inFlight) == [c.inFlight[0].frame] + FramesOf(c.inFlight[1..]);
  }

  lemma FitsAfterFirst(c: Client, d: Client, config: StreamConfig)
    requires AllFit(c, config) && |Waiting(c)| > 0 && Waiting(d) == Waiting(c)[1..]
    ensures AllFit(d, config)
  {
    hide Waiting, FitsIn;
    forall i | 0 <= i < |Waiting(d)|
      ensures FitsIn(config, Waiting(d)[i])
    {
      assert Waiting(d)[i] == Waiting(c)[i + 1];
    }
  }

  /** The acknowledgement arrives: client and server are in step again, with one frame less to go. */
  lemma AckRestoresStep(s: Sys, t: Sys, room: nat)
    requires InStep(s) && Handed(s, t)
    ensures |t.toClient| > 0
    ensures var u := OnClientReceive(t, room);
            && InStep(u) && Waiting(u.client) == Waiting(s.client)[1..] && |Waiting(s.client)| > 0
            && |u.client.frameQueue| <= |s.client.frameQueue|
            && SameRecording(s, u) && u.provider == t.provider
  {
    var c := s.client.(serverNextSequence := s.stream.nextSequence + 1, inFlight := s.client.inFlight[1..],
                       pendingAcks := |s.client.inFlight| - 1);
    FromNext(s.client.inFlight, s.stream.nextSequence);
    WaitingDropsFirst(s.client);
    var v := t.(toClient := [], client := c);
    assert Waiting(c) == Waiting(s.client)[1..];
    FitsAfterFirst(s.client, c, s.stream.config);
    RestIsOnItsWay(s, v);
    assert InStep(v) by {
      hide AllFit, Waiting;
      assert Connected(v);
    }
    FlushStaysInStep(v, room);
    AckIsFlush(t, c, room);
    hide InStep, Waiting, Flush, OnClientReceive, Connected, Level, AllFit;
  }

  lemma AckIsFlush(t: Sys, c: Client, room: nat)
    requires t.client.streamOpen && |t.toClient| == 1 && t.toClient[0].Ack? && !t.toClient[0].autoCommit
    requires c == Acknowledged(t.client, t.toClient[0].nextSequence)
    ensures OnClientReceive(t, room) == Flush(t.(toClient := [], client := c), c, room)
  {
    hide Acknowledged;
  }

  lemma RestIsOnItsWay(s: Sys, v: Sys)
    requires s.toServer == Chunks(s, s.client.inFlight) && |s.client.inFlight| > 0
    requires v.stream.generation == s.stream.generation
    ensures s.toServer[1..] == Chunks(v, s.client.inFlight[1..])
  {
    ChunksConcat(s, [s.client.inFlight[0]], s.client.inFlight[1..]);
    assert s.client.inFlight == [s.client.inFlight[0]] + s.client.inFlight[1..];
    ChunksIgnore(s, v, s.client.inFlight[1..]);
  }

  /** What a connection's ups and downs leave alone. */
  ghost predicate SameRecording(s: Sys, t: Sys) {
    && t.frameSamples == s.frameSamples && t.history == s.history && t.client.pendingPcm == s.client.pendingPcm
    && t.client.active == s.client.active && t.client.committing == s.client.committing
    && t.stream.config == s.stream.config && t.stopping == s.stopping && t.drains >= s.drains
  }

  // ---- a connection that drops ----

  /** The client has redialled after a drop; the server may be one frame ahead of what the client knows. */
  ghost predicate Redialled(s: Sys, t: Sys) {
    && t == s.(online := true, awaiting := true, serving := true, attached := false,
               toServer := [ReconnectRequest(s.client.serverNextSequence)], toClient := [])
  }

  /** The frames in flight start at the server's number or one below it. */
  ghost predicate Nearly(c: Client, st: StreamState) {
    && !st.closed && st.bufferedBytes == 0 && c.serverNextSequence <= st.nextSequence
    && (Consecutive(c.inFlight, st.nextSequence)
        || (|c.inFlight| > 0 && st.nextSequence > 0 && Consecutive(c.inFlight, st.nextSequence - 1)))
  }

  /** Reconnecting puts what is still missing back in front of the queue: client and server are in step again. */
  lemma ReconnectRestoresStep(s: Sys, t: Sys, room: nat)
    requires Redialled(s, t) && Nearly(s.client, s.stream) && s.phase.Idle? && s.client.streamOpen && !s.provider.committed
    requires AllFit(s.client, s.stream.config)
    ensures var v := OnServerReceive(t);
            && v.online && |v.toClient| > 0
            && var u := OnClientReceive(v, room);
               && InStep(u) && u.client.inFlight == [] && SameRecording(s, u) && u.provider == s.provider
               && Waiting(u.client) == FramesOf(From(s.client.inFlight, s.stream.nextSequence)) + s.client.frameQueue
  {
    var next := s.stream.nextSequence;
    var v := OnServerReceive(t);
    assert v == t.(attached := true, toServer := [], stream := s.stream.(reconnectCount := s.stream.reconnectCount + 1),
                   toClient := [Reconnected(next)]);
    var kept := From(s.client.inFlight, next);
    MissingFit(s.client, next, s.stream.config);
    hide From, AllFit, Waiting;
    var u := OnClientReceive(v, room);
    assert u.client == Reconciled(s.client, next);
    NothingInFlight(u);
    WaitingIsQueue(u.client);
    FitsQueue(u.client, s.stream.config, kept, s.client.frameQueue);
  }

  lemma NothingInFlight(u: Sys)
    requires u.client.inFlight == []
    ensures Chunks(u, u.client.inFlight) == []
  {
  }

  lemma WaitingIsQueue(c: Client)
    requires c.inFlight == []
    ensures Waiting(c) == c.frameQueue
  {
    assert FramesOf([]) == [];
  }

  /** The queue as a reconnect leaves it. */
  lemma FitsQueue(c: Client, config: StreamConfig, kept: seq<Entry>, queue: seq<Frame>)
    requires c.inFlight == [] && c.frameQueue == FramesOf(kept) + queue
    requires forall f <- FramesOf(kept) + queue :: FitsIn(config, f)
    ensures AllFit(c, config)
  {
    WaitingIsQueue(c);
    hide Waiting, FitsIn;
  }

  lemma MissingFit(c: Client, next: nat, config: StreamConfig)
    requires AllFit(c, config)
    ensures forall f <- FramesOf(From(c.inFlight, next)) + c.frameQueue :: FitsIn(config, f)
  {
    var kept := From(c.inFlight, next);
    forall f | f in FramesOf(kept) + c.frameQueue
      ensures FitsIn(config, f)
    {
      if f in c.frameQueue {
        var j :| 0 <= j < |c.frameQueue| && c.frameQueue[j] == f;
        assert Waiting(c)[|c.inFlight| + j] == f;
      } else {
        var i :| 0 <= i < |kept| && kept[i].frame == f;
        assert kept[i] in c.inFlight;
        var j :| 0 <= j < |c.inFlight| && c.inFlight[j] == kept[i];
        assert Waiting(c)[j] == f;
      }
    }
  }

  // ---- beats of a conversation ----

  /**
   What may happen between two idle moments: the candidate talks; a frame is exchanged; the connection drops and is
   made again; or a frame is taken but the connection drops before the client hears of it.
   */
  datatype Beat =
    | Talk(pcm: seq<int>, room: nat)
    | Exchange(replied: bool, room: nat)
    | Interruption(room: nat)
    | LostAck(replied: bool, room: nat)

  function ActionsOf(b: Beat): seq<Action> {
    match b
    case Talk(pcm, room) => [Capture(pcm, room)]
    case Exchange(replied, room) => [Tick(1)] + [ServerReceive] + [PushReturns(true, false, replied)] + [ClientReceive(room)]
    case Interruption(room) => [Drop] + [Redial] + [ServerReceive] + [ClientReceive(room)]
    case LostAck(replied, room) =>
      [Tick(1)] + [ServerReceive] + [PushReturns(true, false, replied)] + [Drop] + [Redial] + [ServerReceive] + [ClientReceive(room)]
  }

  lemma RunSnoc(s: Sys, actions: seq<Action>, a: Action)
    requires s.frameSamples > 0
    ensures Run(s, actions + [a]) == Next(Run(s, actions), a)
  {
    assert (actions + [a])[..|actions|] == actions;
  }

  lemma RunNothing(s: Sys)
    requires s.frameSamples > 0
    ensures Run(s, []) == s
  {
  }

  lemma RunFour(s: Sys, a: Action, b: Action, c: Action, d: Action)
    requires s.frameSamples > 0
    ensures Run(s, [a] + [b] + [c] + [d]) == Next(Next(Next(Next(s, a), b), c), d)
  {
    hide Next, Run;
    RunNothing(s);
    assert [] + [a] == [a];
    RunSnoc(s, [], a);
    RunSnoc(s, [a], b);
    RunSnoc(s, [a] + [b], c);
    RunSnoc(s, [a] + [b] + [c], d);
  }

  /** Everything captured has been heard, waits in order, or is still pending. */
  ghost predicate Whole(s: Sys) {
    Heard(s.provider.received) + Bytes(Flatten(Waiting(s.client))) + Bytes(s.client.pendingPcm) == Bytes(s.history.captured)
  }

  /** A step that delivers at most the first waiting frame. */
  ghost predicate Delivers(s: Sys, t: Sys) {
    && SameRecording(s, t)
    && if Waiting(s.client) == [] then Waiting(t.client) == [] && t.provider == s.provider
       else && Waiting(t.client) == Waiting(s.client)[1..]
            && t.provider == Delivered(s.provider, s.stream.nextSequence, Bytes(Waiting(s.client)[0]))
  }

  /** A step that delivers nothing. */
  ghost predicate Holds(s: Sys, t: Sys) {
    SameRecording(s, t) && Waiting(t.client) == Waiting(s.client) && t.provider == s.provider
  }

  lemma TickIs(s: Sys, room: nat)
    requires s.frameSamples > 0
    ensures Next(s, Tick(room)) == Flush(s, s.client, room)
  {
    hide Flush;
  }

  lemma ReceiveIs(s: Sys)
    requires s.frameSamples > 0
    ensures Next(s, ServerReceive)
         == if s.serving && s.phase.Idle? && |s.toServer| > 0 then OnServerReceive(s) else s
  {
    hide OnServerReceive;
  }

  lemma PushIs(s: Sys, autoCommit: bool, replied: bool)
    requires s.frameSamples > 0
    ensures Next(s, PushReturns(true, autoCommit, replied))
         == if s.phase.InPush? then OnPushReturns(s, true, autoCommit, replied) else s
  {
    hide OnPushReturns;
  }

  lemma ClientIs(s: Sys, room: nat)
    requires s.frameSamples > 0
    ensures Next(s, ClientReceive(room)) == if s.online && |s.toClient| > 0 then OnClientReceive(s, room) else s
  {
    hide OnClientReceive;
  }

  lemma RedialIs(s: Sys)
    requires s.frameSamples > 0 && s.phase.Idle? && s.client.streamOpen && (s.client.active || s.client.committing)
    ensures Redialled(s, Next(Next(s, Drop), Redial))
  {
  }

  lemma FirstIsWaiting(c: Client)
    requires |c.inFlight| > 0
    ensures |Waiting(c)| > 0 && Waiting(c)[0] == c.inFlight[0].frame
  {
  }

  lemma NothingWaits(c: Client)
    ensures Waiting(c) == [] <==> c.inFlight == [] && c.frameQueue == []
  {
    assert |Waiting(c)| == |c.inFlight| + |c.frameQueue|;
  }

  lemma HandedFields(s: Sys, t: Sys)
    requires Handed(s, t) && |Waiting(s.client)| > 0 && Waiting(s.client)[0] == s.client.inFlight[0].frame
    ensures t.provider == Delivered(s.provider, s.stream.nextSequence, Bytes(Waiting(s.client)[0]))
    ensures t.online == s.online && t.client == s.client && t.phase == s.phase && |t.toClient| == 1
    ensures SameRecording(s, t)
  {
    hide Waiting, Bytes;
  }

  /** A flush, and then the exchange of a frame if there is any. */
  lemma TickPrimes(s: Sys)
    requires s.frameSamples > 0 && InStep(s)
    ensures var t := Next(s, Tick(1));
            && InStep(t) && Holds(s, t) && t.stream == s.stream
            && (Waiting(s.client) != [] ==> |t.client.inFlight| > 0)
            && (Waiting(s.client) == [] ==> t.client.inFlight == [])
  {
    TickIs(s, 1);
    FlushStaysInStep(s, 1);
    NothingWaits(s.client);
    NothingWaits(Flush(s, s.client, 1).client);
    hide InStep, Waiting, Flush;
  }

  lemma FrameIsExchanged(s: Sys, replied: bool, room: nat)
    requires s.frameSamples > 0 && InStep(s) && |s.client.inFlight| > 0
    ensures var u := Next(Next(Next(s, ServerReceive), PushReturns(true, false, replied)), ClientReceive(room));
            InStep(u) && Delivers(s, u)
  {
    ReceiveIs(s);
    FrameIsHanded(s, replied);
    PushIs(OnServerReceive(s), false, replied);
    var t := OnPushReturns(OnServerReceive(s), true, false, replied);
    AckRestoresStep(s, t, room);
    FirstIsWaiting(s.client);
    HandedFields(s, t);
    ClientIs(t, room);
    hide Next, OnServerReceive, OnPushReturns, OnClientReceive, Handed, Waiting, AllFit, Level, Bytes;
  }

  lemma NothingToExchange(s: Sys, replied: bool, room: nat)
    requires s.frameSamples > 0 && InStep(s) && s.client.inFlight == []
    ensures Next(Next(Next(s, ServerReceive), PushReturns(true, false, replied)), ClientReceive(room)) == s
  {
    ReceiveIs(s);
    PushIs(s, false, replied);
    ClientIs(s, room);
    hide Next, OnServerReceive, OnPushReturns, OnClientReceive;
  }

  lemma HoldsThenDelivers(s: Sys, t: Sys, u: Sys)
    requires Holds(s, t) && t.stream == s.stream && Delivers(t, u)
    ensures Delivers(s, u)
  {
    hide Waiting, Bytes;
  }

  lemma HoldsThenHolds(s: Sys, t: Sys)
    requires Holds(s, t) && Waiting(s.client) == []
    ensures Delivers(s, t)
  {
    hide Waiting, Bytes;
  }

  lemma ExchangeDelivers(s: Sys, replied: bool, room: nat)
    requires s.frameSamples > 0 && InStep(s)
    ensures var u := Run(s, ActionsOf(Exchange(replied, room))); InStep(u) && Delivers(s, u)
  {
    hide Next, Run, InStep, Waiting, Delivers, Holds;
    RunFour(s, Tick(1), ServerReceive, PushReturns(true, false, replied), ClientReceive(room));
    TickPrimes(s);
    var t := Next(s, Tick(1));
    if Waiting(s.client) == [] {
      NothingToExchange(t, replied, room);
      HoldsThenHolds(s, t);
    } else {
      FrameIsExchanged(t, replied, room);
      HoldsThenDelivers(s, t, Next(Next(Next(t, ServerReceive), PushReturns(true, false, replied)), ClientReceive(room)));
    }
  }

  // ---- a connection lost and made again ----

  lemma InStepIsNear(s: Sys)
    requires InStep(s)
    ensures Nearly(s.client, s.stream) && AllFit(s.client, s.stream.config)
    ensures s.phase.Idle? && s.client.streamOpen && !s.provider.committed
    ensures Waiting(s.client) == FramesOf(From(s.client.inFlight, s.stream.nextSequence)) + s.client.frameQueue
  {
    FromAll(s.client.inFlight, s.stream.nextSequence);
    hide AllFit, From;
  }

  lemma HandedIsNear(s: Sys, t: Sys)
    requires InStep(s) && Handed(s, t)
    ensures Nearly(t.client, t.stream) && AllFit(t.client, t.stream.config)
    ensures t.phase.Idle? && t.client.streamOpen && !t.provider.committed
  {
    hide AllFit, Bytes, Waiting;
  }

  lemma HandedLeavesRest(s: Sys, t: Sys)
    requires InStep(s) && Handed(s, t)
    ensures |Waiting(s.client)| > 0
    ensures Waiting(s.client)[1..] == FramesOf(From(t.client.inFlight, t.stream.nextSequence)) + t.client.frameQueue
  {
    RestAfterFirst(s.client, s.stream.nextSequence);
    hide AllFit, Bytes, Waiting, From, FramesOf;
  }

  lemma RestAfterFirst(c: Client, from: nat)
    requires Consecutive(c.inFlight, from) && |c.inFlight| > 0
    ensures |Waiting(c)| > 0 && Waiting(c)[1..] == FramesOf(From(c.inFlight, from + 1)) + c.frameQueue
  {
    FromNext(c.inFlight, from);
    WaitingDropsFirst(c);
    hide From;
    assert Waiting(c)[1..] == Waiting(c.(inFlight := c.inFlight[1..]));
  }

  /** Dropping, redialling and reconciling, from a state the server may be one frame ahead in. */
  lemma ReconnectRun(s: Sys, room: nat)
    requires s.frameSamples > 0 && s.phase.Idle? && s.client.streamOpen && (s.client.active || s.client.committing)
    requires Nearly(s.client, s.stream) && !s.provider.committed && AllFit(s.client, s.stream.config)
    ensures var u := Next(Next(Next(Next(s, Drop), Redial), ServerReceive), ClientReceive(room));
            && InStep(u) && SameRecording(s, u) && u.provider == s.provider
            && Waiting(u.client) == FramesOf(From(s.client.inFlight, s.stream.nextSequence)) + s.client.frameQueue
  {
    RedialIs(s);
    var t := Next(Next(s, Drop), Redial);
    ReceiveIs(t);
    ReconnectRestoresStep(s, t, room);
    ClientIs(OnServerReceive(t), room);
    hide Next, OnServerReceive, OnClientReceive, InStep, AllFit, Waiting, From, Nearly;
  }

  lemma InterruptionHolds(s: Sys, room: nat)
    requires s.frameSamples > 0 && InStep(s) && (s.client.active || s.client.committing)
    ensures var u := Run(s, ActionsOf(Interruption(room))); InStep(u) && Holds(s, u)
  {
    RunFour(s, Drop, Redial, ServerReceive, ClientReceive(room));
    InStepIsNear(s);
    ReconnectRun(s, room);
    hide Next, Run, InStep, Waiting, From;
  }

  lemma RunThreeAndFour(s: Sys, a: Action, b: Action, c: Action, d: Action, e: Action, f: Action, g: Action)
    requires s.frameSamples > 0
    ensures Run(s, [a] + [b] + [c] + [d] + [e] + [f] + [g])
         == Next(Next(Next(Next(Next(Next(Next(s, a), b), c), d), e), f), g)
  {
    hide Next, Run;
    RunFour(s, a, b, c, d);
    RunSnoc(s, [a] + [b] + [c] + [d], e);
    RunSnoc(s, [a] + [b] + [c] + [d] + [e], f);
    RunSnoc(s, [a] + [b] + [c] + [d] + [e] + [f], g);
  }

  lemma LostAckOfFrame(s: Sys, replied: bool, room: nat)
    requires s.frameSamples > 0 && InStep(s) && |s.client.inFlight| > 0 && (s.client.active || s.client.committing)
    ensures var t := Next(Next(s, ServerReceive), PushReturns(true, false, replied));
            var u := Next(Next(Next(Next(t, Drop), Redial), ServerReceive), ClientReceive(room));
            InStep(u) && Delivers(s, u)
  {
    ReceiveIs(s);
    FrameIsHanded(s, replied);
    PushIs(OnServerReceive(s), false, replied);
    var t := OnPushReturns(OnServerReceive(s), true, false, replied);
    FirstIsWaiting(s.client);
    HandedFields(s, t);
    HandedIsNear(s, t);
    HandedLeavesRest(s, t);
    ReconnectRun(t, room);
    hide Next, OnServerReceive, OnPushReturns, Handed, Waiting, From, AllFit, Nearly, Bytes, InStep;
  }

  lemma LostAckDelivers(s: Sys, replied: bool, room: nat)
    requires s.frameSamples > 0 && InStep(s) && (s.client.active || s.client.committing)
    ensures var u := Run(s, ActionsOf(LostAck(replied, room))); InStep(u) && Delivers(s, u)
  {
    hide Next, Run, InStep, Waiting, Delivers, Holds;
    RunThreeAndFour(s, Tick(1), ServerReceive, PushReturns(true, false, replied), Drop, Redial, ServerReceive, ClientReceive(room));
    TickPrimes(s);
    var t := Next(s, Tick(1));
    HoldsSpeaker(s, t);
    if Waiting(s.client) == [] {
      NothingToPush(t, replied);
      InStepIsNear(t);
      ReconnectRun(t, room);
      var u := Next(Next(Next(Next(t, Drop), Redial), ServerReceive), ClientReceive(room));
      HoldsTwice(s, t, u);
    } else {
      LostAckOfFrame(t, replied, room);
      HoldsThenDelivers(s, t, Next(Next(Next(Next(Next(Next(t, ServerReceive), PushReturns(true, false, replied)), Drop), Redial),
                                        ServerReceive), ClientReceive(room)));
    }
  }

  lemma NothingToPush(s: Sys, replied: bool)
    requires s.frameSamples > 0 && InStep(s) && s.client.inFlight == []
    ensures Next(Next(s, ServerReceive), PushReturns(true, false, replied)) == s
  {
    ReceiveIs(s);
    PushIs(s, false, replied);
    hide Next, OnServerReceive, OnPushReturns;
  }

  lemma HoldsSpeaker(s: Sys, t: Sys)
    requires Holds(s, t)
    ensures t.client.active == s.client.active && t.client.committing == s.client.committing
  {
    hide Waiting;
  }

  lemma HoldsTwice(s: Sys, t: Sys, u: Sys)
    requires Holds(s, t) && Waiting(s.client) == []
    requires SameRecording(t, u) && u.provider == t.provider && Waiting(u.client) == Waiting(t.client)
    ensures Delivers(s, u)
  {
    hide Waiting;
  }

  // ---- nothing is lost on the way ----

  lemma HeardSnoc(p: ProviderStream, sequence: nat, audio: seq<Byte>)
    ensures Heard(Delivered(p, sequence, audio).received) == Heard(p.received) + audio
  {
    var all := Delivered(p, sequence, audio).received;
    assert all[..|p.received|] == p.received;
  }

  lemma DeliveryKeepsWhole(s: Sys, t: Sys)
    requires Whole(s) && Delivers(s, t)
    ensures Whole(t)
  {
    var waiting := Waiting(s.client);
    if waiting != [] {
      FlattenFirst(waiting);
      BytesConcat(waiting[0], Flatten(waiting[1..]));
      HeardSnoc(s.provider, s.stream.nextSequence, Bytes(waiting[0]));
      hide Waiting, Bytes, Heard, Flatten;
      assert Heard(s.provider.received) + (Bytes(waiting[0]) + Bytes(Flatten(waiting[1..])))
          == (Heard(s.provider.received) + Bytes(waiting[0])) + Bytes(Flatten(waiting[1..]));
    }
  }

  lemma HoldingKeepsWhole(s: Sys, t: Sys)
    requires Whole(s) && Holds(s, t)
    ensures Whole(t)
  {
    hide Waiting, Bytes, Heard, Flatten;
  }

  // ---- talking ----

  /** The candidate is recording: full frames wait, less than a frame is pending, and no sample is lost. */
  ghost predicate Talking(s: Sys) {
    && s.frameSamples > 0 && InStep(s) && Whole(s) && s.client.active && !s.client.committing && !s.stopping
    && FitsIn(s.stream.config, seq(s.frameSamples, i => 0))
    && (forall f <- Waiting(s.client) :: |f| == s.frameSamples) && |s.client.pendingPcm| < s.frameSamples
    && !s.history.detectorFired && !s.history.pushFailed && !s.history.userCommitted
  }

  lemma OneMoreProduct(n: nat, size: nat)
    ensures (n + 1) * size == n * size + size
  {
  }

  lemma {:induction false} FullFrames(frames: seq<Frame>, size: nat)
    requires forall f <- frames :: |f| == size
    ensures |Flatten(frames)| == |frames| * size
  {
    if |frames| > 0 {
      var n := |frames| - 1;
      assert forall f <- frames[..n] :: f in frames;
      FullFrames(frames[..n], size);
      assert frames[n] in frames;
      OneMoreProduct(n, size);
    }
  }

  lemma ProductOrder(a: nat, b: nat, c: nat, size: nat)
    requires size > 0 && a * size + b * size <= c * size
    ensures a + b <= c
  {
    assert (a + b) * size == a * size + b * size;
  }

  /** No more samples wait than were captured. */
  lemma WaitingWithin(s: Sys)
    requires Whole(s)
    ensures |Flatten(Waiting(s.client))| + |s.client.pendingPcm| <= |s.history.captured|
  {
    hide Heard, Bytes, Flatten, Waiting;
    assert |Heard(s.provider.received)| + |Bytes(Flatten(Waiting(s.client)))| + |Bytes(s.client.pendingPcm)|
        == |Bytes(s.history.captured)|;
  }

  /** The frames a talk would leave waiting hold no more samples than were captured. */
  lemma NoOverflow(s: Sys, pcm: seq<int>)
    requires Talking(s) && |s.history.captured| + |pcm| <= 150 * s.frameSamples
    ensures !Overflows(s.client, pcm, s.frameSamples)
  {
    WaitingWithin(s);
    var cut, waiting := Frames(s.client.pendingPcm + pcm, s.frameSamples), Waiting(s.client);
    FullFrames(waiting, s.frameSamples);
    FullFrames(cut, s.frameSamples);
    CutWithin(s.client.pendingPcm + pcm, s.frameSamples);
    assert |waiting| == |s.client.inFlight| + |s.client.frameQueue|;
    hide Whole, Waiting, Flatten, Frames, InStep;
    ProductOrder(|waiting|, |cut|, 150, s.frameSamples);
  }

  lemma CutWithin(pcm: seq<int>, size: nat)
    requires size > 0
    ensures |Flatten(Frames(pcm, size))| <= |pcm|
  {
    FramesKeepSamples(pcm, size);
    hide Flatten, Frames, Leftover;
    assert |Flatten(Frames(pcm, size)) + Leftover(pcm, size)| == |pcm|;
  }

  /** The client as a talk leaves it, before the flush. */
  lemma TalkWaits(c: Client, pcm: seq<int>, size: nat)
    requires size > 0 && |pcm| > 0 && !Overflows(c, pcm, size)
    ensures var d, cut := Framed(c, pcm, size), Frames(c.pendingPcm + pcm, size);
            && Waiting(d) == Waiting(c) + cut && d.pendingPcm == Leftover(c.pendingPcm + pcm, size)
            && d == c.(pendingPcm := d.pendingPcm, frameQueue := d.frameQueue)
  {
    FramedIs(c, pcm, size);
    hide Frames, Leftover, Overflows, Framed;
    assert FramesOf(c.inFlight) + (c.frameQueue + Frames(c.pendingPcm + pcm, size))
        == (FramesOf(c.inFlight) + c.frameQueue) + Frames(c.pendingPcm + pcm, size);
  }

  lemma TalkKeepsWhole(s: Sys, t: Sys, pcm: seq<int>)
    requires Whole(s) && s.frameSamples > 0
    requires t.provider == s.provider && t.history.captured == s.history.captured + pcm
    requires Waiting(t.client) == Waiting(s.client) + Frames(s.client.pendingPcm + pcm, s.frameSamples)
    requires t.client.pendingPcm == Leftover(s.client.pendingPcm + pcm, s.frameSamples)
    ensures Whole(t)
  {
    var waiting, cut := Waiting(s.client), Frames(s.client.pendingPcm + pcm, s.frameSamples);
    var rest, before := t.client.pendingPcm, Heard(s.provider.received);
    FlattenConcat(waiting, cut);
    FramesKeepSamples(s.client.pendingPcm + pcm, s.frameSamples);
    BytesConcat(Flatten(waiting), Flatten(cut));
    BytesConcat(Flatten(cut), rest);
    BytesConcat(s.client.pendingPcm, pcm);
    BytesConcat(s.history.captured, pcm);
    hide Waiting, Heard, Bytes, Flatten, Frames, Leftover;
    Reassociate(before, Bytes(Flatten(waiting)), Bytes(Flatten(cut)), Bytes(rest), Bytes(s.client.pendingPcm), Bytes(pcm));
  }

  lemma Reassociate(a: seq<Byte>, b: seq<Byte>, c: seq<Byte>, d: seq<Byte>, e: seq<Byte>, f: seq<Byte>)
    requires c + d == e + f
    ensures a + (b + c) + d == a + b + e + f
  {
    assert a + (b + c) + d == a + b + (c + d);
    assert a + b + (e + f) == a + b + e + f;
  }

  lemma FitsBySize(config: StreamConfig, size: nat, frame: Frame)
    requires FitsIn(config, seq(size, i => 0)) && |frame| == size
    ensures FitsIn(config, frame)
  {
  }

  lemma AllFullFit(c: Client, config: StreamConfig, size: nat)
    requires FitsIn(config, seq(size, i => 0)) && forall f <- Waiting(c) :: |f| == size
    ensures AllFit(c, config)
  {
    hide Waiting, FitsIn;
    forall i | 0 <= i < |Waiting(c)|
      ensures FitsIn(config, Waiting(c)[i])
    {
      FitsBySize(config, size, Waiting(c)[i]);
    }
  }

  lemma LevelFrames(c: Client, d: Client, st: StreamState)
    requires Level(c, st) && d == c.(pendingPcm := d.pendingPcm, frameQueue := d.frameQueue)
    ensures Level(d, st)
  {
  }

  lemma CaptureIs(s: Sys, pcm: seq<int>, room: nat)
    requires s.frameSamples > 0 && s.client.active && |pcm| > 0 && !Overflows(s.client, pcm, s.frameSamples)
    ensures exists h: History ::
              && h == s.history.(captured := s.history.captured + pcm, frames := h.frames, kept := h.kept)
              && Next(s, Capture(pcm, room))
                 == Flush(s.(history := h, client := Framed(s.client, pcm, s.frameSamples)),
                          Framed(s.client, pcm, s.frameSamples), room)
  {
    hide Framed, Frames, Overflows;
    var frames := s.history.frames + Frames(s.client.pendingPcm + pcm, s.frameSamples);
    var h := s.history.(captured := s.history.captured + pcm, frames := frames, kept := |frames|);
    assert Next(s, Capture(pcm, room)) == OnCapture(s, pcm, room);
    FlushIgnoresClient(s.(history := h), Framed(s.client, pcm, s.frameSamples), room);
  }

  lemma FlushIgnoresClient(s: Sys, c: Client, room: nat)
    ensures Flush(s, c, room) == Flush(s.(client := c), c, room)
  {
  }

  /** The client has framed what was said and flushes. */
  lemma FramedTalks(s: Sys, v: Sys, pcm: seq<int>, room: nat)
    requires Talking(s) && |pcm| > 0 && !Overflows(s.client, pcm, s.frameSamples)
    requires v == s.(history := v.history, client := Framed(s.client, pcm, s.frameSamples))
    requires v.history == s.history.(captured := s.history.captured + pcm, frames := v.history.frames, kept := v.history.kept)
    ensures Talking(Flush(v, v.client, room)) && Flush(v, v.client, room).history == v.history
    ensures Flush(v, v.client, room).stream == s.stream
  {
    TalkWaits(s.client, pcm, s.frameSamples);
    hide Overflows, Framed, Frames, Leftover, Waiting, Flush, Whole, AllFit, Level, FitsIn;
    TalkKeepsWhole(s, v, pcm);
    LevelFrames(s.client, v.client, s.stream);
    FullStays(s, v, pcm);
    AllFullFit(v.client, s.stream.config, s.frameSamples);
    ChunksIgnore(s, v, s.client.inFlight);
    FlushStaysInStep(v, room);
    HoldingKeepsWhole(v, Flush(v, v.client, room));
  }

  lemma FullStays(s: Sys, v: Sys, pcm: seq<int>)
    requires s.frameSamples > 0 && forall f <- Waiting(s.client) :: |f| == s.frameSamples
    requires Waiting(v.client) == Waiting(s.client) + Frames(s.client.pendingPcm + pcm, s.frameSamples)
    ensures forall f <- Waiting(v.client) :: |f| == s.frameSamples
  {
    hide Waiting, Frames;
  }

  /** Talking keeps everything as it should be, as long as all that was said fits into the queue. */
  lemma TalkGoesOn(s: Sys, pcm: seq<int>, room: nat)
    requires Talking(s) && |s.history.captured| + |pcm| <= 150 * s.frameSamples
    ensures var t := Next(s, Capture(pcm, room));
            Talking(t) && t.history.captured == s.history.captured + pcm && t.frameSamples == s.frameSamples
            && t.stream.config == s.stream.config
  {
    if |pcm| == 0 {
      assert Next(s, Capture(pcm, room)) == s;
      assert s.history.captured + pcm == s.history.captured;
    } else {
      NoOverflow(s, pcm);
      TalkingRecords(s);
      CaptureIs(s, pcm, room);
      hide Overflows, Framed, Flush, Next, Talking;
      var h: History :| h == s.history.(captured := s.history.captured + pcm, frames := h.frames, kept := h.kept)
        && Next(s, Capture(pcm, room)) == Flush(s.(history := h, client := Framed(s.client, pcm, s.frameSamples)),
                                                Framed(s.client, pcm, s.frameSamples), room);
      FramedTalks(s, s.(history := h, client := Framed(s.client, pcm, s.frameSamples)), pcm, room);
    }
  }

  lemma TalkingRecords(s: Sys)
    requires Talking(s)
    ensures s.frameSamples > 0 && s.client.active
  {
  }

  /** The recording goes on through every beat. */
  lemma BeatGoesOn(s: Sys, b: Beat)
    requires Talking(s) && (b.Talk? ==> |s.history.captured| + |b.pcm| <= 150 * s.frameSamples)
    ensures var t := Run(s, ActionsOf(b));
            && Talking(t) && t.frameSamples == s.frameSamples && t.stream.config == s.stream.config
            && t.history.captured == s.history.captured + (if b.Talk? then b.pcm else [])
  {
    hide Next, Run, Waiting, Whole, InStep, FitsIn;
    assert s.history.captured + [] == s.history.captured;
    match b
    case Talk(pcm, room) =>
      RunNothing(s);
      RunSnoc(s, [], Capture(pcm, room));
      assert [] + [Capture(pcm, room)] == [Capture(pcm, room)];
      TalkGoesOn(s, pcm, room);
    case Exchange(replied, room) =>
      ExchangeDelivers(s, replied, room);
      DeliveryKeepsTalking(s, Run(s, ActionsOf(b)));
    case Interruption(room) =>
      InterruptionHolds(s, room);
      HoldingKeepsTalking(s, Run(s, ActionsOf(b)));
    case LostAck(replied, room) =>
      LostAckDelivers(s, replied, room);
      DeliveryKeepsTalking(s, Run(s, ActionsOf(b)));
  }

  lemma DeliveryKeepsTalking(s: Sys, t: Sys)
    requires Talking(s) && InStep(t) && Delivers(s, t)
    ensures Talking(t) && t.frameSamples == s.frameSamples && t.stream.config == s.stream.config && t.history == s.history
  {
    DeliveryKeepsWhole(s, t);
    hide Waiting, Whole, InStep, FitsIn, Bytes;
  }

  lemma HoldingKeepsTalking(s: Sys, t: Sys)
    requires Talking(s) && InStep(t) && Holds(s, t)
    ensures Talking(t) && t.frameSamples == s.frameSamples && t.stream.config == s.stream.config && t.history == s.history
  {
    HoldingKeepsWhole(s, t);
    hide Waiting, Whole, InStep, FitsIn;
  }

  // ---- a recording ----

  function Play(beats: seq<Beat>): seq<Action> {
    if |beats| == 0 then [] else Play(beats[..|beats| - 1]) + ActionsOf(beats[|beats| - 1])
  }

  /** Everything said, in order. */
  function Spoken(beats: seq<Beat>): seq<int> {
    if |beats| == 0 then []
    else Spoken(beats[..|beats| - 1]) + if beats[|beats| - 1].Talk? then beats[|beats| - 1].pcm else []
  }

  lemma {:induction false} PlayGoesOn(s: Sys, beats: seq<Beat>)
    requires Talking(s) && s.history.captured == [] && |Spoken(beats)| <= 150 * s.frameSamples
    ensures var t := Run(s, Play(beats));
            && Talking(t) && t.history.captured == Spoken(beats) && t.frameSamples == s.frameSamples
            && t.stream.config == s.stream.config
  {
    TalkingRecords(s);
    hide Run, Talking, ActionsOf;
    if |beats| == 0 {
      RunNothing(s);
    } else {
      var n := |beats| - 1;
      PlayGoesOn(s, beats[..n]);
      RunSplits(s, Play(beats[..n]), ActionsOf(beats[n]));
      BeatGoesOn(Run(s, Play(beats[..n])), beats[n]);
    }
  }

  // ---- the end of a recording ----

  /** The recording has been stopped and its last frame queued; what is left is to deliver what waits. */
  ghost predicate Draining(s: Sys) {
    && s.frameSamples > 0 && InStep(s) && Whole(s) && s.client.committing && s.client.pendingPcm == [] && s.drains > 0
    && !s.history.detectorFired && !s.history.pushFailed
  }

  /** The recording has ended and its last frame, if there is one, has joined the others. */
  ghost predicate Ends(s: Sys, v: Sys) {
    && v == s.(stopping := false, drains := s.drains + 1, client := StopEnded(StopBegun(s.client)), history := v.history)
    && v.history == s.history.(stopped := true, frames := v.history.frames, kept := v.history.kept)
  }

  lemma StopEndsRecording(s: Sys, room: nat) returns (v: Sys)
    requires Talking(s)
    ensures Ends(s, v)
    ensures Next(Next(s, StopBegins), StopEnds(room)) == if s.client.pendingPcm == [] then v else Flush(v, v.client, room)
  {
    hide InStep, Whole, FitsIn, Waiting, Flush;
    var u := Next(s, StopBegins);
    var pending, c := s.client.pendingPcm, StopEnded(StopBegun(s.client));
    assert u == s.(client := StopBegun(s.client), stopping := true, history := s.history.(stopped := true));
    v := u.(stopping := false, drains := s.drains + 1, client := c);
    if pending != [] {
      var h := u.history;
      v := v.(history := h.(frames := h.frames + [pending], kept := |h.frames| + 1));
      FlushIgnoresClient(v.(client := u.client), c, room);
    }
  }

  lemma EndedDrains(s: Sys, v: Sys)
    requires Talking(s) && Ends(s, v)
    ensures Draining(v) && v.history.captured == s.history.captured && |Waiting(v.client)| <= |Waiting(s.client)| + 1
  {
    StopWaits(s.client, v.client);
    StoppedInStep(s, v);
    StoppedWhole(s, v);
    hide InStep, Whole, FitsIn, Waiting;
  }

  lemma FlushDrains(s: Sys, room: nat)
    requires Draining(s)
    ensures var t := Flush(s, s.client, room);
            Draining(t) && t.history == s.history && Waiting(t.client) == Waiting(s.client)
  {
    FlushStaysInStep(s, room);
    HoldingKeepsWhole(s, Flush(s, s.client, room));
    hide InStep, Whole, Waiting, Flush;
  }

  lemma StopQueues(s: Sys, room: nat)
    requires Talking(s)
    ensures var t := Next(Next(s, StopBegins), StopEnds(room));
            Draining(t) && t.history.captured == s.history.captured && |Waiting(t.client)| <= |Waiting(s.client)| + 1
  {
    hide Talking, Draining, Next, Flush, Waiting, Ends;
    var v := StopEndsRecording(s, room);
    EndedDrains(s, v);
    FlushDrains(v, room);
  }

  lemma StopWaits(c: Client, d: Client)
    requires d == StopEnded(StopBegun(c)) && c.active && !c.committing
    ensures Waiting(d) == Waiting(c) + (if c.pendingPcm == [] then [] else [c.pendingPcm])
    ensures d.pendingPcm == [] && d.committing && d == c.(active := false, committing := true, commitRequested := true,
                                                         frameQueue := d.frameQueue, pendingPcm := [])
  {
    assert FramesOf(c.inFlight) + (c.frameQueue + [c.pendingPcm]) == (FramesOf(c.inFlight) + c.frameQueue) + [c.pendingPcm];
  }

  lemma StoppedInStep(s: Sys, t: Sys)
    requires Talking(s)
    requires t == s.(stopping := t.stopping, drains := t.drains, client := t.client, history := t.history)
    requires t.client == s.client.(active := false, committing := true, commitRequested := true,
                                   frameQueue := t.client.frameQueue, pendingPcm := [])
    requires Waiting(t.client) == Waiting(s.client) + (if s.client.pendingPcm == [] then [] else [s.client.pendingPcm])
    ensures InStep(t)
  {
    ChunksIgnore(s, t, s.client.inFlight);
    LastFits(s.client, t.client, s.stream.config, s.frameSamples);
    hide Waiting, Whole, AllFit, FitsIn;
  }

  lemma LastFits(c: Client, d: Client, config: StreamConfig, size: nat)
    requires FitsIn(config, seq(size, i => 0)) && AllFit(c, config) && |c.pendingPcm| < size
    requires Waiting(d) == Waiting(c) + (if c.pendingPcm == [] then [] else [c.pendingPcm])
    ensures AllFit(d, config)
  {
    hide Waiting;
  }

  lemma StoppedWhole(s: Sys, t: Sys)
    requires Whole(s) && t.provider == s.provider && t.history.captured == s.history.captured && t.client.pendingPcm == []
    requires Waiting(t.client) == Waiting(s.client) + (if s.client.pendingPcm == [] then [] else [s.client.pendingPcm])
    ensures Whole(t)
  {
    var pending, waiting, before := s.client.pendingPcm, Waiting(s.client), Heard(s.provider.received);
    FlattenSnoc(waiting, pending);
    BytesConcat(Flatten(waiting), pending);
    assert Bytes([]) == [];
    assert waiting + [] == waiting;
    hide Waiting, Heard, Bytes, Flatten;
    assert before + (Bytes(Flatten(waiting)) + Bytes(pending)) + [] == before + Bytes(Flatten(waiting)) + Bytes(pending);
  }

  function Deliveries(beats: seq<Beat>): nat {
    if |beats| == 0 then 0
    else Deliveries(beats[..|beats| - 1]) + if beats[|beats| - 1].Exchange? || beats[|beats| - 1].LostAck? then 1 else 0
  }

  predicate Wordless(beats: seq<Beat>) {
    forall b <- beats :: !b.Talk?
  }

  lemma BeatDrains(s: Sys, b: Beat)
    requires Draining(s) && !b.Talk?
    ensures var t := Run(s, ActionsOf(b));
            && Draining(t) && t.history == s.history
            && |Waiting(t.client)| <= |Waiting(s.client)|
            && (!b.Interruption? ==> |Waiting(t.client)| == 0 || |Waiting(t.client)| < |Waiting(s.client)|)
  {
    var t := Run(s, ActionsOf(b));
    if b.Exchange? {
      ExchangeDelivers(s, b.replied, b.room);
      DeliveryKeepsWhole(s, t);
    } else if b.LostAck? {
      LostAckDelivers(s, b.replied, b.room);
      DeliveryKeepsWhole(s, t);
    } else {
      InterruptionHolds(s, b.room);
      HoldingKeepsWhole(s, t);
    }
    hide Run, Waiting, Whole, InStep, Bytes, ActionsOf;
  }

  lemma {:induction false} PlayDrains(s: Sys, beats: seq<Beat>)
    requires Draining(s) && Wordless(beats)
    ensures var t := Run(s, Play(beats));
            && Draining(t) && t.history == s.history
            && (|Waiting(t.client)| == 0 || |Waiting(t.client)| + Deliveries(beats) <= |Waiting(s.client)|)
  {
    assert s.frameSamples > 0;
    hide Run, Draining, ActionsOf, Waiting;
    if |beats| == 0 {
      RunNothing(s);
    } else {
      var n := |beats| - 1;
      assert forall b <- beats[..n] :: b in beats;
      PlayDrains(s, beats[..n]);
      RunSplits(s, Play(beats[..n]), ActionsOf(beats[n]));
      BeatDrains(Run(s, Play(beats[..n])), beats[n]);
    }
  }

  /** With nothing left to deliver, the commit goes out and the provider is committed, having heard everything. */
  lemma CommitEnds(s: Sys)
    requires Draining(s) && Waiting(s.client) == []
    ensures var t := Next(Next(Next(s, SendCommit), ServerReceive), CommitReturns(true));
            t.provider.committed && t.history.userCommitted && Heard(t.provider.received) == Bytes(s.history.captured)
  {
    NothingWaits(s.client);
    assert Chunks(s, []) == [];
    var u := Next(s, SendCommit);
    assert u == s.(drains := s.drains - 1, toServer := [CommitRequest(false)]);
    var v := Next(u, ServerReceive);
    assert v == u.(toServer := [], phase := InCommit(true, false));
    var t := Next(v, CommitReturns(true));
    assert t.provider.received == s.provider.received;
    assert Flatten<int>([]) == [] && Bytes([]) == [];
    hide Heard, Bytes, Flatten, Waiting;
  }

  /**
   A recording is heard in full: the candidate talks for as long as the queue can hold, frames are exchanged meanwhile,
   connections drop and come back and acknowledgements get lost as often as they like; after the recording has been
   stopped it takes one exchange for each frame still waiting, and then the commit completes with the provider having
   heard every sample, in order and once.
   */
  lemma RecordingIsHeard(sessionId: string, generation: nat, config: StreamConfig, frameSamples: nat,
                         talk: seq<Beat>, room: nat, rest: seq<Beat>)
    requires 0 < 2 * frameSamples <= config.maxChunkBytes && 2 * frameSamples <= config.maxBufferedBytes
    requires |Spoken(talk)| <= 150 * frameSamples
    requires Wordless(rest)
    requires var s := Run(Start(sessionId, generation, config, frameSamples), Play(talk));
             Deliveries(rest) > |s.client.inFlight| + |s.client.frameQueue|
    ensures var s := Start(sessionId, generation, config, frameSamples);
            var all := Play(talk) + ([StopBegins] + [StopEnds(room)]) + Play(rest) + ([SendCommit] + [ServerReceive] + [CommitReturns(true)]);
            var t := Run(s, all);
            t.provider.committed && t.history.userCommitted && Heard(t.provider.received) == Bytes(Spoken(talk))
  {
    var s := Start(sessionId, generation, config, frameSamples);
    StartTalks(sessionId, generation, config, frameSamples);
    PlayGoesOn(s, talk);
    var a := Run(s, Play(talk));
    RunTwo(a, StopBegins, StopEnds(room));
    StopQueues(a, room);
    var b := Run(a, [StopBegins] + [StopEnds(room)]);
    PlayDrains(b, rest);
    var c := Run(b, Play(rest));
    assert |Waiting(a.client)| == |a.client.inFlight| + |a.client.frameQueue|;
    assert Waiting(c.client) == [];
    CommitEnds(c);
    RunThree(c, SendCommit, ServerReceive, CommitReturns(true));
    hide Run, Next, Play, Waiting, Heard, Bytes, Talking, Draining;
    RunSplits(s, Play(talk), [StopBegins] + [StopEnds(room)]);
    RunSplits(s, Play(talk) + ([StopBegins] + [StopEnds(room)]), Play(rest));
    RunSplits(s, Play(talk) + ([StopBegins] + [StopEnds(room)]) + Play(rest), [SendCommit] + [ServerReceive] + [CommitReturns(true)]);
  }

  lemma RunTwo(s: Sys, a: Action, b: Action)
    requires s.frameSamples > 0
    ensures Run(s, [a] + [b]) == Next(Next(s, a), b)
  {
    hide Next, Run;
    RunNothing(s);
    assert [] + [a] == [a];
    RunSnoc(s, [], a);
    RunSnoc(s, [a], b);
  }

  lemma RunThree(s: Sys, a: Action, b: Action, c: Action)
    requires s.frameSamples > 0
    ensures Run(s, [a] + [b] + [c]) == Next(Next(Next(s, a), b), c)
  {
    hide Next, Run;
    RunTwo(s, a, b);
    RunSnoc(s, [a] + [b], c);
  }

  lemma StartTalks(sessionId: string, generation: nat, config: StreamConfig, frameSamples: nat)
    requires 0 < 2 * frameSamples <= config.maxChunkBytes && 2 * frameSamples <= config.maxBufferedBytes
    ensures Talking(Start(sessionId, generation, config, frameSamples))
    ensures Start(sessionId, generation, config, frameSamples).history.captured == []
  {
    var s := Start(sessionId, generation, config, frameSamples);
    assert Waiting(s.client) == [];
    assert Chunks(s, []) == [];
    assert Heard([]) == [] && Flatten<int>([]) == [] && Bytes([]) == [];
  }
}
