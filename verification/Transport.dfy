/**
 The resumable audio transport as one machine: the browser client, the server's socket handler,
 the speech provider and the two FIFO channels of the current connection.

 A dropped connection loses everything on both channels. A handler that was suspended inside a
 provider call finishes that call before the client's next connection is made.
 */
module Transport {
  import opened Common
  import opened Pcm
  import opened AudioStream
  import opened SpeechBridge
  import opened SttClient

  datatype ToServer =
    | ReconnectRequest(nextSequence: nat)
    | Chunk(chunk: ChunkMessage)
    | CommitRequest(hasty: bool)   // a note for the record: samples were still pending when it left

  datatype ToClient =
    | Ack(nextSequence: nat, autoCommit: bool)
    | Reconnected(nextSequence: nat)
    | Committed
    | ErrorReply

  /** What the socket handler is suspended in. */
  datatype Phase =
    | Idle
    | InPush(result: ChunkResult, audio: seq<Byte>)
    | InCommit(byUser: bool, hasty: bool)

  /** The record of a run that no step reads: what was captured and how the stream ended. */
  datatype History = History(
    captured: seq<int>,      // every PCM sample handed to an active client
    frames: seq<Frame>,      // every frame ever queued, by the number it must carry
    kept: nat,               // frames not thrown away by a detector stop
    stopped: bool,           // the user ended the recording
    detectorFired: bool,     // some acknowledgement recommended a commit
    pushFailed: bool,        // some provider push raised
    userCommitted: bool,     // a commit requested by the client reached the provider
    hasty: bool)             // that commit left while samples were still pending

  datatype Sys = Sys(
    client: Client,
    frameSamples: nat,
    online: bool,            // the client's socket is open
    awaiting: bool,          // a reconnect request has not been answered
    stopping: bool,          // the user's stop waits for the microphone to be released
    drains: nat,             // commits that wait for queue and window to be empty
    toServer: seq<ToServer>,
    toClient: seq<ToClient>,
    serving: bool,           // the server reads this connection
    attached: bool,          // this connection is bound to the stream
    phase: Phase,
    stream: StreamState,
    provider: ProviderStream,
    history: History)

  datatype Action =
    | Capture(pcm: seq<int>, room: nat)
    | Tick(room: nat)
    | StopBegins
    | StopEnds(room: nat)
    | SendCommit
    | LeaveDrain
    | GiveUp
    | Drop
    | Redial
    | ServerReceive
    | PushReturns(ok: bool, autoCommit: bool, replied: bool)
    | CommitReturns(ok: bool)
    | ClientReceive(room: nat)

  function Start(sessionId: string, generation: nat, config: StreamConfig, frameSamples: nat): Sys {
    Sys(Started(), frameSamples, true, false, false, 0, [], [], true, true, Idle,
        Opened(sessionId, generation, config), NEW_PROVIDER,
        History([], [], 0, false, false, false, false, false))
  }

  function ChunkOf(s: Sys, e: Entry): ToServer {
    Chunk(ChunkMessage(e.sequence, s.stream.generation, Some(Bytes(e.frame))))
  }

  function Chunks(s: Sys, sent: seq<Entry>): (messages: seq<ToServer>)
    ensures |messages| == |sent|
  {
    seq(|sent|, i requires 0 <= i < |sent| => ChunkOf(s, sent[i]))
  }

  /** The client `c` flushes its queue into the socket. */
  function Flush(s: Sys, c: Client, room: nat): (t: Sys)
    ensures t.frameSamples == s.frameSamples && t.provider == s.provider
    ensures t.history.captured == s.history.captured && t.client.active == c.active
  {
    s.(client := Flushed(c, s.online, room),
       toServer := s.toServer + Chunks(s, Sent(c, s.online, room)))
  }

  /** The server raises: it reports the error and closes the connection. */
  function Raise(s: Sys, reported: bool): (t: Sys)
    ensures t.frameSamples == s.frameSamples && t.provider == s.provider
    ensures t.client == s.client && t.history.captured == s.history.captured
  {
    s.(serving := false, attached := false, phase := Idle, toServer := [],
       toClient := if reported && s.serving then s.toClient + [ErrorReply] else s.toClient)
  }

  function Reply(s: Sys, m: ToClient): (t: Sys)
    ensures t.frameSamples == s.frameSamples && t.provider == s.provider
    ensures t.client == s.client && t.history.captured == s.history.captured
  {
    if s.serving then s.(toClient := s.toClient + [m]) else s
  }

  function OnCapture(s: Sys, pcm: seq<int>, room: nat): (t: Sys)
    requires s.frameSamples > 0
    ensures t.frameSamples == s.frameSamples && t.provider == s.provider
  {
    if !s.client.active || |pcm| == 0 then s
    else if Overflows(s.client, pcm, s.frameSamples) then
      s.(client := Failed(s.client))
    else
      var h := s.history;
      var framed := Framed(s.client, pcm, s.frameSamples);
      var frames := h.frames + Frames(s.client.pendingPcm + pcm, s.frameSamples);
      Flush(s.(history := h.(captured := h.captured + pcm, frames := frames, kept := |frames|)), framed, room)
  }

  function OnStopBegins(s: Sys): (t: Sys)
    ensures t.frameSamples == s.frameSamples && t.provider == s.provider
    ensures t.history.captured == s.history.captured
  {
    if !s.client.active || s.client.committing then s
    else s.(client := StopBegun(s.client), stopping := true, history := s.history.(stopped := true))
  }

  /** The microphone has been released: the last partial frame is queued and the drain begins. */
  function OnStopEnds(s: Sys, room: nat): (t: Sys)
    ensures t.frameSamples == s.frameSamples && t.provider == s.provider
    ensures t.history.captured == s.history.captured
  {
    var h, pending := s.history, s.client.pendingPcm;
    var t := s.(stopping := false, drains := s.drains + 1);
    if |pending| == 0 then t.(client := StopEnded(s.client))
    else Flush(t.(history := h.(frames := h.frames + [pending], kept := |h.frames| + 1)), StopEnded(s.client), room)
  }

  function OnReconnectRequest(s: Sys, next: nat): (t: Sys)
    ensures t.frameSamples == s.frameSamples && t.provider == s.provider
    ensures t.client == s.client && t.history.captured == s.history.captured
  {
    if s.attached then Reply(s, ErrorReply)
    else if ReconnectRefusal(s.stream, s.stream.sessionId, true, s.stream.generation, next).Some? then Raise(s, true)
    else
      Reply(s.(attached := true, stream := s.stream.(reconnectCount := s.stream.reconnectCount + 1)),
            Reconnected(s.stream.nextSequence))
  }

  function OnChunk(s: Sys, chunk: ChunkMessage): (t: Sys)
    ensures t.frameSamples == s.frameSamples && t.provider == s.provider
    ensures t.client == s.client && t.history.captured == s.history.captured
  {
    if !s.attached then Raise(s, true)
    else
      var t := s.(stream := AfterBegin(s.stream, s.provider.committed, chunk));
      match Begin(s.stream, s.provider.committed, chunk)
      case Refused(_) => Raise(t, true)
      case Replied(result) => Reply(t, Ack(result.nextSequence, false))
      case Pushing(result, audio) => t.(phase := InPush(result, audio))
  }

  function OnCommitRequest(s: Sys, hasty: bool): (t: Sys)
    ensures t.frameSamples == s.frameSamples && t.provider == s.provider
    ensures t.client == s.client && t.history.captured == s.history.captured
  {
    if !s.attached then Raise(s, true)
    else if s.provider.committed then Reply(s, Committed)
    else s.(phase := InCommit(true, hasty))
  }

  /** The socket handler takes the next message. */
  function OnServerReceive(s: Sys): (t: Sys)
    requires |s.toServer| > 0
    ensures t.frameSamples == s.frameSamples && t.provider == s.provider
    ensures t.client == s.client && t.history.captured == s.history.captured
  {
    var t := s.(toServer := s.toServer[1..]);
    match s.toServer[0]
    case ReconnectRequest(next) => OnReconnectRequest(t, next)
    case Chunk(chunk) => OnChunk(t, chunk)
    case CommitRequest(hasty) => OnCommitRequest(t, hasty)
  }

  /** The provider's push returns; an acknowledgement may carry the detector's recommendation. */
  function OnPushReturns(s: Sys, ok: bool, autoCommit: bool, replied: bool): (t: Sys)
    requires s.phase.InPush?
    ensures t.frameSamples == s.frameSamples
    ensures t.client == s.client && t.history.captured == s.history.captured
  {
    var t := s.(stream := AfterPush(s.stream, |s.phase.audio|));
    if !ok then Raise(t.(history := s.history.(pushFailed := true)), replied)
    else
      var u := t.(provider := Delivered(s.provider, s.phase.result.sequence, s.phase.audio), phase := Idle);
      if !autoCommit then Reply(u, Ack(s.phase.result.nextSequence, false))
      else
        // the handler goes on to commit unless it finds its socket closed
        var v := Reply(u.(history := s.history.(detectorFired := true)), Ack(s.phase.result.nextSequence, true));
        if s.serving || replied then v.(phase := InCommit(false, false)) else v
  }

  function OnCommitReturns(s: Sys, ok: bool): (t: Sys)
    requires s.phase.InCommit?
    ensures t.frameSamples == s.frameSamples
    ensures t.client == s.client && t.history.captured == s.history.captured
  {
    var t := s.(provider := AfterCommit(s.provider, ok), phase := Idle);
    if !ok then Raise(t, true)
    else
      Reply(t.(history := if s.phase.byUser && !s.provider.committed
                          then s.history.(userCommitted := true, hasty := s.phase.hasty) else s.history),
            Committed)
  }

  function OnClientReceive(s: Sys, room: nat): (t: Sys)
    requires |s.toClient| > 0
    ensures t.frameSamples == s.frameSamples && t.provider == s.provider
    ensures t.history.captured == s.history.captured
  {
    var t := s.(toClient := s.toClient[1..]);
    if !s.client.streamOpen then t
    else
      match s.toClient[0]
      case Ack(next, autoCommit) =>
        var acked := Acknowledged(s.client, next);
        if VadStops(acked, autoCommit)
        then t.(client := VadStopped(acked), history := s.history.(kept := s.client.nextSequence))
        else Flush(t, acked, room)
      case Reconnected(next) =>
        // a client that is committing goes on to drain and commit
        t.(client := Reconciled(s.client, next), awaiting := false,
           drains := if s.client.committing then s.drains + 1 else s.drains)
      case Committed => t
      case ErrorReply =>
        if s.awaiting then t.(online := false, awaiting := false, toServer := [], toClient := [], serving := false, attached := false)
        else t.(client := Failed(s.client))
  }

  predicate Enabled(s: Sys, a: Action) {
    match a
    case Capture(_, _) => true
    case Tick(_) => true
    case StopBegins => true
    case StopEnds(_) => s.stopping
    case SendCommit => s.drains > 0 && s.online && s.client.streamOpen
                       && s.client.frameQueue == [] && s.client.inFlight == []
    case LeaveDrain => s.drains > 0
    case GiveUp => true
    case Drop => true
    case Redial => !s.online && s.phase.Idle? && s.client.streamOpen && (s.client.active || s.client.committing)
    case ServerReceive => s.serving && s.phase.Idle? && |s.toServer| > 0
    case PushReturns(_, _, _) => s.phase.InPush?
    case CommitReturns(_) => s.phase.InCommit?
    case ClientReceive(_) => s.online && |s.toClient| > 0
  }

  /** One step; a disabled action changes nothing. */
  function Next(s: Sys, a: Action): (t: Sys)
    requires s.frameSamples > 0
    ensures t.frameSamples == s.frameSamples
  {
    hide OnCapture, OnStopBegins, OnStopEnds, OnServerReceive, OnPushReturns, OnCommitReturns, OnClientReceive, Flush;
    if !Enabled(s, a) then s
    else
      match a
      case Capture(pcm, room) => OnCapture(s, pcm, room)
      case Tick(room) => Flush(s, s.client, room)
      case StopBegins => OnStopBegins(s)
      case StopEnds(room) => OnStopEnds(s, room)
      case SendCommit => s.(drains := s.drains - 1, toServer := s.toServer + [CommitRequest(|s.client.pendingPcm| > 0)])
      case LeaveDrain => s.(drains := s.drains - 1)
      case GiveUp => s.(client := Failed(s.client))
      case Drop => s.(online := false, awaiting := false, toServer := [], toClient := [], serving := false, attached := false)
      case Redial =>
        s.(online := true, awaiting := true, serving := true, attached := false,
           toServer := [ReconnectRequest(s.client.serverNextSequence)], toClient := [])
      case ServerReceive => OnServerReceive(s)
      case PushReturns(ok, autoCommit, replied) => OnPushReturns(s, ok, autoCommit, replied)
      case CommitReturns(ok) => OnCommitReturns(s, ok)
      case ClientReceive(room) => OnClientReceive(s, room)
  }

  function Run(s: Sys, actions: seq<Action>): (t: Sys)
    requires s.frameSamples > 0
    ensures t.frameSamples == s.frameSamples
  {
    hide Next;
    if |actions| == 0 then s else Next(Run(s, actions[..|actions| - 1]), actions[|actions| - 1])
  }

  // ---- the three conditions on a run ----

  /** The reply the client is about to reconcile with does not run ahead of what it has numbered. */
  predicate ReplyInRange(s: Sys, a: Action) {
    a.ClientReceive? && Enabled(s, a) && s.client.streamOpen && s.toClient[0].Reconnected?
    ==> s.toClient[0].nextSequence <= s.client.nextSequence
  }

  /** No chunk leaves between a reconnect request and its reply. */
  predicate QuietStep(s: Sys, a: Action)
    requires s.frameSamples > 0
  {
    (a.Capture? || a.Tick? || a.StopEnds? || (a.ClientReceive? && Enabled(s, a) && s.toClient[0].Ack?)) && s.awaiting
    ==> |Next(s, a).toServer| <= |s.toServer|
  }

  /** No commit leaves while samples are still pending. */
  predicate PatientStep(s: Sys, a: Action) {
    a.SendCommit? && Enabled(s, a) ==> s.client.pendingPcm == []
  }

  predicate RepliesInRange(s: Sys, actions: seq<Action>)
    requires s.frameSamples > 0
  {
    |actions| > 0 ==>
      && RepliesInRange(s, actions[..|actions| - 1])
      && ReplyInRange(Run(s, actions[..|actions| - 1]), actions[|actions| - 1])
  }

  predicate Quiet(s: Sys, actions: seq<Action>)
    requires s.frameSamples > 0
  {
    |actions| > 0 ==>
      && Quiet(s, actions[..|actions| - 1])
      && QuietStep(Run(s, actions[..|actions| - 1]), actions[|actions| - 1])
  }

  predicate Patient(s: Sys, actions: seq<Action>)
    requires s.frameSamples > 0
  {
    |actions| > 0 ==>
      && Patient(s, actions[..|actions| - 1])
      && PatientStep(Run(s, actions[..|actions| - 1]), actions[|actions| - 1])
  }
}
