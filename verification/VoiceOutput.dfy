/**
 The text-to-speech bridge and the voice coordinator it consults, as steps split at each suspension point.
 Nothing ties the steps of one cancellation or of one reader to each other, so that every interleaving of the
 bridge's operations is a run of this machine, and what holds of all its runs holds of them.
 */
module VoiceOutput {
  import opened Common

  type Session = string
  type StreamId = nat
  type TurnId = nat

  datatype Phase = Idle | Listening | Processing | Speaking | Closed

  datatype Voice = Voice(phase: Phase, generation: nat, activeTurn: Option<TurnId>)

  const NEW_VOICE := Voice(Idle, 0, None)

  /** The mutable record of one stream; a reader keeps it after the tables have let it go. */
  datatype Stream = Stream(session: Session, turn: TurnId, generation: nat,
                           chunksSent: nat, bytesSent: nat, cancelled: bool, closed: bool)

  /** How far one call of open has come. */
  datatype Stage = Reserved | Synthesizing(generation: nat) | Started(generation: nat) | Registered

  datatype Opening = Opening(turn: TurnId, stage: Stage)

  /** A chunk handed to the listener. */
  datatype Chunk = Chunk(stream: StreamId, session: Session, generation: nat, size: nat)

  datatype Sys = Sys(
    records: map<StreamId, Stream>,
    streams: set<StreamId>,
    active: map<Session, StreamId>,
    opening: map<Session, Opening>,
    readers: map<nat, StreamId>,
    begun: nat,
    voices: map<Session, Voice>,
    issued: nat,
    yielded: seq<Chunk>)

  const START := Sys(map[], {}, map[], map[], map[], 0, map[], 0, [])

  function VoiceOf(voices: map<Session, Voice>, session: Session): Voice {
    if session in voices then voices[session] else NEW_VOICE
  }

  datatype Action =
    | Reserve(session: Session, turn: TurnId)
    | ReadGeneration(session: Session)
    | StartTts(session: Session, interviewCancelled: bool, known: bool)
    | Register(session: Session)
    | Discard(session: Session)
    | BeginChunks(stream: StreamId)
    | Offer(reader: nat, generation: nat, size: nat)
    | EndChunks(reader: nat)
    | MarkCancelled(stream: StreamId)
    | Release(stream: StreamId)
    | TtsStarted(session: Session, turn: TurnId, interviewCancelled: bool, known: bool)   // reported from outside the bridge
    | TtsEnded(session: Session, turn: TurnId, phase: Phase)
    | SpeechStarted(session: Session, interviewOver: bool)
    | FinalTranscript(session: Session)
    | ResponseReady(session: Session, reply: Option<TurnId>, completed: bool)
    | CloseBegins(session: Session)
    | CloseEnds(session: Session)

  // ---- the coordinator ----

  function Barge(v: Voice): Voice {
    if v.phase == Speaking then Voice(Listening, v.generation + 1, None) else v.(phase := Listening)
  }

  predicate MayStart(v: Voice, turn: TurnId) {
    v.activeTurn.None? || v.activeTurn == Some(turn)
  }

  /** A start is accepted: the interview is not cancelled, it has the turn, and no other turn is active. */
  predicate Speaks(v: Voice, turn: TurnId, interviewCancelled: bool, known: bool) {
    !interviewCancelled && known && MayStart(v, turn)
  }

  function StartSpeaking(v: Voice, turn: TurnId, interviewCancelled: bool, known: bool): Voice {
    if interviewCancelled then v.(phase := Closed)
    else if Speaks(v, turn, interviewCancelled, known) then v.(phase := Speaking, activeTurn := Some(turn))
    else v
  }

  function Ended(v: Voice, turn: TurnId, phase: Phase): Voice {
    if v.activeTurn == Some(turn) then v.(phase := phase, activeTurn := None) else v
  }

  function Answered(v: Voice, turn: Option<TurnId>, completed: bool): Voice {
    v.(activeTurn := turn, phase := if completed && turn.None? then Closed else v.phase)
  }

  /** The voice of one session after an action; every other voice is untouched. */
  function VoiceStep(v: Voice, a: Action): Voice {
    match a
    case SpeechStarted(_, over) => if over then v.(phase := Closed) else Barge(v)
    case FinalTranscript(_) => if v.phase == Listening then v.(phase := Processing) else v
    case ResponseReady(_, turn, completed) => Answered(v, turn, completed)
    case TtsStarted(_, turn, cancelled, known) => StartSpeaking(v, turn, cancelled, known)
    case TtsEnded(_, turn, phase) => Ended(v, turn, phase)
    case CloseBegins(_) => v.(generation := v.generation + 1)
    case CloseEnds(_) => v.(phase := Closed, activeTurn := None)
    case _ => v
  }

  // ---- the bridge ----

  predicate Busy(s: Sys, session: Session) {
    session in s.active || session in s.opening
  }

  function DoReserve(s: Sys, session: Session, turn: TurnId): Sys {
    if Busy(s, session) then s else s.(opening := s.opening[session := Opening(turn, Reserved)])
  }

  function DoRead(s: Sys, session: Session): Sys {
    if session in s.opening && s.opening[session].stage.Reserved? then
      var generation := VoiceOf(s.voices, session).generation;
      s.(opening := s.opening[session := s.opening[session].(stage := Synthesizing(generation))])
    else s
  }

  /** A refused start fails the open, which then discards its reservation. */
  function DoStart(s: Sys, session: Session, interviewCancelled: bool, known: bool): Sys {
    if session in s.opening && s.opening[session].stage.Synthesizing? then
      var v, o := VoiceOf(s.voices, session), s.opening[session];
      s.(voices := s.voices[session := StartSpeaking(v, o.turn, interviewCancelled, known)],
         opening := if Speaks(v, o.turn, interviewCancelled, known)
                    then s.opening[session := o.(stage := Started(o.stage.generation))]
                    else s.opening - {session})
    else s
  }

  function DoRegister(s: Sys, session: Session): Sys {
    if session in s.opening && s.opening[session].stage.Started? then
      var o := s.opening[session];
      s.(records := s.records[s.issued := Stream(session, o.turn, o.stage.generation, 0, 0, false, false)],
         streams := s.streams + {s.issued},
         active := s.active[session := s.issued],
         opening := s.opening[session := o.(stage := Registered)],
         issued := s.issued + 1)
    else s
  }

  function DoBegin(s: Sys, id: StreamId): Sys {
    if id in s.streams then s.(readers := s.readers[s.begun := id], begun := s.begun + 1) else s
  }

  /** The listener may hear the stream: its generation and its turn are still the voice's. */
  predicate Current(r: Stream, v: Voice) {
    v.generation == r.generation && v.activeTurn == Some(r.turn)
  }

  /** The provider hands a chunk to a reader: a foreign or stale one ends the reading, any other is yielded. */
  function DoOffer(s: Sys, reader: nat, generation: nat, size: nat): Sys {
    if reader in s.readers && s.readers[reader] in s.records then
      var id := s.readers[reader];
      var r := s.records[id];
      if generation != r.generation then s.(readers := s.readers - {reader})
      else if !Current(r, VoiceOf(s.voices, r.session)) then
        s.(records := s.records[id := r.(cancelled := true)], readers := s.readers - {reader})
      else
        s.(records := s.records[id := r.(chunksSent := r.chunksSent + 1, bytesSent := r.bytesSent + size)],
           yielded := s.yielded + [Chunk(id, r.session, generation, size)])
    else s
  }

  function DoEnd(s: Sys, reader: nat): Sys {
    if reader in s.readers && s.readers[reader] in s.records then
      var id := s.readers[reader];
      var r := s.records[id];
      var t := s.(readers := s.readers - {reader});
      if Current(r, VoiceOf(s.voices, r.session)) then t else t.(records := s.records[id := r.(cancelled := true)])
    else s
  }

  function DoMark(s: Sys, id: StreamId): Sys {
    if id in s.records then s.(records := s.records[id := s.records[id].(cancelled := true)]) else s
  }

  function DoRelease(s: Sys, id: StreamId): Sys {
    if id in s.records then
      var r := s.records[id];
      s.(records := s.records[id := r.(closed := true)],
         streams := s.streams - {id},
         active := if r.session in s.active && s.active[r.session] == id then s.active - {r.session} else s.active)
    else s
  }

  function Next(s: Sys, a: Action): Sys {
    match a
    case Reserve(session, turn) => DoReserve(s, session, turn)
    case ReadGeneration(session) => DoRead(s, session)
    case StartTts(session, cancelled, known) => DoStart(s, session, cancelled, known)
    case Register(session) => DoRegister(s, session)
    case Discard(session) => s.(opening := s.opening - {session})
    case BeginChunks(id) => DoBegin(s, id)
    case Offer(reader, generation, size) => DoOffer(s, reader, generation, size)
    case EndChunks(reader) => DoEnd(s, reader)
    case MarkCancelled(id) => DoMark(s, id)
    case Release(id) => DoRelease(s, id)
    case _ => s.(voices := s.voices[a.session := VoiceStep(VoiceOf(s.voices, a.session), a)])
  }

  function Run(actions: seq<Action>): Sys {
    if |actions| == 0 then START
    else Next(Run(actions[..|actions| - 1]), actions[|actions| - 1])
  }

  // ---- what every step keeps ----

  /** The stream table and the active table are inverse to each other. */
  ghost predicate Bijection(s: Sys) {
    && (forall session <- s.active :: s.active[session] in s.streams && s.active[session] in s.records
                                      && s.records[s.active[session]].session == session)
    && (forall id <- s.streams :: id in s.records && s.records[id].session in s.active
                                  && s.active[s.records[id].session] == id)
  }

  ghost predicate Inv(s: Sys) {
    && Bijection(s)
    && (forall id <- s.records :: id < s.issued)
    && (forall reader <- s.readers :: s.readers[reader] in s.records)
    && (forall session <- s.opening :: session in s.active ==> s.opening[session].stage.Registered?)
  }

  predicate Opens(a: Action) {
    a.Reserve? || a.ReadGeneration? || a.StartTts? || a.Register?
  }

  lemma OpeningInv(s: Sys, a: Action)
    requires Inv(s) && Opens(a)
    ensures Inv(Next(s, a))
  {
    hide VoiceStep, VoiceOf, Speaks, StartSpeaking, Current, DoBegin, DoOffer, DoEnd, DoMark, DoRelease;
  }

  lemma ReleaseInv(s: Sys, id: StreamId)
    requires Inv(s)
    ensures Inv(DoRelease(s, id))
  {
  }

  lemma OfferInv(s: Sys, reader: nat, generation: nat, size: nat)
    requires Inv(s)
    ensures Inv(DoOffer(s, reader, generation, size))
  {
    hide VoiceOf, Current;
  }

  lemma StreamInv(s: Sys, a: Action)
    requires Inv(s) && !Opens(a)
    ensures Inv(Next(s, a))
  {
    hide VoiceStep, VoiceOf, Current, DoReserve, DoRead, DoStart, DoRegister, DoRelease, DoOffer;
    if a.Release? {
      ReleaseInv(s, a.stream);
    } else if a.Offer? {
      OfferInv(s, a.reader, a.generation, a.size);
    }
  }

  lemma StepInv(s: Sys, a: Action)
    requires Inv(s)
    ensures Inv(Next(s, a))
  {
    hide Inv, Next;
    if Opens(a) {
      OpeningInv(s, a);
    } else {
      StreamInv(s, a);
    }
  }

  lemma {:induction false} RunInv(actions: seq<Action>)
    ensures Inv(Run(actions))
  {
    if |actions| > 0 {
      RunInv(actions[..|actions| - 1]);
      StepInv(Run(actions[..|actions| - 1]), actions[|actions| - 1]);
    }
  }

  /** In every reachable state a session has at most one listed stream, and the two tables agree about it. */
  lemma OneStreamPerSession(actions: seq<Action>, id: StreamId, other: StreamId)
    requires id in Run(actions).streams && other in Run(actions).streams
    ensures id in Run(actions).records && other in Run(actions).records
    ensures Run(actions).records[id].session == Run(actions).records[other].session ==> id == other
    ensures Run(actions).records[id].session in Run(actions).active
    ensures Run(actions).active[Run(actions).records[id].session] == id
  {
    RunInv(actions);
  }

  /** Releasing a stream, however late, removes that stream alone: every other stays listed and active. */
  lemma ReleaseSparesOthers(actions: seq<Action>, released: StreamId, other: StreamId)
    requires other in Run(actions).streams && other != released
    ensures var s, t := Run(actions), Run(actions + [Release(released)]);
            && other in t.streams && other in t.records && t.records[other] == s.records[other]
            && t.records[other].session in t.active && t.active[t.records[other].session] == other
            && released !in t.streams
  {
    RunInv(actions);
    assert (actions + [Release(released)])[..|actions|] == actions;
  }

  lemma StepKeepsIssued(s: Sys, a: Action, id: StreamId)
    requires Inv(s) && id < s.issued && id !in s.streams
    ensures id < Next(s, a).issued && id !in Next(s, a).streams
  {
    hide VoiceStep, VoiceOf, Speaks, StartSpeaking, Current;
  }

  /** A released stream never comes back. */
  lemma {:induction false} ReleasedStaysReleased(actions: seq<Action>, n: nat, id: StreamId)
    requires n <= |actions| && id < Run(actions[..n]).issued && id !in Run(actions[..n]).streams
    ensures id !in Run(actions).streams && id < Run(actions).issued
    decreases |actions|
  {
    hide Next;
    if n < |actions| {
      var m := |actions| - 1;
      assert actions[..m][..n] == actions[..n];
      ReleasedStaysReleased(actions[..m], n, id);
      RunInv(actions[..m]);
      StepKeepsIssued(Run(actions[..m]), actions[m], id);
    } else {
      assert actions[..n] == actions;
    }
  }

  // ---- generations ----

  function Generation(s: Sys, session: Session): nat {
    VoiceOf(s.voices, session).generation
  }

  /** A step only appends to what was yielded, and only chunks of the voice's generation and active turn. */
  ghost predicate YieldsCurrent(s: Sys, t: Sys) {
    && |s.yielded| <= |t.yielded| <= |s.yielded| + 1 && t.yielded[..|s.yielded|] == s.yielded
    && (|t.yielded| > |s.yielded| ==>
          var c := t.yielded[|s.yielded|];
          && c.stream in s.records && s.records[c.stream].session == c.session
          && c.generation == Generation(s, c.session) == s.records[c.stream].generation
          && VoiceOf(s.voices, c.session).activeTurn == Some(s.records[c.stream].turn))
  }

  lemma StepYieldsCurrent(s: Sys, a: Action)
    ensures YieldsCurrent(s, Next(s, a))
  {
    hide VoiceStep, Speaks, StartSpeaking;
  }

  lemma StepGeneration(s: Sys, a: Action, session: Session)
    ensures Generation(s, session) <= Generation(Next(s, a), session)
  {
  }

  /** The record is the same stream's, whatever its counters and flags. */
  ghost predicate SameStream(s: Sys, t: Sys, id: StreamId)
    requires id in s.records
  {
    && id in t.records && t.records[id].session == s.records[id].session
    && t.records[id].generation == s.records[id].generation && t.records[id].turn == s.records[id].turn
  }

  lemma ReadingKeepsRecord(s: Sys, a: Action, id: StreamId)
    requires id in s.records && (a.Offer? || a.EndChunks?)
    ensures SameStream(s, Next(s, a), id)
  {
    hide VoiceOf, Current;
  }

  lemma EndingKeepsRecord(s: Sys, a: Action, id: StreamId)
    requires id in s.records && (a.MarkCancelled? || a.Release?)
    ensures SameStream(s, Next(s, a), id)
  {
  }

  lemma StepKeepsRecord(s: Sys, a: Action, id: StreamId)
    requires Inv(s) && id in s.records
    ensures SameStream(s, Next(s, a), id)
  {
    hide Bijection, VoiceStep, VoiceOf, Speaks, StartSpeaking, Current, DoOffer, DoEnd, DoMark, DoRelease;
    if a.Offer? || a.EndChunks? {
      ReadingKeepsRecord(s, a, id);
    } else if a.MarkCancelled? || a.Release? {
      EndingKeepsRecord(s, a, id);
    }
  }

  lemma StepReached(s: Sys, a: Action)
    requires Within(s, s)
    ensures Within(Next(s, a), Next(s, a))
  {
    hide Generation, Next;
    var t := Next(s, a);
    forall session: Session
      ensures Generation(s, session) <= Generation(t, session)
    {
      StepGeneration(s, a, session);
    }
    StepCarries(s, a);
  }

  /** Records and opens carry no generation past those of the given state. */
  ghost predicate Within(t: Sys, s: Sys) {
    && (forall id <- t.records :: t.records[id].generation <= Generation(s, t.records[id].session))
    && (forall session <- t.opening :: StageWithin(t.opening[session].stage, Generation(s, session)))
  }

  ghost predicate StageWithin(stage: Stage, bound: nat) {
    match stage
    case Synthesizing(generation) => generation <= bound
    case Started(generation) => generation <= bound
    case _ => true
  }

  /** A step carries generations over from the record or the open they came from, or reads the voice's. */
  lemma StepCarries(s: Sys, a: Action)
    requires Within(s, s)
    ensures Within(Next(s, a), s)
  {
    hide Within, Next;
    if a.ReadGeneration? {
      ReadCarries(s, a.session);
      ReadIsNext(s, a.session);
    } else if Opens(a) {
      OpeningCarries(s, a);
    } else {
      StreamCarries(s, a);
    }
  }

  lemma ReadIsNext(s: Sys, session: Session)
    ensures Next(s, ReadGeneration(session)) == DoRead(s, session)
  {
  }

  lemma OpeningCarries(s: Sys, a: Action)
    requires Within(s, s) && Opens(a) && !a.ReadGeneration?
    ensures Within(Next(s, a), s)
  {
    hide VoiceStep, Generation, VoiceOf, Speaks, StartSpeaking, DoRead, DoBegin, DoOffer, DoEnd, DoMark, DoRelease;
  }

  lemma StreamCarries(s: Sys, a: Action)
    requires Within(s, s) && !Opens(a)
    ensures Within(Next(s, a), s)
  {
    hide VoiceStep, Generation, VoiceOf, Current, DoReserve, DoRead, DoStart, DoRegister;
  }

  lemma ReadCarries(s: Sys, session: Session)
    requires Within(s, s)
    ensures Within(DoRead(s, session), s)
  {
    hide VoiceOf;
  }

  lemma {:induction false} RunGenerations(actions: seq<Action>)
    ensures Within(Run(actions), Run(actions))
  {
    if |actions| > 0 {
      RunGenerations(actions[..|actions| - 1]);
      StepReached(Run(actions[..|actions| - 1]), actions[|actions| - 1]);
    }
  }

  /** The generation of a voice never decreases. */
  lemma {:induction false} GenerationNeverDecreases(actions: seq<Action>, n: nat, session: Session)
    requires n <= |actions|
    ensures Generation(Run(actions[..n]), session) <= Generation(Run(actions), session)
    decreases |actions|
  {
    hide Next;
    if n < |actions| {
      var m := |actions| - 1;
      assert actions[..m][..n] == actions[..n];
      GenerationNeverDecreases(actions[..m], n, session);
      StepGeneration(Run(actions[..m]), actions[m], session);
    } else {
      assert actions[..n] == actions;
    }
  }

  /** Once the voice of a session has reached a generation, no chunk of an earlier one is ever yielded to it. */
  lemma {:induction false} NoStaleChunk(actions: seq<Action>, n: nat, k: nat)
    requires n <= |actions| && |Run(actions[..n]).yielded| <= k < |Run(actions).yielded|
    ensures var c := Run(actions).yielded[k];
            c.generation >= Generation(Run(actions[..n]), c.session)
    decreases |actions|
  {
    hide Next, Generation;
    assert actions[..|actions|] == actions;
    var m := |actions| - 1;
    assert actions[..m][..n] == actions[..n];
    StepYieldsCurrent(Run(actions[..m]), actions[m]);
    var c := Run(actions).yielded[k];
    if k < |Run(actions[..m]).yielded| {
      NoStaleChunk(actions[..m], n, k);
    } else {
      GenerationNeverDecreases(actions[..m], n, c.session);
    }
  }

  lemma {:induction false} ChunkBelongsToStream(actions: seq<Action>, k: nat)
    requires k < |Run(actions).yielded|
    ensures var s, c := Run(actions), Run(actions).yielded[k];
            && c.stream in s.records && s.records[c.stream].session == c.session
            && s.records[c.stream].generation == c.generation
  {
    hide Next, Generation;
    if |actions| > 0 {
      var m := |actions| - 1;
      RunInv(actions[..m]);
      StepYieldsCurrent(Run(actions[..m]), actions[m]);
      if k < |Run(actions[..m]).yielded| {
        ChunkBelongsToStream(actions[..m], k);
      }
      StepKeepsRecord(Run(actions[..m]), actions[m], Run(actions).yielded[k].stream);
    }
  }

  lemma {:induction false} RecordsKeepGeneration(actions: seq<Action>, n: nat, id: StreamId)
    requires n <= |actions| && id in Run(actions[..n]).records
    ensures id in Run(actions).records
    ensures Run(actions).records[id].generation == Run(actions[..n]).records[id].generation
    ensures Run(actions).records[id].session == Run(actions[..n]).records[id].session
    decreases |actions|
  {
    hide Next;
    if n < |actions| {
      var m := |actions| - 1;
      assert actions[..m][..n] == actions[..n];
      RecordsKeepGeneration(actions[..m], n, id);
      RunInv(actions[..m]);
      StepKeepsRecord(Run(actions[..m]), actions[m], id);
    } else {
      assert actions[..n] == actions;
    }
  }

  /**
   Barge-in is final: when the candidate starts to speak over the interviewer, every stream of the
   generation that was playing, open or already released, stays silent for the rest of the run.
   */
  lemma BargeInSilences(actions: seq<Action>, n: nat, id: StreamId, k: nat)
    requires n < |actions| && actions[n].SpeechStarted? && !actions[n].interviewOver
    requires VoiceOf(Run(actions[..n]).voices, actions[n].session).phase == Speaking
    requires id in Run(actions[..n]).records && Run(actions[..n]).records[id].session == actions[n].session
    requires |Run(actions[..n + 1]).yielded| <= k < |Run(actions).yielded|
    ensures Run(actions).yielded[k].stream != id
  {
    hide DoReserve, DoRead, DoStart, DoRegister, DoBegin, DoOffer, DoEnd, DoMark, DoRelease;
    assert actions[..n + 1][..n] == actions[..n];
    RunGenerations(actions[..n]);
    NoStaleChunk(actions, n + 1, k);
    ChunkBelongsToStream(actions, k);
    RecordsKeepGeneration(actions, n, id);
  }

  // ---- what is heard, and whose turn it is ----

  /** The action may take the active turn of the session away. */
  predicate EndsTurn(a: Action, session: Session, turn: TurnId) {
    || (a.TtsEnded? && a.session == session && a.turn == turn)
    || (a.SpeechStarted? && a.session == session && !a.interviewOver)
    || (a.ResponseReady? && a.session == session)
    || (a.CloseEnds? && a.session == session)
  }

  /** The bridge's own steps, but for the start of playback, leave every voice alone. */
  predicate LeavesVoices(a: Action) {
    || a.Reserve? || a.ReadGeneration? || a.Register? || a.Discard? || a.BeginChunks? || a.Offer? || a.EndChunks?
    || a.MarkCancelled? || a.Release?
  }

  lemma StepLeavesVoices(s: Sys, a: Action)
    requires LeavesVoices(a)
    ensures Next(s, a).voices == s.voices
  {
    hide VoiceStep, VoiceOf, Speaks, StartSpeaking, Current;
  }

  lemma StepKeepsTurn(s: Sys, a: Action, session: Session, turn: TurnId)
    requires VoiceOf(s.voices, session).activeTurn == Some(turn) && !EndsTurn(a, session, turn)
    ensures VoiceOf(Next(s, a).voices, session).activeTurn == Some(turn)
  {
    if LeavesVoices(a) {
      StepLeavesVoices(s, a);
      hide Next;
    }
    hide DoReserve, DoRead, DoRegister, DoBegin, DoOffer, DoEnd, DoMark, DoRelease;
  }

  /**
   One turn at a time: while a turn is active no other can take its place, until it ends, the candidate speaks, a reply
   is ready, or the voice is closed.
   */
  lemma {:induction false} OneTurnAtATime(actions: seq<Action>, n: nat, session: Session, turn: TurnId)
    requires n <= |actions| && VoiceOf(Run(actions[..n]).voices, session).activeTurn == Some(turn)
    requires forall k :: n <= k < |actions| ==> !EndsTurn(actions[k], session, turn)
    ensures VoiceOf(Run(actions).voices, session).activeTurn == Some(turn)
    decreases |actions|
  {
    hide Next, EndsTurn, VoiceOf;
    if n < |actions| {
      var m := |actions| - 1;
      assert actions[..m][..n] == actions[..n];
      OneTurnAtATime(actions[..m], n, session, turn);
      StepKeepsTurn(Run(actions[..m]), actions[m], session, turn);
    } else {
      assert actions[..n] == actions;
    }
  }

  /** The voice moves from speaking through listening and processing to the reply, a generation further on. */
  lemma ConversationGoesOn(v: Voice, session: Session, reply: TurnId)
    requires v.phase == Speaking
    ensures var heard := VoiceStep(v, SpeechStarted(session, false));
            var understood := VoiceStep(heard, FinalTranscript(session));
            var answered := VoiceStep(understood, ResponseReady(session, Some(reply), false));
            && heard == Voice(Listening, v.generation + 1, None)
            && understood == Voice(Processing, v.generation + 1, None)
            && answered == Voice(Processing, v.generation + 1, Some(reply))
            && VoiceStep(answered, TtsStarted(session, reply, false, true)) == Voice(Speaking, v.generation + 1, Some(reply))
  {
  }

  /** Speech while nobody speaks interrupts nothing; a completed interview without a reply, or a close, is the end. */
  lemma QuietVoiceSteps(v: Voice, session: Session, turn: TurnId, phase: Phase)
    ensures v.phase != Speaking ==> VoiceStep(v, SpeechStarted(session, false)) == v.(phase := Listening)
    ensures VoiceStep(v, SpeechStarted(session, true)) == v.(phase := Closed)
    ensures VoiceStep(v, TtsStarted(session, turn, true, true)) == v.(phase := Closed)
    ensures VoiceStep(v, ResponseReady(session, None, true)) == Voice(Closed, v.generation, None)
    ensures VoiceStep(VoiceStep(v, CloseBegins(session)), CloseEnds(session)) == Voice(Closed, v.generation + 1, None)
    ensures VoiceStep(v, TtsEnded(session, turn, phase))
         == if v.activeTurn == Some(turn) then Voice(phase, v.generation, None) else v
  {
  }

  /**
   What is refused: a second open of a session, a reader of a stream no longer listed, a chunk of another generation,
   and whatever reaches a reader once the voice has moved on, which marks the stream cancelled.
   */
  lemma RefusedChangesNothing(s: Sys, session: Session, turn: TurnId, id: StreamId)
    ensures session in s.active || session in s.opening ==> Next(s, Reserve(session, turn)) == s
    ensures id !in s.streams ==> Next(s, BeginChunks(id)) == s
  {
  }

  lemma StaleReaderIsCancelled(s: Sys, reader: nat, generation: nat, size: nat)
    requires reader in s.readers && s.readers[reader] in s.records
    ensures var id := s.readers[reader];
            var r := s.records[id];
            var v, cancelled := VoiceOf(s.voices, r.session), s.records[id := r.(cancelled := true)];
            var rest := s.(readers := s.readers - {reader});
            && (generation != r.generation ==> Next(s, Offer(reader, generation, size)) == rest)
            && (v.generation != r.generation || v.activeTurn != Some(r.turn) ==>
                  && Next(s, Offer(reader, r.generation, size)) == rest.(records := cancelled)
                  && Next(s, EndChunks(reader)) == rest.(records := cancelled))
            && (v.generation == r.generation && v.activeTurn == Some(r.turn) ==> Next(s, EndChunks(reader)) == rest)
  {
    hide VoiceOf, VoiceStep;
  }

  /** An open that nobody disturbs is heard: its first chunk reaches the listener under the voice's generation. */
  lemma OpeningPlays(s: Sys, session: Session, turn: TurnId, size: nat)
    requires Inv(s) && session !in s.active && session !in s.opening && s.begun !in s.readers
    requires var active := VoiceOf(s.voices, session).activeTurn; active.None? || active == Some(turn)
    ensures var generation := VoiceOf(s.voices, session).generation;
            var reserved := Next(Next(s, Reserve(session, turn)), ReadGeneration(session));
            var started := Next(reserved, StartTts(session, false, true));
            var reading := Next(Next(started, Register(session)), BeginChunks(s.issued));
            var t := Next(reading, Offer(s.begun, generation, size));
            && t.yielded == s.yielded + [Chunk(s.issued, session, generation, size)]
            && t.voices == s.voices[session := Voice(Speaking, generation, Some(turn))]
            && t.streams == s.streams + {s.issued} && t.active == s.active[session := s.issued]
            && t.records == s.records[s.issued := Stream(session, turn, generation, 1, size, false, false)]
  {
    var v := VoiceOf(s.voices, session);
    var reserved := Next(Next(s, Reserve(session, turn)), ReadGeneration(session));
    assert reserved == s.(opening := s.opening[session := Opening(turn, Synthesizing(v.generation))]);
    var started := Next(reserved, StartTts(session, false, true));
    assert started == s.(voices := s.voices[session := Voice(Speaking, v.generation, Some(turn))],
                         opening := s.opening[session := Opening(turn, Started(v.generation))]);
    hide Inv, VoiceOf, VoiceStep, Speaks, StartSpeaking;
    PlaysFromStart(s, started, session, turn, v.generation, size);
  }

  lemma PlaysFromStart(s: Sys, started: Sys, session: Session, turn: TurnId, generation: nat, size: nat)
    requires s.begun !in s.readers
    requires started == s.(voices := s.voices[session := Voice(Speaking, generation, Some(turn))],
                           opening := s.opening[session := Opening(turn, Started(generation))])
    ensures var reading := Next(Next(started, Register(session)), BeginChunks(s.issued));
            var t := Next(reading, Offer(s.begun, generation, size));
            && t.yielded == s.yielded + [Chunk(s.issued, session, generation, size)]
            && t.voices == started.voices && t.streams == s.streams + {s.issued} && t.active == s.active[session := s.issued]
            && t.records == s.records[s.issued := Stream(session, turn, generation, 1, size, false, false)]
  {
    hide VoiceStep, Speaks, StartSpeaking;
    var registered := Next(started, Register(session));
    var reading := Next(registered, BeginChunks(s.issued));
    assert reading.records[s.issued] == Stream(session, turn, generation, 0, 0, false, false);
    assert reading.readers[s.begun] == s.issued;
    var t := Next(reading, Offer(s.begun, generation, size));
    assert t.records == reading.records[s.issued := Stream(session, turn, generation, 1, size, false, false)];
  }

  // ---- accounting ----

  function SentBy(yielded: seq<Chunk>, id: StreamId): nat {
    if |yielded| == 0 then 0
    else
      var n := |yielded| - 1;
      SentBy(yielded[..n], id) + if yielded[n].stream == id then 1 else 0
  }

  function BytesBy(yielded: seq<Chunk>, id: StreamId): nat {
    if |yielded| == 0 then 0
    else
      var n := |yielded| - 1;
      BytesBy(yielded[..n], id) + if yielded[n].stream == id then yielded[n].size else 0
  }

  ghost predicate Counted(s: Sys, id: StreamId) {
    && SentBy(s.yielded, id) == (if id in s.records then s.records[id].chunksSent else 0)
    && BytesBy(s.yielded, id) == (if id in s.records then s.records[id].bytesSent else 0)
  }

  lemma StepCounts(s: Sys, a: Action, id: StreamId)
    requires Inv(s) && Counted(s, id)
    ensures Counted(Next(s, a), id)
  {
    hide Bijection, VoiceStep, VoiceOf, Speaks, StartSpeaking, Current, Counted, DoOffer;
    if a.Offer? {
      OfferCounts(s, a.reader, a.generation, a.size, id);
    } else {
      SameCounts(s, Next(s, a), id);
    }
  }

  lemma SameCounts(s: Sys, t: Sys, id: StreamId)
    requires Counted(s, id) && t.yielded == s.yielded
    requires id in s.records ==> id in t.records && t.records[id].chunksSent == s.records[id].chunksSent
                                 && t.records[id].bytesSent == s.records[id].bytesSent
    requires id !in s.records && id in t.records ==> t.records[id].chunksSent == t.records[id].bytesSent == 0
    ensures Counted(t, id)
  {
  }

  lemma OfferCounts(s: Sys, reader: nat, generation: nat, size: nat, id: StreamId)
    requires Counted(s, id)
    ensures Counted(DoOffer(s, reader, generation, size), id)
  {
    hide VoiceOf, Current, SentBy, BytesBy;
    if reader in s.readers && s.readers[reader] in s.records {
      var stream := s.readers[reader];
      CountSnoc(s.yielded, Chunk(stream, s.records[stream].session, generation, size), id);
    }
  }

  lemma CountSnoc(yielded: seq<Chunk>, c: Chunk, id: StreamId)
    ensures SentBy(yielded + [c], id) == SentBy(yielded, id) + if c.stream == id then 1 else 0
    ensures BytesBy(yielded + [c], id) == BytesBy(yielded, id) + if c.stream == id then c.size else 0
  {
    assert (yielded + [c])[..|yielded|] == yielded;
  }

  /** A stream's counters are exactly the chunks and bytes the listener got from it. */
  lemma {:induction false} CountersAreWhatWasHeard(actions: seq<Action>, id: StreamId)
    ensures Counted(Run(actions), id)
  {
    if |actions| > 0 {
      var m := |actions| - 1;
      CountersAreWhatWasHeard(actions[..m], id);
      RunInv(actions[..m]);
      StepCounts(Run(actions[..m]), actions[m], id);
    }
  }

  // ---- the objects ----

  datatype VoiceError = InterviewOver | UnknownTurn | StaleTurn | SessionBusy | UnknownStream | ForeignGeneration | ProviderFailed

  class RealtimeVoiceCoordinator {
    var voices: map<Session, Voice>

    constructor ()
      ensures voices == map[]
    {
      voices := map[];
    }

    method SpeechStarted(session: Session, interviewOver: bool) returns (r: Result<(), VoiceError>)
      modifies this
      ensures voices == old(voices)[session :=
                VoiceStep(VoiceOf(old(voices), session), Action.SpeechStarted(session, interviewOver))]
      ensures r.Err? <==> interviewOver
    {
      var state := VoiceOf(voices, session);
      if interviewOver {
        state := state.(phase := Closed);
        voices := voices[session := state];
        return Err(InterviewOver);
      }
      if state.phase == Speaking {
        state := state.(generation := state.generation + 1);
        state := state.(activeTurn := None);
      }
      state := state.(phase := Listening);
      voices := voices[session := state];
      return Ok(());
    }

    /** `known` tells whether the interview has the turn. */
    method TtsStarted(session: Session, turn: TurnId, interviewCancelled: bool, known: bool) returns (r: Result<(), VoiceError>)
      modifies this
      ensures var v := VoiceOf(old(voices), session);
              && voices == old(voices)[session := VoiceStep(v, Action.TtsStarted(session, turn, interviewCancelled, known))]
              && r == (if interviewCancelled then Err(InterviewOver)
                       else if !known then Err(UnknownTurn)
                       else if !MayStart(v, turn) then Err(StaleTurn) else Ok(()))
    {
      var state := VoiceOf(voices, session);
      voices := voices[session := state];
      if interviewCancelled {
        voices := voices[session := state.(phase := Closed)];
        return Err(InterviewOver);
      }
      if !known {
        return Err(UnknownTurn);
      }
      if state.activeTurn.Some? && state.activeTurn != Some(turn) {
        return Err(StaleTurn);
      }
      state := state.(phase := Speaking);
      state := state.(activeTurn := Some(turn));
      voices := voices[session := state];
      return Ok(());
    }

    /** Completion and cancellation of the active turn differ only in the phase they leave behind. */
    method TtsEnded(session: Session, turn: TurnId, phase: Phase) returns (r: Result<(), VoiceError>)
      modifies this
      ensures r.Ok? <==> VoiceOf(old(voices), session).activeTurn == Some(turn)
      ensures voices == old(voices)[session := Ended(VoiceOf(old(voices), session), turn, phase)]
    {
      var state := VoiceOf(voices, session);
      voices := voices[session := state];
      if state.activeTurn != Some(turn) {
        return Err(StaleTurn);
      }
      state := state.(activeTurn := None);
      state := state.(phase := phase);
      voices := voices[session := state];
      return Ok(());
    }

    /** The generation moves first; the active turn is only forgotten once the cancellation has been saved. */
    method CloseSession(session: Session, saved: bool)
      modifies this
      ensures var v := VoiceStep(VoiceOf(old(voices), session), CloseBegins(session));
              voices == old(voices)[session := if saved then VoiceStep(v, CloseEnds(session)) else v]
    {
      var state := VoiceOf(voices, session);
      state := state.(generation := state.generation + 1);
      voices := voices[session := state];
      if !saved {
        return;
      }
      state := state.(activeTurn := None);
      state := state.(phase := Closed);
      voices := voices[session := state];
    }
  }

  class VoiceOutputBridge {
    const voice: RealtimeVoiceCoordinator
    var records: map<StreamId, Stream>
    var streams: set<StreamId>
    var active: map<Session, StreamId>
    var opening: map<Session, Opening>
    var readers: map<nat, StreamId>
    var begun: nat
    var issued: nat
    ghost var yielded: seq<Chunk>

    ghost function View(): Sys
      reads this, voice
    {
      Sys(records, streams, active, opening, readers, begun, voice.voices, issued, yielded)
    }

    constructor (voice: RealtimeVoiceCoordinator)
      requires voice.voices == map[]
      ensures this.voice == voice && View() == START
    {
      this.voice := voice;
      records, streams, active, opening := map[], {}, map[], map[];
      readers, begun, issued, yielded := map[], 0, 0, [];
    }

    method ReserveSession(session: Session, turn: TurnId) returns (r: Result<(), VoiceError>)
      modifies this
      ensures View() == Next(old(View()), Reserve(session, turn))
      ensures r == if Busy(old(View()), session) then Err(SessionBusy) else Ok(())
    {
      if session in active || session in opening {
        return Err(SessionBusy);
      }
      opening := opening[session := Opening(turn, Reserved)];
      return Ok(());
    }

    method RegisterStream(session: Session) returns (id: StreamId)
      requires session in opening && opening[session].stage.Started?
      modifies this
      ensures id == old(issued) && View() == Next(old(View()), Register(session))
    {
      var o := opening[session];
      id := issued;
      issued := issued + 1;
      records := records[id := Stream(session, o.turn, o.stage.generation, 0, 0, false, false)];
      streams := streams + {id};
      active := active[session := id];
      opening := opening[session := o.(stage := Registered)];
    }

    method BeginReading(id: StreamId) returns (r: Result<nat, VoiceError>)
      modifies this
      ensures View() == Next(old(View()), BeginChunks(id))
      ensures r == if id in old(streams) then Ok(old(begun)) else Err(UnknownStream)
    {
      if id !in streams {
        return Err(UnknownStream);
      }
      readers := readers[begun := id];
      begun := begun + 1;
      return Ok(begun - 1);
    }

    /** One chunk from the provider, as its reader treats it: yielded, dropped as stale, or an error. */
    method OfferChunk(reader: nat, generation: nat, size: nat) returns (r: Result<bool, VoiceError>)
      requires reader in readers && readers[reader] in records
      modifies this
      ensures View() == Next(old(View()), Offer(reader, generation, size))
      ensures var record := old(records)[old(readers)[reader]];
              r == if generation != record.generation then Err(ForeignGeneration)
                   else Ok(Current(record, VoiceOf(voice.voices, record.session)))
    {
      hide VoiceOf;
      var id := readers[reader];
      var record := records[id];
      if generation != record.generation {
        readers := readers - {reader};
        return Err(ForeignGeneration);
      }
      var current := VoiceOf(voice.voices, record.session);
      if current.generation != record.generation || current.activeTurn != Some(record.turn) {
        record := record.(cancelled := true);
        records := records[id := record];
        readers := readers - {reader};
        return Ok(false);
      }
      record := record.(chunksSent := record.chunksSent + 1);
      record := record.(bytesSent := record.bytesSent + size);
      records := records[id := record];
      yielded := yielded + [Chunk(id, record.session, generation, size)];
      return Ok(true);
    }

    method ReleaseStream(id: StreamId)
      requires id in records
      modifies this
      ensures View() == Next(old(View()), Release(id))
    {
      var record := records[id];
      records := records[id := record.(closed := true)];
      streams := streams - {id};
      if record.session in active && active[record.session] == id {
        active := active - {record.session};
      }
    }

    /**
     Closing a stream without interruption: mark, tell the voice, release. When the provider's cancellation
     raises, the voice is told all the same and the stream stays listed.
     */
    method CloseStream(id: StreamId, providerOk: bool) returns (r: Result<(), VoiceError>)
      requires Inv(View())
      modifies this, voice
      ensures Inv(View())
      ensures id !in old(streams) ==> r == Err(UnknownStream) && View() == old(View())
      ensures id in old(streams) && old(records)[id].cancelled ==>
                r == Ok(()) && View() == Next(old(View()), Release(id))
      ensures id in old(streams) && !old(records)[id].cancelled ==>
                var s := old(View());
                var record := s.records[id];
                var told := Next(Next(s, MarkCancelled(id)), Action.TtsEnded(record.session, record.turn, Idle));
                && r == (if providerOk then Ok(()) else Err(ProviderFailed))
                && View() == if providerOk then Next(told, Release(id)) else told
    {
      hide Inv, Bijection, Next, DoReserve, DoRead, DoStart, DoRegister, DoBegin, DoOffer, DoEnd, DoRelease, DoMark;
      ListedIsRecorded(View());
      if id !in streams {
        return Err(UnknownStream);
      }
      ghost var s := View();
      var record := records[id];
      if !record.cancelled {
        records := records[id := record.(cancelled := true)];
        StepInv(s, MarkCancelled(id));
        MarkRewrites(s, id);
        ghost var marked := View();
        var ended := voice.TtsEnded(record.session, record.turn, Idle);
        StepInv(marked, Action.TtsEnded(record.session, record.turn, Idle));
        EndedRewrites(marked, record.session, record.turn);
        if !providerOk {
          return Err(ProviderFailed);
        }
      }
      ghost var last := View();
      ReleaseStream(id);
      StepInv(last, Release(id));
      return Ok(());
    }
  }

  lemma ListedIsRecorded(s: Sys)
    requires Inv(s)
    ensures s.streams <= s.records.Keys
  {
  }

  lemma MarkRewrites(s: Sys, id: StreamId)
    requires id in s.records
    ensures Next(s, MarkCancelled(id)) == s.(records := s.records[id := s.records[id].(cancelled := true)])
  {
  }

  lemma EndedRewrites(s: Sys, session: Session, turn: TurnId)
    ensures Next(s, TtsEnded(session, turn, Idle))
         == s.(voices := s.voices[session := Ended(VoiceOf(s.voices, session), turn, Idle)])
  {
  }
}
