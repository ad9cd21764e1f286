/** The bridge that forwards accepted audio to the speech provider until the stream is committed. */
module SpeechBridge {
  import opened Common
  import opened Pcm
  import opened AudioStream

  /** What the provider session was given, in order, with the sequence number each chunk carried. */
  datatype Received = Received(sequence: nat, audio: seq<Byte>)

  datatype ProviderStream = ProviderStream(received: seq<Received>, committed: bool, commitCalls: nat)

  const NEW_PROVIDER := ProviderStream([], false, 0)

  /** Where the handling of one chunk stands when it reaches its first suspension point. */
  datatype Begun =
    | Refused(error: StreamError)
    | Replied(result: ChunkResult)
    | Pushing(result: ChunkResult, audio: seq<Byte>)

  function Begin(st: StreamState, committed: bool, chunk: ChunkMessage): Begun {
    match Admission(st, chunk)
    case Err(e) => Refused(e)
    case Ok(Accepted(result, None)) => Replied(result)
    case Ok(Accepted(result, Some(audio))) =>
      if committed then Replied(result.(bufferedBytes := st.bufferedBytes)) else Pushing(result, audio)
  }

  function AfterBegin(st: StreamState, committed: bool, chunk: ChunkMessage): StreamState {
    var admitted := AfterAdmission(st, chunk);
    if Begin(st, committed, chunk).Pushing? then admitted else admitted.(bufferedBytes := st.bufferedBytes)
  }

  /** The provider push has returned or raised; either way the bytes are written off. */
  function AfterPush(st: StreamState, size: nat): StreamState {
    st.(bufferedBytes := if size <= st.bufferedBytes then st.bufferedBytes - size else st.bufferedBytes)
  }

  function Delivered(p: ProviderStream, sequence: nat, audio: seq<Byte>): ProviderStream {
    p.(received := p.received + [Received(sequence, audio)])
  }

  /** Committing calls the provider at most once. */
  function AfterCommit(p: ProviderStream, ok: bool): ProviderStream {
    if p.committed then p
    else if ok then p.(committed := true, commitCalls := p.commitCalls + 1)
    else p
  }

  lemma BeginNeverOverfills(st: StreamState, committed: bool, chunk: ChunkMessage)
    requires Balanced(st)
    ensures AfterBegin(st, committed, chunk).bufferedBytes <= st.config.maxBufferedBytes
    ensures Begin(st, committed, chunk).Pushing? ==>
              && chunk.sequence == st.nextSequence
              && chunk.audio == Some(Begin(st, committed, chunk).audio)
              && AfterPush(AfterBegin(st, committed, chunk), |Begin(st, committed, chunk).audio|).bufferedBytes == st.bufferedBytes
    ensures committed ==> !Begin(st, committed, chunk).Pushing? && AfterBegin(st, committed, chunk).bufferedBytes == st.bufferedBytes
  {
  }

  /** The next fitting chunk goes on to the provider until the commit; whatever is admitted after it is only acknowledged. */
  lemma NextChunkIsForwarded(st: StreamState, committed: bool, chunk: ChunkMessage)
    ensures Begin(st, committed, chunk).Pushing? <==>
              Admissible(st, chunk) && chunk.sequence == st.nextSequence && !committed
    ensures Begin(st, committed, chunk).Refused? <==> !Admissible(st, chunk)
    ensures Begin(st, committed, chunk).Pushing? ==>
              Begin(st, committed, chunk).audio == chunk.audio.value
              && Begin(st, committed, chunk).result.nextSequence == st.nextSequence + 1
    ensures Begin(st, committed, chunk).Replied? ==>
              Begin(st, committed, chunk).result.nextSequence == AfterBegin(st, committed, chunk).nextSequence
  {
    AdmissionIff(st, chunk);
  }

  datatype BridgeError = Transport(error: StreamError) | NoProvider | ProviderFailed

  class VoiceStreamBridge {
    const manager: AudioStreamManager
    var providers: map<string, ProviderStream>

    constructor (manager: AudioStreamManager)
      ensures this.manager == manager && providers == map[]
    {
      this.manager := manager;
      providers := map[];
    }

    method Open(streamId: string, token: string, sessionId: string, generation: nat, config: StreamConfig)
      modifies this, manager
      ensures manager.streams == old(manager.streams)[streamId := StreamRecord(Opened(sessionId, generation, config), token)]
      ensures providers == old(providers)[streamId := NEW_PROVIDER]
    {
      manager.Open(streamId, token, sessionId, generation, config);
      providers := providers[streamId := NEW_PROVIDER];
    }

    /** One chunk from the socket; `providerOk` tells whether the provider's push returned or raised. */
    method PushChunk(streamId: string, chunk: ChunkMessage, providerOk: bool) returns (r: Result<ChunkResult, BridgeError>)
      modifies this, manager
      ensures streamId !in old(manager.streams) ==>
                r == Err(Transport(UnknownStream)) && manager.streams == old(manager.streams) && providers == old(providers)
      ensures streamId in old(manager.streams) && streamId !in old(providers) ==>
                && providers == old(providers)
                && r.Err?
                && manager.streams == old(manager.streams)[streamId :=
                     old(manager.streams)[streamId].(state := AfterAdmission(old(manager.streams)[streamId].state, chunk))]
      ensures streamId in old(manager.streams) && streamId in old(providers) ==>
                var record, provider := old(manager.streams)[streamId], old(providers)[streamId];
                var begun := Begin(record.state, provider.committed, chunk);
                var state := AfterBegin(record.state, provider.committed, chunk);
                match begun
                case Refused(e) =>
                  r == Err(Transport(e)) && providers == old(providers)
                  && manager.streams == old(manager.streams)[streamId := record.(state := state)]
                case Replied(result) =>
                  r == Ok(result) && providers == old(providers)
                  && manager.streams == old(manager.streams)[streamId := record.(state := state)]
                case Pushing(result, audio) =>
                  && manager.streams == old(manager.streams)[streamId := record.(state := AfterPush(state, |audio|))]
                  && (providerOk ==>
                      && r == Ok(result.(bufferedBytes := record.state.bufferedBytes))
                      && providers == old(providers)[streamId := Delivered(provider, chunk.sequence, audio)])
                  && (!providerOk ==> r == Err(ProviderFailed) && providers == old(providers))
    {
      var accepted := manager.AcceptChunk(streamId, chunk);
      if accepted.Err? {
        return Err(Transport(accepted.error));
      }
      if streamId !in providers {
        return Err(NoProvider);
      }
      var provider := providers[streamId];
      var result := accepted.value.result;
      if accepted.value.audio.None? {
        return Ok(result);
      }
      var audio := accepted.value.audio.value;
      if provider.committed {
        var written := manager.AcknowledgeProcessed(streamId, |audio|);
        return Ok(result.(bufferedBytes := manager.streams[streamId].state.bufferedBytes));
      }
      if providerOk {
        providers := providers[streamId := provider.(received := provider.received + [Received(chunk.sequence, audio)])];
      }
      var written := manager.AcknowledgeProcessed(streamId, |audio|);
      if !providerOk {
        return Err(ProviderFailed);
      }
      return Ok(result.(bufferedBytes := manager.streams[streamId].state.bufferedBytes));
    }

    method Commit(streamId: string, providerOk: bool) returns (r: Result<(), BridgeError>)
      modifies this
      ensures streamId !in old(providers) ==> r == Err(NoProvider) && providers == old(providers)
      ensures streamId in old(providers) ==>
                && providers == old(providers)[streamId := AfterCommit(old(providers)[streamId], providerOk)]
                && (r.Ok? <==> providers[streamId].committed)
      ensures streamId in old(providers) ==>
                var before, after := old(providers)[streamId], providers[streamId];
                && after.received == before.received
                && (after.committed <==> before.committed || providerOk)
                && after.commitCalls == before.commitCalls + (if providerOk && !before.committed then 1 else 0)
    {
      if streamId !in providers {
        return Err(NoProvider);
      }
      var provider := providers[streamId];
      if provider.committed {
        assert providers == providers[streamId := provider];
        return Ok(());
      }
      if !providerOk {
        assert providers == providers[streamId := provider];
        return Err(ProviderFailed);
      }
      providers := providers[streamId := provider.(committed := true, commitCalls := provider.commitCalls + 1)];
      return Ok(());
    }

    method Reconnect(streamId: string, sessionId: string, token: string, generation: nat, nextSequence: nat)
      returns (r: Result<nat, BridgeError>)
      modifies manager
      ensures streamId in old(manager.streams) && streamId in providers ==>
                var record := old(manager.streams)[streamId];
                var refusal := ReconnectRefusal(record.state, sessionId, token == record.token, generation, nextSequence);
                && (refusal.Some? ==> r == Err(Transport(refusal.value)) && manager.streams == old(manager.streams))
                && (refusal.None? ==>
                    && r == Ok(record.state.nextSequence)
                    && manager.streams == old(manager.streams)[streamId :=
                         record.(state := record.state.(reconnectCount := record.state.reconnectCount + 1))])
      ensures streamId !in old(manager.streams) || streamId !in providers ==> r.Err?
    {
      var state := manager.Reconnect(streamId, sessionId, token, generation, nextSequence);
      if state.Err? {
        return Err(Transport(state.error));
      }
      if streamId !in providers {
        return Err(NoProvider);
      }
      return Ok(state.value.nextSequence);
    }

    /** `providerOk` tells whether the provider session's close or cancel returned or raised; the tables change first. */
    method Close(streamId: string, providerOk: bool) returns (r: Result<(), BridgeError>)
      modifies this, manager
      ensures streamId !in old(manager.streams) ==>
                r == Err(Transport(UnknownStream)) && providers == old(providers) && manager.streams == old(manager.streams)
      ensures streamId in old(manager.streams) ==>
                && r == (if streamId in old(providers) && !providerOk then Err(ProviderFailed) else Ok(()))
                && providers == old(providers) - {streamId}
                && manager.streams == old(manager.streams)[streamId :=
                     old(manager.streams)[streamId].(
                       state := old(manager.streams)[streamId].state.(closed := true, bufferedBytes := 0))]
    {
      var state := manager.Close(streamId);
      if state.Err? {
        return Err(Transport(state.error));
      }
      if streamId !in providers {
        return Ok(());
      }
      providers := providers - {streamId};
      if !providerOk {
        return Err(ProviderFailed);
      }
      return Ok(());
    }
  }
}
