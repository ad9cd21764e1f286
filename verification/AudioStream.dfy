/** Server side of the audio transport: sequencing, buffering and reconnection of one stream. */
module AudioStream {
  import opened Common
  import opened Pcm

  datatype StreamError =
    | UnknownStream
    | StreamClosed
    | StaleGeneration
    | OutOfSequence
    | BadEncoding
    | ChunkSize
    | Backpressure
    | BadReconnect
    | BadAcknowledgement

  datatype StreamConfig = StreamConfig(maxChunkBytes: nat, maxBufferedBytes: nat)

  datatype StreamState = StreamState(
    sessionId: string,
    config: StreamConfig,
    generation: nat,
    nextSequence: nat,
    bufferedBytes: nat,
    acceptedChunks: nat,
    acceptedBytes: nat,
    duplicateChunks: nat,
    reconnectCount: nat,
    closed: bool)

  /** A chunk message; `audio` is None when its base64 text does not decode. */
  datatype ChunkMessage = ChunkMessage(sequence: nat, generation: nat, audio: Option<seq<Byte>>)

  datatype ChunkResult = ChunkResult(duplicate: bool, sequence: nat, nextSequence: nat, bufferedBytes: nat)

  /** Outcome of accepting a chunk; `audio` is None for a duplicate. */
  datatype Accepted = Accepted(result: ChunkResult, audio: Option<seq<Byte>>)

  function Opened(sessionId: string, generation: nat, config: StreamConfig): StreamState {
    StreamState(sessionId, config, generation, 0, 0, 0, 0, 0, 0, false)
  }

  /** Why the chunk that has the expected sequence number is refused, if it is. */
  function Refusal(st: StreamState, audio: Option<seq<Byte>>): Option<StreamError> {
    if audio.None? then Some(BadEncoding)
    else if |audio.value| == 0 || |audio.value| > st.config.maxChunkBytes then Some(ChunkSize)
    else if st.bufferedBytes + |audio.value| > st.config.maxBufferedBytes then Some(Backpressure)
    else None
  }

  function Admission(st: StreamState, chunk: ChunkMessage): Result<Accepted, StreamError> {
    if st.closed then Err(StreamClosed)
    else if chunk.generation != st.generation then Err(StaleGeneration)
    else if chunk.sequence < st.nextSequence then
      Ok(Accepted(ChunkResult(true, chunk.sequence, st.nextSequence, st.bufferedBytes), None))
    else if chunk.sequence > st.nextSequence then Err(OutOfSequence)
    else if Refusal(st, chunk.audio).Some? then Err(Refusal(st, chunk.audio).value)
    else
      Ok(Accepted(
        ChunkResult(false, chunk.sequence, st.nextSequence + 1, st.bufferedBytes + |chunk.audio.value|),
        chunk.audio))
  }

  function AfterAdmission(st: StreamState, chunk: ChunkMessage): StreamState {
    match Admission(st, chunk)
    case Err(_) => st
    case Ok(Accepted(_, None)) => st.(duplicateChunks := st.duplicateChunks + 1)
    case Ok(Accepted(_, Some(audio))) =>
      st.(bufferedBytes := st.bufferedBytes + |audio|,
          acceptedChunks := st.acceptedChunks + 1,
          acceptedBytes := st.acceptedBytes + |audio|,
          nextSequence := st.nextSequence + 1)
  }

  /** The check behind a reconnect request; the token has already been compared. */
  function ReconnectRefusal(st: StreamState, sessionId: string, tokenMatches: bool, generation: nat,
                            nextSequence: nat): Option<StreamError> {
    if st.closed then Some(StreamClosed)
    else if sessionId != st.sessionId || !tokenMatches then Some(BadReconnect)
    else if generation != st.generation then Some(StaleGeneration)
    else if nextSequence > st.nextSequence then Some(OutOfSequence)
    else None
  }

  /** What holds of a stream that has not been rotated to a new generation. */
  ghost predicate Balanced(st: StreamState) {
    && st.bufferedBytes <= st.config.maxBufferedBytes
    && st.bufferedBytes <= st.acceptedBytes
    && st.nextSequence == st.acceptedChunks
  }

  lemma AdmissionKeepsBalance(st: StreamState, chunk: ChunkMessage)
    requires Balanced(st)
    ensures Balanced(AfterAdmission(st, chunk))
    ensures AfterAdmission(st, chunk).nextSequence > st.nextSequence
       <==> Admission(st, chunk).Ok? && !Admission(st, chunk).value.result.duplicate
  {
  }

  /** The chunk is of the stream's generation, and a repetition or the next one, whole and small enough. */
  predicate Admissible(st: StreamState, chunk: ChunkMessage) {
    && !st.closed && chunk.generation == st.generation
    && (chunk.sequence < st.nextSequence
        || (chunk.sequence == st.nextSequence && chunk.audio.Some?
            && 1 <= |chunk.audio.value| <= st.config.maxChunkBytes
            && |chunk.audio.value| <= st.config.maxBufferedBytes - st.bufferedBytes))
  }

  /** Admission, case by case: a repetition is only counted, the next chunk is taken, and the first thing wrong is reported. */
  lemma AdmissionIff(st: StreamState, chunk: ChunkMessage)
    ensures Admission(st, chunk).Ok? <==> Admissible(st, chunk)
    ensures Admissible(st, chunk) ==>
              var r, t := Admission(st, chunk).value, AfterAdmission(st, chunk);
              && r.result == ChunkResult(chunk.sequence < st.nextSequence, chunk.sequence, t.nextSequence, t.bufferedBytes)
              && if chunk.sequence < st.nextSequence
                 then r.audio.None? && t == st.(duplicateChunks := st.duplicateChunks + 1)
                 else r.audio == chunk.audio && t.nextSequence == st.nextSequence + 1
                      && t.bufferedBytes == st.bufferedBytes + |chunk.audio.value|
                      && t == st.(bufferedBytes := t.bufferedBytes, nextSequence := t.nextSequence,
                                  acceptedChunks := st.acceptedChunks + 1,
                                  acceptedBytes := st.acceptedBytes + |chunk.audio.value|)
    ensures !Admissible(st, chunk) ==>
              && AfterAdmission(st, chunk) == st
              && Admission(st, chunk).error == (
                   if st.closed then StreamClosed
                   else if chunk.generation != st.generation then StaleGeneration
                   else if chunk.sequence > st.nextSequence then OutOfSequence
                   else if chunk.audio.None? then BadEncoding
                   else if 1 <= |chunk.audio.value| <= st.config.maxChunkBytes then Backpressure
                   else ChunkSize)
  {
  }

  /** A reconnect is taken exactly from the stream's own client, at a cursor the server has reached. */
  lemma ReconnectIff(st: StreamState, sessionId: string, tokenMatches: bool, generation: nat, nextSequence: nat)
    ensures ReconnectRefusal(st, sessionId, tokenMatches, generation, nextSequence).None? <==>
              !st.closed && sessionId == st.sessionId && tokenMatches && generation == st.generation
              && nextSequence <= st.nextSequence
  {
  }

  datatype StreamRecord = StreamRecord(state: StreamState, token: string)

  /** The table of streams, changed in place by each operation. */
  class AudioStreamManager {
    var streams: map<string, StreamRecord>

    constructor ()
      ensures streams == map[]
    {
      streams := map[];
    }

    method Open(streamId: string, token: string, sessionId: string, generation: nat, config: StreamConfig)
      modifies this
      ensures streams == old(streams)[streamId := StreamRecord(Opened(sessionId, generation, config), token)]
    {
      streams := streams[streamId := StreamRecord(Opened(sessionId, generation, config), token)];
    }

    method AcceptChunk(streamId: string, chunk: ChunkMessage) returns (r: Result<Accepted, StreamError>)
      modifies this
      ensures streamId !in old(streams) ==> r == Err(UnknownStream) && streams == old(streams)
      ensures streamId in old(streams) ==>
                var record := old(streams)[streamId];
                && r == Admission(record.state, chunk)
                && streams == old(streams)[streamId := record.(state := AfterAdmission(record.state, chunk))]
    {
      if streamId !in streams {
        return Err(UnknownStream);
      }
      var record := streams[streamId];
      var state := record.state;
      assert streams[streamId := record] == streams;
      if state.closed {
        return Err(StreamClosed);
      }
      if chunk.generation != state.generation {
        return Err(StaleGeneration);
      }
      if chunk.sequence < state.nextSequence {
        state := state.(duplicateChunks := state.duplicateChunks + 1);
        streams := streams[streamId := record.(state := state)];
        return Ok(Accepted(ChunkResult(true, chunk.sequence, state.nextSequence, state.bufferedBytes), None));
      }
      if chunk.sequence > state.nextSequence {
        return Err(OutOfSequence);
      }
      if chunk.audio.None? {
        return Err(BadEncoding);
      }
      var size := |chunk.audio.value|;
      if size == 0 || size > state.config.maxChunkBytes {
        return Err(ChunkSize);
      }
      var projected := state.bufferedBytes + size;
      if projected > state.config.maxBufferedBytes {
        return Err(Backpressure);
      }
      state := state.(bufferedBytes := projected);
      state := state.(acceptedChunks := state.acceptedChunks + 1);
      state := state.(acceptedBytes := state.acceptedBytes + size);
      state := state.(nextSequence := state.nextSequence + 1);
      streams := streams[streamId := record.(state := state)];
      return Ok(Accepted(
          ChunkResult(false, chunk.sequence, state.nextSequence, state.bufferedBytes), chunk.audio));
    }

    method AcknowledgeProcessed(streamId: string, byteCount: int) returns (r: Result<StreamState, StreamError>)
      modifies this
      ensures r.Ok? <==> streamId in old(streams) && 0 <= byteCount <= old(streams)[streamId].state.bufferedBytes
      ensures r.Err? ==> streams == old(streams)
      ensures r.Ok? ==>
                var record := old(streams)[streamId];
                && r.value == record.state.(bufferedBytes := record.state.bufferedBytes - byteCount)
                && streams == old(streams)[streamId := record.(state := r.value)]
    {
      if streamId !in streams {
        return Err(UnknownStream);
      }
      var record := streams[streamId];
      if byteCount < 0 || byteCount > record.state.bufferedBytes {
        return Err(BadAcknowledgement);
      }
      var state := record.state.(bufferedBytes := record.state.bufferedBytes - byteCount);
      streams := streams[streamId := record.(state := state)];
      return Ok(state);
    }

    method RotateGeneration(streamId: string, generation: nat) returns (r: Result<StreamState, StreamError>)
      modifies this
      ensures r.Ok? <==> && streamId in old(streams)
                         && !old(streams)[streamId].state.closed
                         && generation > old(streams)[streamId].state.generation
      ensures r.Err? ==> streams == old(streams)
      ensures r.Ok? ==>
                var record := old(streams)[streamId];
                && r.value == record.state.(generation := generation, nextSequence := 0, bufferedBytes := 0)
                && streams == old(streams)[streamId := record.(state := r.value)]
    {
      if streamId !in streams {
        return Err(UnknownStream);
      }
      var record := streams[streamId];
      var state := record.state;
      if state.closed {
        return Err(StreamClosed);
      }
      if generation <= state.generation {
        return Err(StaleGeneration);
      }
      state := state.(generation := generation, nextSequence := 0, bufferedBytes := 0);
      streams := streams[streamId := record.(state := state)];
      return Ok(state);
    }

    method Reconnect(streamId: string, sessionId: string, token: string, generation: nat, nextSequence: nat)
      returns (r: Result<StreamState, StreamError>)
      modifies this
      ensures streamId !in old(streams) ==> r == Err(UnknownStream)
      ensures streamId in old(streams) ==>
                var record := old(streams)[streamId];
                var refusal := ReconnectRefusal(record.state, sessionId, token == record.token, generation, nextSequence);
                && (refusal.Some? ==> r == Err(refusal.value))
                && (refusal.None? ==> r == Ok(record.state.(reconnectCount := record.state.reconnectCount + 1)))
      ensures r.Err? ==> streams == old(streams)
      ensures r.Ok? ==> streams == old(streams)[streamId := old(streams)[streamId].(state := r.value)]
    {
      if streamId !in streams {
        return Err(UnknownStream);
      }
      var record := streams[streamId];
      var state := record.state;
      if state.closed {
        return Err(StreamClosed);
      }
      if sessionId != state.sessionId {
        return Err(BadReconnect);
      }
      if token != record.token {
        return Err(BadReconnect);
      }
      if generation != state.generation {
        return Err(StaleGeneration);
      }
      if nextSequence > state.nextSequence {
        return Err(OutOfSequence);
      }
      state := state.(reconnectCount := state.reconnectCount + 1);
      streams := streams[streamId := record.(state := state)];
      return Ok(state);
    }

    method Close(streamId: string) returns (r: Result<StreamState, StreamError>)
      modifies this
      ensures r.Ok? <==> streamId in old(streams)
      ensures r.Err? ==> r == Err(UnknownStream) && streams == old(streams)
      ensures r.Ok? ==>
                var record := old(streams)[streamId];
                && r.value == record.state.(closed := true, bufferedBytes := 0)
                && streams == old(streams)[streamId := record.(state := r.value)]
    {
      if streamId !in streams {
        return Err(UnknownStream);
      }
      var record := streams[streamId];
      var state := record.state.(closed := true, bufferedBytes := 0);
      streams := streams[streamId := record.(state := state)];
      return Ok(state);
    }
  }
}
