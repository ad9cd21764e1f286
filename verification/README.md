# Nora interviewer: a verified model

Nora runs job interviews by text and voice. This project models the parts of it that hold state
over time and proves what every run keeps. One module stands for one component.

* **Audio transport** (`Resampler`, `Pcm`, `SttClient`, `AudioStream`, `SpeechBridge`, `Transport`,
  `TransportSafety`, `TransportTheorems`, `TransportProgress`, `TransportCounterexample`): the browser client that resamples,
  frames, numbers and replays microphone audio, the server that admits it, the speech provider behind it,
  and the two channels between them, with connections that drop at any point.
* **Event log and store** (`Events`, `AuditChain`, `SessionStore`, `StoreRuns`, `WebhookRuns`): the hash chain,
  the compare-and-swap store, and operations interleaved at every suspension point over the store that turns
  commits into webhook deliveries.
* **Interview service** (`Interview`, `Service`, `Plans`, `ServiceObject`, `ServiceRuns`): the session, its operations, and the
  working-copy object that carries them out. `Interview` has the atomic changes, `Service` says which of them an
  operation makes or why it refuses, and `ServiceObject` has the methods that do it in place. `ServiceRuns` shows
  that operations interleaved over the store amount to the accepted ones taken one after another. `Plans` has the
  clauses a theorem may ask of the brain and of tools, and each theorem names those it needs. When each operation is
  accepted and what it leaves behind, in terms of the session alone, is in `Outcomes` (answers, starts, requested tools),
  `AnchorShare` (which question the planner puts), `JudgedEvidence`, `Submissions`, `Controls` and `Amendments`
  (corrections, observations, re-evaluations, cancellation, and what an ended session keeps); `ToolBudget`,
  `Accounting` and `Summaries` have laws of all histories, and `Brains` what the two brains decide. The theorems about
  all histories of operations are in `Replay` (the log replays to the live session), `Counterfactual` (the
  snapshot equals what the brain was shown), `Policy` (length bounds, planner and brains), `Report` (judge runs and
  grounded evidence) and `Reevaluation` (all or nothing); `InterviewCounterexamples` has the histories that break
  what one might expect.
* **Evidence** (`Evidence`, `JudgeGate`, `Ensemble`): the incrementally kept evidence graph, the grounding gate
  and the quorum of judges.
* **Timed and concurrent machines** (`Vad`, `Breakers`, `VoiceOutput`): the energy voice activity detector, the two
  circuit breakers, and the text-to-speech bridge with barge-in.

Where the source updates objects, the module has a class whose methods are proved equal to a function on values;
the theorems are about those functions and about runs built from them. Randomness, clocks, brains, judges, tool
evaluators, providers and delivery outcomes are inputs of the steps, so the theorems hold whatever they do, up to
the hypotheses each theorem states. Identifiers from `uuid4` are numbers never issued before. Reals stand for
floating-point numbers.

## What turned out false, and when it is true

* Streaming resampling is not independent of how the input is cut when the input rate is more than twice the
  output rate: 48000 to 16000 Hz, two pushes of 128 samples, gives 86 samples instead of 85
  (`Resampler.FortyEightToSixteen`). It is independent exactly up to ratio two
  (`Resampler.CutIndependentIffRatioAtMostTwo`).
* The client flushes frames while a reconnect request is unanswered. After a second drop a frame can then be heard
  twice under two numbers (`TransportCounterexample.EarlyChunkIsHeardTwice`). Reconciling keeps the numbering exactly
  when the server's cursor is not past the client's (`TransportSafety.ReconcileKeepsNumbersIff`); that is the
  hypothesis `RepliesInRange` of the transport theorems, and runs in which no chunk leaves during a reconnect
  satisfy it (`TransportTheorems.QuietRunsStayInRange`).
* A commit can overtake the end of the recording. While the user's stop waits for the microphone to be released, a
  reconnect reply makes the client drain and commit although the last partial frame is not queued yet; the frame is
  then acknowledged and never heard (`TransportCounterexample.HastyCommitLosesTheEnd`). With no
  detector stop and no failed push, a commit requested by the client is complete exactly when it left with no samples
  pending (`TransportTheorems.UserCommitIsCompleteIff`), and samples are pending after the recording only during that
  wait (`TransportTheorems.PendingWhileStopping`).
* The two circuit breakers agree exactly when the clock never shows a negative time: a fresh registry record has
  deadline 0.0 (`Breakers.EquivalentIffClockNotNegative`).
* The ensemble prefixes the winning rationale with its own text and rejects its own result when the two together
  exceed 2000 characters (`Ensemble.LongRationaleRaises`), and its gate refuses its result when the joined judge ids
  do not fit into an evidence source of 160 characters. Both conditions are exact, on the votes and on the names
  (`Ensemble.ResponseIsSafe`); rationales that leave room for the ensemble's words never make it raise
  (`Ensemble.BriefJudgesNeverRaise`).
* A re-evaluation that fails after superseding (a malformed ensemble audit, or a finding for a competency the job does
  not have) leaves the old evidence superseded (`InterviewCounterexamples.FailedReevaluationWithdraws`).
  `Reevaluation.ReevaluationIsAllOrNothing` says exactly when failure leaves the graph as it was.
* The counters a snapshot recounts differ from the live ones after an opening that follows up
  (`InterviewCounterexamples.FollowingOpeningIsMiscounted`) or completes, or an anchor-lane decision naming a competency
  again; `Counterfactual.AskKeepsCountersIff` says exactly when.
* A replay ignores a tool without an id and does not notice one that arrives cancelled (`Replay.ManualToolAgreesIff`);
  and it forgets the pause flag of an interview completed by a tool submission, which the session keeps
  (`InterviewCounterexamples.PauseIsForgotten`; `Replay.ReplayIsLive` says that this is the only difference).
* A language-model opening turns into the closing words, in an interview that goes on, exactly when tools submitted
  before the start have used up the questions (`InterviewCounterexamples.OpeningCloses`,
  `Policy.ModelKeepsContractIff`).

## Model

| member | source | states |
|---|---|---|
| Resampler.LinearResampler.Push | src/nora_interviewer/web/server_stt.js:13-43 | a push emits what linear interpolation gives at each due position and keeps the unconsumed tail and the fractional position |
| Resampler.StreamIsReference | src/nora_interviewer/web/server_stt.js:13-43 | up to ratio two, the outputs of any sequence of pushes concatenate to one interpolation of the concatenated input |
| Resampler.OneShotIsReference | src/nora_interviewer/web/server_stt.js:26-37 | one push of N samples yields ceil((N-1)/ratio) samples, each interpolated at its grid position |
| Resampler.LineIsResampledExactly | src/nora_interviewer/web/server_stt.js:26-37 | a straight line, cut up in any way at most two to one, comes out as the same line: output k has the value the line has at k times the ratio |
| Resampler.EqualRatesPassThrough | src/nora_interviewer/web/server_stt.js:17-19 | with equal rates the stream is its input |
| Resampler.CutAddsOutput | src/nora_interviewer/web/server_stt.js:39-42 | above ratio two there is, for every such pair of rates, a cut that yields too many samples |
| Resampler.CutIndependentIffRatioAtMostTwo | src/nora_interviewer/web/server_stt.js:13-43 | streaming equals one push for every input and every cut if and only if the input rate is at most twice the output rate |
| Resampler.FortyEightToSixteen | src/nora_interviewer/web/server_stt.js:39-42 | 48000 to 16000 Hz in two pushes of 128 samples gives 86 samples, in one push 85 |
| Pcm.Quantize | src/nora_interviewer/web/server_stt.js:524-535 | samples are within sixteen bits, full scale at and beyond both ends, silence at zero; in between see the next row |
| Pcm.QuantizeIsNearest | src/nora_interviewer/web/server_stt.js:524-535 | every sample is the nearest integer to the clamped input at the scale of its sign, halves going up, and louder input never gives a smaller sample |
| Pcm.UnpackBytes | src/nora_interviewer/web/server_stt.js:607-614 | the bytes sent decode to the samples framed |
| Pcm.BytesAreLittleEndian | src/nora_interviewer/web/server_stt.js:607-614 | each sample is two bytes, the low one first, of its value modulo two to the sixteen |
| Pcm.FramesKeepSamples | src/nora_interviewer/web/server_stt.js:537-572 | cutting into fixed-size frames loses no sample and keeps the order |
| SttClient.ServerSttClient.FlushFrames | src/nora_interviewer/web/server_stt.js:575-605 | frames leave the queue in order under consecutive numbers while the window, the socket buffer and the queue allow |
| SttClient.FlushCountIsExhaustive | src/nora_interviewer/web/server_stt.js:584-591 | a flush stops only when the queue is empty, six frames are in flight, or the socket buffer is full |
| SttClient.ServerSttClient.HandleSamples | src/nora_interviewer/web/server_stt.js:515-573 | captured audio is resampled, quantised, framed and flushed; without a resampler, or with neither an active recording nor a stream being opened, it is dropped |
| SttClient.ServerSttClient.AppendPcm | src/nora_interviewer/web/server_stt.js:537-571 | full frames are queued in order and the rest stays pending; one frame too many fails the client |
| SttClient.FailsIffQueueIsFull | src/nora_interviewer/web/server_stt.js:537-571 | samples that complete n frames fail the client exactly when n is not zero and more than 150 frames would be queued; a failed client has forgotten its stream, and any other has lost no sample |
| SttClient.ServerSttClient.DropAcknowledged | src/nora_interviewer/web/server_stt.js:786-797 | exactly the in-flight frames below the server's cursor are forgotten |
| SttClient.ServerSttClient.OnChunkAck | src/nora_interviewer/web/server_stt.js:786-821 | an acknowledgement moves the window; a detector recommendation to a recording client ends the recording and discards queue and pending samples, and nothing else does |
| SttClient.ServerSttClient.ReconcileAfterReconnect | src/nora_interviewer/web/server_stt.js:382-400 | frames in flight at or above the server's cursor go back in front of the queue and numbering restarts at the cursor |
| SttClient.SortFixesAscending | src/nora_interviewer/web/server_stt.js:383-390 | sorting the replayed entries by number changes nothing, because the window is kept in order |
| SttClient.ServerSttClient.BeginStop | src/nora_interviewer/web/server_stt.js:616-623 | stopping an active recording ends it before the microphone is released; queue and pending samples stay |
| SttClient.ServerSttClient.EndStop | src/nora_interviewer/web/server_stt.js:625-633 | once the microphone is released the final partial frame is queued and flushed |
| SttClient.ServerSttClient.Drained | src/nora_interviewer/web/server_stt.js:668-688 | the drain is over exactly when queue and window are empty |
| SttClient.ServerSttClient.Fail | src/nora_interviewer/web/server_stt.js:953-966 | a failure forgets the stream and every frame |
| AudioStream.AudioStreamManager.Open | src/nora_interviewer/audio_stream_manager.py:39-61 | a stream opens empty, at sequence zero |
| AudioStream.AudioStreamManager.AcceptChunk | src/nora_interviewer/audio_stream_manager.py:79-152 | only the next number is accepted and counted; lower ones are absorbed as duplicates; gaps, wrong generations, undecodable, empty, oversized and overfilling chunks are refused unchanged |
| AudioStream.AdmissionKeepsBalance | src/nora_interviewer/audio_stream_manager.py:120-152 | buffered bytes stay within the limit and within the bytes accepted, the cursor counts the accepted chunks, and it moves exactly for a chunk that is new |
| AudioStream.AdmissionIff | src/nora_interviewer/audio_stream_manager.py:79-152 | exactly a repetition or the next chunk, of an open stream's own generation, decodable and within both size limits, is admitted; otherwise the first thing wrong is reported and nothing changes |
| AudioStream.AudioStreamManager.AcknowledgeProcessed | src/nora_interviewer/audio_stream_manager.py:154-169 | processed bytes leave the buffer; more than are buffered, or fewer than none, is an error |
| AudioStream.AudioStreamManager.RotateGeneration | src/nora_interviewer/audio_stream_manager.py:171-191 | the generation of an open stream only moves forward |
| AudioStream.AudioStreamManager.Reconnect | src/nora_interviewer/audio_stream_manager.py:193-232 | a reconnect needs the session, token and generation of the stream and a cursor not past the server's; it changes only the reconnect count |
| AudioStream.ReconnectIff | src/nora_interviewer/audio_stream_manager.py:193-232 | a reconnect is taken exactly with the stream's session, token and generation and a cursor the server has reached |
| AudioStream.AudioStreamManager.Close | src/nora_interviewer/audio_stream_manager.py:234-242 | closing writes off what is buffered |
| SpeechBridge.VoiceStreamBridge.PushChunk | src/nora_interviewer/voice_stream_bridge.py:236-313 | an accepted chunk is forwarded once and acknowledged whether or not the provider takes it; duplicates and chunks after a commit are not forwarded |
| SpeechBridge.BeginNeverOverfills | src/nora_interviewer/voice_stream_bridge.py:236-280 | no chunk brings the buffer past its limit, only the next chunk is forwarded and its bytes are written off again, and none is forwarded once the provider is committed |
| SpeechBridge.NextChunkIsForwarded | src/nora_interviewer/voice_stream_bridge.py:236-280 | a chunk goes on to the provider exactly when it is admitted, new, and the provider not committed; anything else admitted is answered with the server's cursor |
| SpeechBridge.VoiceStreamBridge.Commit | src/nora_interviewer/voice_stream_bridge.py:315-344 | the provider is committed at most once; a failed commit may be repeated |
| SpeechBridge.VoiceStreamBridge.Reconnect | src/nora_interviewer/voice_stream_bridge.py:370-389 | a reconnect is the manager's, and leaves the provider stream alone |
| SpeechBridge.VoiceStreamBridge.Close | src/nora_interviewer/voice_stream_bridge.py:391-416 | closing removes the provider stream and closes the manager's, and only then tells the provider session, whose failure is raised |
| TransportSafety.StepInv | src/nora_interviewer/web/server_stt.js:382-400 | every step of client, server, provider and channels, the two halves of a stop included, keeps: frame k is queued, in flight, buffered or heard under number k |
| TransportSafety.ReconcileKeepsNumbersIff | src/nora_interviewer/web/server_stt.js:382-400 | reconciling keeps number k on frame k exactly when the server's cursor is not past the client's |
| TransportTheorems.ProviderHearsCapturedAudio | src/nora_interviewer/voice_stream_bridge.py:236-313 | over any run of captures, sends, acknowledgements, drops and reconnects the provider hears frames in order, each at most once, and without failed pushes exactly a prefix of the captured audio; at most six in flight, buffer within its limit, at most one commit |
| TransportTheorems.UserCommitIsComplete | src/nora_interviewer/web/server_stt.js:616-688 | a client that never commits with samples pending: when its commit has been processed, with no detector stop and no failed push, everything captured has been heard, the last partial frame included |
| TransportTheorems.UserCommitIsCompleteIff | src/nora_interviewer/web/server_stt.js:343-354 | in any run with no detector stop and no failed push, a processed client commit is complete if and only if it left with no samples pending |
| TransportTheorems.PendingWhileStopping | src/nora_interviewer/web/server_stt.js:616-633 | after the recording, samples are pending only while the stop waits for the microphone |
| TransportTheorems.CommitFreezesProvider | src/nora_interviewer/voice_stream_bridge.py:252-266 | what was heard only grows, and once committed nothing is ever pushed again |
| TransportTheorems.QuietRunsStayInRange | src/nora_interviewer/web/server_stt.js:269-373 | if no chunk leaves between a reconnect request and its reply, no reply ever runs ahead of the client |
| TransportTheorems.DetectorEndsRecording | src/nora_interviewer/web/server_stt.js:799-817 | a client that is recording and receives an acknowledgement with the detector's recommendation ends the recording, with nothing queued and nothing pending |
| TransportTheorems.OtherAcksKeepRecording | src/nora_interviewer/web/server_stt.js:786-821 | no other acknowledgement ends a recording |
| TransportTheorems.NothingCapturedAfterDetector | src/nora_interviewer/web/server_stt.js:799-817 | in every run, once such an acknowledgement has been received, nothing is captured any more |
| TransportProgress.ExchangeDelivers | src/nora_interviewer/web/server_stt.js:575-605 | whenever client and server are in step, one exchange gives the provider the first frame it has not been given, and leaves them in step |
| TransportProgress.LostAckDelivers | src/nora_interviewer/web/server_stt.js:382-400 | the same when the connection drops after the provider took the frame and the client reconnects without having heard of it: the frame is not sent again |
| TransportProgress.RecordingIsHeard | src/nora_interviewer/web/server_stt.js:515-688 | a recording that fits the queue is heard in full: through any number of captures, exchanges, dropped connections and lost acknowledgements, then a stop and one exchange for each frame still waiting, the commit completes and the provider has heard every sample, in order and once |
| TransportCounterexample.EarlyChunkIsHeardTwice | src/nora_interviewer/web/server_stt.js:575-582 | a run in which a chunk does leave then and one frame is heard under two numbers |
| TransportCounterexample.HastyCommitLosesTheEnd | src/nora_interviewer/web/server_stt.js:343-354 | a run in which a reconnect commits during that wait: the last frame is acknowledged and never heard |
| AuditChain.EventLog.VerifyEventChain | src/nora_interviewer/audit.py:55-107 | the verification loop returns the head, nothing for a legacy list, or the first defect |
| AuditChain.VerifyIffChained | src/nora_interviewer/audit.py:55-107 | verification succeeds exactly on legacy lists and on lists in which every event hashes its own content and its predecessor's hash |
| AuditChain.FirstDefectIsReported | src/nora_interviewer/audit.py:55-107 | a list that does not verify is reported as mixed, or by the first event whose version, link or hash is wrong, in this order, everything before it being chained |
| AuditChain.LegacyIff | src/nora_interviewer/audit.py:55-70 | there is nothing to verify exactly in lists whose events bear none of the chain's three fields |
| AuditChain.SameHeadSameHistory | src/nora_interviewer/audit.py:19-107 | with a collision-free hash, two hashed lists that verify with the same head are identical, whatever their lengths |
| AuditChain.EventLog.SealEventChain | src/nora_interviewer/audit.py:110-143 | a legacy list is sealed in place, a hashed one is verified and left alone |
| AuditChain.SealIsIdempotent | src/nora_interviewer/audit.py:110-143 | sealing keeps every event's content, makes the list verify, and changes nothing the second time |
| AuditChain.EventLog.AppendEvent | src/nora_interviewer/audit.py:146-185 | appending seals first, then links the new event to the head; a broken chain is refused unchanged |
| AuditChain.AppendVerifies | src/nora_interviewer/audit.py:146-185 | appending to a sealed or legacy list gives a list that verifies with the new event at its head |
| AuditChain.ExtendKeepsGood | src/nora_interviewer/audit.py:146-185 | a log numbered from one and chained stays so |
| SessionStore.InMemoryStore.PutSession | src/nora_interviewer/storage.py:143-168 | a save succeeds exactly when the object carries the stored version, or none and version zero; it then carries the next one |
| SessionStore.InMemoryStore.GetSession | src/nora_interviewer/storage.py:170-175 | a read gives a copy of what was saved last |
| SessionStore.InMemoryStore.DeleteSession | src/nora_interviewer/storage.py:185-196 | a deletion removes that session alone |
| SessionStore.WebhookDispatchingStore.Commit | src/nora_interviewer/webhooks.py:293-312 | a successful save yields exactly the deliveries wanted by events past the previously stored sequence number |
| SessionStore.WebhookDispatchingStore.Dispatch | src/nora_interviewer/webhooks.py:221-251 | one delivery for each safe event and each subscription of the same or of no organization that lists its kind, in order, and no other |
| SessionStore.WebhookDispatchingStore.SecondSave | src/nora_interviewer/webhooks.py:320-345 | delivery outcomes are appended, sealing a legacy log first, and saved; a conflict is swallowed, a broken chain raises with nothing changed, no outcomes mean no save |
| SessionStore.ForEventsHas | src/nora_interviewer/webhooks.py:221-251 | an event is delivered to a subscription exactly when that subscription wants it |
| SessionStore.ForEventsNoRepeats | src/nora_interviewer/webhooks.py:221-251 | no delivery is listed twice |
| StoreRuns.NoLostUpdates | src/nora_interviewer/storage.py:143-168 | under every interleaving the logs accepted for a session form a chain under prefix, each verifying and numbered 1..n, and the stored one is the last, under the number of accepted saves |
| StoreRuns.DeletedStaysDeleted | src/nora_interviewer/storage.py:150-168 | a deleted session is never brought back by a stale writer |
| StoreRuns.RefusedIffOutdated | src/nora_interviewer/storage.py:151-163 | a saved object is refused exactly when the store has moved past it or dropped its session |
| StoreRuns.RefusedForEver | src/nora_interviewer/webhooks.py:338-345 | an object whose save was refused can never be saved again |
| WebhookRuns.ExactlyOnce | src/nora_interviewer/webhooks.py:289-345 | under every interleaving a committed, wanted event is dispatched or pending, never both and never twice, and delivery records are never dispatched |
| WebhookRuns.CommitMakesDue | src/nora_interviewer/webhooks.py:293-312 | an accepted commit makes due exactly the deliveries it queues, none of which was due before |
| WebhookRuns.TenantsHearOfTheirOwn | src/nora_interviewer/webhooks.py:221-251 | under every interleaving whatever is delivered, or about to be, is a committed event of a listed kind that is not private, in a session of the subscription's own organization unless it has none |
| WebhookRuns.NobodyIsPassedOver | src/nora_interviewer/webhooks.py:221-251 | every committed event of a kind that may be announced, by name completion, cancellation, tools, artifacts, appeals and reviews, is delivered or about to be to every subscription that lists it and is of the same or of no organization |
| Evidence.EvidenceGraph.RecordClaim | src/nora_interviewer/evidence.py:36-69 | a claim is appended and lifts only a weaker node, clearing its confidence |
| Evidence.EvidenceGraph.ApplyObservation | src/nora_interviewer/evidence.py:72-122 | an observation is appended and takes over unless the node is contradicted or stronger |
| Evidence.EvidenceGraph.Recomputed | src/nora_interviewer/evidence.py:127-162 | the two passes give the strongest active state and the best confidence in it |
| Evidence.EvidenceGraph.SupersedeSemanticEvidenceForTurn | src/nora_interviewer/evidence.py:165-190 | the turn's active semantic items are retired, returned in order, and the nodes they were in recomputed |
| Evidence.StrongestIsMaximum | src/nora_interviewer/evidence.py:127-148 | the recomputed state bounds the rank of every active item and is reached by one, or is unknown |
| Evidence.IncrementalIsRecomputed | src/nora_interviewer/evidence.py:36-190 | after any claims, observations and supersessions each node's state is what recomputing would give and its confidence is none or that of an active item in that state |
| Evidence.SupersedeRetires | src/nora_interviewer/evidence.py:165-190 | superseding a turn touches exactly its active semantic items and leaves none |
| JudgedEvidence.ClaimMoves | src/nora_interviewer/evidence.py:36-69 | a claim lifts an unknown or insufficient node to claimed without a confidence, and changes no other node |
| Amendments.ObservingMoves | src/nora_interviewer/evidence.py:72-122 | a node takes over state and confidence of an observation at least as strong as itself, unless it is contradicted |
| Amendments.RecomputedFromItems | src/nora_interviewer/evidence.py:127-162 | a recomputed node has the strongest state of its active items, and the best confidence in it unless it is a mere claim |
| JudgeGate.Validate | src/nora_interviewer/evidence_judge.py:216-257 | the gate passes a response exactly when every finding is unverified, literally quoted, quoted where it must be, and its source fits; the error is that of the first offender |
| JudgeGate.PassesIffGrounded | src/nora_interviewer/evidence_judge.py:216-257 | the gate passes exactly findings that are not verified, quote literally, quote where they demonstrate or contradict, and whose source fits |
| Ensemble.QuorumIsUnique | src/nora_interviewer/evidence_ensemble.py:93-157 | at most one state can reach the threshold |
| Ensemble.QuorumDecides | src/nora_interviewer/evidence_ensemble.py:139-210 | a state with a quorum is the consensus; without one the finding is insufficient and unquoted |
| Ensemble.VoteIsCast | src/nora_interviewer/evidence_ensemble.py:56-91 | a judge votes exactly with a finding of a reply that is grounded throughout and names no competency twice, and with that finding |
| Ensemble.ConsensusIsOfTheVotes | src/nora_interviewer/evidence_ensemble.py:93-157 | a state with votes whose number is at least the threshold times the number of judges is the consensus; if there is none it is insufficient, without a quote |
| Ensemble.ConfidenceIsMean | src/nora_interviewer/evidence_ensemble.py:161-167 | the confidence of an agreed finding times the number of its voters is the sum of theirs |
| Ensemble.ConfidenceIsBetween | src/nora_interviewer/evidence_ensemble.py:161-167 | and lies between any bounds all of theirs keep |
| Ensemble.QuoteIsOfTheSurest | src/nora_interviewer/evidence_ensemble.py:161-178 | an agreed finding that needs a quote has that of a voter no other voter is surer than, and others have none |
| Ensemble.SplitConfidenceIsShare | src/nora_interviewer/evidence_ensemble.py:139-210 | without agreement the confidence is the greatest share of the judges that any state has |
| Ensemble.ConsensusIgnoresOrder | src/nora_interviewer/evidence_ensemble.py:100-210 | state and confidence do not depend on the order of the judges or on how ties are broken |
| Ensemble.ResponseIsSafe | src/nora_interviewer/evidence_ensemble.py:93-229 | whatever the judges do, one unverified finding for each requested competency, in order; it can be built exactly when every competency is named and the votes on it leave room for the ensemble's words, and passes the gate exactly when the ensemble's name fits |
| Ensemble.BriefJudgesNeverRaise | src/nora_interviewer/evidence_ensemble.py:179-210 | judges whose rationales leave room for the prefix never make the result impossible to build |
| Ensemble.LongRationaleRaises | src/nora_interviewer/evidence_ensemble.py:179-194 | two agreeing judges with rationales at the limit make the result impossible to build |
| Ensemble.EvidenceJudgeEnsemble.Collect | src/nora_interviewer/evidence_ensemble.py:56-91 | a judge that raises, fails the gate or repeats a competency has no vote and is counted as failed |
| Ensemble.EvidenceJudgeEnsemble.Combine | src/nora_interviewer/evidence_ensemble.py:100-210 | the votes of one competency combine to the specified finding |
| Ensemble.EvidenceJudgeEnsemble.Evaluate | src/nora_interviewer/evidence_ensemble.py:48-229 | for the replies of its own judges the loops compute the specified response, each finding in the state its votes give at the threshold, or fail exactly when a competency has no name or the votes leave no room |
| Ensemble.RequiredIsMajority | src/nora_interviewer/evidence_ensemble.py:93-96 | the required votes are more than half of the judges and at most all |
| ServiceObject.LiveSession.ApplyDecision | src/nora_interviewer/service.py:1413-1452 | the turn, the question count, the anchor list and the event of a decision |
| ServiceObject.LiveSession.Conclude | src/nora_interviewer/service.py:282-298 | decision, follow-up count, requested tool and completion together |
| ServiceObject.LiveSession.RecordCandidateClaim | src/nora_interviewer/service.py:245-262 | one claim and one event for each competency of the question |
| ServiceObject.LiveSession.JudgeCandidateEvidence | src/nora_interviewer/service.py:356-536 | gate, supersession, audit, observations and run record, with every failing path; what that leaves in the graph is said by the rows of JudgedEvidence |
| ServiceObject.LiveSession.ApplyTranscriptCorrection | src/nora_interviewer/service.py:954-1005 | the text is replaced, the revision recorded, and the semantic evidence of the old text withdrawn |
| ServiceObject.LiveSession.CancelEverything | src/nora_interviewer/service.py:323-353 | open and submitted tools are cancelled and logged in order, then the session |
| ServiceObject.InterviewService.Start | src/nora_interviewer/service.py:161-198 | the stored session moves by the plan of a start, or not at all with its error |
| ServiceObject.InterviewService.Answer | src/nora_interviewer/service.py:200-306 | an answer begins a new interview first and saves that; then question, claims, judgement, brain and planner decide the rest, as the rows of Outcomes and AnchorShare say without its functions |
| ServiceObject.InterviewService.AnswerControl | src/nora_interviewer/controls.py:13-116 | what each control answers and refers to, and when it makes no sense |
| ServiceObject.InterviewService.HandleCandidateControl | src/nora_interviewer/service.py:612-666 | repeats, clarifications, pauses, corrections and questions, and when each is refused |
| ServiceObject.InterviewService.SubmitTool | src/nora_interviewer/service.py:804-952 | submission, artifact turn, evaluation, verdict evidence and next question, or nothing |
| ServiceObject.InterviewService.OpenTool | src/nora_interviewer/service.py:754-802 | a tool is appended unless the session has ended or it repeats an id, names unknown competencies or an unknown turn |
| ServiceObject.InterviewService.CorrectTranscript | src/nora_interviewer/service.py:1007-1018 | only a candidate's turn can be corrected |
| ServiceObject.InterviewService.ReevaluateEvidence | src/nora_interviewer/service.py:538-610 | only a linked candidate answer of a tagged question is judged again, superseding its latest run |
| ServiceObject.InterviewService.SubmitAppeal | src/nora_interviewer/service.py:1020-1039 | an appeal may only name known turns |
| ServiceObject.InterviewService.ObserveEvidence | src/nora_interviewer/service.py:1139-1163 | outside observations must name a known competency and turn, quote literally, and not pose as verified judgements |
| ServiceObject.InterviewService.CancelSession | src/nora_interviewer/service.py:308-354 | a completed interview is not cancelled, a cancelled one is left alone |
| JudgedEvidence.FindingsAreRecorded | src/nora_interviewer/service.py:387-500 | after a call judged well each finding is an active item of its competency's node with the finding's own state, confidence and quote, on the answer and in the judge's name; the run lists exactly the new items; each such node is at least as strong, a contradicted one contradicted |
| JudgedEvidence.AnswerIsOnRecord | src/nora_interviewer/service.py:226-263 | after an accepted answer to a question with competencies, every finding of a sound judge is on record for it |
| JudgedEvidence.ReevaluationIsOnRecord | src/nora_interviewer/service.py:538-610 | after an accepted re-evaluation every finding of a sound judge is on record |
| JudgedEvidence.AnswerIsClaimed | src/nora_interviewer/service.py:245-262 | after every accepted answer each competency of the question bears the candidate's own active claim, judged or not |
| Outcomes.AnswerIsAcceptedIff | src/nora_interviewer/service.py:200-298 | an answer to an interview under way is accepted exactly when it is running and not paused, brain and any needed judge replied, and the tool asked for, if any, is granted or an anchor takes its place; a refusal changes nothing |
| Outcomes.AnswerOutcome | src/nora_interviewer/service.py:200-306 | an accepted answer is linked to the latest evaluative question, and followed by the due anchor's question or the brain's decision, with coverage, counts, lanes, tool and completion as that says |
| Outcomes.StartIsAcceptedIff | src/nora_interviewer/service.py:161-198 | a start is accepted exactly when the interview has begun or ended, an anchor is due, or the brain opens and its tool, if any, is granted |
| Outcomes.StartOutcome | src/nora_interviewer/service.py:161-198 | it puts the due anchor's question or else the brain's opening, which neither counts as a follow-up nor completes |
| Outcomes.RequestIsGranted | src/nora_interviewer/service.py:668-727 | a tool is granted exactly within the budget, from an unused template that the job lists for the competencies, if it could be made and has a new id and competencies of the job |
| Submissions.SubmissionIsAcceptedIff | src/nora_interviewer/service.py:804-876 | a submission is accepted exactly for an open tool of an interview that is not over, with evaluator and brain replying and the tool asked for granted; a refusal changes nothing |
| Submissions.SubmissionOutcome | src/nora_interviewer/service.py:804-952 | the tool is evaluated, the artifact answers the turn that opened it, the verdict is recorded, and the brain's decision is put |
| Submissions.VerdictIsRecorded | src/nora_interviewer/service.py:879-912 | a passed check is an active demonstrated item of each competency of the tool at full confidence, a failed one an insufficient one, each node is at least as strong, nothing else is added; without a verdict the graph stays |
| Controls.ControlIsAcceptedIff | src/nora_interviewer/controls.py:13-116 | a control is refused exactly after the end, or with nothing to repeat, explain, correct or answer |
| Controls.ControlOutcome | src/nora_interviewer/controls.py:13-116 | a repetition has the latest interviewer turn's text and lane, an explanation ends with it and what was asked, a candidate's question is set aside from the assessment; only the pause controls touch the pause flag |
| Controls.PausedIff | src/nora_interviewer/controls.py:71-87 | in every reachable session: paused exactly when the candidate asked for time to think and since then neither resumed nor had the session cancelled |
| Controls.PausedRefusesAnswers | src/nora_interviewer/service.py:215-216 | no answer is accepted while a session is paused |
| ToolBudget.ToolsStayWithinBudget | src/nora_interviewer/service.py:668-727 | in every history in which the brain alone opens tools and gets the template it asked for, the tools are within the job's budget, each from an entry of the job, and no two from the same one |
| Amendments.CorrectionIsAcceptedIff | src/nora_interviewer/service.py:954-963 | a correction is refused exactly for an unknown turn or one that is not the candidate's |
| Amendments.CorrectionOutcome | src/nora_interviewer/service.py:954-1005 | it replaces that text, adds one revision, and withdraws exactly what judges said of that turn; a node that lost something follows from what stays active |
| Amendments.ObservationIsAcceptedIff | src/nora_interviewer/evidence.py:72-122 | an observation from outside is accepted exactly for a competency of the job and a known turn, quoting literally, and not as a judge's verification; it moves the node of its competency and no other |
| Amendments.ToolIsAcceptedIff | src/nora_interviewer/service.py:754-802 | a tool opened by hand is accepted exactly before the end, with a new id, competencies of the job and a known turn, and is then the last one |
| Amendments.ReevaluationIsAcceptedIff | src/nora_interviewer/service.py:538-594 | a re-evaluation is accepted exactly with a judge, for a candidate's answer linked to an interviewer's question with competencies |
| Amendments.ReevaluationOutcome | src/nora_interviewer/service.py:574-610 | it adds one run about that question and answer that names as superseded the answer's latest run, the first of those with the latest time |
| Amendments.CancellationOutcome | src/nora_interviewer/service.py:308-354 | cancelling ends the session, its pause, and each tool that is open or submitted, and nothing else |
| Amendments.EndedIsFrozen | src/nora_interviewer/service.py:200-222 | once a session is completed or cancelled no operation changes its dialogue but for corrected texts, nor its counters, coverage and tools; runs, revisions and appeals only grow |
| Accounting.LogAccountsForEvidence | src/nora_interviewer/service.py:356-536 | in every reachable session the log has one observation for each evidence item, one supersession for each item no longer active, one record for each judge run, and one failure for each run that failed |
| Accounting.DisagreementIsLogged | src/nora_interviewer/service.py:424-459 | a call logs a disagreement exactly if its findings are grounded and its readable audit reports a dispute |
| Plans.PlanFine | src/nora_interviewer/service.py:161-354 | every change an operation makes is made where the service's own checks hold |
| ServiceRuns.StoredIsReached | src/nora_interviewer/storage.py:143-168 | under every interleaving of loads, operations, saves and deletions the stored session is what the accepted operations give one after another, and each version extends the earlier ones |
| ServiceRuns.AnswerIsStartThenAnswer | src/nora_interviewer/service.py:200-221 | an answer to an interview that has not begun is a start, saved on its own, and then that answer |
| Replay.ReplayEvents | src/nora_interviewer/replay.py:27-91 | the replay succeeds exactly on verifying, gaplessly numbered logs, and then folds every event |
| Replay.ReplayIsLive | src/nora_interviewer/replay.py:27-91 | replaying the log of any reachable session gives its status, turns, corrections, appeals and tool lists in order, and its pause flag unless it is completed |
| Replay.ManualToolAgreesIff | src/nora_interviewer/service.py:790-802 | a manually opened tool keeps replay and session in agreement exactly when it has an id and does not arrive cancelled |
| InterviewCounterexamples.PauseIsForgotten | src/nora_interviewer/replay.py:27-91 | a history after which the session is completed and paused while its replay is not paused |
| Counterfactual.Snapshot | src/nora_interviewer/counterfactual.py:80-109 | the three passes over the prefix give the recount of its turns |
| Counterfactual.CountersAreRecounted | src/nora_interviewer/service.py:1413-1452 | for brains whose reasons do not pose as anchors and whose openings neither complete nor follow up: in every reachable session that is not completed, question count, anchors and follow-up counts are a recount of the turns |
| Counterfactual.SnapshotIsWhatTheBrainSaw | src/nora_interviewer/counterfactual.py:80-110 | for the same brains: at every accepted answer or submission, in every later session, the snapshot has the counters the brain was shown |
| Counterfactual.EveryAnswerHasItsSnapshot | src/nora_interviewer/counterfactual.py:80-110 | every candidate turn of every reachable session is one after which a brain decided, and the snapshot up to it has the counters that brain was shown |
| Counterfactual.AskKeepsCountersIff | src/nora_interviewer/service.py:271-298 | exactly which decisions keep the counters equal to a recount |
| InterviewCounterexamples.FollowingOpeningIsMiscounted | src/nora_interviewer/service.py:161-198 | a history after whose opening the recount has a follow-up the session does not count |
| Policy.InterviewIsBounded | src/nora_interviewer/planner.py:16-45 | for brains whose reasons do not pose as anchors and that complete once the limit is reached: questions are at most the limit plus anchors asked plus tools evaluated; anchors stay within budget and within one of their share |
| Policy.AnswersComplete | src/nora_interviewer/service.py:265-298 | for brains that keep all three clauses, an interview of nothing but answers completes within the question limit plus the anchor budget |
| Policy.BudgetBounds | src/nora_interviewer/planner.py:16-19 | the budget is within the available anchor questions and the limit, and less than one above the anchors' share |
| Policy.AnchorsAreComparable | src/nora_interviewer/planner.py:8-45 | for all brains whose reasons do not pose as anchors, the anchors asked are the first ones of the job's order, so of any two interviews for a job one has asked the other's anchors, in the same order |
| AnchorShare.AnswerAsksDueAnchor | src/nora_interviewer/planner.py:16-45 | after an accepted answer whose brain does not follow up, if fewer anchors were asked than there are, than their share of the limit, and than their share of the questions so far, the turn put is the anchor question of the first competency, in the job's order, that has one not asked yet; otherwise it is the brain's |
| AnchorShare.StartAsksDueAnchor | src/nora_interviewer/service.py:161-198 | the same of a start |
| AnchorShare.AnchorsKeepUp | src/nora_interviewer/planner.py:16-45 | in every history without follow-ups and submissions the anchors have their share of all questions but the last, unless they used up their supply or their share of the limit |
| Policy.RuleBasedKeepsContract | src/nora_interviewer/providers/rule_based.py:26-172 | the rule-based brain keeps every clause the theorems ask of a brain |
| Brains.RuleBasedDecides | src/nora_interviewer/providers/rule_based.py:36-119 | branch by branch: the limit closes; fewer than 18 words and no follow-up yet get one on the active competency; otherwise that is covered, and the first free template the competency may use, else the first uncovered competency, else the end |
| Brains.RuleBasedToolIsGranted | src/nora_interviewer/providers/rule_based.py:78-102 | for a job with distinct templates the service grants every tool this brain asks for, if one that fits is made |
| Policy.ModelKeepsContractIff | src/nora_interviewer/providers/llm_brain.py:228-279 | the language-model brain always keeps the limit; its reason is apart from an anchor's exactly when the model's is; its opening opens exactly when questions are left |
| Brains.ModelDecides | src/nora_interviewer/providers/llm_brain.py:228-279 | which outputs complete, follow up on the candidate's latest turn, open a tool or move on; it fails exactly with no turn to follow or no template to open |
| Brains.ModelOpens | src/nora_interviewer/providers/llm_brain.py:57-62 | an opening moves on whatever the model says, except that a follow-up fails and a used-up limit closes |
| Brains.CheckedIff | src/nora_interviewer/providers/llm_brain.py:183-225 | the checks pass exactly outputs with competencies of the job and, for a tool, a template within budget, unused and allowed |
| Brains.CheckedToolIsGranted | src/nora_interviewer/providers/llm_brain.py:183-279 | a checked output always becomes a decision after an answer, and the service grants the tool it asks for, if one that fits is made |
| InterviewCounterexamples.OpeningCloses | src/nora_interviewer/providers/llm_brain.py:228-279 | a history in which the model's first question becomes the closing words of a running interview |
| Report.JudgeRunSummaries | src/nora_interviewer/review.py:205-241 | the passes of the report give, for each answer, its latest run, and the failed and stale flags of it |
| Report.FlagsAreHonest | src/nora_interviewer/review.py:205-264 | neither failed nor stale: every observation is in the graph, active, and literally quotes the current text; stale and not failed: none is active |
| Summaries.CallIsSummarised | src/nora_interviewer/review.py:205-241 | right after a later judge call its run is the answer's summary, not stale, and failed exactly if the call was not judged well |
| Summaries.CorrectionMakesStale | src/nora_interviewer/review.py:205-241 | in every reachable session a correction makes the corrected answer's summary stale and leaves every other as it was |
| Report.GraphIsGrounded | src/nora_interviewer/evidence.py:84-94 | in every reachable session active semantic quotes are literal, node states are recomputable, and a verified node has an active verified item of no judge |
| Reevaluation.ReevaluationIsAllOrNothing | src/nora_interviewer/service.py:387-536 | success leaves exactly the new run's observations as the turn's active semantic evidence; failure leaves the graph unchanged exactly under the stated condition |
| Reevaluation.FailureChangesNothing | src/nora_interviewer/service.py:502-536 | with a well-formed audit and findings of known competencies, failure changes nothing in the graph |
| InterviewCounterexamples.FailedReevaluationWithdraws | src/nora_interviewer/service.py:387-536 | a history in which a re-evaluation fails and the evidence that stood before is gone |
| Reevaluation.ReevaluateIsOneCall | src/nora_interviewer/service.py:538-610 | an accepted re-evaluation is one superseding judgement of that answer |
| Vad.Pcm16EnergyVad.Observe | src/nora_interviewer/vad.py:94-230 | a malformed frame is refused unchanged; any other moves the detector by one step and reports it |
| Vad.Pcm16EnergyVad.Measure | src/nora_interviewer/vad.py:125-147 | peak, mean square and duration of a frame |
| Vad.Pcm16EnergyVad.Reset | src/nora_interviewer/vad.py:87-92 | a reset detector is a new one |
| Vad.SquaresOrder | src/nora_interviewer/vad.py:136-138 | comparing a root mean square with a threshold is comparing their squares |
| Vad.EnergyBounds | src/nora_interviewer/vad.py:125-138 | the energy of a frame is within full scale, and zero exactly for silence |
| Vad.CountersAreClosedForms | src/nora_interviewer/vad.py:149-211 | the candidate counter is the trailing loud run, utterance the time since that run began, silence the trailing quiet run; after the end they are frozen |
| Vad.EndIndexSound | src/nora_interviewer/vad.py:188-211 | the end is the first frame after the start that meets the silence or the length limit |
| Vad.AnnouncedOnTime | src/nora_interviewer/vad.py:149-230 | speech is announced at its first frame only, the end from its first frame on, never before a start |
| Vad.VerdictByHistory | src/nora_interviewer/vad.py:149-230 | the state reported: silence or candidate before the start, speaking at and after it, at the end the limit that was met, the longer one first, and ended from then on |
| Vad.LoudAndQuietAreThresholds | src/nora_interviewer/vad.py:136-148 | loud and quiet are the comparisons of the root mean square with the two thresholds |
| Vad.EnergyIsSumOfSquares | src/nora_interviewer/vad.py:125-138 | the energy is the integer sum of the squared samples on the unit scale |
| Vad.PeakIsLoudest | src/nora_interviewer/vad.py:125-138 | the peak is the greatest absolute sample |
| Breakers.CircuitBreaker.BeforeCall | src/nora_interviewer/resilience.py:58-68 | a call is refused exactly while the circuit stays open |
| Breakers.CircuitBreaker.RecordSuccess | src/nora_interviewer/resilience.py:70-74 | a success closes the circuit |
| Breakers.CircuitBreaker.RecordFailure | src/nora_interviewer/resilience.py:76-85 | a failure at the threshold, or on trial, opens it |
| Breakers.ProviderHealthRegistry.RegisterProvider | src/nora_interviewer/provider_health.py:81-96 | registering again changes nothing |
| Breakers.ProviderHealthRegistry.BeforeCall | src/nora_interviewer/provider_health.py:98-113 | an unknown key is an error, a disabled provider is never refused, others until their deadline |
| Breakers.ProviderHealthRegistry.RecordSuccess | src/nora_interviewer/provider_health.py:115-123 | a success clears failures and deadline |
| Breakers.ProviderHealthRegistry.RecordFailure | src/nora_interviewer/provider_health.py:125-147 | a failure is counted unless the provider is disabled, and at the threshold sets the deadline |
| Breakers.EquivalentIffClockNotNegative | src/nora_interviewer/provider_health.py:98-147 | on every trace with a non-decreasing clock both breakers refuse the same calls, keep the same counts and report the same wait, if and only if the clock starts at or above zero |
| Breakers.NoCallBeforeCooldown | src/nora_interviewer/resilience.py:58-85 | once open, no call passes either breaker before the cooldown ends unless a success is recorded |
| Breakers.TrialAfterCooldown | src/nora_interviewer/resilience.py:58-66 | a call is admitted exactly when no wait remains |
| Breakers.RefusedIff | src/nora_interviewer/resilience.py:58-85 | both breakers refuse a call exactly when the failures since the last success have reached the threshold and the cooldown after the latest failure is not over |
| Breakers.DisabledNeverRefuses | src/nora_interviewer/provider_health.py:98-136 | a disabled provider is never refused and counts no failure |
| Breakers.RecordsAreIndependent | src/nora_interviewer/provider_health.py:81-147 | each key's record is what its own uses since registration would have made it |
| VoiceOutput.RealtimeVoiceCoordinator.SpeechStarted | src/nora_interviewer/voice.py:152-193 | speaking over the interviewer moves the generation and forgets the active turn |
| VoiceOutput.RealtimeVoiceCoordinator.TtsStarted | src/nora_interviewer/voice.py:316-362 | playback starts unless the interview is cancelled or does not have the turn, or another turn is active |
| VoiceOutput.RealtimeVoiceCoordinator.TtsEnded | src/nora_interviewer/voice.py:364-431 | only the active turn can be completed or cancelled |
| VoiceOutput.RealtimeVoiceCoordinator.CloseSession | src/nora_interviewer/voice.py:508-543 | closing moves the generation even if its event cannot be saved |
| VoiceOutput.VoiceOutputBridge.ReserveSession | src/nora_interviewer/voice_output_bridge.py:84-92 | a session with an active or opening stream is refused |
| VoiceOutput.VoiceOutputBridge.RegisterStream | src/nora_interviewer/voice_output_bridge.py:151-168 | the new stream is entered in both tables with the generation its opening read |
| VoiceOutput.VoiceOutputBridge.OfferChunk | src/nora_interviewer/voice_output_bridge.py:191-220 | a chunk is yielded exactly when it is of its stream's generation and the stream is still the voice's |
| VoiceOutput.VoiceOutputBridge.ReleaseStream | src/nora_interviewer/voice_output_bridge.py:367-385 | a released stream leaves the table, and the active table only if it is still the active one |
| VoiceOutput.VoiceOutputBridge.CloseStream | src/nora_interviewer/voice_output_bridge.py:301-313 | closing marks, tells the voice, and releases; if the provider's cancellation raises, the stream stays listed; an unknown stream is an error |
| VoiceOutput.OneStreamPerSession | src/nora_interviewer/voice_output_bridge.py:84-168 | in every reachable state the stream table and the active table are inverse to each other |
| VoiceOutput.ReleaseSparesOthers | src/nora_interviewer/voice_output_bridge.py:367-385 | releasing a stream, however late, never removes another |
| VoiceOutput.ReleasedStaysReleased | src/nora_interviewer/voice_output_bridge.py:151-168 | a released stream never comes back |
| VoiceOutput.GenerationNeverDecreases | src/nora_interviewer/voice.py:158-180 | the generation of a voice never decreases |
| VoiceOutput.NoStaleChunk | src/nora_interviewer/voice_output_bridge.py:194-220 | once a voice has reached a generation, no chunk of an earlier one is ever yielded to it |
| VoiceOutput.BargeInSilences | src/nora_interviewer/voice.py:158-180 | after a barge-in every stream known before it stays silent for good |
| VoiceOutput.OneTurnAtATime | src/nora_interviewer/voice.py:316-345 | in every run an active turn stays the active one until it ends, the candidate speaks, a reply is ready or the voice is closed |
| VoiceOutput.OpeningPlays | src/nora_interviewer/voice_output_bridge.py:56-220 | from every reachable state an open that nobody disturbs is heard: its first chunk is yielded under the voice's generation, and its stream is the session's |
| VoiceOutput.StaleReaderIsCancelled | src/nora_interviewer/voice_output_bridge.py:191-272 | a chunk of another generation ends the reading; whatever reaches a reader once the voice has moved on yields nothing and marks the stream cancelled |
| VoiceOutput.ConversationGoesOn | src/nora_interviewer/voice.py:152-345 | speaking over the interviewer, its final transcript, the reply and its playback lead from speaking to speaking a generation further on |
| VoiceOutput.CountersAreWhatWasHeard | src/nora_interviewer/voice_output_bridge.py:216-220 | a stream's counters are exactly the chunks and bytes yielded from it |

## Left out

- Web routes, socket handlers, configuration, user interface, authentication, artifacts, retention, metrics, language profiles, rubric drafting and feedback: plumbing, or claims that follow from one body.
- SQLite and PostgreSQL stores: the in-memory store stands for the same compare-and-swap contract.
- Hashing, base64, JSON and signatures: the hash is any function, collision-free where a theorem says so; messages are values.
- Floating point: the resampler, detector thresholds, breaker clocks, ensemble thresholds and confidences are reals, and the rounding of reported numbers is not modelled.
- Transport: a dropped connection loses everything on both channels, and a handler suspended in a provider call finishes before the client's next connection; the eight-second drain limit is the action that gives up or the one that leaves a drain.
- Transport: expiry of abandoned streams on the server, transcripts coming back from the provider, and closing a stream while a push is pending.
- SpeechBridge.VoiceStreamBridge.PushChunk: the outcome of the provider's push is a parameter; the suspension inside it is split in the transport machine.
- Webhook delivery over HTTP: its outcome is a parameter, and payload text and retries are not modelled.
- StoreRuns.NoLostUpdates: one session id is created once; drafts and jobs in the store are not modelled.
- Interview histories: `Reach` applies operations one after another, which is what accepted saves amount to by `ServiceRuns.StoredIsReached`.
- Event payloads: only what some reader of the log looks at is kept; the texts of reviews, signals and appeals are not, and reviewing appeals, integrity signals and assignments are bystander events.
- Report.JudgeRunSummaries: the summaries are a map; sorting them by time and the other sections of the report are not modelled.
- Report.FlagsAreHonest: assumes that operations happen at increasing times, since the latest run is chosen by time.
- Counterfactual.SnapshotIsWhatTheBrainSaw: the similarity scores of a counterfactual replay are not modelled.
- ServiceObject.InterviewService.HandleCandidateControl: the fixed wording around clarified questions and around the candidate's own is shortened.
- ServiceObject.LiveSession.ApplyTranscriptCorrection: the refusals for unknown and interviewer turns are those of `ServiceObject.InterviewService.CorrectTranscript`.
- Evidence.EvidenceGraph.RecordClaim: the checks on question and answer turns, which hold wherever the service records a claim, are not repeated.
- Evidence.EvidenceGraph.ApplyObservation: the graph's four refusals are those of `ServiceObject.InterviewService.ObserveEvidence`.
- Replay.ReplayEvents: the replay's list of candidate controls, its event count and its audit head, which copy the log, are not modelled.
- Counterfactual.Snapshot: the list of covered competencies, which is copied from an event, is not modelled.
- Policy.RuleBasedKeepsContract: the wording of questions is shortened and counting words is a parameter.
- Ensemble.EvidenceJudgeEnsemble.Evaluate: the audit record beside the findings is not modelled; the service model takes from it whether it is malformed and whether it reports a dispute.
- Vad.Pcm16EnergyVad.Observe: thresholds are compared on squares, so the root itself is not reported.
- TransportProgress.RecordingIsHeard: recordings that outgrow the queue, detector stops and failed pushes, which `SttClient.FailsIffQueueIsFull` and `TransportTheorems` speak about.
- Brains.CheckedIff: parsing the model's reply and the bounds on its texts are not modelled.
- TransportTheorems.ProviderHearsCapturedAudio: nothing is said about which frames go wrong in runs whose replies run ahead, beyond the one run shown.
- VoiceOutput.NoStaleChunk: timing fields, transport selection events and provider failure events of the voice are not modelled.
