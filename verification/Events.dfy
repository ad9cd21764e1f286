/** The events of an interview session's log. */
module Events {
  import opened Common

  /** Stands for a uuid4: a value never issued before. */
  type Id = nat

  datatype EventType =
    | SessionCreated | InterviewStarted | InterviewerTurn | CandidateTurn | CandidateControl
    | TranscriptCorrected | AppealSubmitted | AppealReviewed
    | EvidenceObserved | EvidenceJudgeFailed | EvidenceJudgeDisagreement | EvidenceJudgeRunRecorded
    | EvidenceSuperseded | IntegritySignal | IntegrityReviewed
    | ReviewAssigned | ReviewStarted | ReviewCompleted | ReviewAssignmentCancelled
    | ToolOpened | ToolSubmitted | ToolEvaluated | ToolCancelled
    | VoiceEvent
    | ArtifactCreated | ArtifactAccessed | ArtifactDeleted
    | WebhookDelivery | SessionCompleted | SessionCancelled

  datatype ControlKind = Repeat | Clarify | ThinkingTime | Resume | CorrectLastAnswer | CandidateQuestion

  /** The parts of a payload that some reader of the log looks at; everything else is `Details`. */
  datatype Payload =
    | Empty
    | Details(text: string)
    | ForControl(control: ControlKind)
    | ForAppeal(appealId: Id)
    | ForTool(toolId: string)
    | ForQuestion(covered: seq<string>)
    | ForDelivery(subscription: nat, sourceSeq: nat, delivered: bool)

  datatype Event = Event(
    seqNo: nat,
    kind: EventType,
    turnId: Option<Id>,
    payload: Payload,
    createdAt: nat,
    hashVersion: Option<nat>,
    prevHash: Option<string>,
    eventHash: Option<string>)
}
