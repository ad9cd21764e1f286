/** An interview session and the atomic changes its operations are made of. */
module Interview {
  import opened Common
  import opened Events
  import opened AuditChain
  import opened Evidence
  import opened JudgeGate

  datatype Speaker = Interviewer | Candidate

  datatype Lane = Anchor | Adaptive | Closing

  datatype Turn = Turn(id: Id, speaker: Speaker, text: string, parent: Option<Id>, tags: seq<string>,
                       lane: Option<Lane>, control: bool, nonEvaluative: bool)

  datatype Status = Created | Running | Completed | Cancelled

  datatype ToolStatus = OPEN | SUBMITTED | EVALUATED | CANCELLED

  datatype Tool = Tool(id: string, kind: string, tags: seq<string>, status: ToolStatus,
                       template: Option<string>, openedFrom: Option<Id>)

  /** A recorded judge run; the number of revisions is that of its answer at the time. */
  datatype JudgeRun = JudgeRun(id: Id, question: Id, answer: Id, createdAt: nat, revisions: nat,
                               observations: seq<Id>, failed: bool, supersedes: Option<Id>)

  datatype Session = Session(
    status: Status,
    paused: bool,
    turns: seq<Turn>,
    covered: seq<string>,
    followups: map<string, nat>,
    anchors: seq<string>,
    asked: nat,
    graph: Graph,
    runs: seq<JudgeRun>,
    revisions: seq<Id>,
    appeals: seq<Id>,
    tools: seq<Tool>,
    submissions: seq<string>,
    evaluations: seq<string>,
    events: seq<Event>,
    issued: nat)

  datatype Competency = Competency(id: string, anchor: Option<string>)

  datatype Template = Template(id: string, competencies: seq<string>)

  datatype Job = Job(competencies: seq<Competency>, maxQuestions: nat, anchorRatio: real,
                     templates: seq<Template>, maxTools: nat)

  /** What does not change during an interview: the job, the judge, and the hash function. */
  datatype Env = Env(job: Job, judgeId: string, hash: HashFn)

  datatype Decision = Decision(text: string, tags: seq<string>, parent: Option<Id>, completes: bool,
                               template: Option<string>, reason: string)

  datatype Origin = Opening | AfterAnswer | AfterTool

  datatype Audit = Plain | EnsembleAudit(malformed: bool, disputed: bool)

  /** A judge raised one of the exceptions the service catches, or replied. */
  datatype JudgeReply = JudgeRaised | JudgeReplied(findings: seq<Finding>, audit: Audit)

  datatype JudgeCall = JudgeCall(question: Id, answer: Id, reply: JudgeReply, supersede: bool, supersedes: Option<Id>)

  const ANCHOR_PREFIX := "anchor:"

  function LaneOf(d: Decision): Lane {
    if d.completes then Closing else if ANCHOR_PREFIX <= d.reason then Anchor else Adaptive
  }

  /** A question the interview is steered by, not a repetition, clarification or side remark. */
  predicate Evaluative(t: Turn) {
    t.speaker == Interviewer && !t.control && !t.nonEvaluative
  }

  predicate KnownCompetency(job: Job, c: string) {
    exists i :: 0 <= i < |job.competencies| && job.competencies[i].id == c
  }

  function IndexOfTurn(turns: seq<Turn>, id: Id): (i: nat)
    ensures i <= |turns| && (i < |turns| ==> turns[i].id == id)
    ensures forall j :: 0 <= j < i ==> turns[j].id != id
  {
    if |turns| == 0 then 0
    else if turns[0].id == id then 0
    else
      assert forall j :: 1 <= j < 1 + IndexOfTurn(turns[1..], id) ==> turns[j] == turns[1..][j - 1];
      1 + IndexOfTurn(turns[1..], id)
  }

  function TurnOf(turns: seq<Turn>, id: Id): Option<Turn> {
    if IndexOfTurn(turns, id) < |turns| then Some(turns[IndexOfTurn(turns, id)]) else None
  }

  function TextOf(turns: seq<Turn>, id: Id): string {
    match TurnOf(turns, id)
    case Some(t) => t.text
    case None => ""
  }

  function IndexOfTool(tools: seq<Tool>, id: string): (i: nat)
    ensures i <= |tools| && (i < |tools| ==> tools[i].id == id)
    ensures forall j :: 0 <= j < i ==> tools[j].id != id
  {
    if |tools| == 0 then 0
    else if tools[0].id == id then 0
    else
      assert forall j :: 1 <= j < 1 + IndexOfTool(tools[1..], id) ==> tools[j] == tools[1..][j - 1];
      1 + IndexOfTool(tools[1..], id)
  }

  function CountOf(ids: seq<Id>, id: Id): nat {
    if |ids| == 0 then 0 else CountOf(ids[..|ids| - 1], id) + if ids[|ids| - 1] == id then 1 else 0
  }

  // ---- the log ----

  function Log(env: Env, s: Session, kind: EventType, turnId: Option<Id>, payload: Payload, now: nat): Session {
    s.(events := Extend(env.hash, s.events, kind, turnId, payload, now))
  }

  function LogTimes(env: Env, s: Session, n: nat, kind: EventType, turnId: Id, now: nat): Session {
    if n == 0 then s else Log(env, LogTimes(env, s, n - 1, kind, turnId, now), kind, Some(turnId), Details(""), now)
  }

  // ---- turns and questions ----

  function NewSession(env: Env, now: nat): Session {
    var empty := Session(Created, false, [], [], map[], [], 0, Initial(CompetencyIds(env.job)), [], [], [], [], [], [], [], 0);
    Log(env, empty, SessionCreated, None, Details(""), now)
  }

  function CompetencyIds(job: Job): (ids: seq<string>)
    ensures |ids| == |job.competencies|
    ensures forall i :: 0 <= i < |ids| ==> ids[i] == job.competencies[i].id
  {
    seq(|job.competencies|, i requires 0 <= i < |job.competencies| => job.competencies[i].id)
  }

  /** The status only becomes RUNNING at the end of start; nothing in between tells CREATED from RUNNING. */
  function Begin(env: Env, s: Session, now: nat): Session {
    Log(env, s, InterviewStarted, None, Empty, now).(status := Running)
  }

  function AddMissing(known: seq<string>, tags: seq<string>): seq<string> {
    if |tags| == 0 then known
    else
      var before := AddMissing(known, tags[..|tags| - 1]);
      if tags[|tags| - 1] in before then before else before + [tags[|tags| - 1]]
  }

  /** The interviewer turn of a decision, and the counters it moves. */
  function Posed(s: Session, d: Decision, covered: seq<string>): Session {
    var lane := LaneOf(d);
    var turn := Turn(s.issued, Interviewer, d.text, d.parent, d.tags, Some(lane), false, false);
    s.(covered := covered, turns := s.turns + [turn], issued := s.issued + 1,
       asked := if lane == Closing then s.asked else s.asked + 1,
       anchors := if lane == Anchor then AddMissing(s.anchors, d.tags) else s.anchors)
  }

  function Put(env: Env, s: Session, d: Decision, covered: seq<string>, now: nat): Session {
    Log(env, Posed(s, d, covered), InterviewerTurn, Some(s.issued), ForQuestion(covered), now)
  }

  function Bump(followups: map<string, nat>, c: string): map<string, nat> {
    followups[c := (if c in followups then followups[c] else 0) + 1]
  }

  function CountFollowup(s: Session, d: Decision): Session {
    if d.parent.Some? && |d.tags| > 0 then s.(followups := Bump(s.followups, d.tags[0])) else s
  }

  function AddTool(env: Env, s: Session, tool: Tool, now: nat): Session {
    Log(env, s.(tools := s.tools + [tool]), ToolOpened, None, ForTool(tool.id), now)
  }

  function AddRequested(env: Env, s: Session, tool: Option<Tool>, turn: Id, now: nat): Session {
    match tool
    case None => s
    case Some(t) => AddTool(env, s, t.(status := OPEN, openedFrom := Some(turn)), now)
  }

  function Complete(env: Env, s: Session, now: nat): Session {
    Log(env, s.(status := Completed), SessionCompleted, None, Empty, now)
  }

  /** A decision carried out: turn, follow-up count, requested tool, completion. Opening decisions do neither count nor complete. */
  function Ask(env: Env, s: Session, d: Decision, origin: Origin, covered: seq<string>, tool: Option<Tool>, now: nat): Session {
    var put := Put(env, s, d, covered, now);
    var counted := if origin.Opening? then put else CountFollowup(put, d);
    var withTool := AddRequested(env, counted, tool, s.issued, now);
    if d.completes && !origin.Opening? then Complete(env, withTool, now) else withTool
  }

  function Hear(env: Env, s: Session, text: string, parent: Option<Id>, tags: seq<string>, now: nat): Session {
    var turn := Turn(s.issued, Candidate, text, parent, tags, None, false, false);
    Log(env, s.(turns := s.turns + [turn], issued := s.issued + 1), CandidateTurn, Some(turn.id), Details(""), now)
  }

  // ---- evidence ----

  function ClaimItem(id: Id, answer: Id): Item {
    Item(id, answer, Claimed, 1.0, None, "candidate_response", None, true)
  }

  function ClaimAll(env: Env, s: Session, answer: Id, tags: seq<string>, now: nat): Session {
    if |tags| == 0 then s
    else
      var t := ClaimAll(env, s, answer, tags[..|tags| - 1], now);
      var u := t.(graph := Claim(t.graph, tags[|tags| - 1], ClaimItem(t.issued, answer)), issued := t.issued + 1);
      Log(env, u, EvidenceObserved, Some(answer), Details(""), now)
  }

  function ItemOf(o: Observation, id: Id): Item {
    Item(id, o.turnId, o.state, o.confidence, o.quote, o.source, o.runId, true)
  }

  function ObserveOne(env: Env, s: Session, o: Observation, now: nat): Session {
    var t := s.(graph := Observe(s.graph, o.competency, ItemOf(o, s.issued)), issued := s.issued + 1);
    Log(env, t, EvidenceObserved, Some(o.turnId), Details(""), now)
  }

  function ObserveAll(env: Env, s: Session, observations: seq<Observation>, now: nat): Session {
    if |observations| == 0 then s
    else
      var n := |observations| - 1;
      ObserveOne(env, ObserveAll(env, s, observations[..n], now), observations[n], now)
  }

  function SupersedeTurn(env: Env, s: Session, turn: Id, now: nat): Session {
    LogTimes(env, s.(graph := Supersede(s.graph, turn)), |Retired(s.graph, turn)|, EvidenceSuperseded, turn, now)
  }

  // ---- judging ----

  function RunOf(s: Session, call: JudgeCall, now: nat): JudgeRun {
    JudgeRun(s.issued, call.question, call.answer, now, CountOf(s.revisions, call.answer), [], false, call.supersedes)
  }

  function Record(env: Env, s: Session, run: JudgeRun, now: nat): Session {
    Log(env, s.(runs := s.runs + [run]), EvidenceJudgeRunRecorded, Some(run.answer), Details(""), now)
  }

  function RecordFailure(env: Env, s: Session, run: JudgeRun, now: nat): Session {
    var t := s.(runs := s.runs + [run.(failed := true)]);
    Log(env, Log(env, t, EvidenceJudgeFailed, Some(run.answer), Details(""), now),
        EvidenceJudgeRunRecorded, Some(run.answer), Details(""), now)
  }

  /** Number of leading findings whose competency the job knows. */
  function KnownPrefix(job: Job, findings: seq<Finding>): (n: nat)
    ensures n <= |findings|
    ensures forall i :: 0 <= i < n ==> KnownCompetency(job, findings[i].competency)
    ensures n < |findings| ==> !KnownCompetency(job, findings[n].competency)
  {
    if |findings| == 0 then 0
    else if !KnownCompetency(job, findings[0].competency) then 0
    else
      assert forall i :: 1 <= i < 1 + KnownPrefix(job, findings[1..]) ==> findings[i] == findings[1..][i - 1];
      1 + KnownPrefix(job, findings[1..])
  }

  function Observations(env: Env, findings: seq<Finding>, answer: Id, run: Id): (os: seq<Observation>)
    ensures |os| == |findings|
    ensures forall i :: 0 <= i < |findings| ==> os[i] == ToObservation(findings[i], answer, env.judgeId).(runId := Some(run))
  {
    seq(|findings|, i requires 0 <= i < |findings| => ToObservation(findings[i], answer, env.judgeId).(runId := Some(run)))
  }

  function Ids(from: nat, n: nat): (ids: seq<Id>)
    ensures |ids| == n && forall i :: 0 <= i < n ==> ids[i] == from + i
  {
    seq(n, i => from + i)
  }

  /** The observations of a gated reply, up to the first competency the job does not know. */
  function ApplyFindings(env: Env, s: Session, run: JudgeRun, findings: seq<Finding>, now: nat): Session {
    var n := KnownPrefix(env.job, findings);
    var t := ObserveAll(env, s, Observations(env, findings[..n], run.answer, run.id), now);
    var done := run.(observations := Ids(s.issued, n));
    if n < |findings| then RecordFailure(env, t, done, now) else Record(env, t, done, now)
  }

  function Dispute(env: Env, s: Session, run: JudgeRun, audit: Audit, now: nat): Session {
    if audit.EnsembleAudit? && audit.disputed
    then Log(env, s, EvidenceJudgeDisagreement, Some(run.answer), Details(""), now) else s
  }

  /** A gated reply applied: older semantic evidence goes first, and a malformed audit is only noticed after that. */
  function ApplyReply(env: Env, s: Session, call: JudgeCall, run: JudgeRun, now: nat): Session
    requires call.reply.JudgeReplied?
  {
    var t := if call.supersede then SupersedeTurn(env, s, call.answer, now) else s;
    if call.reply.audit.EnsembleAudit? && call.reply.audit.malformed then RecordFailure(env, t, run, now)
    else ApplyFindings(env, Dispute(env, t, run, call.reply.audit, now), run, call.reply.findings, now)
  }

  predicate Gated(env: Env, s: Session, call: JudgeCall) {
    call.reply.JudgeReplied? && Passes(call.reply.findings, TextOf(s.turns, call.answer), env.judgeId)
  }

  function Judging(env: Env, s: Session, call: JudgeCall, now: nat): Session {
    var run := RunOf(s, call, now);
    var t := s.(issued := s.issued + 1);
    if Gated(env, s, call) then ApplyReply(env, t, call, run, now) else RecordFailure(env, t, run, now)
  }

  // ---- candidate controls, corrections, appeals ----

  /** The interviewer's turn in reply to a control, if any. */
  datatype ControlReply = ControlReply(text: string, tags: seq<string>, lane: Option<Lane>, nonEvaluative: bool)

  function PauseAfter(paused: bool, kind: ControlKind): bool {
    match kind
    case ThinkingTime => true
    case Resume => false
    case _ => paused
  }

  function Controlling(env: Env, s: Session, kind: ControlKind, reply: Option<ControlReply>, now: nat): Session {
    var t := Log(env, s.(paused := PauseAfter(s.paused, kind)), CandidateControl, None, ForControl(kind), now);
    match reply
    case None => t
    case Some(r) =>
      var turn := Turn(t.issued, Interviewer, r.text, None, r.tags, r.lane, true, r.nonEvaluative);
      Log(env, t.(turns := t.turns + [turn], issued := t.issued + 1), InterviewerTurn, Some(turn.id), Details(""), now)
  }

  function SetText(turns: seq<Turn>, id: Id, text: string): (r: seq<Turn>)
    ensures |r| == |turns|
  {
    var i := IndexOfTurn(turns, id);
    if i < |turns| then turns[i := turns[i].(text := text)] else turns
  }

  /** The text is replaced and every semantic judgement of the old text is withdrawn. */
  function Correcting(env: Env, s: Session, turn: Id, text: string, now: nat): Session {
    var t := s.(revisions := s.revisions + [turn], turns := SetText(s.turns, turn, text), issued := s.issued + 1);
    SupersedeTurn(env, Log(env, t, TranscriptCorrected, Some(turn), Details(""), now), turn, now)
  }

  function Appealing(env: Env, s: Session, now: nat): Session {
    Log(env, s.(appeals := s.appeals + [s.issued], issued := s.issued + 1), AppealSubmitted, None, ForAppeal(s.issued), now)
  }

  // ---- tools ----

  function SetToolStatus(tools: seq<Tool>, id: string, status: ToolStatus): (r: seq<Tool>)
    ensures |r| == |tools|
  {
    var i := IndexOfTool(tools, id);
    if i < |tools| then tools[i := tools[i].(status := status)] else tools
  }

  function Submitting(env: Env, s: Session, tool: string, now: nat): Session {
    var t := s.(submissions := s.submissions + [tool], tools := SetToolStatus(s.tools, tool, SUBMITTED), issued := s.issued + 1);
    Log(env, t, ToolSubmitted, None, ForTool(tool), now)
  }

  function Evaluating(env: Env, s: Session, tool: string, now: nat): Session {
    var t := s.(evaluations := s.evaluations + [tool], tools := SetToolStatus(s.tools, tool, EVALUATED));
    Log(env, t, ToolEvaluated, None, ForTool(tool), now)
  }

  /** What an automatic verdict says about each competency of the tool. */
  function VerdictObservations(tool: Tool, artifact: Id, passed: Option<bool>): (os: seq<Observation>)
    ensures forall i :: 0 <= i < |os| ==> os[i].quote.None? && os[i].turnId == artifact && os[i].source == "tool:" + tool.kind
    ensures forall i :: 0 <= i < |os| ==> os[i].competency in tool.tags
  {
    match passed
    case None => []
    case Some(ok) =>
      seq(|tool.tags|, i requires 0 <= i < |tool.tags| =>
        Observation(tool.tags[i], artifact, if ok then Demonstrated else Insufficient, 1.0, None, "summary", "tool:" + tool.kind, None))
  }

  /** An evaluated submission: the verdict as evidence, then the interviewer's next question. */
  function Assessing(env: Env, s: Session, tool: Tool, artifact: Id, passed: Option<bool>,
                     d: Decision, covered: seq<string>, next: Option<Tool>, now: nat): Session {
    var evaluated := Evaluating(env, s, tool.id, now);
    var observed := ObserveAll(env, evaluated, VerdictObservations(tool, artifact, passed), now);
    Ask(env, observed, d, AfterTool, covered, next, now)
  }

  predicate Cancellable(status: ToolStatus) {
    status == OPEN || status == SUBMITTED
  }

  function CancelTools(tools: seq<Tool>): (r: seq<Tool>)
    ensures |r| == |tools|
  {
    seq(|tools|, i requires 0 <= i < |tools| =>
      if Cancellable(tools[i].status) then tools[i].(status := CANCELLED) else tools[i])
  }

  /** The cancellation events of the tools that are still open or submitted, in order. */
  function LogCancels(env: Env, s: Session, tools: seq<Tool>, now: nat): Session {
    if |tools| == 0 then s
    else
      var n := |tools| - 1;
      var t := LogCancels(env, s, tools[..n], now);
      if Cancellable(tools[n].status) then Log(env, t, ToolCancelled, None, ForTool(tools[n].id), now) else t
  }

  function Cancelling(env: Env, s: Session, now: nat): Session {
    var t := LogCancels(env, s, s.tools, now);
    Log(env, t.(tools := CancelTools(s.tools), paused := false, status := Cancelled), SessionCancelled, None, Details(""), now)
  }

  // ---- steps ----

  datatype Step =
    | BeginStep
    | AskStep(decision: Decision, origin: Origin, covered: seq<string>, tool: Option<Tool>)
    | HearStep(text: string, parent: Option<Id>, tags: seq<string>)
    | ClaimStep(answer: Id, tags: seq<string>)
    | JudgeStep(call: JudgeCall)
    | ObserveStep(observation: Observation)
    | ControlStep(control: ControlKind, reply: Option<ControlReply>)
    | CorrectStep(turn: Id, text: string)
    | AppealStep
    | OpenToolStep(added: Tool)
    | SubmitStep(toolId: string)
    | AssessStep(submitted: Tool, artifact: Id, passed: Option<bool>, decision: Decision, covered: seq<string>, tool: Option<Tool>)
    | CancelStep
    | NoteStep(kind: EventType)

  function Apply(env: Env, s: Session, step: Step, now: nat): Session {
    match step
    case BeginStep => Begin(env, s, now)
    case AskStep(d, origin, covered, tool) => Ask(env, s, d, origin, covered, tool, now)
    case HearStep(text, parent, tags) => Hear(env, s, text, parent, tags, now)
    case ClaimStep(answer, tags) => ClaimAll(env, s, answer, tags, now)
    case JudgeStep(call) => Judging(env, s, call, now)
    case ObserveStep(o) => ObserveOne(env, s, o, now)
    case ControlStep(kind, reply) => Controlling(env, s, kind, reply, now)
    case CorrectStep(turn, text) => Correcting(env, s, turn, text, now)
    case AppealStep => Appealing(env, s, now)
    case OpenToolStep(tool) => AddTool(env, s, tool, now)
    case SubmitStep(tool) => Submitting(env, s, tool, now)
    case AssessStep(tool, artifact, passed, d, covered, next) => Assessing(env, s, tool, artifact, passed, d, covered, next, now)
    case CancelStep => Cancelling(env, s, now)
    case NoteStep(kind) => Log(env, s, kind, None, Details(""), now)
  }

  function ApplyAll(env: Env, s: Session, steps: seq<Step>, now: nat): Session {
    if |steps| == 0 then s
    else Apply(env, ApplyAll(env, s, steps[..|steps| - 1], now), steps[|steps| - 1], now)
  }

  lemma {:induction false} ApplyAllConcat(env: Env, s: Session, a: seq<Step>, b: seq<Step>, now: nat)
    ensures ApplyAll(env, s, a + b, now) == ApplyAll(env, ApplyAll(env, s, a, now), b, now)
  {
    hide Apply;
    if |b| == 0 {
      assert a + b == a;
    } else {
      var n := |b| - 1;
      assert (a + b)[..|a| + n] == a + b[..n];
      ApplyAllConcat(env, s, a, b[..n], now);
    }
  }

  // ---- short lists of steps ----

  lemma NoSteps(env: Env, s: Session, now: nat)
    ensures ApplyAll(env, s, [], now) == s
  {
  }

  lemma OneStepIs(env: Env, s: Session, step: Step, now: nat)
    ensures ApplyAll(env, s, [step], now) == Apply(env, s, step, now)
  {
    hide Apply;
    assert [step][..0] == [];
    assert ApplyAll(env, s, [], now) == s;
  }

  lemma MoreSteps(env: Env, s: Session, steps: seq<Step>, step: Step, now: nat)
    ensures ApplyAll(env, s, steps + [step], now) == Apply(env, ApplyAll(env, s, steps, now), step, now)
  {
    hide Apply;
    assert (steps + [step])[..|steps|] == steps;
  }

  lemma TwoSteps(env: Env, s: Session, a: Step, b: Step, now: nat)
    ensures ApplyAll(env, s, [a, b], now) == Apply(env, Apply(env, s, a, now), b, now)
  {
    hide Apply;
    OneStepIs(env, s, a, now);
    MoreSteps(env, s, [a], b, now);
    assert [a, b] == [a] + [b];
  }

  lemma ThreeSteps(env: Env, s: Session, a: Step, b: Step, c: Step, now: nat)
    ensures ApplyAll(env, s, [a, b, c], now) == Apply(env, Apply(env, Apply(env, s, a, now), b, now), c, now)
  {
    hide Apply;
    TwoSteps(env, s, a, b, now);
    MoreSteps(env, s, [a, b], c, now);
    assert [a, b, c] == [a, b] + [c];
  }

  lemma FourSteps(env: Env, s: Session, a: Step, b: Step, c: Step, d: Step, now: nat)
    ensures ApplyAll(env, s, [a, b, c, d], now)
         == Apply(env, Apply(env, Apply(env, Apply(env, s, a, now), b, now), c, now), d, now)
  {
    hide Apply;
    ThreeSteps(env, s, a, b, c, now);
    MoreSteps(env, s, [a, b, c], d, now);
    assert [a, b, c, d] == [a, b, c] + [d];
  }
}
