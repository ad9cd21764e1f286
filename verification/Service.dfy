/** The operations of the interview service, each a plan of atomic changes or a refusal. */
module Service {
  import opened Common
  import opened Events
  import opened Evidence
  import opened JudgeGate
  import opened Interview

  datatype OpError = NotFound | BadRequest | Conflict | Raised

  /** The changes an operation persists, and the error it ends with. */
  datatype Plan = Plan(steps: seq<Step>, error: Option<OpError>)

  function Refuse(e: OpError): Plan {
    Plan([], Some(e))
  }

  function Do(steps: seq<Step>): Plan {
    Plan(steps, None)
  }

  /** What a brain answers when consulted: a decision, and the coverage list as it leaves it. */
  datatype BrainReply = BrainReply(decision: Decision, covered: seq<string>)

  /** Everything an operation learns from outside; None stands for an exception. */
  datatype Op =
    | Start(opening: Option<BrainReply>, built: Option<Tool>)
    | Answer(text: string, opening: Option<BrainReply>, openingBuilt: Option<Tool>, judge: Option<JudgeReply>,
             brain: Option<BrainReply>, built: Option<Tool>)
    | Control(control: ControlKind, detail: Option<string>)
    | SubmitTool(toolId: string, verdict: Option<Option<bool>>, brain: Option<BrainReply>, built: Option<Tool>)
    | OpenTool(tool: Tool)
    | Correct(turn: Id, text: string)
    | Appeal(turns: seq<Id>)
    | ObserveEvidence(observation: Observation)
    | Reevaluate(turn: Id, judge: Option<JudgeReply>)
    | Cancel
    | Note(kind: EventType)

  // ---- the planner ----

  function CountAnchors(competencies: seq<Competency>): nat {
    if |competencies| == 0 then 0
    else CountAnchors(competencies[..|competencies| - 1]) + if competencies[|competencies| - 1].anchor.Some? then 1 else 0
  }

  function AnchorBudget(job: Job): int {
    var available, target := CountAnchors(job.competencies), Ceiling(Multiple(job.maxQuestions, job.anchorRatio));
    if available <= target then available else target
  }

  /** The first competency that has an anchor question nobody has asked yet. */
  function FirstUnasked(competencies: seq<Competency>, asked: seq<string>): (r: Option<Competency>)
    ensures r.Some? ==> r.value in competencies && r.value.anchor.Some? && r.value.id !in asked
  {
    if |competencies| == 0 then None
    else if competencies[0].anchor.Some? && competencies[0].id !in asked then Some(competencies[0])
    else FirstUnasked(competencies[1..], asked)
  }

  /** An anchor is due while the budget lasts and anchors are less than their share of the questions asked. */
  function NextAnchor(job: Job, s: Session): Option<Decision> {
    if |s.anchors| >= AnchorBudget(job) then None
    else
      match FirstUnasked(job.competencies, s.anchors)
      case None => None
      case Some(chosen) =>
        if s.asked > 0 && |s.anchors| as real >= Multiple(s.asked, job.anchorRatio) then None
        else Some(Decision(chosen.anchor.value, [chosen.id], None, false, None, "anchor:standardized_anchor"))
  }

  // ---- requested tools ----

  predicate UsedTemplate(tools: seq<Tool>, template: string) {
    exists i :: 0 <= i < |tools| && tools[i].template == Some(template)
  }

  function PolicyFor(templates: seq<Template>, id: string): Option<Template> {
    if |templates| == 0 then None
    else if templates[|templates| - 1].id == id then Some(templates[|templates| - 1])
    else PolicyFor(templates[..|templates| - 1], id)
  }

  predicate AllIn(tags: seq<string>, allowed: seq<string>) {
    forall i :: 0 <= i < |tags| ==> tags[i] in allowed
  }

  predicate AllKnown(job: Job, tags: seq<string>) {
    forall i :: 0 <= i < |tags| ==> KnownCompetency(job, tags[i])
  }

  predicate Ended(s: Session) {
    s.status == Completed || s.status == Cancelled
  }

  /** Why the service refuses to add a tool to a session, if it does. */
  function AppendRefusal(env: Env, s: Session, tool: Tool): Option<OpError> {
    if Ended(s) then Some(Conflict)
    else if IndexOfTool(s.tools, tool.id) < |s.tools| then Some(Conflict)
    else if !AllKnown(env.job, tool.tags) then Some(BadRequest)
    else None
  }

  function Requested(env: Env, s: Session, d: Decision, built: Option<Tool>): Result<Option<Tool>, OpError> {
    match d.template
    case None => Ok(None)
    case Some(template) =>
      if |s.tools| >= env.job.maxTools || UsedTemplate(s.tools, template) then Err(Conflict)
      else
        match PolicyFor(env.job.templates, template)
        case None => Err(BadRequest)
        case Some(policy) =>
          if policy.competencies != [] && !AllIn(d.tags, policy.competencies) then Err(BadRequest)
          else if built.None? then Err(BadRequest)
          else
            match AppendRefusal(env, s, built.value)
            case Some(e) => Err(e)
            case None => Ok(Some(built.value))
  }

  // ---- plans ----

  function StartPlan(env: Env, s: Session, opening: Option<BrainReply>, built: Option<Tool>): Plan {
    if Ended(s) || (s.status == Running && |s.turns| > 0) then Do([])
    else
      var reply := match NextAnchor(env.job, s) case Some(d) => Some(BrainReply(d, s.covered)) case None => opening;
      if reply.None? then Refuse(Raised)
      else
        match Requested(env, s, reply.value.decision, built)
        case Err(e) => Refuse(e)
        case Ok(tool) => Do([BeginStep, AskStep(reply.value.decision, Opening, reply.value.covered, tool)])
  }

  function LastQuestion(turns: seq<Turn>): Option<Turn> {
    if |turns| == 0 then None
    else if Evaluative(turns[|turns| - 1]) then Some(turns[|turns| - 1])
    else LastQuestion(turns[..|turns| - 1])
  }

  /** The adaptive decision stands if it follows up; otherwise a due anchor takes its place. */
  function Choose(env: Env, s: Session, adaptive: Decision): Decision {
    if adaptive.parent.Some? then adaptive
    else match NextAnchor(env.job, s) case Some(anchor) => anchor case None => adaptive
  }

  predicate Judged(env: Env) {
    env.judgeId != "disabled"
  }

  /** What is recorded about an answer before the brain is asked. */
  function EvidenceSteps(env: Env, question: Option<Turn>, answer: Id, judge: Option<JudgeReply>): Option<seq<Step>> {
    if question.None? || |question.value.tags| == 0 then Some([])
    else if !Judged(env) then Some([ClaimStep(answer, question.value.tags)])
    else if judge.None? then None
    else Some([ClaimStep(answer, question.value.tags),
               JudgeStep(JudgeCall(question.value.id, answer, judge.value, false, None))])
  }

  function ParentOf(question: Option<Turn>): Option<Id> {
    match question case Some(q) => Some(q.id) case None => None
  }

  function ReplyPlan(env: Env, s: Session, text: string, judge: Option<JudgeReply>,
                     brain: Option<BrainReply>, built: Option<Tool>): Plan {
    if Ended(s) || s.paused then Refuse(Conflict)
    else
      var question := LastQuestion(s.turns);
      var evidence := EvidenceSteps(env, question, s.issued, judge);
      if evidence.None? || brain.None? then Refuse(Raised)
      else
        var d := Choose(env, s, brain.value.decision);
        match Requested(env, s, d, built)
        case Err(e) => Refuse(e)
        case Ok(tool) =>
          Do([HearStep(text, ParentOf(question), [])] + evidence.value
             + [AskStep(d, AfterAnswer, brain.value.covered, tool)])
  }

  /** An answer to an interview that has not begun begins it first, and that stays done even if the answer is refused. */
  function AnswerPlan(env: Env, s: Session, text: string, opening: Option<BrainReply>, openingBuilt: Option<Tool>,
                      judge: Option<JudgeReply>, brain: Option<BrainReply>, built: Option<Tool>, now: nat): Plan {
    if s.status == Created then
      var first := StartPlan(env, s, opening, openingBuilt);
      if first.error.Some? then first
      else
        var second := ReplyPlan(env, ApplyAll(env, s, first.steps, now), text, judge, brain, built);
        Plan(first.steps + second.steps, second.error)
    else ReplyPlan(env, s, text, judge, brain, built)
  }

  function LastBy(turns: seq<Turn>, speaker: Speaker): Option<Turn> {
    if |turns| == 0 then None
    else if turns[|turns| - 1].speaker == speaker then Some(turns[|turns| - 1])
    else LastBy(turns[..|turns| - 1], speaker)
  }

  function TextIn(detail: Option<string>): string {
    match detail case Some(t) => t case None => ""
  }

  function ClarifyText(question: string, detail: string): string {
    "Explain your own reasoning or experience related to: " + question
    + if detail == "" then "" else " You specifically asked: " + detail
  }

  /** What Python strips from both ends of a string. */
  predicate IsSpace(c: char) {
    var n := c as int;
    || 9 <= n <= 13 || 28 <= n <= 32 || n == 0x85 || n == 0xA0 || n == 0x1680 || 0x2000 <= n <= 0x200A
    || n == 0x2028 || n == 0x2029 || n == 0x202F || n == 0x205F || n == 0x3000
  }

  function Strip(text: string): string {
    if |text| > 0 && IsSpace(text[0]) then Strip(text[1..])
    else if |text| > 0 && IsSpace(text[|text| - 1]) then Strip(text[..|text| - 1])
    else text
  }

  function LaneLabel(t: Turn): Lane {
    match t.lane case Some(l) => l case None => Adaptive
  }

  function ControlPlan(s: Session, kind: ControlKind, detail: Option<string>): Plan {
    if Ended(s) then Refuse(Conflict)
    else
      var question, answer := LastBy(s.turns, Interviewer), LastBy(s.turns, Candidate);
      match kind
      case Repeat =>
        if question.None? then Refuse(BadRequest)
        else
          var q := question.value;
          Do([ControlStep(kind, Some(ControlReply(q.text, q.tags, Some(LaneLabel(q)), false)))])
      case Clarify =>
        if question.None? then Refuse(BadRequest)
        else
          var q := question.value;
          Do([ControlStep(kind, Some(ControlReply(ClarifyText(q.text, Strip(TextIn(detail))), q.tags, Some(LaneLabel(q)), false)))])
      case ThinkingTime => Do([ControlStep(kind, None)])
      case Resume => Do([ControlStep(kind, None)])
      case CorrectLastAnswer =>
        if answer.None? then Refuse(BadRequest)
        else if TextIn(detail) == "" then Do([ControlStep(kind, None)])
        else Do([ControlStep(kind, None), CorrectStep(answer.value.id, TextIn(detail))])
      case CandidateQuestion =>
        if Strip(TextIn(detail)) == "" then Refuse(BadRequest)
        else Do([ControlStep(kind, Some(ControlReply("Your question was: " + Strip(TextIn(detail)), [], None, true)))])
  }

  function ArtifactText(tool: Tool): string {
    "[" + tool.kind + " artifact submitted]"
  }

  function SubmitPlan(env: Env, s: Session, toolId: string, verdict: Option<Option<bool>>,
                      brain: Option<BrainReply>, built: Option<Tool>): Plan {
    var k := IndexOfTool(s.tools, toolId);
    if Ended(s) then Refuse(Conflict)
    else if k == |s.tools| then Refuse(NotFound)
    else if s.tools[k].status != OPEN then Refuse(Conflict)
    else if verdict.None? then Refuse(BadRequest)
    else
      var tool := s.tools[k];
      if (verdict.value.Some? && !AllKnown(env.job, tool.tags)) || brain.None? then Refuse(Raised)
      else
        match Requested(env, s, brain.value.decision, built)
        case Err(e) => Refuse(e)
        case Ok(next) =>
          Do([SubmitStep(toolId), HearStep(ArtifactText(tool), tool.openedFrom, tool.tags),
              AssessStep(tool, s.issued + 1, verdict.value, brain.value.decision, brain.value.covered, next)])
  }

  function OpenToolPlan(env: Env, s: Session, tool: Tool): Plan {
    if AppendRefusal(env, s, tool).Some? then Refuse(AppendRefusal(env, s, tool).value)
    else if tool.openedFrom.Some? && TurnOf(s.turns, tool.openedFrom.value).None? then Refuse(BadRequest)
    else Do([OpenToolStep(tool)])
  }

  function CorrectPlan(s: Session, turn: Id, text: string): Plan {
    match TurnOf(s.turns, turn)
    case None => Refuse(NotFound)
    case Some(t) => if t.speaker != Candidate then Refuse(BadRequest) else Do([CorrectStep(turn, text)])
  }

  predicate KnownTurns(turns: seq<Turn>, ids: seq<Id>) {
    forall i :: 0 <= i < |ids| ==> TurnOf(turns, ids[i]).Some?
  }

  /** The checks of the graph itself on an observation from outside. */
  predicate Admissible(env: Env, s: Session, o: Observation) {
    && KnownCompetency(env.job, o.competency)
    && TurnOf(s.turns, o.turnId).Some?
    && (o.quote.Some? ==> Occurs(o.quote.value, TextOf(s.turns, o.turnId)))
    && !(Semantic(o.source) && o.state == Verified)
  }

  /** The first of the runs of an answer with the latest time. */
  function LatestRun(runs: seq<JudgeRun>, answer: Id): Option<JudgeRun> {
    if |runs| == 0 then None
    else
      var last, before := runs[|runs| - 1], LatestRun(runs[..|runs| - 1], answer);
      if last.answer == answer && (before.None? || last.createdAt > before.value.createdAt) then Some(last) else before
  }

  function RunId(run: Option<JudgeRun>): Option<Id> {
    match run case Some(r) => Some(r.id) case None => None
  }

  function ReevaluatePlan(env: Env, s: Session, answer: Id, judge: Option<JudgeReply>): Plan {
    if !Judged(env) then Refuse(Conflict)
    else
      match TurnOf(s.turns, answer)
      case None => Refuse(NotFound)
      case Some(a) =>
        if a.speaker != Candidate || a.parent.None? then Refuse(BadRequest)
        else
          match TurnOf(s.turns, a.parent.value)
          case None => Refuse(BadRequest)
          case Some(q) =>
            if q.speaker != Interviewer || |q.tags| == 0 then Refuse(BadRequest)
            else if judge.None? then Refuse(Raised)
            else Do([JudgeStep(JudgeCall(q.id, a.id, judge.value, true, RunId(LatestRun(s.runs, a.id))))])
  }

  function CancelPlan(s: Session): Plan {
    match s.status
    case Completed => Refuse(Conflict)
    case Cancelled => Do([])
    case _ => Do([CancelStep])
  }

  /** Kinds of events that human review, voice, artifacts and webhooks add without touching the interview itself. */
  predicate Bystander(kind: EventType) {
    match kind
    case AppealReviewed => true
    case IntegritySignal => true
    case IntegrityReviewed => true
    case ReviewAssigned => true
    case ReviewStarted => true
    case ReviewCompleted => true
    case ReviewAssignmentCancelled => true
    case VoiceEvent => true
    case ArtifactCreated => true
    case ArtifactAccessed => true
    case ArtifactDeleted => true
    case WebhookDelivery => true
    case _ => false
  }

  function PlanFor(env: Env, s: Session, op: Op, now: nat): Plan {
    match op
    case Start(opening, built) => StartPlan(env, s, opening, built)
    case Answer(text, opening, openingBuilt, judge, brain, built) =>
      AnswerPlan(env, s, text, opening, openingBuilt, judge, brain, built, now)
    case Control(kind, detail) => ControlPlan(s, kind, detail)
    case SubmitTool(tool, verdict, brain, built) => SubmitPlan(env, s, tool, verdict, brain, built)
    case OpenTool(tool) => OpenToolPlan(env, s, tool)
    case Correct(turn, text) => CorrectPlan(s, turn, text)
    case Appeal(turns) => if KnownTurns(s.turns, turns) then Do([AppealStep]) else Refuse(BadRequest)
    case ObserveEvidence(o) => if Admissible(env, s, o) then Do([ObserveStep(o)]) else Refuse(BadRequest)
    case Reevaluate(answer, judge) => ReevaluatePlan(env, s, answer, judge)
    case Cancel => CancelPlan(s)
    case Note(kind) => if Bystander(kind) then Do([NoteStep(kind)]) else Refuse(BadRequest)
  }

  function Perform(env: Env, s: Session, op: Op, now: nat): Session {
    ApplyAll(env, s, PlanFor(env, s, op, now).steps, now)
  }

  datatype Call = Call(op: Op, now: nat)

  /** The stored session after a history of calls. */
  function Reach(env: Env, calls: seq<Call>): Session {
    if |calls| == 0 then NewSession(env, 0)
    else
      var n := |calls| - 1;
      Perform(env, Reach(env, calls[..n]), calls[n].op, calls[n].now)
  }

  // ---- what a step may rely on ----

  predicate OpenFor(s: Session, tool: string) {
    var k := IndexOfTool(s.tools, tool);
    k < |s.tools| && s.tools[k].status == OPEN
  }

  /** The service's own checks, as they hold at the moment each step is taken. */
  predicate Enabled(env: Env, s: Session, step: Step) {
    match step
    case BeginStep => s.status == Created || (s.status == Running && |s.turns| == 0)
    case AskStep(d, origin, covered, tool) => s.status == Running && origin != AfterTool && Addable(env, s, tool)
    case HearStep(_, _, _) => !Ended(s)
    case ClaimStep(answer, _) => TurnOf(s.turns, answer).Some?
    case JudgeStep(call) => TurnOf(s.turns, call.answer).Some?
    case ObserveStep(o) => Admissible(env, s, o)
    case ControlStep(_, _) => !Ended(s)
    case CorrectStep(turn, _) => TurnOf(s.turns, turn).Some?
    case AppealStep => true
    case OpenToolStep(tool) => AppendRefusal(env, s, tool).None?
    case SubmitStep(tool) => !Ended(s) && OpenFor(s, tool)
    case AssessStep(tool, artifact, passed, d, covered, next) =>
      && !Ended(s) && IndexOfTool(s.tools, tool.id) < |s.tools|
      && s.tools[IndexOfTool(s.tools, tool.id)].status == SUBMITTED
      && TurnOf(s.turns, artifact).Some? && Addable(env, s, next)
    case CancelStep => !Ended(s)
    case NoteStep(kind) => Bystander(kind)
  }

  predicate Addable(env: Env, s: Session, tool: Option<Tool>) {
    tool.Some? ==> AppendRefusal(env, s, tool.value).None?
  }
}
