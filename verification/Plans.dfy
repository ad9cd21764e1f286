/** Every plan consists of steps that are allowed where they are taken. */
module Plans {
  import opened Common
  import opened Events
  import opened Evidence
  import opened JudgeGate
  import opened Interview
  import opened Service

  /**
   What a theorem asks of the outside world, clause by clause. Reasons: the brain's reasons never claim to be
   anchors. Opening: an opening neither completes nor follows up. Limit: once the question limit is reached the
   brain completes without a parent turn. Tools: tools arrive with an id, and not already cancelled.
   */
  datatype Contract = Contract(reasons: bool, opening: bool, limit: bool, tools: bool)

  const NO_CONTRACT := Contract(false, false, false, false)
  const REASONS := Contract(true, false, false, false)
  const REASONS_AND_OPENING := Contract(true, true, false, false)
  const REASONS_AND_LIMIT := Contract(true, false, true, false)
  const FULL_BRAIN := Contract(true, true, true, false)
  const NAMED_TOOLS := Contract(false, false, false, true)

  /** Whatever c asks, d asks too. */
  predicate Weaker(c: Contract, d: Contract) {
    (c.reasons ==> d.reasons) && (c.opening ==> d.opening) && (c.limit ==> d.limit) && (c.tools ==> d.tools)
  }

  predicate ToolOk(tool: Tool) {
    tool.id != "" && tool.status != CANCELLED
  }

  predicate ToolsOk(tool: Option<Tool>) {
    tool.Some? ==> tool.value.id != ""
  }

  predicate ReasonOk(d: Decision) {
    !(ANCHOR_PREFIX <= d.reason)
  }

  /** Neither a completion nor a follow-up. */
  predicate Opens(d: Decision) {
    !d.completes && (d.parent.None? || d.tags == [])
  }

  predicate WithinLimit(job: Job, asked: nat, d: Decision) {
    asked >= job.maxQuestions ==> d.completes && d.parent.None?
  }

  predicate OpeningOk(c: Contract, d: Decision) {
    (c.reasons ==> ReasonOk(d)) && (c.opening ==> Opens(d))
  }

  predicate AnswerOk(c: Contract, job: Job, asked: nat, d: Decision) {
    (c.reasons ==> ReasonOk(d)) && (c.limit ==> WithinLimit(job, asked, d))
  }

  /** The state in which the brain is asked about an answer. */
  function Consulted(env: Env, s: Session, op: Op, now: nat): Session {
    if op.Answer? && s.status == Created then ApplyAll(env, s, StartPlan(env, s, op.opening, op.openingBuilt).steps, now) else s
  }

  predicate Obeys(c: Contract, env: Env, s: Session, op: Op, now: nat) {
    match op
    case Start(opening, built) =>
      (opening.Some? ==> OpeningOk(c, opening.value.decision)) && (c.tools ==> ToolsOk(built))
    case Answer(_, opening, openingBuilt, _, brain, built) =>
      && (opening.Some? ==> OpeningOk(c, opening.value.decision))
      && (brain.Some? ==> AnswerOk(c, env.job, Consulted(env, s, op, now).asked, brain.value.decision))
      && (c.tools ==> ToolsOk(openingBuilt) && ToolsOk(built))
    case SubmitTool(_, _, brain, built) =>
      (c.reasons && brain.Some? ==> ReasonOk(brain.value.decision)) && (c.tools ==> ToolsOk(built))
    case OpenTool(tool) => c.tools ==> ToolOk(tool)
    case _ => true
  }

  /** The contract as it reaches a single step. */
  predicate Sensible(c: Contract, env: Env, s: Session, step: Step) {
    match step
    case AskStep(d, origin, _, tool) =>
      && (c.reasons && LaneOf(d) == Anchor ==> NextAnchor(env.job, s) == Some(d))
      && (c.opening && origin == Opening ==> Opens(d))
      && (c.limit && origin == AfterAnswer && s.asked >= env.job.maxQuestions ==> d.completes || LaneOf(d) == Anchor)
      && (c.tools ==> ToolsOk(tool))
    case AssessStep(_, _, _, d, _, tool) => (c.reasons ==> LaneOf(d) != Anchor) && (c.tools ==> ToolsOk(tool))
    case OpenToolStep(tool) => c.tools ==> ToolOk(tool)
    case _ => true
  }

  predicate Fine(c: Contract, env: Env, s: Session, step: Step) {
    Enabled(env, s, step) && Sensible(c, env, s, step)
  }

  predicate AllFine(c: Contract, env: Env, s: Session, steps: seq<Step>, now: nat) {
    |steps| == 0
    || (var n := |steps| - 1;
        AllFine(c, env, s, steps[..n], now) && Fine(c, env, ApplyAll(env, s, steps[..n], now), steps[n]))
  }

  lemma {:induction false} AllFineConcat(c: Contract, env: Env, s: Session, a: seq<Step>, b: seq<Step>, now: nat)
    requires AllFine(c, env, s, a, now) && AllFine(c, env, ApplyAll(env, s, a, now), b, now)
    ensures AllFine(c, env, s, a + b, now)
  {
    hide Fine, Apply;
    if |b| == 0 {
      assert a + b == a;
    } else {
      var n := |b| - 1;
      assert (a + b)[..|a| + n] == a + b[..n];
      AllFineConcat(c, env, s, a, b[..n], now);
      ApplyAllConcat(env, s, a, b[..n], now);
    }
  }

  lemma OneStep(c: Contract, env: Env, s: Session, step: Step, now: nat)
    requires Fine(c, env, s, step)
    ensures AllFine(c, env, s, [step], now)
    ensures ApplyAll(env, s, [step], now) == Apply(env, s, step, now)
  {
    hide Fine, Apply;
    assert [step][..0] == [];
    assert AllFine(c, env, s, [], now);
  }

  /** Add a fine step to a fine plan. */
  lemma OneMore(c: Contract, env: Env, s: Session, steps: seq<Step>, step: Step, now: nat)
    requires AllFine(c, env, s, steps, now) && Fine(c, env, ApplyAll(env, s, steps, now), step)
    ensures AllFine(c, env, s, steps + [step], now)
    ensures ApplyAll(env, s, steps + [step], now) == Apply(env, ApplyAll(env, s, steps, now), step, now)
  {
    hide Fine, Apply;
    assert (steps + [step])[..|steps|] == steps;
  }

  // ---- what recording evidence leaves alone ----

  /** Only the graph, the runs, the log and the id counter may differ. */
  ghost predicate SameInterview(s: Session, t: Session) {
    && t.status == s.status && t.paused == s.paused && t.turns == s.turns && t.covered == s.covered
    && t.followups == s.followups && t.anchors == s.anchors && t.asked == s.asked && t.revisions == s.revisions
    && t.appeals == s.appeals && t.tools == s.tools && t.submissions == s.submissions && t.evaluations == s.evaluations
  }

  lemma {:induction false} ClaimAllFrame(env: Env, s: Session, answer: Id, tags: seq<string>, now: nat)
    ensures SameInterview(s, ClaimAll(env, s, answer, tags, now))
    ensures ClaimAll(env, s, answer, tags, now).runs == s.runs
  {
    hide Claim, ClaimItem;
    if |tags| > 0 {
      ClaimAllFrame(env, s, answer, tags[..|tags| - 1], now);
    }
  }

  lemma {:induction false} ObserveAllFrame(env: Env, s: Session, os: seq<Observation>, now: nat)
    ensures SameInterview(s, ObserveAll(env, s, os, now))
    ensures ObserveAll(env, s, os, now).runs == s.runs
  {
    hide Observe, ItemOf;
    if |os| > 0 {
      ObserveAllFrame(env, s, os[..|os| - 1], now);
    }
  }

  lemma ObserveOneFrame(env: Env, s: Session, o: Observation, now: nat)
    ensures SameInterview(s, ObserveOne(env, s, o, now))
  {
    hide Observe, ItemOf;
  }

  lemma {:induction false} LogTimesFrame(env: Env, s: Session, n: nat, kind: EventType, turnId: Id, now: nat)
    ensures LogTimes(env, s, n, kind, turnId, now) == s.(events := LogTimes(env, s, n, kind, turnId, now).events)
  {
    if n > 0 {
      LogTimesFrame(env, s, n - 1, kind, turnId, now);
    }
  }

  lemma SupersedeTurnFrame(env: Env, s: Session, turn: Id, now: nat)
    ensures var t := SupersedeTurn(env, s, turn, now);
            t == s.(graph := Supersede(s.graph, turn), events := t.events)
  {
    hide Retired;
    LogTimesFrame(env, s.(graph := Supersede(s.graph, turn)), |Retired(s.graph, turn)|, EvidenceSuperseded, turn, now);
  }

  lemma ApplyFindingsFrame(env: Env, s: Session, run: JudgeRun, findings: seq<Finding>, now: nat)
    ensures SameInterview(s, ApplyFindings(env, s, run, findings, now))
  {
    hide ObserveAll, Observations, KnownPrefix;
    var n := KnownPrefix(env.job, findings);
    ObserveAllFrame(env, s, Observations(env, findings[..n], run.answer, run.id), now);
  }

  lemma JudgingFrame(env: Env, s: Session, call: JudgeCall, now: nat)
    ensures SameInterview(s, Judging(env, s, call, now))
  {
    hide SupersedeTurn, Gated, ApplyFindings;
    var run, t := RunOf(s, call, now), s.(issued := s.issued + 1);
    if Gated(env, s, call) {
      SupersedeTurnFrame(env, t, call.answer, now);
      GatedReplied(env, s, call);
      var u := if call.supersede then SupersedeTurn(env, t, call.answer, now) else t;
      ApplyFindingsFrame(env, Dispute(env, u, run, call.reply.audit, now), run, call.reply.findings, now);
    }
  }

  lemma GatedReplied(env: Env, s: Session, call: JudgeCall)
    requires Gated(env, s, call)
    ensures call.reply.JudgeReplied?
  {
  }

  // ---- every plan ----

  lemma TurnAppended(turns: seq<Turn>, turn: Turn)
    ensures TurnOf(turns + [turn], turn.id).Some?
  {
    assert (turns + [turn])[|turns|] == turn;
  }

  lemma StartFine(c: Contract, env: Env, s: Session, op: Op, opening: Option<BrainReply>, built: Option<Tool>, now: nat)
    requires opening.Some? ==> OpeningOk(c, opening.value.decision)
    requires c.tools ==> ToolsOk(built)
    ensures AllFine(c, env, s, StartPlan(env, s, opening, built).steps, now)
    ensures var p := StartPlan(env, s, opening, built);
            s.status == Created && p.error.None? ==> ApplyAll(env, s, p.steps, now).status == Running
  {
    hide Requested, NextAnchor, Put, AddMissing;
    var p := StartPlan(env, s, opening, built);
    if |p.steps| == 2 {
      AnchorShape(env.job, s);
      var d := p.steps[1].decision;
      RequestedAddable(env, s, d, built);
      OneStep(c, env, s, BeginStep, now);
      var t := ApplyAll(env, s, [BeginStep], now);
      assert t.tools == s.tools && t.status == Running;
      SameAnchor(env.job, s, t);
      assert p.steps == [BeginStep] + [p.steps[1]];
      OneMore(c, env, s, [BeginStep], p.steps[1], now);
      AskKeepsStatus(env, t, p.steps[1], now);
    }
  }

  lemma AskKeepsStatus(env: Env, s: Session, step: Step, now: nat)
    requires step.AskStep? && step.origin == Opening
    ensures Apply(env, s, step, now).status == s.status
  {
  }

  lemma AnchorShape(job: Job, s: Session)
    ensures NextAnchor(job, s).Some? ==>
              var d := NextAnchor(job, s).value;
              LaneOf(d) == Anchor && !d.completes && d.parent.None? && d.template.None? && |d.tags| == 1
              && d.tags[0] !in s.anchors
  {
    hide FirstUnasked, AnchorBudget, Multiple;
    assert "anchor:standardized_anchor"[..|ANCHOR_PREFIX|] == ANCHOR_PREFIX;
  }

  lemma SameAnchor(job: Job, s: Session, t: Session)
    requires t.anchors == s.anchors && t.asked == s.asked
    ensures NextAnchor(job, t) == NextAnchor(job, s)
  {
  }

  lemma RequestedAddable(env: Env, s: Session, d: Decision, built: Option<Tool>)
    requires Requested(env, s, d, built).Ok?
    ensures var tool := Requested(env, s, d, built).value;
            && Addable(env, s, tool)
            && (tool.Some? ==> tool == built)
            && (d.template.None? ==> tool.None?)
  {
  }

  lemma AddableFrame(env: Env, s: Session, t: Session, tool: Option<Tool>)
    requires Addable(env, s, tool)
    requires !Ended(t) && |t.tools| == |s.tools| && forall i :: 0 <= i < |s.tools| ==> t.tools[i].id == s.tools[i].id
    ensures Addable(env, t, tool)
  {
  }

  /** The state right after the answer and its evidence have been recorded. */
  lemma EvidenceFine(c: Contract, env: Env, s: Session, text: string, question: Option<Turn>, judge: Option<JudgeReply>, now: nat)
    requires !Ended(s) && EvidenceSteps(env, question, s.issued, judge).Some?
    ensures var steps := [HearStep(text, ParentOf(question), [])] + EvidenceSteps(env, question, s.issued, judge).value;
            var t := ApplyAll(env, s, steps, now);
            && AllFine(c, env, s, steps, now)
            && t.status == s.status && t.anchors == s.anchors && t.asked == s.asked && t.tools == s.tools
            && t.evaluations == s.evaluations
            && t.turns == s.turns + [Turn(s.issued, Candidate, text, ParentOf(question), [], None, false, false)]
  {
    hide TurnOf, ClaimAll, Judging;
    var hear := HearStep(text, ParentOf(question), []);
    OneStep(c, env, s, hear, now);
    var t := ApplyAll(env, s, [hear], now);
    TurnAppended(s.turns, t.turns[|s.turns|]);
    var more := EvidenceSteps(env, question, s.issued, judge).value;
    if |more| == 0 {
      assert [hear] + more == [hear];
    } else {
      OneMore(c, env, s, [hear], more[0], now);
      ClaimAllFrame(env, t, s.issued, question.value.tags, now);
      if |more| == 1 {
        assert [hear] + more == [hear] + [more[0]];
      } else {
        var u := ClaimAll(env, t, s.issued, question.value.tags, now);
        OneMore(c, env, s, [hear] + [more[0]], more[1], now);
        JudgingFrame(env, u, more[1].call, now);
        assert [hear] + more == [hear] + [more[0]] + [more[1]];
      }
    }
  }

  lemma ReplyFine(c: Contract, env: Env, s: Session, text: string, judge: Option<JudgeReply>,
                  brain: Option<BrainReply>, built: Option<Tool>, now: nat)
    requires s.status != Created
    requires brain.Some? ==> AnswerOk(c, env.job, s.asked, brain.value.decision)
    requires c.tools ==> ToolsOk(built)
    ensures AllFine(c, env, s, ReplyPlan(env, s, text, judge, brain, built).steps, now)
  {
    hide Requested, NextAnchor, EvidenceSteps, LastQuestion, Apply, ApplyAll;
    var p := ReplyPlan(env, s, text, judge, brain, built);
    if |p.steps| > 0 {
      var question := LastQuestion(s.turns);
      EvidenceFine(c, env, s, text, question, judge, now);
      var steps := [HearStep(text, ParentOf(question), [])] + EvidenceSteps(env, question, s.issued, judge).value;
      var t := ApplyAll(env, s, steps, now);
      var d := Choose(env, s, brain.value.decision);
      AnchorShape(env.job, s);
      SameAnchor(env.job, s, t);
      RequestedAddable(env, s, d, built);
      var tool := Requested(env, s, d, built).value;
      AddableFrame(env, s, t, tool);
      var ask := AskStep(d, AfterAnswer, brain.value.covered, tool);
      OneMore(c, env, s, steps, ask, now);
      assert p.steps == steps + [ask];
    }
  }

  lemma AnswerFine(c: Contract, env: Env, s: Session, op: Op, now: nat)
    requires op.Answer? && Obeys(c, env, s, op, now)
    ensures AllFine(c, env, s, PlanFor(env, s, op, now).steps, now)
  {
    hide StartPlan, ReplyPlan, ApplyAll, AllFine;
    if s.status == Created {
      StartFine(c, env, s, op, op.opening, op.openingBuilt, now);
      var first := StartPlan(env, s, op.opening, op.openingBuilt);
      if first.error.None? {
        var t := ApplyAll(env, s, first.steps, now);
        ReplyFine(c, env, t, op.text, op.judge, op.brain, op.built, now);
        AllFineConcat(c, env, s, first.steps, ReplyPlan(env, t, op.text, op.judge, op.brain, op.built).steps, now);
      }
    } else {
      ReplyFine(c, env, s, op.text, op.judge, op.brain, op.built, now);
    }
  }

  /** The tool is marked submitted and the artifact heard before the verdict is assessed. */
  lemma ArtifactFine(c: Contract, env: Env, s: Session, op: Op, now: nat)
    requires op.SubmitTool? && |SubmitPlan(env, s, op.toolId, op.verdict, op.brain, op.built).steps| > 0
    ensures var steps := SubmitPlan(env, s, op.toolId, op.verdict, op.brain, op.built).steps;
            var init := [steps[0]] + [steps[1]];
            var u := ApplyAll(env, s, init, now);
            && AllFine(c, env, s, init, now)
            && u.status == s.status && u.tools == SetToolStatus(s.tools, op.toolId, SUBMITTED)
            && TurnOf(u.turns, s.issued + 1).Some?
  {
    hide Requested, AllKnown, Submitting, Hear, Addable, TurnOf, SetToolStatus;
    var p := SubmitPlan(env, s, op.toolId, op.verdict, op.brain, op.built);
    OneStep(c, env, s, p.steps[0], now);
    var t := Submitting(env, s, op.toolId, now);
    SubmittingShape(env, s, op.toolId, now);
    OneMore(c, env, s, [p.steps[0]], p.steps[1], now);
    var u := Apply(env, t, p.steps[1], now);
    HearShape(env, t, p.steps[1], now);
    TurnAppended(t.turns, u.turns[|t.turns|]);
  }

  lemma SubmitFine(c: Contract, env: Env, s: Session, op: Op, now: nat)
    requires op.SubmitTool? && Obeys(c, env, s, op, now)
    ensures AllFine(c, env, s, PlanFor(env, s, op, now).steps, now)
  {
    hide Requested, AllKnown, Obeys, Addable, TurnOf, SetToolStatus, Apply, ApplyAll, AllFine;
    var p := SubmitPlan(env, s, op.toolId, op.verdict, op.brain, op.built);
    if |p.steps| > 0 {
      ArtifactFine(c, env, s, op, now);
      var init := [p.steps[0]] + [p.steps[1]];
      assert p.steps == init + [p.steps[2]];
      SubmittedTool(s.tools, op.toolId);
      RequestedAddable(env, s, op.brain.value.decision, op.built);
      AddableFrame(env, s, ApplyAll(env, s, init, now), p.steps[2].tool);
      AssessSensible(c, env, s, op, now);
      OneMore(c, env, s, init, p.steps[2], now);
    } else {
      NothingFine(c, env, s, now);
    }
  }

  lemma NothingFine(c: Contract, env: Env, s: Session, now: nat)
    ensures AllFine(c, env, s, [], now)
  {
  }

  lemma SubmittingShape(env: Env, s: Session, tool: string, now: nat)
    ensures var t := Submitting(env, s, tool, now);
            t.status == s.status && t.turns == s.turns && t.tools == SetToolStatus(s.tools, tool, SUBMITTED) && t.issued == s.issued + 1
  {
  }

  lemma HearShape(env: Env, s: Session, step: Step, now: nat)
    requires step.HearStep?
    ensures var t := Apply(env, s, step, now);
            && t.status == s.status && t.tools == s.tools
            && |t.turns| == |s.turns| + 1 && t.turns == s.turns + [t.turns[|s.turns|]] && t.turns[|s.turns|].id == s.issued
  {
  }

  lemma AssessSensible(c: Contract, env: Env, s: Session, op: Op, now: nat)
    requires op.SubmitTool? && Obeys(c, env, s, op, now) && op.brain.Some?
    ensures c.reasons ==> LaneOf(op.brain.value.decision) != Anchor
    ensures c.tools ==> ToolsOk(op.built)
  {
  }

  lemma SubmittedTool(tools: seq<Tool>, id: string)
    ensures forall i :: 0 <= i < |tools| ==> SetToolStatus(tools, id, SUBMITTED)[i].id == tools[i].id
    ensures IndexOfTool(SetToolStatus(tools, id, SUBMITTED), id) == IndexOfTool(tools, id)
    ensures IndexOfTool(tools, id) < |tools| ==>
              SetToolStatus(tools, id, SUBMITTED)[IndexOfTool(tools, id)].status == SUBMITTED
  {
  }

  lemma ControlFine(c: Contract, env: Env, s: Session, op: Op, now: nat)
    requires op.Control?
    ensures AllFine(c, env, s, PlanFor(env, s, op, now).steps, now)
  {
    hide LastBy, Strip, ClarifyText, TurnOf;
    var p := ControlPlan(s, op.control, op.detail);
    if |p.steps| > 0 {
      OneStep(c, env, s, p.steps[0], now);
      if |p.steps| == 1 {
        assert p.steps == [p.steps[0]];
      } else {
        assert p.steps == [p.steps[0]] + [p.steps[1]];
        LastByOccurs(s.turns, Candidate);
        OneMore(c, env, s, [p.steps[0]], p.steps[1], now);
      }
    }
  }

  lemma {:induction false} LastByOccurs(turns: seq<Turn>, speaker: Speaker)
    ensures LastBy(turns, speaker).Some? ==> LastBy(turns, speaker).value in turns
    ensures LastBy(turns, speaker).Some? ==> TurnOf(turns, LastBy(turns, speaker).value.id).Some?
  {
    if |turns| > 0 && turns[|turns| - 1].speaker != speaker {
      LastByOccurs(turns[..|turns| - 1], speaker);
    }
  }

  /** Under the theorem's contract every step of every operation is taken where it is allowed. */
  lemma PlanFine(c: Contract, env: Env, s: Session, op: Op, now: nat)
    requires Obeys(c, env, s, op, now)
    ensures AllFine(c, env, s, PlanFor(env, s, op, now).steps, now)
  {
    match op
    case Start(opening, built) => StartFine(c, env, s, op, opening, built, now);
    case Answer(_, _, _, _, _, _) => AnswerFine(c, env, s, op, now);
    case Control(_, _) => ControlFine(c, env, s, op, now);
    case SubmitTool(_, _, _, _) => SubmitFine(c, env, s, op, now);
    case _ => SingleFine(c, env, s, op, now);
  }

  lemma SingleFine(c: Contract, env: Env, s: Session, op: Op, now: nat)
    requires Obeys(c, env, s, op, now)
    requires !op.Start? && !op.Answer? && !op.Control? && !op.SubmitTool?
    ensures AllFine(c, env, s, PlanFor(env, s, op, now).steps, now)
  {
    hide AppendRefusal, Admissible, LatestRun, KnownTurns;
    var p := PlanFor(env, s, op, now);
    if |p.steps| > 0 {
      assert p.steps == [p.steps[0]];
      OneStep(c, env, s, p.steps[0], now);
    }
  }

  // ---- histories ----

  /** Every call of a history kept the contract in the state in which it was made. */
  ghost predicate AllObey(c: Contract, env: Env, calls: seq<Call>) {
    forall i :: 0 <= i < |calls| ==> Obeys(c, env, Reach(env, calls[..i]), calls[i].op, calls[i].now)
  }

  lemma AllObeyPrefix(c: Contract, env: Env, calls: seq<Call>, n: nat)
    requires AllObey(c, env, calls) && n <= |calls|
    ensures AllObey(c, env, calls[..n])
  {
    forall i | 0 <= i < n
      ensures Obeys(c, env, Reach(env, calls[..n][..i]), calls[..n][i].op, calls[..n][i].now)
    {
      assert calls[..n][..i] == calls[..i];
    }
  }

  lemma AllObeyWeaker(c: Contract, d: Contract, env: Env, calls: seq<Call>)
    requires AllObey(d, env, calls) && Weaker(c, d)
    ensures AllObey(c, env, calls)
  {
    hide Reach, Consulted;
    forall i | 0 <= i < |calls|
      ensures Obeys(c, env, Reach(env, calls[..i]), calls[i].op, calls[i].now)
    {
      assert Obeys(d, env, Reach(env, calls[..i]), calls[i].op, calls[i].now);
    }
  }
}
