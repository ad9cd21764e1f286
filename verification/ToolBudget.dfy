/** Tools opened by the brain stay within the job's budget, and no template is used twice. */
module ToolBudget {
  import opened Common
  import opened Events
  import opened AuditChain
  import opened Interview
  import opened Service
  import opened Plans
  import opened Outcomes
  import Counterfactual
  import Policy
  import AnchorShare
  import ServiceRuns
  import Submissions

  /** Within the budget, every tool from an entry of the job, no entry used twice. */
  ghost predicate WithinBudget(job: Job, tools: seq<Tool>) {
    && |tools| <= job.maxTools
    && (forall i :: 0 <= i < |tools| ==> tools[i].template.Some? && Listed(job.templates, tools[i].template.value))
    && (forall i, j :: 0 <= i < j < |tools| ==> tools[i].template != tools[j].template)
  }

  ghost predicate Listed(templates: seq<Template>, id: string) {
    exists k :: 0 <= k < |templates| && templates[k].id == id
  }

  /** The tool made for a decision carries the template it was made from. */
  predicate Carries(d: Decision, built: Option<Tool>) {
    d.template.Some? && built.Some? ==> built.value.template == d.template
  }

  predicate ReplyCarries(reply: Option<BrainReply>, built: Option<Tool>) {
    reply.Some? ==> Carries(reply.value.decision, built)
  }

  /** The templates' factories do their work, and nobody opens a tool by hand. */
  predicate MadeToOrder(op: Op) {
    match op
    case Start(opening, built) => ReplyCarries(opening, built)
    case Answer(_, opening, openingBuilt, _, brain, built) => ReplyCarries(opening, openingBuilt) && ReplyCarries(brain, built)
    case SubmitTool(_, _, brain, built) => ReplyCarries(brain, built)
    case OpenTool(_) => false
    case _ => true
  }

  /** The tools may differ in status alone. */
  ghost predicate SameTemplates(a: seq<Tool>, b: seq<Tool>) {
    |a| == |b| && forall i :: 0 <= i < |a| ==> a[i].template == b[i].template
  }

  lemma SameBudget(job: Job, a: seq<Tool>, b: seq<Tool>)
    requires WithinBudget(job, a) && SameTemplates(a, b)
    ensures WithinBudget(job, b)
  {
    hide Listed;
  }

  /** A granted tool, added to tools within the budget, stays within it. */
  lemma GrantedFits(job: Job, s: Session, tools: seq<Tool>, d: Decision, built: Option<Tool>, turn: Id)
    requires WithinBudget(job, s.tools) && SameTemplates(s.tools, tools)
    requires Granted(job, s, d, built) && Carries(d, built)
    ensures WithinBudget(job, tools + Added(ToolFor(d, built), turn))
  {
    SameBudget(job, s.tools, tools);
    if d.template.Some? {
      assert Listed(job.templates, d.template.value);
      var all := tools + Added(ToolFor(d, built), turn);
      assert all[|tools|].template == d.template;
      forall i | 0 <= i < |tools|
        ensures all[i].template != d.template
      {
        assert all[i].template == s.tools[i].template && s.tools[i] in s.tools;
      }
    } else {
      assert tools + [] == tools;
    }
  }

  /** The tool as it is added, opened from the turn that asked for it. */
  function Added(tool: Option<Tool>, turn: Id): seq<Tool> {
    if tool.None? then [] else [tool.value.(status := OPEN, openedFrom := Some(turn))]
  }

  lemma AsksAdds(s: Session, t: Session, d: Decision, covered: seq<string>, tool: Option<Tool>, opening: bool)
    requires Asks(s, t, d, covered, tool, opening)
    ensures t.tools == s.tools + Added(tool, s.issued)
  {
  }

  lemma SameIsSame(tools: seq<Tool>)
    ensures SameTemplates(tools, tools)
  {
  }

  // ---- the operations that ask ----

  lemma AnchorHasNoTool(job: Job, s: Session, adaptive: Decision, d: Decision)
    requires Puts(job, s, adaptive, d)
    ensures d.template.None? || (d == adaptive && !(adaptive.parent.None? && AnchorShare.AnchorDue(job, s)))
  {
    hide AnchorShare.AnchorDue, AnchorShare.NextInOrder;
  }

  lemma AnswerWithin(env: Env, s: Session, op: Op, now: nat)
    requires Policy.DistinctCompetencies(env.job) && WithinBudget(env.job, s.tools)
    requires op.Answer? && s.status != Created && ReplyCarries(op.brain, op.built)
    ensures WithinBudget(env.job, Perform(env, s, op, now).tools)
  {
    AnswerIsAcceptedIff(env, s, op, now);
    if PlanFor(env, s, op, now).error.None? {
      AnswerOutcome(env, s, op, now);
      hide PlanFor, Perform, Asks, Hears, Answers, Puts, Granted, WithinBudget, SameTemplates, AnchorShare.AnchorDue, JudgeNeeded;
      var t, adaptive := Perform(env, s, op, now), op.brain.value.decision;
      var u, parent, d :| AnswersThrough(env, s, u, t, op, parent, d);
      AnchorHasNoTool(env.job, s, adaptive, d);
      AsksAdds(u, t, d, op.brain.value.covered, ToolFor(d, op.built), false);
      HearsKeeps(s, u, op.text, parent);
      SameIsSame(s.tools);
      if d.template.None? {
        NothingAsked(env.job, s, d, op.built);
      }
      GrantedFits(env.job, s, u.tools, d, op.built, u.issued);
    }
  }

  lemma HearsKeeps(s: Session, u: Session, text: string, parent: Option<Id>)
    requires Hears(s, u, text, parent)
    ensures u.tools == s.tools
  {
  }

  lemma NothingAsked(job: Job, s: Session, d: Decision, built: Option<Tool>)
    requires d.template.None?
    ensures Granted(job, s, d, built) && Carries(d, built)
  {
  }

  lemma StartWithin(env: Env, s: Session, op: Op, now: nat)
    requires Policy.DistinctCompetencies(env.job) && WithinBudget(env.job, s.tools)
    requires op.Start? && ReplyCarries(op.opening, op.built)
    ensures WithinBudget(env.job, Perform(env, s, op, now).tools)
  {
    StartIsAcceptedIff(env, s, op, now);
    if PlanFor(env, s, op, now).error.None? && !Begun(s) {
      StartOutcome(env, s, op, now);
      hide PlanFor, Perform, Asks, Granted, WithinBudget, SameTemplates, AnchorShare.AnchorDue, AnchorShare.NextInOrder, Begun;
      var t := Perform(env, s, op, now);
      var d :| Outcomes.Opens(env, s, t, op, d);
      var u: Session :| u == s.(status := Running, events := u.events)
        && if AnchorShare.AnchorDue(env.job, s)
           then (exists k :: AnchorShare.NextInOrder(env.job, s, k) && d == AnchorOf(env.job.competencies[k]))
                && Asks(u, t, d, s.covered, None, true)
           else op.opening.Some? && d == op.opening.value.decision
                && Asks(u, t, d, op.opening.value.covered, ToolFor(d, op.built), true);
      SameIsSame(s.tools);
      if AnchorShare.AnchorDue(env.job, s) {
        NothingAsked(env.job, s, d, op.built);
        AsksAdds(u, t, d, s.covered, None, true);
      } else {
        AsksAdds(u, t, d, op.opening.value.covered, ToolFor(d, op.built), true);
      }
      GrantedFits(env.job, s, u.tools, d, op.built, u.issued);
    }
  }

  lemma SubmissionWithin(env: Env, s: Session, op: Op, now: nat)
    requires WithinBudget(env.job, s.tools) && op.SubmitTool? && ReplyCarries(op.brain, op.built)
    ensures WithinBudget(env.job, Perform(env, s, op, now).tools)
  {
    Submissions.SubmissionIsAcceptedIff(env, s, op, now);
    if PlanFor(env, s, op, now).error.None? {
      Submissions.SubmissionOutcome(env, s, op, now);
      hide PlanFor, Perform, Asks, Granted, WithinBudget, Submissions.VerdictRecorded;
      var t, d := Perform(env, s, op, now), op.brain.value.decision;
      var u, k :| Submissions.SubmitsThrough(s, u, t, op, k);
      AsksAdds(u, t, d, op.brain.value.covered, ToolFor(d, op.built), false);
      GrantedFits(env.job, s, u.tools, d, op.built, u.issued);
    }
  }

  // ---- the other operations ----

  predicate Toolless(steps: seq<Step>) {
    forall i :: 0 <= i < |steps| ==> !steps[i].AskStep? && !steps[i].AssessStep? && !steps[i].OpenToolStep?
  }

  lemma StepKeepsTemplates(env: Env, s: Session, step: Step, now: nat)
    requires !step.AskStep? && !step.AssessStep? && !step.OpenToolStep?
    ensures SameTemplates(s.tools, Apply(env, s, step, now).tools)
  {
    hide Apply, ClaimAll, Judging, ObserveOne, Controlling, Correcting;
    Counterfactual.ApplyIs(env, s, step, now);
    if step.ControlStep? {
      ControlTools(env, s, step.control, step.reply, now);
    } else if step.CorrectStep? {
      CorrectTools(env, s, step.turn, step.text, now);
    } else if step.ClaimStep? {
      ClaimAllFrame(env, s, step.answer, step.tags, now);
    } else if step.JudgeStep? {
      JudgingFrame(env, s, step.call, now);
    } else if step.ObserveStep? {
      ObserveOneFrame(env, s, step.observation, now);
    } else {
      PlainTools(env, s, step, now);
    }
  }

  lemma ControlTools(env: Env, s: Session, kind: ControlKind, reply: Option<ControlReply>, now: nat)
    ensures Controlling(env, s, kind, reply, now).tools == s.tools
  {
    hide Extend;
  }

  lemma CorrectTools(env: Env, s: Session, turn: Id, text: string, now: nat)
    ensures Correcting(env, s, turn, text, now).tools == s.tools
  {
    hide SupersedeTurn, Extend, SetText;
    var t := s.(revisions := s.revisions + [turn], turns := SetText(s.turns, turn, text), issued := s.issued + 1);
    SupersedeTurnFrame(env, Log(env, t, TranscriptCorrected, Some(turn), Details(""), now), turn, now);
  }

  lemma PlainTools(env: Env, s: Session, step: Step, now: nat)
    requires (Counterfactual.Plain(step) || step.HearStep?) && !step.OpenToolStep?
    ensures SameTemplates(s.tools, Apply(env, s, step, now).tools)
  {
    hide LogCancels, Extend;
    Counterfactual.LogCancelsFields(env, s, s.tools, now);
  }

  lemma {:induction false} StepsKeepTemplates(env: Env, s: Session, steps: seq<Step>, now: nat)
    requires Toolless(steps)
    ensures SameTemplates(s.tools, ApplyAll(env, s, steps, now).tools)
  {
    hide Apply;
    if |steps| > 0 {
      var n := |steps| - 1;
      StepsKeepTemplates(env, s, steps[..n], now);
      StepKeepsTemplates(env, ApplyAll(env, s, steps[..n], now), steps[n], now);
    }
  }

  lemma OthersAreToolless(env: Env, s: Session, op: Op, now: nat)
    requires !op.Start? && !op.Answer? && !op.SubmitTool? && !op.OpenTool?
    ensures Toolless(PlanFor(env, s, op, now).steps)
  {
    hide AppendRefusal, TurnOf, Admissible, LatestRun, LastBy, Strip, ClarifyText, Bystander;
  }

  // ---- histories ----

  lemma CallWithin(env: Env, s: Session, op: Op, now: nat)
    requires Policy.DistinctCompetencies(env.job) && WithinBudget(env.job, s.tools) && MadeToOrder(op)
    ensures WithinBudget(env.job, Perform(env, s, op, now).tools)
  {
    hide WithinBudget, Perform, PlanFor, StartPlan, SameTemplates, Toolless, Policy.DistinctCompetencies, ReplyCarries;
    if op.Start? {
      StartWithin(env, s, op, now);
    } else if op.Answer? {
      if s.status == Created {
        var start := Start(op.opening, op.openingBuilt);
        StartWithin(env, s, start, now);
        ServiceRuns.AnswerIsStartThenAnswer(env, s, op, now);
        if StartPlan(env, s, op.opening, op.openingBuilt).error.None? {
          BegunIsRunning(env, s, op.opening, op.openingBuilt, now);
          AnswerWithin(env, Perform(env, s, start, now), op, now);
        }
      } else {
        AnswerWithin(env, s, op, now);
      }
    } else if op.SubmitTool? {
      SubmissionWithin(env, s, op, now);
    } else {
      OthersAreToolless(env, s, op, now);
      PerformIs(env, s, op, now);
      StepsKeepTemplates(env, s, PlanFor(env, s, op, now).steps, now);
      SameBudget(env.job, s.tools, Perform(env, s, op, now).tools);
    }
  }

  lemma PerformIs(env: Env, s: Session, op: Op, now: nat)
    ensures Perform(env, s, op, now) == ApplyAll(env, s, PlanFor(env, s, op, now).steps, now)
  {
  }

  lemma BegunIsRunning(env: Env, s: Session, opening: Option<BrainReply>, built: Option<Tool>, now: nat)
    requires s.status == Created && StartPlan(env, s, opening, built).error.None?
    ensures Perform(env, s, Start(opening, built), now).status == Running
  {
    hide StartPlan, ApplyAll;
    StartFine(NO_CONTRACT, env, s, Start(opening, built), opening, built, now);
  }

  /**
   In every history in which tools are opened by the brain alone and made from the template asked for, the tools are
   within the job's budget, each from an entry of the job, and no two from the same one.
   */
  lemma {:induction false} ToolsStayWithinBudget(env: Env, calls: seq<Call>)
    requires Policy.DistinctCompetencies(env.job) && forall i :: 0 <= i < |calls| ==> MadeToOrder(calls[i].op)
    ensures WithinBudget(env.job, Reach(env, calls).tools)
  {
    hide Perform, NewSession, WithinBudget, Policy.DistinctCompetencies, MadeToOrder;
    if |calls| == 0 {
      NewHasNoTools(env);
    } else {
      var n := |calls| - 1;
      ToolsStayWithinBudget(env, calls[..n]);
      CallWithin(env, Reach(env, calls[..n]), calls[n].op, calls[n].now);
    }
  }

  lemma NewHasNoTools(env: Env)
    ensures WithinBudget(env.job, NewSession(env, 0).tools)
  {
  }
}
