/** How long an interview can get, and which brains keep to the rules the bound needs. */
module Policy {
  import opened Common
  import opened Events
  import opened Interview
  import opened Service
  import opened Plans
  import Counterfactual

  // ---- the bounds ----

  predicate DistinctCompetencies(job: Job) {
    forall i, j :: 0 <= i < j < |job.competencies| ==> job.competencies[i].id != job.competencies[j].id
  }

  predicate ValidJob(job: Job) {
    job.maxQuestions >= 1 && 0.0 <= job.anchorRatio <= 1.0 && DistinctCompetencies(job)
  }

  /** The competencies that have an anchor question, in the job's order. */
  function AnchorIds(competencies: seq<Competency>): seq<string> {
    if |competencies| == 0 then []
    else (if competencies[0].anchor.Some? then [competencies[0].id] else []) + AnchorIds(competencies[1..])
  }

  ghost predicate InJobOrder(job: Job, anchors: seq<string>) {
    anchors <= AnchorIds(job.competencies)
  }

  ghost predicate Named(competencies: seq<Competency>, c: string) {
    exists i :: 0 <= i < |competencies| && competencies[i].id == c
  }

  lemma {:induction false} AnchorIdsAreNamed(competencies: seq<Competency>)
    ensures forall c <- AnchorIds(competencies) :: Named(competencies, c)
  {
    if |competencies| > 0 {
      var rest := competencies[1..];
      AnchorIdsAreNamed(rest);
      forall c | c in AnchorIds(competencies)
        ensures Named(competencies, c)
      {
        if c in AnchorIds(rest) {
          var i :| 0 <= i < |rest| && rest[i].id == c;
          assert competencies[i + 1].id == c;
        } else {
          assert competencies[0].id == c;
        }
      }
    }
  }

  lemma {:induction false} AnchorIdsAreDistinct(competencies: seq<Competency>)
    requires forall i, j :: 0 <= i < j < |competencies| ==> competencies[i].id != competencies[j].id
    ensures forall i, j :: 0 <= i < j < |AnchorIds(competencies)| ==>
              AnchorIds(competencies)[i] != AnchorIds(competencies)[j]
  {
    if |competencies| > 0 {
      var rest := competencies[1..];
      var head := if competencies[0].anchor.Some? then [competencies[0].id] else [];
      var all, tail := AnchorIds(competencies), AnchorIds(rest);
      assert all == head + tail;
      AnchorIdsAreNamed(rest);
      AnchorIdsAreDistinct(rest);
      hide AnchorIds;
      forall i, j | 0 <= i < j < |all|
        ensures all[i] != all[j]
      {
        assert all[j] == tail[j - |head|] && tail[j - |head|] in tail;
        if i >= |head| {
          assert all[i] == tail[i - |head|];
        } else {
          var k :| 0 <= k < |rest| && rest[k].id == all[j];
          assert competencies[k + 1].id == all[j];
        }
      }
    }
  }

  /** If exactly the first k anchors have been asked, the first unasked one is the next. */
  lemma {:induction false} FirstUnaskedIsNext(competencies: seq<Competency>, asked: seq<string>, k: nat)
    requires k <= |AnchorIds(competencies)|
    requires forall i :: 0 <= i < |AnchorIds(competencies)| ==> (AnchorIds(competencies)[i] in asked <==> i < k)
    ensures FirstUnasked(competencies, asked).Some? <==> k < |AnchorIds(competencies)|
    ensures k < |AnchorIds(competencies)| ==> FirstUnasked(competencies, asked).value.id == AnchorIds(competencies)[k]
  {
    if |competencies| > 0 {
      var rest := AnchorIds(competencies[1..]);
      if competencies[0].anchor.Some? {
        assert AnchorIds(competencies) == [competencies[0].id] + rest;
        assert forall i :: 0 <= i < |rest| ==> rest[i] == AnchorIds(competencies)[i + 1];
        assert AnchorIds(competencies)[0] == competencies[0].id;
        if k > 0 {
          FirstUnaskedIsNext(competencies[1..], asked, k - 1);
        }
      } else {
        assert AnchorIds(competencies) == rest;
        FirstUnaskedIsNext(competencies[1..], asked, k);
      }
    }
  }

  lemma PrefixMembers(all: seq<string>, k: nat)
    requires k <= |all| && forall i, j :: 0 <= i < j < |all| ==> all[i] != all[j]
    ensures forall i :: 0 <= i < |all| ==> (all[i] in all[..k] <==> i < k)
  {
    forall i | 0 <= i < k
      ensures all[i] in all[..k]
    {
      assert all[..k][i] == all[i];
    }
  }

  /** The anchor that is due is the next one in the job's order. */
  lemma DueAnchorIsNext(job: Job, s: Session)
    requires DistinctCompetencies(job) && InJobOrder(job, s.anchors) && NextAnchor(job, s).Some?
    ensures |NextAnchor(job, s).value.tags| == 1 && InJobOrder(job, s.anchors + NextAnchor(job, s).value.tags)
  {
    hide AnchorBudget, Multiple, FirstUnasked;
    var all, k := AnchorIds(job.competencies), |s.anchors|;
    AnchorIdsAreDistinct(job.competencies);
    assert s.anchors == all[..k];
    PrefixMembers(all, k);
    FirstUnaskedIsNext(job.competencies, s.anchors, k);
  }

  /** Anchors keep to their order and share; with the limit kept, the questions asked are bounded as well. */
  ghost predicate Inv(c: Contract, job: Job, s: Session) {
    && (c.limit ==> s.asked <= job.maxQuestions + |s.anchors| + |s.evaluations|)
    && (s.status == Created ==> s.asked <= |s.evaluations| && |s.anchors| == 0)
    && (|s.anchors| > 0 ==> |s.anchors| <= AnchorBudget(job))
    && |s.anchors| <= s.asked
    && |s.anchors| as real <= Multiple(s.asked, job.anchorRatio) + 1.0
    && InJobOrder(job, s.anchors)
  }

  lemma {:induction false} MultipleGrows(n: nat, x: real)
    requires x >= 0.0
    ensures 0.0 <= Multiple(n, x) <= Multiple(n + 1, x)
  {
    if n > 0 {
      MultipleGrows(n - 1, x);
    }
  }

  lemma {:induction false} MultipleWithin(n: nat, x: real)
    requires 0.0 <= x <= 1.0
    ensures 0.0 <= Multiple(n, x) <= n as real
  {
    if n > 0 {
      MultipleWithin(n - 1, x);
    }
  }

  /** The budget is no more than the competencies with an anchor question, and the anchors' share rounded up. */
  lemma BudgetBounds(job: Job)
    requires ValidJob(job)
    ensures 0 <= AnchorBudget(job) <= job.maxQuestions
    ensures AnchorBudget(job) <= CountAnchors(job.competencies)
    ensures AnchorBudget(job) as real < Multiple(job.maxQuestions, job.anchorRatio) + 1.0
  {
    MultipleWithin(job.maxQuestions, job.anchorRatio);
  }

  /** A due anchor is within budget and below its share. */
  lemma AnchorIsDue(job: Job, s: Session)
    ensures NextAnchor(job, s).Some? ==>
              |s.anchors| < AnchorBudget(job) && (s.asked == 0 || |s.anchors| as real < Multiple(s.asked, job.anchorRatio))
  {
  }

  lemma AddOne(known: seq<string>, tags: seq<string>)
    requires |tags| == 1
    ensures |AddMissing(known, tags)| <= |known| + 1
    ensures tags[0] !in known ==> AddMissing(known, tags) == known + tags
  {
    assert tags[..0] == [];
  }

  /** There is room for one more question that is not an anchor. */
  ghost predicate Room(c: Contract, job: Job, s: Session, d: Decision) {
    && (c.limit && LaneOf(d) == Adaptive ==> s.asked < job.maxQuestions + |s.anchors| + |s.evaluations|)
    && (s.status == Created ==> LaneOf(d) != Anchor && s.asked < |s.evaluations|)
  }

  lemma MultipleStarts(x: real)
    ensures Multiple(0, x) == 0.0
  {
  }

  lemma AskBounded(c: Contract, env: Env, s: Session, d: Decision, origin: Origin, covered: seq<string>, tool: Option<Tool>, now: nat)
    requires ValidJob(env.job) && c.reasons && Inv(c, env.job, s) && Room(c, env.job, s, d)
    requires LaneOf(d) == Anchor ==> NextAnchor(env.job, s) == Some(d)
    ensures Inv(c, env.job, Ask(env, s, d, origin, covered, tool, now))
  {
    hide AddMissing, NextAnchor, AnchorBudget, Multiple, Ask;
    Counterfactual.AskFields(env, s, d, origin, covered, tool, now);
    MultipleGrows(s.asked, env.job.anchorRatio);
    if LaneOf(d) == Anchor {
      AnchorShape(env.job, s);
      AnchorIsDue(env.job, s);
      DueAnchorIsNext(env.job, s);
      AddOne(s.anchors, d.tags);
      MultipleStarts(env.job.anchorRatio);
    }
  }

  /** Steps that neither ask nor evaluate leave the bounds alone. */
  lemma SameCountersBounded(c: Contract, job: Job, s: Session, t: Session)
    requires Inv(c, job, s) && t.asked == s.asked && t.anchors == s.anchors && t.evaluations == s.evaluations
    requires t.status == Created ==> s.status == Created
    ensures Inv(c, job, t)
  {
  }

  lemma AssessBounded(c: Contract, env: Env, s: Session, step: Step, now: nat)
    requires ValidJob(env.job) && c.reasons && Inv(c, env.job, s)
    requires step.AssessStep? && Fine(c, env, s, step)
    ensures Inv(c, env.job, Apply(env, s, step, now))
  {
    hide ObserveAll, VerdictObservations, Ask, LaneOf, Evaluating, Addable, TurnOf;
    Counterfactual.EvaluatingFields(env, s, step.submitted.id, now);
    var evaluated := Evaluating(env, s, step.submitted.id, now);
    var os := VerdictObservations(step.submitted, step.artifact, step.passed);
    ObserveAllFrame(env, evaluated, os, now);
    AskBounded(c, env, ObserveAll(env, evaluated, os, now), step.decision, AfterTool, step.covered, step.tool, now);
  }

  lemma StepBounded(c: Contract, env: Env, s: Session, step: Step, now: nat)
    requires ValidJob(env.job) && c.reasons && Inv(c, env.job, s) && Fine(c, env, s, step)
    requires step.AskStep? ==> step.origin == AfterAnswer
    ensures Inv(c, env.job, Apply(env, s, step, now))
  {
    hide Inv, TurnOf, Admissible, AppendRefusal, Ask, ClaimAll, Judging, ObserveOne, Controlling, Correcting, Log,
         Assessing, LogCancels, NextAnchor, Hear, Submitting, Cancelling;
    match step
    case AskStep(d, origin, covered, tool) =>
      RoomAfterAnswer(c, env.job, s, d);
      AskBounded(c, env, s, d, origin, covered, tool, now);
    case AssessStep(_, _, _, _, _, _) => AssessBounded(c, env, s, step, now);
    case _ =>
      CountersOf(env, s, step, now);
      SameCountersBounded(c, env.job, s, Apply(env, s, step, now));
  }

  /** Steps that neither ask nor assess leave the counters alone and never go back to CREATED. */
  lemma CountersOf(env: Env, s: Session, step: Step, now: nat)
    requires !step.AskStep? && !step.AssessStep?
    ensures var t := Apply(env, s, step, now);
            && t.asked == s.asked && t.anchors == s.anchors && t.evaluations == s.evaluations
            && (t.status == Created ==> s.status == Created)
            && (t.status == Running ==> s.status == Running || step.BeginStep?)
  {
    hide ClaimAll, Judging, ObserveOne, Controlling, Correcting, Log, LogCancels, Hear, Submitting, Cancelling;
    match step
    case HearStep(text, parent, tags) => Counterfactual.HearFields(env, s, text, parent, tags, now);
    case ClaimStep(answer, tags) => ClaimAllFrame(env, s, answer, tags, now);
    case JudgeStep(call) => JudgingFrame(env, s, call, now);
    case ObserveStep(o) => ObserveOneFrame(env, s, o, now);
    case ControlStep(kind, reply) => ControlFields(env, s, kind, reply, now);
    case CorrectStep(turn, text) => Counterfactual.CorrectFields(env, s, turn, text, now);
    case _ => Counterfactual.PlainFields(env, s, step, now);
  }

  lemma RoomAfterAnswer(c: Contract, job: Job, s: Session, d: Decision)
    requires s.status == Running && (c.limit && s.asked >= job.maxQuestions ==> d.completes || LaneOf(d) == Anchor)
    ensures Room(c, job, s, d)
  {
  }

  lemma ControlFields(env: Env, s: Session, kind: ControlKind, reply: Option<ControlReply>, now: nat)
    ensures var t := Controlling(env, s, kind, reply, now);
            && t.status == s.status && t.asked == s.asked && t.anchors == s.anchors && t.evaluations == s.evaluations
            && t.graph == s.graph && t.runs == s.runs && t.revisions == s.revisions && t.issued >= s.issued
  {
    hide Log;
    var t := Log(env, s.(paused := PauseAfter(s.paused, kind)), CandidateControl, None, ForControl(kind), now);
    Counterfactual.LogFields(env, s.(paused := PauseAfter(s.paused, kind)), CandidateControl, None, ForControl(kind), now);
    if reply.Some? {
      var turn := Turn(t.issued, Interviewer, reply.value.text, None, reply.value.tags, reply.value.lane, true, reply.value.nonEvaluative);
      Counterfactual.LogFields(env, t.(turns := t.turns + [turn], issued := t.issued + 1), InterviewerTurn,
                               Some(turn.id), Details(""), now);
    }
  }

  predicate NoOpening(steps: seq<Step>) {
    forall i :: 0 <= i < |steps| && steps[i].AskStep? ==> steps[i].origin == AfterAnswer
  }

  lemma {:induction false} StepsBounded(c: Contract, env: Env, s: Session, steps: seq<Step>, now: nat)
    requires ValidJob(env.job) && c.reasons && Inv(c, env.job, s) && AllFine(c, env, s, steps, now) && NoOpening(steps)
    ensures Inv(c, env.job, ApplyAll(env, s, steps, now))
  {
    hide Inv, Fine, Apply;
    if |steps| > 0 {
      var n := |steps| - 1;
      StepsBounded(c, env, s, steps[..n], now);
      StepBounded(c, env, ApplyAll(env, s, steps[..n], now), steps[n], now);
    }
  }

  /** Beginning an interview asks one question, and there is always room for it. */
  lemma StartBounded(c: Contract, env: Env, s: Session, opening: Option<BrainReply>, built: Option<Tool>, now: nat)
    requires ValidJob(env.job) && c.reasons && Inv(c, env.job, s) && (s.status == Running ==> |s.turns| > 0)
    requires opening.Some? ==> OpeningOk(c, opening.value.decision)
    ensures Inv(c, env.job, ApplyAll(env, s, StartPlan(env, s, opening, built).steps, now))
  {
    hide Requested, NextAnchor, Ask, Log;
    var p := StartPlan(env, s, opening, built);
    if |p.steps| == 2 {
      var d := p.steps[1].decision;
      AnchorShape(env.job, s);
      var t := Begin(env, s, now);
      Counterfactual.LogFields(env, s, InterviewStarted, None, Empty, now);
      assert p.steps[..1][..0] == [] && p.steps[..1] == [BeginStep];
      assert ApplyAll(env, s, p.steps[..1], now) == t by {
        assert ApplyAll(env, s, [], now) == s;
      }
      SameCountersBounded(c, env.job, s, t);
      SameAnchor(env.job, s, t);
      AskBounded(c, env, t, d, Opening, p.steps[1].covered, p.steps[1].tool, now);
    }
  }

  // ---- every operation ----

  ghost predicate Sound(c: Contract, job: Job, s: Session) {
    Inv(c, job, s) && (s.status == Running ==> |s.turns| > 0)
  }

  predicate NoBegin(steps: seq<Step>) {
    forall i :: 0 <= i < |steps| ==> !steps[i].BeginStep?
  }

  lemma StepStatus(env: Env, s: Session, step: Step, now: nat)
    requires !step.BeginStep?
    ensures Apply(env, s, step, now).status == Running ==> s.status == Running
  {
    hide Apply;
    if step.AskStep? {
      AskStatus(env, s, step, now);
    } else if step.AssessStep? {
      Counterfactual.AssessFields(env, s, step, now);
    } else {
      CountersOf(env, s, step, now);
    }
  }

  lemma AskStatus(env: Env, s: Session, step: Step, now: nat)
    requires step.AskStep?
    ensures Apply(env, s, step, now).status == Running ==> s.status == Running
  {
    hide Ask;
    Counterfactual.AskFields(env, s, step.decision, step.origin, step.covered, step.tool, now);
  }

  lemma {:induction false} StepsStatus(env: Env, s: Session, steps: seq<Step>, now: nat)
    requires NoBegin(steps)
    ensures ApplyAll(env, s, steps, now).status == Running ==> s.status == Running
  {
    hide Apply;
    if |steps| > 0 {
      var n := |steps| - 1;
      StepsStatus(env, s, steps[..n], now);
      StepStatus(env, ApplyAll(env, s, steps[..n], now), steps[n], now);
    }
  }

  lemma PlainPlanSound(c: Contract, env: Env, s: Session, steps: seq<Step>, now: nat)
    requires ValidJob(env.job) && c.reasons && Sound(c, env.job, s)
    requires AllFine(c, env, s, steps, now) && NoOpening(steps) && NoBegin(steps)
    ensures Sound(c, env.job, ApplyAll(env, s, steps, now))
  {
    hide Inv, ApplyAll, AllFine, NoOpening, NoBegin;
    StepsBounded(c, env, s, steps, now);
    StepsStatus(env, s, steps, now);
    Counterfactual.StepsGrow(env, s, steps, now);
  }

  lemma StartSound(c: Contract, env: Env, s: Session, opening: Option<BrainReply>, built: Option<Tool>, now: nat)
    requires ValidJob(env.job) && c.reasons && Sound(c, env.job, s)
    requires opening.Some? ==> OpeningOk(c, opening.value.decision)
    ensures Sound(c, env.job, ApplyAll(env, s, StartPlan(env, s, opening, built).steps, now))
    ensures c.opening && s.status == Created && StartPlan(env, s, opening, built).error.None? ==>
              var t := ApplyAll(env, s, StartPlan(env, s, opening, built).steps, now);
              t.status == Running && t.asked == s.asked + 1 && t.evaluations == s.evaluations
  {
    hide Inv, Requested, NextAnchor, Ask, Log;
    StartBounded(c, env, s, opening, built, now);
    var p := StartPlan(env, s, opening, built);
    if |p.steps| == 2 {
      AnchorShape(env.job, s);
      assert p.steps[..1][..0] == [] && p.steps[..1] == [BeginStep];
      assert ApplyAll(env, s, [], now) == s;
      Counterfactual.LogFields(env, s, InterviewStarted, None, Empty, now);
      Counterfactual.AskFields(env, Begin(env, s, now), p.steps[1].decision, Opening, p.steps[1].covered, p.steps[1].tool, now);
    }
  }

  lemma ReplyShape(env: Env, s: Session, text: string, judge: Option<JudgeReply>, brain: Option<BrainReply>, built: Option<Tool>)
    ensures NoOpening(ReplyPlan(env, s, text, judge, brain, built).steps)
    ensures NoBegin(ReplyPlan(env, s, text, judge, brain, built).steps)
  {
    hide Requested, NextAnchor, LastQuestion;
  }

  lemma ReplySound(c: Contract, env: Env, s: Session, op: Op, now: nat)
    requires ValidJob(env.job) && c.reasons && Sound(c, env.job, s) && s.status != Created && op.Answer?
    requires op.brain.Some? ==> AnswerOk(c, env.job, s.asked, op.brain.value.decision)
    requires c.tools ==> ToolsOk(op.built)
    ensures Sound(c, env.job, ApplyAll(env, s, ReplyPlan(env, s, op.text, op.judge, op.brain, op.built).steps, now))
  {
    hide Sound, ReplyPlan;
    ReplyFine(c, env, s, op.text, op.judge, op.brain, op.built, now);
    ReplyShape(env, s, op.text, op.judge, op.brain, op.built);
    PlainPlanSound(c, env, s, ReplyPlan(env, s, op.text, op.judge, op.brain, op.built).steps, now);
  }

  lemma PerformSound(c: Contract, env: Env, s: Session, op: Op, now: nat)
    requires ValidJob(env.job) && c.reasons && Sound(c, env.job, s) && Obeys(c, env, s, op, now)
    ensures Sound(c, env.job, Perform(env, s, op, now))
  {
    hide Sound, ReplyPlan, StartPlan, ApplyAll;
    match op
    case Start(opening, built) => StartSound(c, env, s, opening, built, now);
    case Answer(text, opening, openingBuilt, judge, brain, built) =>
      if s.status == Created {
        StartSound(c, env, s, opening, openingBuilt, now);
        StartFine(c, env, s, op, opening, openingBuilt, now);
        var first := StartPlan(env, s, opening, openingBuilt);
        if first.error.None? {
          var t := ApplyAll(env, s, first.steps, now);
          ReplySound(c, env, t, op, now);
          ApplyAllConcat(env, s, first.steps, ReplyPlan(env, t, text, judge, brain, built).steps, now);
        }
      } else {
        ReplySound(c, env, s, op, now);
      }
    case _ =>
      PlanFine(c, env, s, op, now);
      OtherShape(env, s, op, now);
      PlainPlanSound(c, env, s, PlanFor(env, s, op, now).steps, now);
  }

  lemma OtherShape(env: Env, s: Session, op: Op, now: nat)
    requires !op.Start? && !op.Answer?
    ensures NoOpening(PlanFor(env, s, op, now).steps) && NoBegin(PlanFor(env, s, op, now).steps)
  {
    hide Requested, AppendRefusal, TurnOf, Admissible, LatestRun, LastBy, Strip, ClarifyText, AllKnown;
  }

  lemma NewSound(c: Contract, env: Env)
    requires ValidJob(env.job)
    ensures Sound(c, env.job, NewSession(env, 0))
  {
    MultipleStarts(env.job.anchorRatio);
  }

  lemma {:induction false} ReachSound(c: Contract, env: Env, calls: seq<Call>)
    requires ValidJob(env.job) && c.reasons && AllObey(c, env, calls)
    ensures Sound(c, env.job, Reach(env, calls))
  {
    hide Sound, Perform, Obeys, NewSession;
    if |calls| == 0 {
      NewSound(c, env);
    } else {
      var n := |calls| - 1;
      AllObeyPrefix(c, env, calls, n);
      ReachSound(c, env, calls[..n]);
      PerformSound(c, env, Reach(env, calls[..n]), calls[n].op, calls[n].now);
    }
  }

  /**
   In every reachable session the questions asked are at most the limit plus the anchors asked plus the tools
   evaluated; the anchors never exceed their budget, nor their share of the questions by more than one.
   */
  lemma InterviewIsBounded(env: Env, calls: seq<Call>)
    requires ValidJob(env.job) && AllObey(REASONS_AND_LIMIT, env, calls)
    ensures var s := Reach(env, calls);
            && s.asked <= env.job.maxQuestions + |s.anchors| + |s.evaluations|
            && |s.anchors| <= AnchorBudget(env.job)
            && |s.anchors| as real <= Multiple(s.asked, env.job.anchorRatio) + 1.0
  {
    hide Reach, AnchorBudget, AllObey, Multiple;
    ReachSound(REASONS_AND_LIMIT, env, calls);
    BudgetBounds(env.job);
  }

  /**
   Anchors are comparable across candidates: in every reachable session the anchors asked are the first ones of the
   job's order, so of any two interviews for a job one has asked the other's anchors, in the same order, and perhaps more.
   */
  lemma AnchorsAreComparable(env: Env, calls: seq<Call>, others: seq<Call>)
    requires ValidJob(env.job) && AllObey(REASONS, env, calls) && AllObey(REASONS, env, others)
    ensures var s, t := Reach(env, calls), Reach(env, others);
            && s.anchors <= AnchorIds(env.job.competencies)
            && (s.anchors <= t.anchors || t.anchors <= s.anchors)
  {
    hide Reach, AnchorBudget, AllObey, Multiple, AnchorIds, DistinctCompetencies;
    ReachSound(REASONS, env, calls);
    ReachSound(REASONS, env, others);
  }

  // ---- an interview of answers ends ----

  /** Every call is an answer that the service accepted. */
  ghost predicate AllAnswers(env: Env, calls: seq<Call>) {
    forall i :: 0 <= i < |calls| ==>
      calls[i].op.Answer? && PlanFor(env, Reach(env, calls[..i]), calls[i].op, calls[i].now).error.None?
  }

  lemma AllAnswersPrefix(env: Env, calls: seq<Call>, n: nat)
    requires AllAnswers(env, calls) && n <= |calls|
    ensures AllAnswers(env, calls[..n])
  {
    forall i | 0 <= i < n
      ensures calls[..n][i].op.Answer?
      ensures PlanFor(env, Reach(env, calls[..n][..i]), calls[..n][i].op, calls[..n][i].now).error.None?
    {
      assert calls[..n][..i] == calls[..i];
    }
  }

  /** An accepted reply finds the interview open, and asks one more question or completes it. */
  lemma ReplyCounts(env: Env, s: Session, op: Op, now: nat)
    requires op.Answer? && s.status != Created
    requires ReplyPlan(env, s, op.text, op.judge, op.brain, op.built).error.None?
    ensures s.status == Running
    ensures var t := ApplyAll(env, s, ReplyPlan(env, s, op.text, op.judge, op.brain, op.built).steps, now);
            t.evaluations == s.evaluations
            && (t.status == Completed || (t.status == Running && t.asked == s.asked + 1))
  {
    hide Requested, EvidenceSteps, LastQuestion, Apply, Choose;
    var question := LastQuestion(s.turns);
    EvidenceFine(NO_CONTRACT, env, s, op.text, question, op.judge, now);
    var steps := ReplyPlan(env, s, op.text, op.judge, op.brain, op.built).steps;
    var init := [HearStep(op.text, ParentOf(question), [])] + EvidenceSteps(env, question, s.issued, op.judge).value;
    var n := |steps| - 1;
    assert steps[..n] == init;
    AskCounts(env, ApplyAll(env, s, init, now), steps[n], now);
  }

  lemma AskCounts(env: Env, s: Session, step: Step, now: nat)
    requires step.AskStep? && step.origin == AfterAnswer
    ensures var t := Apply(env, s, step, now);
            t.evaluations == s.evaluations
            && (t.status == Completed || (t.status == s.status && t.asked == s.asked + 1))
  {
    hide Ask;
    Counterfactual.AskFields(env, s, step.decision, step.origin, step.covered, step.tool, now);
  }

  lemma {:induction false} AnswersCount(env: Env, calls: seq<Call>)
    requires ValidJob(env.job) && AllObey(FULL_BRAIN, env, calls) && AllAnswers(env, calls)
    ensures var s := Reach(env, calls);
            && s.evaluations == []
            && (if |calls| == 0 then s.status == Created && s.asked == 0
                else s.status == Completed || (s.status == Running && s.asked == |calls| + 1))
  {
    hide ReplyPlan, StartPlan, ApplyAll, Sound;
    if |calls| > 0 {
      var n := |calls| - 1;
      AllObeyPrefix(FULL_BRAIN, env, calls, n);
      AllAnswersPrefix(env, calls, n);
      AnswersCount(env, calls[..n]);
      ReachSound(FULL_BRAIN, env, calls[..n]);
      var s, op, now := Reach(env, calls[..n]), calls[n].op, calls[n].now;
      if s.status == Created {
        StartSound(FULL_BRAIN, env, s, op.opening, op.openingBuilt, now);
        var first := StartPlan(env, s, op.opening, op.openingBuilt);
        var t := ApplyAll(env, s, first.steps, now);
        ReplyCounts(env, t, op, now);
        ApplyAllConcat(env, s, first.steps, ReplyPlan(env, t, op.text, op.judge, op.brain, op.built).steps, now);
      } else {
        ReplyCounts(env, s, op, now);
      }
    }
  }

  /** An interview of nothing but answers completes within the question limit plus the anchor budget. */
  lemma AnswersComplete(env: Env, calls: seq<Call>)
    requires ValidJob(env.job) && AllObey(FULL_BRAIN, env, calls) && AllAnswers(env, calls)
    ensures Reach(env, calls).status == Completed || |calls| < env.job.maxQuestions + AnchorBudget(env.job)
    ensures |calls| <= env.job.maxQuestions + AnchorBudget(env.job)
  {
    hide Reach, AllObey, AllAnswers, AnchorBudget;
    AnswersCount(env, calls);
    AllObeyWeaker(REASONS_AND_LIMIT, FULL_BRAIN, env, calls);
    InterviewIsBounded(env, calls);
    BudgetBounds(env.job);
    if |calls| > 0 {
      var n := |calls| - 1;
      AllObeyPrefix(FULL_BRAIN, env, calls, n);
      AllAnswersPrefix(env, calls, n);
      AnswersCount(env, calls[..n]);
      AllObeyWeaker(REASONS_AND_LIMIT, FULL_BRAIN, env, calls[..n]);
      InterviewIsBounded(env, calls[..n]);
      CompletedRefuses(env, calls);
    }
  }

  /** No answer is accepted once the interview is complete. */
  lemma CompletedRefuses(env: Env, calls: seq<Call>)
    requires |calls| > 0 && AllAnswers(env, calls)
    ensures Reach(env, calls[..|calls| - 1]).status != Completed
  {
    hide Reach;
    var n := |calls| - 1;
    assert PlanFor(env, Reach(env, calls[..n]), calls[n].op, calls[n].now).error.None?;
  }

  // ---- the brains ----

  function HeadTag(turn: Option<Turn>, job: Job): string
    requires |job.competencies| > 0
  {
    if turn.Some? && |turn.value.tags| > 0 then turn.value.tags[0] else job.competencies[0].id
  }

  function CloseReason(): string {
    "all_required_coverage_complete"
  }

  function VagueReason(): string {
    "answer_lacks_specific_evidence"
  }

  function ToolReason(): string {
    "open_allowed_practical_tool"
  }

  function AdvanceReason(): string {
    "advance_to_uncovered_competency"
  }

  function Close(): Decision {
    Decision("Thank you. That completes the interview.", [], None, true, None, CloseReason())
  }

  function FollowupsOf(s: Session, c: string): nat {
    if c in s.followups then s.followups[c] else 0
  }

  /** The first template not used yet that the active competency may use. */
  function FreeTemplate(templates: seq<Template>, tools: seq<Tool>, active: string): Option<Template> {
    if |templates| == 0 then None
    else
      var t := templates[0];
      if !UsedTemplate(tools, t.id) && (t.competencies == [] || active in t.competencies) then Some(t)
      else FreeTemplate(templates[1..], tools, active)
  }

  function FirstUncovered(competencies: seq<Competency>, covered: seq<string>): Option<Competency> {
    if |competencies| == 0 then None
    else if competencies[0].id !in covered then Some(competencies[0])
    else FirstUncovered(competencies[1..], covered)
  }

  function RuleBasedOpening(job: Job, covered: seq<string>): BrainReply
    requires |job.competencies| > 0
  {
    BrainReply(Decision("Welcome.", [job.competencies[0].id], None, false, None, "opening_first_required_competency"), covered)
  }

  /** After a full answer about a competency: a practical tool if one is free, or the next competency, or the end. */
  function RuleBasedAdvance(job: Job, s: Session, active: string, answer: Id): BrainReply {
    var covered := if active in s.covered then s.covered else s.covered + [active];
    var template := if |s.tools| < job.maxTools then FreeTemplate(job.templates, s.tools, active) else None;
    match template
    case Some(t) =>
      BrainReply(Decision("Let us add one short practical artifact.", [active], Some(answer), false, Some(t.id), ToolReason()), covered)
    case None =>
      match FirstUncovered(job.competencies, covered)
      case None => BrainReply(Close(), covered)
      case Some(next) =>
        BrainReply(Decision("Let us move to another area.", [next.id], None, false, None, AdvanceReason()), covered)
  }

  /** The rule-based brain after an answer; the number of words in a text is a parameter. */
  function RuleBasedAfterAnswer(job: Job, s: Session, words: string -> nat): Option<BrainReply>
    requires |job.competencies| > 0
  {
    match LastBy(s.turns, Candidate)
    case None => None
    case Some(latest) =>
      var active := HeadTag(LastQuestion(s.turns[..|s.turns| - 1]), job);
      if s.asked >= job.maxQuestions then Some(BrainReply(Close(), s.covered))
      else if words(latest.text) < 18 && FollowupsOf(s, active) < 1 then
        Some(BrainReply(Decision("Could you make that more concrete?", [active], Some(latest.id), false, None,
                                 VagueReason()), s.covered))
      else Some(RuleBasedAdvance(job, s, active, latest.id))
  }

  function RuleBasedAfterTool(job: Job, tool: Tool, artifact: Option<Id>, covered: seq<string>): BrainReply
    requires |job.competencies| > 0
  {
    BrainReply(Decision("Explain one design choice.", if tool.tags != [] then tool.tags else [job.competencies[0].id],
                        artifact, false, None, "post_tool_reasoning_probe"), covered)
  }

  lemma AnchorReasonStarts(reason: string)
    ensures ANCHOR_PREFIX <= reason ==> |reason| >= 7 && reason[0] == 'a' && reason[1] == 'n' && reason[2] == 'c'
  {
    assert ANCHOR_PREFIX[0] == 'a' && ANCHOR_PREFIX[1] == 'n' && ANCHOR_PREFIX[2] == 'c';
  }

  lemma AnswerReasons()
    ensures !(ANCHOR_PREFIX <= CloseReason()) && !(ANCHOR_PREFIX <= VagueReason())
    ensures !(ANCHOR_PREFIX <= ToolReason()) && !(ANCHOR_PREFIX <= AdvanceReason())
  {
    AnchorReasonStarts(CloseReason());
    AnchorReasonStarts(VagueReason());
    AnchorReasonStarts(ToolReason());
    AnchorReasonStarts(AdvanceReason());
  }

  lemma RuleBasedAnswersOk(job: Job, s: Session, words: string -> nat)
    requires |job.competencies| > 0
    ensures RuleBasedAfterAnswer(job, s, words).Some? ==>
              AnswerOk(FULL_BRAIN, job, s.asked, RuleBasedAfterAnswer(job, s, words).value.decision)
  {
    hide LastBy, LastQuestion, HeadTag, FreeTemplate, FirstUncovered, FollowupsOf, CloseReason, VagueReason, ToolReason, AdvanceReason;
    AnswerReasons();
  }

  /** The rule-based brain meets everything the length bound and the recount ask of a brain, in every session. */
  lemma RuleBasedKeepsContract(job: Job, s: Session, words: string -> nat, tool: Tool, artifact: Option<Id>)
    requires |job.competencies| > 0
    ensures OpeningOk(FULL_BRAIN, RuleBasedOpening(job, s.covered).decision)
    ensures RuleBasedAfterAnswer(job, s, words).Some? ==>
              AnswerOk(FULL_BRAIN, job, s.asked, RuleBasedAfterAnswer(job, s, words).value.decision)
    ensures ReasonOk(RuleBasedAfterTool(job, tool, artifact, s.covered).decision)
  {
    hide RuleBasedAfterAnswer;
    RuleBasedAnswersOk(job, s, words);
    AnchorReasonStarts("opening_first_required_competency");
    AnchorReasonStarts("post_tool_reasoning_probe");
  }

  datatype Action = FollowUp | Advance | OpenATool | Finish

  datatype Output = Output(action: Action, text: string, competencies: seq<string>, template: Option<string>, reason: string)

  /** How the language-model brain turns a validated output into a decision; None stands for a ValueError. */
  function ToDecision(o: Output, s: Session, job: Job, allowParent: bool): Option<Decision> {
    if o.action == Finish || s.asked >= job.maxQuestions then Some(Decision(o.text, [], None, true, None, o.reason))
    else
      var latest := if allowParent then LastBy(s.turns, Candidate) else None;
      var follows := o.action == FollowUp || o.action == OpenATool;
      if follows && latest.None? then None
      else if o.action == OpenATool && o.template.None? then None
      else Some(Decision(o.text, o.competencies, if follows then Some(latest.value.id) else None, false,
                         if o.action == OpenATool then o.template else None, o.reason))
  }

  /** An opening neither completes nor opens a tool of its own accord: such an output is turned into an advance. */
  function ModelOpening(o: Output, s: Session, job: Job): Option<Decision> {
    ToDecision(if o.action == Finish || o.action == OpenATool then o.(action := Advance, template := None) else o, s, job, false)
  }

  /**
   The language-model brain always keeps to the limit, keeps its reasons apart from an anchor's exactly when the
   model does, and opens properly exactly when tools submitted before the start have not used up the questions.
   */
  lemma ModelKeepsContractIff(o: Output, s: Session, job: Job)
    ensures ToDecision(o, s, job, true).Some? ==>
              var d := ToDecision(o, s, job, true).value;
              (ReasonOk(d) <==> !(ANCHOR_PREFIX <= o.reason)) && WithinLimit(job, s.asked, d)
    ensures ModelOpening(o, s, job).Some? ==>
              var d := ModelOpening(o, s, job).value;
              (ReasonOk(d) <==> !(ANCHOR_PREFIX <= o.reason)) && (Opens(d) <==> s.asked < job.maxQuestions)
  {
    hide LastBy;
  }
}
