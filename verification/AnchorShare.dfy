/** When a standardized anchor question is asked, and that anchors keep up with their share. */
module AnchorShare {
  import opened Common
  import opened Interview
  import opened Service
  import opened Plans
  import Counterfactual
  import Policy

  /** The competencies of the job that have an anchor question. */
  function Anchored(job: Job): set<int> {
    set i | 0 <= i < |job.competencies| && job.competencies[i].anchor.Some?
  }

  /**
   An anchor is due: fewer have been asked than there are, than their share of the question limit, and, once something
   has been asked, than their share of the questions so far.
   */
  predicate AnchorDue(job: Job, s: Session) {
    && |s.anchors| < |Anchored(job)|
    && |s.anchors| as real < job.anchorRatio * job.maxQuestions as real
    && (s.asked == 0 || |s.anchors| as real < job.anchorRatio * s.asked as real)
  }

  /** Competency k is the first one of the job with an anchor question that has not been asked. */
  predicate NextInOrder(job: Job, s: Session, k: int) {
    && 0 <= k < |job.competencies| && job.competencies[k].anchor.Some? && job.competencies[k].id !in s.anchors
    && forall j :: 0 <= j < k && job.competencies[j].anchor.Some? ==> job.competencies[j].id in s.anchors
  }

  /** The last turn is the anchor question of competency k, and it has been counted as an anchor. */
  predicate AskedAnchor(job: Job, s: Session, t: Session, k: int)
    requires NextInOrder(job, s, k)
  {
    var c := job.competencies[k];
    && |t.turns| > 0
    && var turn := t.turns[|t.turns| - 1];
       && turn.speaker == Interviewer && turn.text == c.anchor.value && turn.tags == [c.id] && turn.parent == None
       && turn.lane == Some(Anchor) && !turn.control && !turn.nonEvaluative
       && t.anchors == s.anchors + [c.id] && t.asked == s.asked + 1
  }

  /** The last turn is the brain's own decision. */
  predicate AskedOwn(t: Session, d: Decision) {
    && |t.turns| > 0
    && var turn := t.turns[|t.turns| - 1];
       turn.speaker == Interviewer && turn.text == d.text && turn.tags == d.tags && turn.parent == d.parent
  }

  // ---- the planner's own conditions ----

  lemma {:induction false} CountIsSize(competencies: seq<Competency>)
    ensures CountAnchors(competencies) == |set i | 0 <= i < |competencies| && competencies[i].anchor.Some?|
  {
    if |competencies| > 0 {
      var n := |competencies| - 1;
      CountIsSize(competencies[..n]);
      var before := set i | 0 <= i < n && competencies[..n][i].anchor.Some?;
      var all := set i | 0 <= i < |competencies| && competencies[i].anchor.Some?;
      assert all == before + if competencies[n].anchor.Some? then {n} else {};
      assert n !in before;
    }
  }

  lemma BelowCeiling(n: nat, x: real)
    ensures n < Ceiling(x) <==> n as real < x
  {
  }

  lemma {:induction false} FirstUnaskedIsFirst(competencies: seq<Competency>, asked: seq<string>)
    ensures FirstUnasked(competencies, asked).None? <==>
              forall j :: 0 <= j < |competencies| && competencies[j].anchor.Some? ==> competencies[j].id in asked
    ensures FirstUnasked(competencies, asked).Some? ==>
              exists k :: 0 <= k < |competencies| && competencies[k] == FirstUnasked(competencies, asked).value
                && competencies[k].anchor.Some? && competencies[k].id !in asked
                && forall j :: 0 <= j < k && competencies[j].anchor.Some? ==> competencies[j].id in asked
  {
    if |competencies| > 0 {
      var rest := competencies[1..];
      FirstUnaskedIsFirst(rest, asked);
      if competencies[0].anchor.Some? && competencies[0].id !in asked {
        assert competencies[0] == FirstUnasked(competencies, asked).value;
      } else if FirstUnasked(rest, asked).Some? {
        var k :| 0 <= k < |rest| && rest[k] == FirstUnasked(rest, asked).value
          && rest[k].anchor.Some? && rest[k].id !in asked
          && forall j :: 0 <= j < k && rest[j].anchor.Some? ==> rest[j].id in asked;
        assert competencies[k + 1] == rest[k];
        assert forall j :: 0 < j < k + 1 ==> competencies[j] == rest[j - 1];
      } else {
        assert forall j :: 0 < j < |competencies| ==> competencies[j] == rest[j - 1];
      }
    }
  }

  lemma {:induction false} SetNoLarger(xs: seq<string>)
    ensures |set x | x in xs| <= |xs|
  {
    if |xs| > 0 {
      var n := |xs| - 1;
      SetNoLarger(xs[..n]);
      assert xs == xs[..n] + [xs[n]];
      assert (set x | x in xs) == (set x | x in xs[..n]) + {xs[n]};
    }
  }

  lemma SubsetNoLarger<T>(a: set<T>, b: set<T>)
    requires a <= b
    ensures |a| <= |b|
  {
    if a != {} {
      var x :| x in a;
      SubsetNoLarger(a - {x}, b - {x});
    }
  }

  lemma {:induction false} IdsAreAsMany(job: Job, indices: set<int>)
    requires Policy.DistinctCompetencies(job) && indices <= Anchored(job)
    ensures |set i | i in indices :: job.competencies[i].id| == |indices|
  {
    var ids := set i | i in indices :: job.competencies[i].id;
    if indices == {} {
      assert ids == {};
    } else {
      var k :| k in indices;
      var fewer := set i | i in indices - {k} :: job.competencies[i].id;
      IdsAreAsMany(job, indices - {k});
      assert ids == fewer + {job.competencies[k].id};
      assert job.competencies[k].id !in fewer;
    }
  }

  /** With fewer anchors asked than there are, one has not been asked. */
  lemma OneIsUnasked(job: Job, s: Session)
    requires Policy.DistinctCompetencies(job) && |s.anchors| < |Anchored(job)|
    ensures FirstUnasked(job.competencies, s.anchors).Some?
  {
    FirstUnaskedIsFirst(job.competencies, s.anchors);
    if FirstUnasked(job.competencies, s.anchors).None? {
      var ids := set i | i in Anchored(job) :: job.competencies[i].id;
      var asked := set x | x in s.anchors;
      assert ids <= asked;
      SubsetNoLarger(ids, asked);
      SetNoLarger(s.anchors);
      IdsAreAsMany(job, Anchored(job));
    }
  }

  lemma BudgetIs(job: Job, n: nat)
    ensures n < AnchorBudget(job) <==> n < |Anchored(job)| && n as real < job.anchorRatio * job.maxQuestions as real
  {
    CountIsSize(job.competencies);
    MultipleIsProduct(job.maxQuestions, job.anchorRatio);
    BelowCeiling(n, Multiple(job.maxQuestions, job.anchorRatio));
    hide Multiple, CountAnchors, Ceiling;
  }

  /** The planner's arithmetic is that of the three shares. */
  lemma DueByBudget(job: Job, s: Session)
    ensures AnchorDue(job, s) <==>
              |s.anchors| < AnchorBudget(job) && (s.asked == 0 || |s.anchors| as real < Multiple(s.asked, job.anchorRatio))
  {
    BudgetIs(job, |s.anchors|);
    MultipleIsProduct(s.asked, job.anchorRatio);
    hide Multiple, AnchorBudget, Anchored;
  }

  lemma DueIsBelowSupply(job: Job, s: Session)
    requires AnchorDue(job, s)
    ensures |s.anchors| < |Anchored(job)|
  {
  }

  lemma PlannerIs(job: Job, s: Session)
    requires |s.anchors| < AnchorBudget(job) && (s.asked == 0 || |s.anchors| as real < Multiple(s.asked, job.anchorRatio))
    requires FirstUnasked(job.competencies, s.anchors).Some?
    ensures var chosen := FirstUnasked(job.competencies, s.anchors).value;
            NextAnchor(job, s) == Some(Decision(chosen.anchor.value, [chosen.id], None, false, None, "anchor:standardized_anchor"))
  {
    hide Multiple, FirstUnasked, AnchorBudget;
  }

  lemma PlannerIsSilent(job: Job, s: Session)
    requires !(|s.anchors| < AnchorBudget(job) && (s.asked == 0 || |s.anchors| as real < Multiple(s.asked, job.anchorRatio)))
    ensures NextAnchor(job, s).None?
  {
    hide Multiple, FirstUnasked, AnchorBudget;
  }

  /** The planner schedules an anchor exactly when one is due, and then the next one in the job's order. */
  lemma PlannerAsksTheDue(job: Job, s: Session)
    requires Policy.DistinctCompetencies(job)
    ensures NextAnchor(job, s).Some? <==> AnchorDue(job, s)
    ensures AnchorDue(job, s) ==>
              exists k :: NextInOrder(job, s, k)
                && NextAnchor(job, s).value.text == job.competencies[k].anchor.value
                && NextAnchor(job, s).value.tags == [job.competencies[k].id]
  {
    DueByBudget(job, s);
    hide Multiple, FirstUnasked, AnchorBudget, NextAnchor, AnchorDue, Anchored;
    if AnchorDue(job, s) {
      DueIsBelowSupply(job, s);
      OneIsUnasked(job, s);
      PlannerIs(job, s);
      FirstUnaskedIsFirst(job.competencies, s.anchors);
      var k :| 0 <= k < |job.competencies| && job.competencies[k] == FirstUnasked(job.competencies, s.anchors).value
        && job.competencies[k].anchor.Some? && job.competencies[k].id !in s.anchors
        && forall j :: 0 <= j < k && job.competencies[j].anchor.Some? ==> job.competencies[j].id in s.anchors;
      assert NextInOrder(job, s, k);
    } else {
      PlannerIsSilent(job, s);
    }
  }

  // ---- what is asked ----

  /** A scheduled anchor, carried out, is the anchor question of its competency. */
  lemma AnchorIsPut(env: Env, s: Session, u: Session, origin: Origin, covered: seq<string>, tool: Option<Tool>, now: nat)
    requires Policy.DistinctCompetencies(env.job) && AnchorDue(env.job, s) && u.anchors == s.anchors && u.asked == s.asked
    ensures NextAnchor(env.job, s).Some?
    ensures exists k :: NextInOrder(env.job, s, k)
              && AskedAnchor(env.job, s, Ask(env, u, NextAnchor(env.job, s).value, origin, covered, tool, now), k)
  {
    PlannerAsksTheDue(env.job, s);
    AnchorShape(env.job, s);
    var d := NextAnchor(env.job, s).value;
    var k :| NextInOrder(env.job, s, k) && d.text == env.job.competencies[k].anchor.value && d.tags == [env.job.competencies[k].id];
    Counterfactual.AskFields(env, u, d, origin, covered, tool, now);
    Policy.AddOne(s.anchors, d.tags);
    hide NextAnchor, Ask, AddMissing, AnchorDue, NextInOrder;
    assert AskedAnchor(env.job, s, Ask(env, u, d, origin, covered, tool, now), k);
  }

  lemma OwnIsPut(env: Env, u: Session, d: Decision, origin: Origin, covered: seq<string>, tool: Option<Tool>, now: nat)
    ensures AskedOwn(Ask(env, u, d, origin, covered, tool, now), d)
  {
    Counterfactual.AskFields(env, u, d, origin, covered, tool, now);
    hide Ask, AddMissing;
  }

  /** The state in which an accepted reply asks: answer and evidence are recorded, the counters are those before it. */
  lemma ReplyAsks(env: Env, s: Session, op: Op, now: nat)
    requires op.Answer? && ReplyPlan(env, s, op.text, op.judge, op.brain, op.built).error.None?
    ensures op.brain.Some?
    ensures exists u: Session, tool: Option<Tool> ::
              && u.anchors == s.anchors && u.asked == s.asked && u.evaluations == s.evaluations
              && ApplyAll(env, s, ReplyPlan(env, s, op.text, op.judge, op.brain, op.built).steps, now)
                 == Ask(env, u, Choose(env, s, op.brain.value.decision), AfterAnswer, op.brain.value.covered, tool, now)
  {
    hide Requested, NextAnchor, Choose, EvidenceSteps, LastQuestion, Apply, ApplyAll, Ask;
    var question := LastQuestion(s.turns);
    EvidenceFine(NO_CONTRACT, env, s, op.text, question, op.judge, now);
    var heard := [HearStep(op.text, ParentOf(question), [])] + EvidenceSteps(env, question, s.issued, op.judge).value;
    var d := Choose(env, s, op.brain.value.decision);
    var tool := Requested(env, s, d, op.built).value;
    var ask := AskStep(d, AfterAnswer, op.brain.value.covered, tool);
    var u := ApplyAll(env, s, heard, now);
    assert ReplyPlan(env, s, op.text, op.judge, op.brain, op.built).steps == heard + [ask];
    MoreSteps(env, s, heard, ask, now);
    AskIs(env, u, ask, now);
  }

  lemma AskIs(env: Env, s: Session, step: Step, now: nat)
    requires step.AskStep?
    ensures Apply(env, s, step, now) == Ask(env, s, step.decision, step.origin, step.covered, step.tool, now)
  {
    hide Ask;
  }

  /**
   What an accepted answer to an interview under way is followed by: the brain's own decision if it follows up or no
   anchor is due, and otherwise the anchor question of the first competency, in the job's order, that has one which
   was not asked.
   */
  lemma AnswerAsksDueAnchor(env: Env, s: Session, op: Op, now: nat)
    requires Policy.DistinctCompetencies(env.job)
    requires op.Answer? && s.status != Created && PlanFor(env, s, op, now).error.None?
    ensures op.brain.Some?
    ensures var t, d := Perform(env, s, op, now), op.brain.value.decision;
            if d.parent.None? && AnchorDue(env.job, s)
            then exists k :: NextInOrder(env.job, s, k) && AskedAnchor(env.job, s, t, k)
            else AskedOwn(t, d)
  {
    ReplyAsks(env, s, op, now);
    PlannerAsksTheDue(env.job, s);
    hide ReplyPlan, Ask, NextAnchor, NextInOrder, AskedAnchor, AskedOwn, AnchorDue;
    var d := op.brain.value.decision;
    var u: Session, tool: Option<Tool> :|
      && u.anchors == s.anchors && u.asked == s.asked && u.evaluations == s.evaluations
      && ApplyAll(env, s, ReplyPlan(env, s, op.text, op.judge, op.brain, op.built).steps, now)
         == Ask(env, u, Choose(env, s, d), AfterAnswer, op.brain.value.covered, tool, now);
    if d.parent.None? && AnchorDue(env.job, s) {
      AnchorIsPut(env, s, u, AfterAnswer, op.brain.value.covered, tool, now);
    } else {
      OwnIsPut(env, u, d, AfterAnswer, op.brain.value.covered, tool, now);
    }
  }

  /** An accepted start that begins the interview asks the due anchor, or else the brain's opening. */
  lemma StartAsksDueAnchor(env: Env, s: Session, opening: Option<BrainReply>, built: Option<Tool>, now: nat)
    requires Policy.DistinctCompetencies(env.job) && s.status == Created
    requires StartPlan(env, s, opening, built).error.None?
    ensures var t := Perform(env, s, Start(opening, built), now);
            if AnchorDue(env.job, s) then exists k :: NextInOrder(env.job, s, k) && AskedAnchor(env.job, s, t, k)
            else opening.Some? && AskedOwn(t, opening.value.decision)
  {
    PlannerAsksTheDue(env.job, s);
    hide Requested, Ask, NextAnchor, Begin, NextInOrder, AskedAnchor, AskedOwn, AnchorDue;
    var ask := StartPlan(env, s, opening, built).steps[1];
    assert StartPlan(env, s, opening, built).steps == [BeginStep, ask];
    TwoSteps(env, s, BeginStep, ask, now);
    var u := Begin(env, s, now);
    BeginKeepsCounters(env, s, now);
    if AnchorDue(env.job, s) {
      AnchorIsPut(env, s, u, Opening, ask.covered, ask.tool, now);
    } else {
      OwnIsPut(env, u, ask.decision, Opening, ask.covered, ask.tool, now);
    }
  }

  lemma BeginKeepsCounters(env: Env, s: Session, now: nat)
    ensures var t := Begin(env, s, now); t.anchors == s.anchors && t.asked == s.asked && t.evaluations == s.evaluations
  {
  }

  // ---- the share over whole interviews ----

  /** The anchors have used up their supply or their share of the limit, or have their share of all questions but the last. */
  predicate KeepsUp(job: Job, s: Session) {
    || s.asked == 0 || |s.anchors| >= |Anchored(job)|
    || |s.anchors| as real >= job.anchorRatio * job.maxQuestions as real
    || |s.anchors| as real >= job.anchorRatio * (s.asked - 1) as real
  }

  lemma {:induction false} AddMissingGrows(known: seq<string>, tags: seq<string>)
    ensures |AddMissing(known, tags)| >= |known|
  {
    if |tags| > 0 {
      AddMissingGrows(known, tags[..|tags| - 1]);
    }
  }

  lemma ShareStep(a: nat, b: nat, q: nat, x: real)
    requires 0.0 <= x <= 1.0 && q > 0 && a as real >= x * (q - 1) as real && b > a
    ensures b as real >= x * q as real
  {
    assert x * q as real == x * (q - 1) as real + x;
  }

  lemma DueKeepsUp(job: Job, s: Session, t: Session)
    requires Policy.ValidJob(job) && KeepsUp(job, s) && |t.anchors| == |s.anchors| + 1 && t.asked == s.asked + 1
    ensures KeepsUp(job, t)
  {
    if s.asked > 0 && |s.anchors| as real >= job.anchorRatio * (s.asked - 1) as real {
      ShareStep(|s.anchors|, |t.anchors|, s.asked, job.anchorRatio);
    }
    hide Anchored, Policy.DistinctCompetencies;
    assert s.asked == 0 ==> job.anchorRatio * (t.asked - 1) as real == 0.0;
  }

  lemma OwnKeepsUp(job: Job, s: Session, t: Session)
    requires KeepsUp(job, s) && !AnchorDue(job, s)
    requires |t.anchors| >= |s.anchors| && (t.asked == s.asked || t.asked == s.asked + 1)
    ensures KeepsUp(job, t)
  {
    hide Anchored;
    if t.asked == s.asked + 1 {
      assert t.asked - 1 == s.asked;
    }
  }

  /** Asking what is due, or the brain's own when nothing is, keeps up. */
  lemma AskingKeepsUp(env: Env, s: Session, u: Session, d: Decision, origin: Origin, covered: seq<string>,
                      tool: Option<Tool>, now: nat)
    requires Policy.ValidJob(env.job) && KeepsUp(env.job, s) && u.anchors == s.anchors && u.asked == s.asked
    requires AnchorDue(env.job, s) ==> NextAnchor(env.job, s) == Some(d)
    ensures KeepsUp(env.job, Ask(env, u, d, origin, covered, tool, now))
  {
    Counterfactual.AskFields(env, u, d, origin, covered, tool, now);
    AddMissingGrows(u.anchors, d.tags);
    hide NextAnchor, Ask, AddMissing, NextInOrder, LaneOf, AnchorDue, KeepsUp, Policy.DistinctCompetencies;
    var t := Ask(env, u, d, origin, covered, tool, now);
    if AnchorDue(env.job, s) {
      AnchorIsPut(env, s, u, origin, covered, tool, now);
      DueKeepsUp(env.job, s, t);
    } else {
      OwnKeepsUp(env.job, s, t);
    }
  }

  /** No decision of the brain about an answer follows up, and no tool is submitted. */
  ghost predicate StraightOn(calls: seq<Call>) {
    forall i :: 0 <= i < |calls| ==>
      && !calls[i].op.SubmitTool?
      && (calls[i].op.Answer? && calls[i].op.brain.Some? ==> calls[i].op.brain.value.decision.parent.None?)
  }

  lemma StartKeepsUp(env: Env, s: Session, opening: Option<BrainReply>, built: Option<Tool>, now: nat)
    requires Policy.ValidJob(env.job) && KeepsUp(env.job, s)
    ensures KeepsUp(env.job, ApplyAll(env, s, StartPlan(env, s, opening, built).steps, now))
  {
    PlannerAsksTheDue(env.job, s);
    hide Requested, Ask, NextAnchor, Begin, AnchorDue, KeepsUp;
    var p := StartPlan(env, s, opening, built);
    if |p.steps| == 2 {
      var ask := p.steps[1];
      assert p.steps == [BeginStep, ask];
      TwoSteps(env, s, BeginStep, ask, now);
      BeginKeepsCounters(env, s, now);
      AskingKeepsUp(env, s, Begin(env, s, now), ask.decision, Opening, ask.covered, ask.tool, now);
    } else {
      NoSteps(env, s, now);
    }
  }

  lemma ReplyKeepsUp(env: Env, s: Session, op: Op, now: nat)
    requires Policy.ValidJob(env.job) && KeepsUp(env.job, s) && op.Answer?
    requires op.brain.Some? ==> op.brain.value.decision.parent.None?
    ensures KeepsUp(env.job, ApplyAll(env, s, ReplyPlan(env, s, op.text, op.judge, op.brain, op.built).steps, now))
  {
    if ReplyPlan(env, s, op.text, op.judge, op.brain, op.built).error.None? {
      ReplyAsks(env, s, op, now);
      PlannerAsksTheDue(env.job, s);
      hide ReplyPlan, Ask, NextAnchor, AnchorDue, KeepsUp;
      var u: Session, tool: Option<Tool> :|
        && u.anchors == s.anchors && u.asked == s.asked && u.evaluations == s.evaluations
        && ApplyAll(env, s, ReplyPlan(env, s, op.text, op.judge, op.brain, op.built).steps, now)
           == Ask(env, u, Choose(env, s, op.brain.value.decision), AfterAnswer, op.brain.value.covered, tool, now);
      AskingKeepsUp(env, s, u, Choose(env, s, op.brain.value.decision), AfterAnswer, op.brain.value.covered, tool, now);
    } else {
      RefusedReplyIsEmpty(env, s, op);
      NoSteps(env, s, now);
    }
  }

  lemma RefusedReplyIsEmpty(env: Env, s: Session, op: Op)
    requires op.Answer? && ReplyPlan(env, s, op.text, op.judge, op.brain, op.built).error.Some?
    ensures ReplyPlan(env, s, op.text, op.judge, op.brain, op.built).steps == []
  {
    hide Requested, Choose, EvidenceSteps, LastQuestion;
  }

  predicate AsksNothing(steps: seq<Step>) {
    forall i :: 0 <= i < |steps| ==> !steps[i].AskStep? && !steps[i].AssessStep?
  }

  lemma {:induction false} SilentStepsKeepCounters(env: Env, s: Session, steps: seq<Step>, now: nat)
    requires AsksNothing(steps)
    ensures var t := ApplyAll(env, s, steps, now); t.asked == s.asked && t.anchors == s.anchors
  {
    hide Apply;
    if |steps| > 0 {
      var n := |steps| - 1;
      SilentStepsKeepCounters(env, s, steps[..n], now);
      Policy.CountersOf(env, ApplyAll(env, s, steps[..n], now), steps[n], now);
    }
  }

  lemma OthersAskNothing(env: Env, s: Session, op: Op, now: nat)
    requires !op.Start? && !op.Answer? && !op.SubmitTool?
    ensures AsksNothing(PlanFor(env, s, op, now).steps)
  {
    hide AppendRefusal, TurnOf, Admissible, LatestRun, LastBy, Strip, ClarifyText;
  }

  lemma CallKeepsUp(env: Env, s: Session, op: Op, now: nat)
    requires Policy.ValidJob(env.job) && KeepsUp(env.job, s) && !op.SubmitTool?
    requires op.Answer? && op.brain.Some? ==> op.brain.value.decision.parent.None?
    ensures KeepsUp(env.job, Perform(env, s, op, now))
  {
    hide ReplyPlan, StartPlan, ApplyAll, KeepsUp;
    if op.Start? {
      StartKeepsUp(env, s, op.opening, op.built, now);
    } else if op.Answer? {
      if s.status == Created {
        var first := StartPlan(env, s, op.opening, op.openingBuilt);
        StartKeepsUp(env, s, op.opening, op.openingBuilt, now);
        if first.error.None? {
          var t := ApplyAll(env, s, first.steps, now);
          ReplyKeepsUp(env, t, op, now);
          ApplyAllConcat(env, s, first.steps, ReplyPlan(env, t, op.text, op.judge, op.brain, op.built).steps, now);
        }
      } else {
        ReplyKeepsUp(env, s, op, now);
      }
    } else {
      OthersAskNothing(env, s, op, now);
      SilentStepsKeepCounters(env, s, PlanFor(env, s, op, now).steps, now);
      SameCountersKeepUp(env.job, s, Perform(env, s, op, now));
    }
  }

  lemma SameCountersKeepUp(job: Job, s: Session, t: Session)
    requires KeepsUp(job, s) && t.asked == s.asked && t.anchors == s.anchors
    ensures KeepsUp(job, t)
  {
  }

  /**
   In every history without follow-ups and tool submissions the anchors asked have their share of all questions but the
   last, unless they have used up their supply or their share of the question limit.
   */
  lemma {:induction false} AnchorsKeepUp(env: Env, calls: seq<Call>)
    requires Policy.ValidJob(env.job) && StraightOn(calls)
    ensures KeepsUp(env.job, Reach(env, calls))
  {
    hide Perform, KeepsUp, NewSession;
    if |calls| == 0 {
      NewKeepsUp(env);
    } else {
      var n := |calls| - 1;
      AnchorsKeepUp(env, calls[..n]);
      CallKeepsUp(env, Reach(env, calls[..n]), calls[n].op, calls[n].now);
    }
  }

  lemma NewKeepsUp(env: Env)
    ensures KeepsUp(env.job, NewSession(env, 0))
  {
  }
}
