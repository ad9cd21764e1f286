/** The snapshot a counterfactual replay rebuilds from the turns, against the counters the live brain saw. */
module Counterfactual {
  import opened Common
  import opened Events
  import opened Evidence
  import opened Interview
  import opened Service
  import opened Plans

  datatype Counters = Counters(asked: nat, anchors: seq<string>, followups: map<string, nat>)

  function LiveCounters(s: Session): Counters {
    Counters(s.asked, s.anchors, s.followups)
  }

  /** What one turn adds to the recount. */
  function CountTurn(c: Counters, t: Turn): Counters {
    if !Evaluative(t) then c
    else
      Counters(c.asked + 1,
               if t.lane == Some(Anchor) then c.anchors + t.tags else c.anchors,
               if t.parent.Some? && |t.tags| > 0 then Bump(c.followups, t.tags[0]) else c.followups)
  }

  function Recount(turns: seq<Turn>): Counters {
    if |turns| == 0 then Counters(0, [], map[])
    else CountTurn(Recount(turns[..|turns| - 1]), turns[|turns| - 1])
  }

  /** The three passes of the snapshot over the prefix. */
  method Snapshot(prefix: seq<Turn>) returns (c: Counters)
    ensures c == Recount(prefix)
  {
    var asked := 0;
    for i := 0 to |prefix|
      invariant asked == Recount(prefix[..i]).asked
    {
      assert prefix[..i + 1][..i] == prefix[..i];
      if Evaluative(prefix[i]) {
        asked := asked + 1;
      }
    }
    var anchors: seq<string> := [];
    for i := 0 to |prefix|
      invariant anchors == Recount(prefix[..i]).anchors
    {
      assert prefix[..i + 1][..i] == prefix[..i];
      if Evaluative(prefix[i]) && prefix[i].lane == Some(Anchor) {
        anchors := anchors + prefix[i].tags;
      }
    }
    var followups: map<string, nat> := map[];
    for i := 0 to |prefix|
      invariant followups == Recount(prefix[..i]).followups
    {
      assert prefix[..i + 1][..i] == prefix[..i];
      if Evaluative(prefix[i]) && prefix[i].parent.Some? && |prefix[i].tags| > 0 {
        followups := Bump(followups, prefix[i].tags[0]);
      }
    }
    assert prefix[..|prefix|] == prefix;
    c := Counters(asked, anchors, followups);
  }

  // ---- the counters are a recount ----

  ghost predicate Inv(s: Session) {
    s.status != Completed ==> Recount(s.turns) == LiveCounters(s)
  }

  /** Two lists of turns that differ in their texts only. */
  ghost predicate SameSteering(a: seq<Turn>, b: seq<Turn>) {
    |a| == |b| && forall i :: 0 <= i < |a| ==> a[i] == b[i].(text := a[i].text)
  }

  lemma {:induction false} RecountIgnoresText(a: seq<Turn>, b: seq<Turn>)
    requires SameSteering(a, b)
    ensures Recount(a) == Recount(b)
  {
    if |a| > 0 {
      RecountIgnoresText(a[..|a| - 1], b[..|b| - 1]);
    }
  }

  lemma RecountSnoc(turns: seq<Turn>, t: Turn)
    ensures Recount(turns + [t]) == CountTurn(Recount(turns), t)
  {
    assert (turns + [t])[..|turns|] == turns;
  }

  lemma AnchorsGrow(job: Job, s: Session, d: Decision)
    requires LaneOf(d) == Anchor && NextAnchor(job, s) == Some(d)
    ensures AddMissing(s.anchors, d.tags) == s.anchors + d.tags
  {
    AnchorShape(job, s);
    assert d.tags[..0] == [];
  }

  /** A decision's turn and its follow-up count move the counters as the recount counts them, unless it closes. */
  lemma AskRecounts(env: Env, s: Session, d: Decision, origin: Origin, covered: seq<string>, tool: Option<Tool>, now: nat)
    requires Recount(s.turns) == LiveCounters(s)
    requires LaneOf(d) == Anchor ==> NextAnchor(env.job, s) == Some(d)
    requires origin == Opening ==> Opens(d)
    ensures Inv(Ask(env, s, d, origin, covered, tool, now))
  {
    hide Recount, AddMissing, NextAnchor, Bump, Ask;
    if LaneOf(d) == Anchor {
      AnchorsGrow(env.job, s, d);
    }
    AskFields(env, s, d, origin, covered, tool, now);
    RecountSnoc(s.turns, Turn(s.issued, Interviewer, d.text, d.parent, d.tags, Some(LaneOf(d)), false, false));
  }

  /** The counters and turns after a decision, whatever it logs. */
  lemma AskFields(env: Env, s: Session, d: Decision, origin: Origin, covered: seq<string>, tool: Option<Tool>, now: nat)
    ensures var t := Ask(env, s, d, origin, covered, tool, now);
            var lane := LaneOf(d);
            && t.turns == s.turns + [Turn(s.issued, Interviewer, d.text, d.parent, d.tags, Some(lane), false, false)]
            && t.asked == (if lane == Closing then s.asked else s.asked + 1)
            && t.anchors == (if lane == Anchor then AddMissing(s.anchors, d.tags) else s.anchors)
            && t.followups == (if origin != Opening && d.parent.Some? && |d.tags| > 0
                               then Bump(s.followups, d.tags[0]) else s.followups)
            && t.evaluations == s.evaluations && t.issued == s.issued + 1
            && t.graph == s.graph && t.runs == s.runs && t.revisions == s.revisions
            && (t.status == if d.completes && origin != Opening then Completed else s.status)
  {
    hide LaneOf, AddMissing, Bump;
  }

  lemma FrameRecounts(s: Session, t: Session)
    requires Inv(s) && SameInterview(s, t)
    ensures Inv(t)
  {
    hide Recount;
  }

  lemma ControlRecounts(env: Env, s: Session, kind: ControlKind, reply: Option<ControlReply>, now: nat)
    requires Inv(s)
    ensures Inv(Controlling(env, s, kind, reply, now))
  {
    hide Recount, Log;
    LogFields(env, s.(paused := PauseAfter(s.paused, kind)), CandidateControl, None, ForControl(kind), now);
    if reply.Some? {
      var t := Log(env, s.(paused := PauseAfter(s.paused, kind)), CandidateControl, None, ForControl(kind), now);
      var r := reply.value;
      var turn := Turn(t.issued, Interviewer, r.text, None, r.tags, r.lane, true, r.nonEvaluative);
      RecountSnoc(s.turns, turn);
      LogFields(env, t.(turns := t.turns + [turn], issued := t.issued + 1), InterviewerTurn, Some(turn.id), Details(""), now);
    }
  }

  lemma LogFields(env: Env, s: Session, kind: EventType, turnId: Option<Id>, payload: Payload, now: nat)
    ensures var t := Log(env, s, kind, turnId, payload, now);
            t == s.(events := t.events)
  {
  }

  lemma {:induction false} LogCancelsFields(env: Env, s: Session, tools: seq<Tool>, now: nat)
    ensures var t := LogCancels(env, s, tools, now);
            t == s.(events := t.events)
  {
    if |tools| > 0 {
      LogCancelsFields(env, s, tools[..|tools| - 1], now);
    }
  }

  lemma CorrectFields(env: Env, s: Session, turn: Id, text: string, now: nat)
    ensures var t := Correcting(env, s, turn, text, now);
            && SameSteering(t.turns, s.turns) && t.turns == SetText(s.turns, turn, text)
            && t.status == s.status && LiveCounters(t) == LiveCounters(s) && t.evaluations == s.evaluations
            && t.runs == s.runs && t.revisions == s.revisions + [turn] && t.issued == s.issued + 1
            && t.graph == Supersede(s.graph, turn)
  {
    hide SupersedeTurn, Log;
    var t := s.(revisions := s.revisions + [turn], turns := SetText(s.turns, turn, text), issued := s.issued + 1);
    LogFields(env, t, TranscriptCorrected, Some(turn), Details(""), now);
    SupersedeTurnFrame(env, Log(env, t, TranscriptCorrected, Some(turn), Details(""), now), turn, now);
  }

  lemma AssessRecounts(env: Env, s: Session, step: Step, now: nat)
    requires Inv(s) && step.AssessStep? && Fine(REASONS_AND_OPENING, env, s, step)
    ensures Inv(Apply(env, s, step, now))
  {
    hide Recount, ObserveAll, VerdictObservations, Ask, LaneOf, Log;
    var evaluated := Evaluating(env, s, step.submitted.id, now);
    EvaluatingFields(env, s, step.submitted.id, now);
    ObserveAllFrame(env, evaluated, VerdictObservations(step.submitted, step.artifact, step.passed), now);
    var observed := ObserveAll(env, evaluated, VerdictObservations(step.submitted, step.artifact, step.passed), now);
    AskRecounts(env, observed, step.decision, AfterTool, step.covered, step.tool, now);
  }

  lemma EvaluatingFields(env: Env, s: Session, tool: string, now: nat)
    ensures var t := Evaluating(env, s, tool, now);
            && t.turns == s.turns && t.status == s.status && LiveCounters(t) == LiveCounters(s) && t.runs == s.runs
            && t.evaluations == s.evaluations + [tool] && t.issued == s.issued && t.graph == s.graph && t.revisions == s.revisions
  {
  }

  lemma StepRecounts(env: Env, s: Session, step: Step, now: nat)
    requires Inv(s) && Fine(REASONS_AND_OPENING, env, s, step)
    ensures Inv(Apply(env, s, step, now))
  {
    hide Recount, TurnOf, Admissible, AppendRefusal, Ask, ClaimAll, Judging, ObserveOne, Controlling, Correcting, Log,
         Assessing, LogCancels, NextAnchor, LaneOf;
    match step
    case AskStep(d, origin, covered, tool) => AskRecounts(env, s, d, origin, covered, tool, now);
    case HearStep(text, parent, tags) =>
      RecountSnoc(s.turns, Turn(s.issued, Candidate, text, parent, tags, None, false, false));
      HearFields(env, s, text, parent, tags, now);
    case ClaimStep(answer, tags) =>
      ClaimAllFrame(env, s, answer, tags, now);
      FrameRecounts(s, ClaimAll(env, s, answer, tags, now));
    case JudgeStep(call) =>
      JudgingFrame(env, s, call, now);
      FrameRecounts(s, Judging(env, s, call, now));
    case ObserveStep(o) =>
      ObserveOneFrame(env, s, o, now);
      FrameRecounts(s, ObserveOne(env, s, o, now));
    case ControlStep(kind, reply) => ControlRecounts(env, s, kind, reply, now);
    case CorrectStep(turn, text) =>
      CorrectFields(env, s, turn, text, now);
      RecountIgnoresText(Correcting(env, s, turn, text, now).turns, s.turns);
    case AssessStep(_, _, _, _, _, _) => AssessRecounts(env, s, step, now);
    case _ => PlainFields(env, s, step, now);
  }

  lemma HearFields(env: Env, s: Session, text: string, parent: Option<Id>, tags: seq<string>, now: nat)
    ensures var t := Hear(env, s, text, parent, tags, now);
            && t.turns == s.turns + [Turn(s.issued, Candidate, text, parent, tags, None, false, false)]
            && t.status == s.status && LiveCounters(t) == LiveCounters(s) && t.issued == s.issued + 1
            && t.graph == s.graph && t.runs == s.runs && t.revisions == s.revisions && t.evaluations == s.evaluations
  {
  }

  /** Steps that add no turn, ask nothing and record no evidence. */
  predicate Plain(step: Step) {
    step.BeginStep? || step.AppealStep? || step.OpenToolStep? || step.SubmitStep? || step.CancelStep? || step.NoteStep?
  }

  lemma PlainFields(env: Env, s: Session, step: Step, now: nat)
    requires Plain(step)
    ensures var t := Apply(env, s, step, now);
            && t.turns == s.turns && LiveCounters(t) == LiveCounters(s) && t.evaluations == s.evaluations
            && t.graph == s.graph && t.runs == s.runs && t.revisions == s.revisions && t.issued >= s.issued
            && t.status == if step.BeginStep? then Running else if step.CancelStep? then Cancelled else s.status
  {
    hide LogCancels;
    LogCancelsFields(env, s, s.tools, now);
  }

  lemma {:induction false} StepsRecount(env: Env, s: Session, steps: seq<Step>, now: nat)
    requires Inv(s) && AllFine(REASONS_AND_OPENING, env, s, steps, now)
    ensures Inv(ApplyAll(env, s, steps, now))
  {
    hide Inv, Fine, Apply;
    if |steps| > 0 {
      var n := |steps| - 1;
      StepsRecount(env, s, steps[..n], now);
      StepRecounts(env, ApplyAll(env, s, steps[..n], now), steps[n], now);
    }
  }

  /** In every reachable session that is not completed, the incremental counters are what a recount of the turns gives. */
  lemma {:induction false} CountersAreRecounted(env: Env, calls: seq<Call>)
    requires AllObey(REASONS_AND_OPENING, env, calls)
    ensures Inv(Reach(env, calls))
  {
    hide Inv, PlanFor, ApplyAll, NewSession, Obeys;
    if |calls| == 0 {
      NewRecounts(env);
    } else {
      var n := |calls| - 1;
      AllObeyPrefix(REASONS_AND_OPENING, env, calls, n);
      CountersAreRecounted(env, calls[..n]);
      var s := Reach(env, calls[..n]);
      PlanFine(REASONS_AND_OPENING, env, s, calls[n].op, calls[n].now);
      StepsRecount(env, s, PlanFor(env, s, calls[n].op, calls[n].now).steps, calls[n].now);
    }
  }

  lemma NewRecounts(env: Env)
    ensures Inv(NewSession(env, 0))
  {
  }

  // ---- earlier turns stay as they were ----

  /** Turns are only appended, and an earlier turn changes in its text alone. */
  ghost predicate Grows(a: seq<Turn>, b: seq<Turn>) {
    |a| <= |b| && SameSteering(a, b[..|a|])
  }

  lemma GrowsTransitive(a: seq<Turn>, b: seq<Turn>, c: seq<Turn>)
    requires Grows(a, b) && Grows(b, c)
    ensures Grows(a, c)
  {
    forall i | 0 <= i < |a|
      ensures a[i] == c[..|a|][i].(text := a[i].text)
    {
      assert a[i] == b[..|a|][i].(text := a[i].text);
      assert b[i] == c[..|b|][i].(text := b[i].text);
    }
  }

  lemma GrowsByOne(a: seq<Turn>, t: Turn)
    ensures Grows(a, a) && Grows(a, a + [t])
  {
  }

  lemma StepGrows(env: Env, s: Session, step: Step, now: nat)
    ensures Grows(s.turns, Apply(env, s, step, now).turns)
  {
    hide ClaimAll, Judging, ObserveOne, Correcting, Log, LogCancels, Ask, Grows, ObserveAll, Evaluating, VerdictObservations,
         Submitting, Hear, Cancelling;
    var t := Apply(env, s, step, now);
    GrowsByOne(s.turns, if |t.turns| > 0 then t.turns[|t.turns| - 1] else Turn(0, Candidate, "", None, [], None, false, false));
    match step
    case AskStep(d, origin, covered, tool) => AskFields(env, s, d, origin, covered, tool, now);
    case HearStep(text, parent, tags) => HearFields(env, s, text, parent, tags, now);
    case ClaimStep(answer, tags) => ClaimAllFrame(env, s, answer, tags, now);
    case JudgeStep(call) => JudgingFrame(env, s, call, now);
    case ObserveStep(o) => ObserveOneFrame(env, s, o, now);
    case ControlStep(kind, reply) => ControlGrows(env, s, kind, reply, now);
    case CorrectStep(turn, text) =>
      CorrectFields(env, s, turn, text, now);
      SteeringGrows(s.turns, t.turns);
    case AssessStep(tool, artifact, passed, d, covered, next) =>
      AssessFields(env, s, step, now);
    case _ => PlainFields(env, s, step, now);
  }

  /** An assessment is a decision after the verdict has been recorded as evidence. */
  lemma AssessFields(env: Env, s: Session, step: Step, now: nat)
    requires step.AssessStep?
    ensures var evaluated := Evaluating(env, s, step.submitted.id, now);
            var u := ObserveAll(env, evaluated, VerdictObservations(step.submitted, step.artifact, step.passed), now);
            var t := Apply(env, s, step, now);
            && t == Ask(env, u, step.decision, AfterTool, step.covered, step.tool, now)
            && u.status == s.status && u.turns == s.turns && u.runs == s.runs && u.revisions == s.revisions
            && t.turns == s.turns + [Turn(u.issued, Interviewer, step.decision.text, step.decision.parent, step.decision.tags,
                                          Some(LaneOf(step.decision)), false, false)]
            && t.runs == s.runs && t.graph == u.graph
            && t.status == if step.decision.completes then Completed else s.status
  {
    hide Ask, ObserveAll, VerdictObservations, Evaluating;
    EvaluatingFields(env, s, step.submitted.id, now);
    var evaluated := Evaluating(env, s, step.submitted.id, now);
    var os := VerdictObservations(step.submitted, step.artifact, step.passed);
    ObserveAllFrame(env, evaluated, os, now);
    AskFields(env, ObserveAll(env, evaluated, os, now), step.decision, AfterTool, step.covered, step.tool, now);
  }

  lemma SteeringGrows(a: seq<Turn>, b: seq<Turn>)
    requires SameSteering(b, a)
    ensures Grows(a, b)
  {
    assert b[..|a|] == b;
  }

  lemma ControlGrows(env: Env, s: Session, kind: ControlKind, reply: Option<ControlReply>, now: nat)
    ensures Grows(s.turns, Controlling(env, s, kind, reply, now).turns)
  {
    hide Log;
    var t := Log(env, s.(paused := PauseAfter(s.paused, kind)), CandidateControl, None, ForControl(kind), now);
    LogFields(env, s.(paused := PauseAfter(s.paused, kind)), CandidateControl, None, ForControl(kind), now);
    if reply.Some? {
      var turn := Turn(t.issued, Interviewer, reply.value.text, None, reply.value.tags, reply.value.lane, true, reply.value.nonEvaluative);
      LogFields(env, t.(turns := t.turns + [turn], issued := t.issued + 1), InterviewerTurn, Some(turn.id), Details(""), now);
    }
  }

  lemma {:induction false} StepsGrow(env: Env, s: Session, steps: seq<Step>, now: nat)
    ensures Grows(s.turns, ApplyAll(env, s, steps, now).turns)
  {
    hide Apply;
    if |steps| > 0 {
      var n := |steps| - 1;
      StepsGrow(env, s, steps[..n], now);
      var t := ApplyAll(env, s, steps[..n], now);
      StepGrows(env, t, steps[n], now);
      GrowsTransitive(s.turns, t.turns, ApplyAll(env, s, steps, now).turns);
    }
  }

  lemma {:induction false} ReachGrows(env: Env, calls: seq<Call>, n: nat)
    requires n <= |calls|
    ensures Grows(Reach(env, calls[..n]).turns, Reach(env, calls).turns)
    decreases |calls|
  {
    hide Grows, PlanFor, ApplyAll;
    if n < |calls| {
      var m := |calls| - 1;
      assert calls[..m][..n] == calls[..n];
      ReachGrows(env, calls[..m], n);
      var s := Reach(env, calls[..m]);
      StepsGrow(env, s, PlanFor(env, s, calls[m].op, calls[m].now).steps, calls[m].now);
      GrowsTransitive(Reach(env, calls[..n]).turns, s.turns, Reach(env, calls).turns);
    } else {
      assert calls[..n] == calls;
      GrowsByOne(Reach(env, calls).turns, Turn(0, Candidate, "", None, [], None, false, false));
    }
  }

  // ---- what the live brain saw ----

  /** The session as the brain is shown it in an accepted answer or submission: everything but its own decision is done. */
  function BrainState(env: Env, s: Session, op: Op, now: nat): Session
    requires |PlanFor(env, s, op, now).steps| > 0
  {
    var steps := PlanFor(env, s, op, now).steps;
    var t, last := ApplyAll(env, s, steps[..|steps| - 1], now), steps[|steps| - 1];
    if last.AssessStep?
    then ObserveAll(env, Evaluating(env, t, last.submitted.id, now), VerdictObservations(last.submitted, last.artifact, last.passed), now)
    else t
  }

  ghost predicate Accepted(env: Env, s: Session, op: Op, now: nat) {
    (op.Answer? || op.SubmitTool?) && PlanFor(env, s, op, now).error.None?
  }

  ghost predicate EndsWithAnswer(turns: seq<Turn>) {
    |turns| > 0 && turns[|turns| - 1].speaker == Candidate
  }

  lemma ReplyHeard(env: Env, s: Session, text: string, judge: Option<JudgeReply>, brain: Option<BrainReply>, built: Option<Tool>, now: nat)
    requires ReplyPlan(env, s, text, judge, brain, built).error.None?
    ensures var steps := ReplyPlan(env, s, text, judge, brain, built).steps;
            && |steps| > 0 && steps[|steps| - 1].AskStep?
            && EndsWithAnswer(ApplyAll(env, s, steps[..|steps| - 1], now).turns)
  {
    hide Requested, NextAnchor, EvidenceSteps, LastQuestion, Apply, ApplyAll;
    var question := LastQuestion(s.turns);
    EvidenceFine(NO_CONTRACT, env, s, text, question, judge, now);
    var steps := ReplyPlan(env, s, text, judge, brain, built).steps;
    assert steps[..|steps| - 1] == [HearStep(text, ParentOf(question), [])] + EvidenceSteps(env, question, s.issued, judge).value;
  }

  lemma AnswerHeard(env: Env, s: Session, op: Op, now: nat)
    requires op.Answer? && Accepted(env, s, op, now)
    ensures var steps := PlanFor(env, s, op, now).steps;
            && |steps| > 0 && steps[|steps| - 1].AskStep?
            && EndsWithAnswer(ApplyAll(env, s, steps[..|steps| - 1], now).turns)
  {
    hide ReplyPlan, StartPlan, ApplyAll, EndsWithAnswer;
    if s.status == Created {
      var first := StartPlan(env, s, op.opening, op.openingBuilt).steps;
      var t := ApplyAll(env, s, first, now);
      var second := ReplyPlan(env, t, op.text, op.judge, op.brain, op.built).steps;
      ReplyHeard(env, t, op.text, op.judge, op.brain, op.built, now);
      assert (first + second)[..|first + second| - 1] == first + second[..|second| - 1];
      ApplyAllConcat(env, s, first, second[..|second| - 1], now);
    } else {
      ReplyHeard(env, s, op.text, op.judge, op.brain, op.built, now);
    }
  }

  lemma SubmissionHeard(env: Env, s: Session, op: Op, now: nat)
    requires op.SubmitTool? && Accepted(env, s, op, now)
    ensures var steps := PlanFor(env, s, op, now).steps;
            && |steps| == 3 && steps[2].AssessStep?
            && EndsWithAnswer(ApplyAll(env, s, steps[..2], now).turns)
  {
    hide Requested, AllKnown, Log;
    var steps := PlanFor(env, s, op, now).steps;
    assert steps[..2][..1] == [steps[0]] && [steps[0]][..0] == [];
    assert ApplyAll(env, s, [], now) == s;
    var t := Submitting(env, s, op.toolId, now);
    assert ApplyAll(env, s, [steps[0]], now) == t;
    HearFields(env, t, steps[1].text, steps[1].parent, steps[1].tags, now);
  }

  /** Everything the brain is shown has the counters of a recount, and it has just heard from the candidate. */
  lemma BrainStateRecounts(env: Env, s: Session, op: Op, now: nat)
    requires Inv(s) && Obeys(REASONS_AND_OPENING, env, s, op, now) && Accepted(env, s, op, now)
    ensures |PlanFor(env, s, op, now).steps| > 0
    ensures var b := BrainState(env, s, op, now);
            && EndsWithAnswer(b.turns) && Recount(b.turns) == LiveCounters(b)
            && Grows(b.turns, Perform(env, s, op, now).turns)
  {
    hide PlanFor, Recount, Apply, Evaluating, ObserveAll, VerdictObservations, EndsWithAnswer, Grows, Obeys, Sensible;
    var steps := PlanFor(env, s, op, now).steps;
    if op.Answer? {
      AnswerHeard(env, s, op, now);
    } else {
      SubmissionHeard(env, s, op, now);
    }
    PlanFine(REASONS_AND_OPENING, env, s, op, now);
    var n, last := |steps| - 1, steps[|steps| - 1];
    var t := ApplyAll(env, s, steps[..n], now);
    StepsRecount(env, s, steps[..n], now);
    StepGrows(env, t, last, now);
    if last.AssessStep? {
      EvaluatingFields(env, t, last.submitted.id, now);
      var evaluated := Evaluating(env, t, last.submitted.id, now);
      ObserveAllFrame(env, evaluated, VerdictObservations(last.submitted, last.artifact, last.passed), now);
    }
  }

  /**
   At every candidate turn on which the brain decided, in every later session, the snapshot recomputed from the
   prefix of turns up to and including that turn has exactly the question count, anchor list and follow-up counts
   the live brain was shown.
   */
  lemma SnapshotIsWhatTheBrainSaw(env: Env, calls: seq<Call>, n: nat)
    requires AllObey(REASONS_AND_OPENING, env, calls) && n < |calls|
    requires Accepted(env, Reach(env, calls[..n]), calls[n].op, calls[n].now)
    ensures |PlanFor(env, Reach(env, calls[..n]), calls[n].op, calls[n].now).steps| > 0
    ensures var shown := BrainState(env, Reach(env, calls[..n]), calls[n].op, calls[n].now);
            var later := Reach(env, calls).turns;
            && 0 < |shown.turns| <= |later|
            && later[|shown.turns| - 1].speaker == Candidate
            && Recount(later[..|shown.turns|]) == LiveCounters(shown)
  {
    hide PlanFor, Recount, Obeys, BrainState, Accepted;
    var s := Reach(env, calls[..n]);
    AllObeyPrefix(REASONS_AND_OPENING, env, calls, n);
    CountersAreRecounted(env, calls[..n]);
    assert calls[..n + 1][..n] == calls[..n];
    BrainStateRecounts(env, s, calls[n].op, calls[n].now);
    var shown := BrainState(env, s, calls[n].op, calls[n].now);
    assert Reach(env, calls[..n + 1]) == Perform(env, s, calls[n].op, calls[n].now);
    ReachGrows(env, calls, n + 1);
    var later := Reach(env, calls).turns;
    GrowsTransitive(shown.turns, Reach(env, calls[..n + 1]).turns, later);
    RecountIgnoresText(shown.turns, later[..|shown.turns|]);
    assert later[|shown.turns| - 1] == later[..|shown.turns|][|shown.turns| - 1];
  }

  // ---- every candidate turn is one on which the brain decided ----

  /** No turn from index `from` on is the candidate's. */
  ghost predicate NoAnswers(turns: seq<Turn>, from: nat) {
    forall i :: from <= i < |turns| ==> turns[i].speaker != Candidate
  }

  /** The only candidate turn from index `from` on, if any, is at index `only`. */
  ghost predicate OneAnswer(turns: seq<Turn>, from: nat, only: nat) {
    forall i :: from <= i < |turns| && turns[i].speaker == Candidate ==> i == only
  }

  lemma StepAddsNoAnswer(env: Env, s: Session, step: Step, now: nat)
    requires !step.HearStep?
    ensures NoAnswers(Apply(env, s, step, now).turns, |s.turns|)
    ensures step.ClaimStep? || step.JudgeStep? ==> Apply(env, s, step, now).turns == s.turns
  {
    hide Apply, ClaimAll, Judging, ObserveOne, Correcting, Log, LogCancels, Ask, Controlling;
    match step
    case AskStep(d, origin, covered, tool) =>
      AskFields(env, s, d, origin, covered, tool, now);
      assert Apply(env, s, step, now) == Ask(env, s, d, origin, covered, tool, now) by { ApplyIs(env, s, step, now); }
    case ClaimStep(answer, tags) =>
      ApplyIs(env, s, step, now);
      ClaimAllFrame(env, s, answer, tags, now);
    case JudgeStep(call) =>
      ApplyIs(env, s, step, now);
      JudgingFrame(env, s, call, now);
    case ObserveStep(o) =>
      ApplyIs(env, s, step, now);
      ObserveOneFrame(env, s, o, now);
    case ControlStep(kind, reply) =>
      ApplyIs(env, s, step, now);
      ControlAddsNoAnswer(env, s, kind, reply, now);
    case CorrectStep(turn, text) =>
      ApplyIs(env, s, step, now);
      CorrectFields(env, s, turn, text, now);
    case AssessStep(_, _, _, _, _, _) => AssessFields(env, s, step, now);
    case _ => PlainFields(env, s, step, now);
  }

  lemma ApplyIs(env: Env, s: Session, step: Step, now: nat)
    ensures step.AskStep? ==>
              Apply(env, s, step, now) == Ask(env, s, step.decision, step.origin, step.covered, step.tool, now)
    ensures step.ClaimStep? ==> Apply(env, s, step, now) == ClaimAll(env, s, step.answer, step.tags, now)
    ensures step.JudgeStep? ==> Apply(env, s, step, now) == Judging(env, s, step.call, now)
    ensures step.ObserveStep? ==> Apply(env, s, step, now) == ObserveOne(env, s, step.observation, now)
    ensures step.ControlStep? ==> Apply(env, s, step, now) == Controlling(env, s, step.control, step.reply, now)
    ensures step.CorrectStep? ==> Apply(env, s, step, now) == Correcting(env, s, step.turn, step.text, now)
    ensures step.HearStep? ==> Apply(env, s, step, now) == Hear(env, s, step.text, step.parent, step.tags, now)
  {
    hide ClaimAll, Judging, ObserveOne, Correcting, Ask, Controlling, Hear;
  }

  lemma ControlAddsNoAnswer(env: Env, s: Session, kind: ControlKind, reply: Option<ControlReply>, now: nat)
    ensures NoAnswers(Controlling(env, s, kind, reply, now).turns, |s.turns|)
  {
    hide Log;
    var t := Log(env, s.(paused := PauseAfter(s.paused, kind)), CandidateControl, None, ForControl(kind), now);
    LogFields(env, s.(paused := PauseAfter(s.paused, kind)), CandidateControl, None, ForControl(kind), now);
    if reply.Some? {
      var r := reply.value;
      var turn := Turn(t.issued, Interviewer, r.text, None, r.tags, r.lane, true, r.nonEvaluative);
      LogFields(env, t.(turns := t.turns + [turn], issued := t.issued + 1), InterviewerTurn, Some(turn.id), Details(""), now);
    }
  }

  lemma GrownKeepsSpeaker(a: seq<Turn>, b: seq<Turn>, i: nat)
    requires Grows(a, b) && i < |a|
    ensures b[i].speaker == a[i].speaker
  {
    assert a[i] == b[..|a|][i].(text := a[i].text);
  }

  predicate Deaf(steps: seq<Step>) {
    forall i :: 0 <= i < |steps| ==> !steps[i].HearStep?
  }

  lemma StepsLengthen(env: Env, s: Session, steps: seq<Step>, now: nat)
    ensures |s.turns| <= |ApplyAll(env, s, steps, now).turns|
  {
    StepsGrow(env, s, steps, now);
  }

  lemma {:induction false} DeafStepsAddNoAnswer(env: Env, s: Session, steps: seq<Step>, now: nat)
    requires Deaf(steps)
    ensures NoAnswers(ApplyAll(env, s, steps, now).turns, |s.turns|)
  {
    hide Apply, Grows;
    if |steps| > 0 {
      var n := |steps| - 1;
      var t := ApplyAll(env, s, steps[..n], now);
      DeafStepsAddNoAnswer(env, s, steps[..n], now);
      StepsLengthen(env, s, steps[..n], now);
      LaterStepAddsNoAnswer(env, t, steps[n], now, |s.turns|, |t.turns|);
    }
  }

  /** A step that hears nothing adds no answer to those already there. */
  lemma LaterStepAddsNoAnswer(env: Env, t: Session, step: Step, now: nat, from: nat, only: nat)
    requires !step.HearStep? && from <= |t.turns|
    ensures NoAnswers(t.turns, from) ==> NoAnswers(Apply(env, t, step, now).turns, from)
    ensures OneAnswer(t.turns, from, only) ==> OneAnswer(Apply(env, t, step, now).turns, from, only)
  {
    hide Apply, Grows;
    StepAddsNoAnswer(env, t, step, now);
    StepGrows(env, t, step, now);
    var u := Apply(env, t, step, now);
    forall i | from <= i < |u.turns| && u.turns[i].speaker == Candidate
      ensures i < |t.turns| && t.turns[i].speaker == Candidate
    {
      if i < |t.turns| {
        GrownKeepsSpeaker(t.turns, u.turns, i);
      }
    }
  }

  /** The steps of an accepted answer or submission: one hearing, then evidence about it, then the decision. */
  predicate HearsAt(steps: seq<Step>, k: nat) {
    && k + 1 < |steps| && Deaf(steps[..k]) && steps[k].HearStep?
    && !steps[|steps| - 1].HearStep?
    && forall i :: k < i < |steps| - 1 ==> steps[i].ClaimStep? || steps[i].JudgeStep?
  }

  /** What is heard at step k stays the only answer, and until the last step the latest turn. */
  lemma {:induction false} HeardOnce(env: Env, s: Session, steps: seq<Step>, k: nat, m: nat, now: nat)
    requires HearsAt(steps, k) && k < m < |steps|
    ensures var only := |ApplyAll(env, s, steps[..k], now).turns|;
            var t := ApplyAll(env, s, steps[..m], now);
            |s.turns| <= only && |t.turns| == only + 1 && OneAnswer(t.turns, |s.turns|, only)
    decreases m
  {
    hide Apply, Grows;
    var only := |ApplyAll(env, s, steps[..k], now).turns|;
    var t := ApplyAll(env, s, steps[..m - 1], now);
    assert steps[..m][..m - 1] == steps[..m - 1];
    if m == k + 1 {
      DeafStepsAddNoAnswer(env, s, steps[..k], now);
      StepsLengthen(env, s, steps[..k], now);
      ApplyIs(env, t, steps[k], now);
      HearFields(env, t, steps[k].text, steps[k].parent, steps[k].tags, now);
    } else {
      HeardOnce(env, s, steps, k, m - 1, now);
      StepAddsNoAnswer(env, t, steps[m - 1], now);
    }
  }

  lemma SubmissionHearsAt(env: Env, s: Session, op: Op, now: nat)
    requires op.SubmitTool? && Accepted(env, s, op, now)
    ensures HearsAt(PlanFor(env, s, op, now).steps, 1)
  {
    hide Requested, AllKnown;
  }

  lemma ReplyHearsAt(env: Env, s: Session, text: string, judge: Option<JudgeReply>, brain: Option<BrainReply>,
                     built: Option<Tool>)
    requires ReplyPlan(env, s, text, judge, brain, built).error.None?
    ensures HearsAt(ReplyPlan(env, s, text, judge, brain, built).steps, 0)
  {
    hide Requested, NextAnchor, LastQuestion;
  }

  lemma AnswerHearsAt(env: Env, s: Session, op: Op, now: nat)
    requires op.Answer? && Accepted(env, s, op, now)
    ensures exists k: nat :: HearsAt(PlanFor(env, s, op, now).steps, k)
  {
    hide ReplyPlan, ApplyAll, Requested, NextAnchor;
    if s.status == Created {
      var first := StartPlan(env, s, op.opening, op.openingBuilt).steps;
      var t := ApplyAll(env, s, first, now);
      ReplyHearsAt(env, t, op.text, op.judge, op.brain, op.built);
      var second := ReplyPlan(env, t, op.text, op.judge, op.brain, op.built).steps;
      assert (first + second)[..|first|] == first;
      assert HearsAt(first + second, |first|);
    } else {
      ReplyHearsAt(env, s, op.text, op.judge, op.brain, op.built);
      assert HearsAt(PlanFor(env, s, op, now).steps, 0);
    }
  }

  lemma OthersHearNothing(env: Env, s: Session, op: Op, now: nat)
    requires !Accepted(env, s, op, now)
    ensures Deaf(PlanFor(env, s, op, now).steps)
  {
    hide Requested, AppendRefusal, TurnOf, Admissible, LatestRun, LastBy, Strip, ClarifyText, AllKnown, ApplyAll, NextAnchor,
         EvidenceSteps, LastQuestion;
  }

  /** A candidate turn that an operation adds is the last one its brain was shown. */
  lemma NewAnswerWasShown(env: Env, s: Session, op: Op, now: nat, i: nat)
    requires |s.turns| <= i < |Perform(env, s, op, now).turns| && Perform(env, s, op, now).turns[i].speaker == Candidate
    ensures Accepted(env, s, op, now) && |PlanFor(env, s, op, now).steps| > 0
    ensures |BrainState(env, s, op, now).turns| == i + 1
  {
    hide PlanFor, Apply, Accepted, Evaluating, ObserveAll, VerdictObservations;
    var steps := PlanFor(env, s, op, now).steps;
    if !Accepted(env, s, op, now) {
      OthersHearNothing(env, s, op, now);
      DeafStepsAddNoAnswer(env, s, steps, now);
      assert false;
    } else {
      AcceptedHearsAt(env, s, op, now);
      var k: nat :| HearsAt(steps, k);
      var n := |steps| - 1;
      HeardOnce(env, s, steps, k, n, now);
      var t := ApplyAll(env, s, steps[..n], now);
      LaterStepAddsNoAnswer(env, t, steps[n], now, |s.turns|, |t.turns| - 1);
      if steps[n].AssessStep? {
        EvaluatingFields(env, t, steps[n].submitted.id, now);
        ObserveAllFrame(env, Evaluating(env, t, steps[n].submitted.id, now),
                        VerdictObservations(steps[n].submitted, steps[n].artifact, steps[n].passed), now);
      }
    }
  }

  lemma AcceptedHearsAt(env: Env, s: Session, op: Op, now: nat)
    requires Accepted(env, s, op, now)
    ensures exists k: nat :: HearsAt(PlanFor(env, s, op, now).steps, k)
  {
    hide PlanFor;
    if op.Answer? {
      AnswerHearsAt(env, s, op, now);
    } else {
      SubmissionHearsAt(env, s, op, now);
    }
  }

  /** Call n was accepted, and its brain was shown the turns up to index i. */
  ghost predicate ShownAt(env: Env, calls: seq<Call>, n: nat, i: nat) {
    && n < |calls|
    && Accepted(env, Reach(env, calls[..n]), calls[n].op, calls[n].now)
    && |PlanFor(env, Reach(env, calls[..n]), calls[n].op, calls[n].now).steps| > 0
    && |BrainState(env, Reach(env, calls[..n]), calls[n].op, calls[n].now).turns| == i + 1
  }

  lemma {:induction false} AnswerWasShown(env: Env, calls: seq<Call>, i: nat)
    requires i < |Reach(env, calls).turns| && Reach(env, calls).turns[i].speaker == Candidate
    ensures exists n: nat :: ShownAt(env, calls, n, i)
  {
    hide PlanFor, ApplyAll, Accepted, BrainState, Grows;
    if |calls| == 0 {
      assert false by { NewHasNoTurns(env); }
    } else {
      var m := |calls| - 1;
      var s := Reach(env, calls[..m]);
      if i < |s.turns| {
        ReachGrows(env, calls, m);
        GrownKeepsSpeaker(s.turns, Reach(env, calls).turns, i);
        AnswerWasShown(env, calls[..m], i);
        var n: nat :| ShownAt(env, calls[..m], n, i);
        assert calls[..m][..n] == calls[..n];
        assert ShownAt(env, calls, n, i);
      } else {
        NewAnswerWasShown(env, s, calls[m].op, calls[m].now, i);
        assert ShownAt(env, calls, m, i);
      }
    }
  }

  lemma NewHasNoTurns(env: Env)
    ensures NewSession(env, 0).turns == []
  {
  }

  /**
   Every candidate turn of every reachable session is one after which the brain decided, and the snapshot recomputed
   from the turns up to it has exactly the counters that brain was shown.
   */
  lemma EveryAnswerHasItsSnapshot(env: Env, calls: seq<Call>, i: nat)
    requires AllObey(REASONS_AND_OPENING, env, calls)
    requires i < |Reach(env, calls).turns| && Reach(env, calls).turns[i].speaker == Candidate
    ensures exists n: nat :: ShownAt(env, calls, n, i)
              && Recount(Reach(env, calls).turns[..i + 1])
                 == LiveCounters(BrainState(env, Reach(env, calls[..n]), calls[n].op, calls[n].now))
  {
    hide PlanFor, Reach, Accepted, BrainState, AllObey, Recount;
    AnswerWasShown(env, calls, i);
    var n: nat :| ShownAt(env, calls, n, i);
    SnapshotIsWhatTheBrainSaw(env, calls, n);
  }

  // ---- exactly which decisions keep the counters ----

  /** The tags are new to the list and do not repeat. */
  predicate AllNew(known: seq<string>, tags: seq<string>) {
    && (forall i :: 0 <= i < |tags| ==> tags[i] !in known)
    && (forall i, j :: 0 <= i < j < |tags| ==> tags[i] != tags[j])
  }

  lemma {:induction false} AddMissingBounds(known: seq<string>, tags: seq<string>)
    ensures |AddMissing(known, tags)| <= |known| + |tags|
    ensures forall c :: c in AddMissing(known, tags) <==> c in known || c in tags
    ensures AddMissing(known, tags) == known + tags <==> AllNew(known, tags)
  {
    if |tags| > 0 {
      var n := |tags| - 1;
      var before := AddMissing(known, tags[..n]);
      AddMissingBounds(known, tags[..n]);
      assert tags == tags[..n] + [tags[n]];
      assert known + tags == (known + tags[..n]) + [tags[n]];
      if AddMissing(known, tags) == known + tags {
        assert |AddMissing(known, tags)| == |known| + |tags|;
        assert before == (known + tags)[..|known| + n];
        assert (known + tags)[..|known| + n] == known + tags[..n];
        NewSnoc(known, tags);
      } else if AllNew(known, tags) {
        NewSnoc(known, tags);
      }
    }
  }

  lemma NewSnoc(known: seq<string>, tags: seq<string>)
    requires |tags| > 0
    ensures var n := |tags| - 1;
            AllNew(known, tags) <==> AllNew(known, tags[..n]) && tags[n] !in known && tags[n] !in tags[..n]
  {
    var n := |tags| - 1;
    if AllNew(known, tags[..n]) && tags[n] !in known && tags[n] !in tags[..n] {
      forall i | 0 <= i < n
        ensures tags[i] != tags[n]
      {
        assert tags[..n][i] == tags[i];
      }
    }
  }

  /**
   A decision keeps the counters equal to a recount exactly when it completes the interview after an answer or a tool,
   or: it does not complete, an opening does not follow up, and one in the anchor lane names only new competencies.
   */
  lemma AskKeepsCountersIff(env: Env, s: Session, d: Decision, origin: Origin, covered: seq<string>, tool: Option<Tool>, now: nat)
    requires Recount(s.turns) == LiveCounters(s) && s.status != Completed
    ensures Inv(Ask(env, s, d, origin, covered, tool, now))
       <==> if d.completes then origin != Opening
            else (origin == Opening ==> d.parent.None? || d.tags == [])
                 && (LaneOf(d) == Anchor ==> AllNew(s.anchors, d.tags))
  {
    hide Recount, AddMissing, Bump, Ask;
    AskFields(env, s, d, origin, covered, tool, now);
    RecountSnoc(s.turns, Turn(s.issued, Interviewer, d.text, d.parent, d.tags, Some(LaneOf(d)), false, false));
    AddMissingBounds(s.anchors, d.tags);
    if |d.tags| > 0 {
      BumpMoves(s.followups, d.tags[0]);
    }
  }

  lemma BumpMoves(followups: map<string, nat>, c: string)
    ensures Bump(followups, c) != followups
  {
    assert c in Bump(followups, c);
    if c in followups {
      assert Bump(followups, c)[c] == followups[c] + 1;
    }
  }
}
