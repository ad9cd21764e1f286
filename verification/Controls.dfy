/** Candidate controls: when they are accepted, what they leave behind, and that a pause lasts until it is lifted. */
module Controls {
  import opened Common
  import opened Events
  import opened AuditChain
  import opened Interview
  import opened Service
  import opened Plans
  import opened Outcomes
  import Counterfactual

  // ---- what is left of a text without the spaces around it ----

  ghost predicate AllSpaces(text: string) {
    forall c <- text :: IsSpace(c)
  }

  /** The text is the stripped one between spaces, and the stripped one neither starts nor ends with a space. */
  lemma {:induction false} StripIs(text: string) returns (before: string, after: string)
    ensures text == before + Strip(text) + after && AllSpaces(before) && AllSpaces(after)
    ensures Strip(text) == "" || (!IsSpace(Strip(text)[0]) && !IsSpace(Strip(text)[|Strip(text)| - 1]))
  {
    hide IsSpace;
    before, after := "", "";
    if |text| > 0 && IsSpace(text[0]) {
      before, after := StripIs(text[1..]);
      before := [text[0]] + before;
      assert text == [text[0]] + text[1..];
    } else if |text| > 0 && IsSpace(text[|text| - 1]) {
      before, after := StripIs(text[..|text| - 1]);
      after := after + [text[|text| - 1]];
      assert text == text[..|text| - 1] + [text[|text| - 1]];
    } else {
      assert text == "" + text + "";
    }
  }

  lemma BlankStrips(text: string)
    ensures Strip(text) == "" <==> AllSpaces(text)
  {
    var before, after := StripIs(text);
    hide IsSpace, Strip;
    if Strip(text) != "" {
      assert text[|before|] == Strip(text)[0];
    } else {
      assert text == before + after;
    }
  }

  // ---- acceptance ----

  /** There is something for the control to act on. */
  ghost predicate Answerable(turns: seq<Turn>, kind: ControlKind, detail: Option<string>) {
    && (kind == Repeat || kind == Clarify ==> exists k :: LatestBy(turns, Interviewer, k))
    && (kind == CorrectLastAnswer ==> exists k :: LatestBy(turns, Candidate, k))
    && (kind == CandidateQuestion ==> detail.Some? && !AllSpaces(detail.value))
  }

  lemma SomeBy(turns: seq<Turn>, speaker: Speaker)
    ensures LastBy(turns, speaker).Some? <==> exists k :: LatestBy(turns, speaker, k)
  {
    LastByIsLatest(turns, speaker);
    hide LastBy;
  }

  /** A control of an interview that is not over is accepted exactly when there is something for it to act on. */
  lemma ControlIsAcceptedIff(env: Env, s: Session, op: Op, now: nat)
    requires op.Control?
    ensures PlanFor(env, s, op, now).error
         == if s.status == Completed || s.status == Cancelled then Some(Conflict)
            else if !Answerable(s.turns, op.control, op.detail) then Some(BadRequest) else None
    ensures PlanFor(env, s, op, now).error.Some? ==> Perform(env, s, op, now) == s
  {
    SomeBy(s.turns, Interviewer);
    SomeBy(s.turns, Candidate);
    BlankStrips(TextIn(op.detail));
    NoSteps(env, s, now);
    NothingIsBlank();
    hide LastBy, Strip, AllSpaces, ClarifyText, LatestBy, ApplyAll, LaneLabel;
  }

  lemma NothingIsBlank()
    ensures AllSpaces("")
  {
  }

  // ---- outcome ----

  /** The turn in reply to a control that repeats or explains the interviewer's latest turn q. */
  ghost predicate RepliesTo(turn: Turn, q: Turn, text: string) {
    && turn.speaker == Interviewer && turn.text == text && turn.tags == q.tags && turn.parent.None?
    && turn.lane == Some(if q.lane.Some? then q.lane.value else Adaptive) && turn.control && !turn.nonEvaluative
  }

  /** An explanation ends with the question, or else with what the candidate asked about it. */
  ghost predicate Explains(turn: Turn, q: Turn, detail: Option<string>) {
    && RepliesTo(turn, q, turn.text)
    && exists intro: string, asked: string ::
         && turn.text == intro + q.text + (if asked == "" then "" else " You specifically asked: " + asked)
         && Stripped(TextIn(detail), asked)
  }

  ghost predicate Stripped(text: string, core: string) {
    && (exists before: string, after: string :: text == before + core + after && AllSpaces(before) && AllSpaces(after))
    && (core == "" || (!IsSpace(core[0]) && !IsSpace(core[|core| - 1])))
  }

  lemma StripStrips(text: string)
    ensures Stripped(text, Strip(text))
  {
    var before, after := StripIs(text);
    hide IsSpace, Strip;
  }

  /** A candidate's question is taken up outside the assessment. */
  ghost predicate SetsAside(turn: Turn, detail: Option<string>) {
    && turn.speaker == Interviewer && turn.tags == [] && turn.lane.None? && turn.control && turn.nonEvaluative
    && turn.parent.None?
    && exists intro: string, asked: string :: turn.text == intro + asked && Stripped(TextIn(detail), asked)
  }

  /** Only turns, the pause flag and, through a correction, revisions and evidence may change. */
  ghost predicate OnlyControls(s: Session, t: Session) {
    && t.status == s.status && t.covered == s.covered && t.followups == s.followups && t.anchors == s.anchors
    && t.asked == s.asked && t.tools == s.tools && t.runs == s.runs && t.appeals == s.appeals
    && t.submissions == s.submissions && t.evaluations == s.evaluations
  }

  /** The pause flag after a control. */
  predicate PausedBy(before: bool, kind: ControlKind) {
    kind == ThinkingTime || (before && kind != Resume)
  }

  /** What a control adds to the turns, when it corrects nothing. */
  ghost predicate Controlled(s: Session, t: Session, op: Op)
    requires op.Control?
  {
    && OnlyControls(s, t) && t.paused == PausedBy(s.paused, op.control) && t.graph == s.graph && t.revisions == s.revisions
    && if op.control == Repeat then
         |t.turns| == |s.turns| + 1 && t.turns[..|s.turns|] == s.turns
         && exists k :: LatestBy(s.turns, Interviewer, k) && RepliesTo(t.turns[|s.turns|], s.turns[k], s.turns[k].text)
       else if op.control == Clarify then
         |t.turns| == |s.turns| + 1 && t.turns[..|s.turns|] == s.turns
         && exists k :: LatestBy(s.turns, Interviewer, k) && Explains(t.turns[|s.turns|], s.turns[k], op.detail)
       else if op.control == CandidateQuestion then
         |t.turns| == |s.turns| + 1 && t.turns[..|s.turns|] == s.turns && SetsAside(t.turns[|s.turns|], op.detail)
       else t.turns == s.turns
  }

  lemma ControllingIs(env: Env, s: Session, kind: ControlKind, reply: Option<ControlReply>, now: nat)
    ensures var t := Controlling(env, s, kind, reply, now);
            && OnlyControls(s, t) && t.paused == PausedBy(s.paused, kind) && t.graph == s.graph && t.revisions == s.revisions
            && t.turns == s.turns + (if reply.None? then [] else
                 [Turn(s.issued, Interviewer, reply.value.text, None, reply.value.tags, reply.value.lane, true, reply.value.nonEvaluative)])
  {
    hide Extend;
    assert s.turns + [] == s.turns;
  }

  /** What a control is answered with. */
  ghost predicate Fitting(turns: seq<Turn>, op: Op, reply: Option<ControlReply>)
    requires op.Control?
  {
    if op.control == Repeat then
      reply.Some? && exists k :: LatestBy(turns, Interviewer, k) && RepliesTo(Spoken(reply.value), turns[k], turns[k].text)
    else if op.control == Clarify then
      reply.Some? && exists k :: LatestBy(turns, Interviewer, k) && Explains(Spoken(reply.value), turns[k], op.detail)
    else if op.control == CandidateQuestion then reply.Some? && SetsAside(Spoken(reply.value), op.detail)
    else reply.None?
  }

  function Spoken(r: ControlReply): Turn {
    Turn(0, Interviewer, r.text, None, r.tags, r.lane, true, r.nonEvaluative)
  }

  lemma ControlReplies(s: Session, op: Op) returns (reply: Option<ControlReply>)
    requires op.Control? && ControlPlan(s, op.control, op.detail).error.None?
    requires op.control == CorrectLastAnswer ==> TextIn(op.detail) == ""
    ensures ControlPlan(s, op.control, op.detail) == Do([ControlStep(op.control, reply)])
    ensures Fitting(s.turns, op, reply)
  {
    LastByIsLatest(s.turns, Interviewer);
    hide LastBy, Strip, Stripped, LatestBy, ClarifyText;
    reply := ControlPlan(s, op.control, op.detail).steps[0].reply;
    var asked := Strip(TextIn(op.detail));
    StripStrips(TextIn(op.detail));
    match op.control
    case Clarify => var intro := ClarifyEnds(LastBy(s.turns, Interviewer).value.text, asked);
    case CandidateQuestion => assert reply.value.text == "Your question was: " + asked;
    case _ =>
  }

  lemma SpokenFits(s: Session, t: Session, op: Op, reply: Option<ControlReply>)
    requires op.Control? && Fitting(s.turns, op, reply)
    requires OnlyControls(s, t) && t.paused == PausedBy(s.paused, op.control) && t.graph == s.graph && t.revisions == s.revisions
    requires t.turns == s.turns + (if reply.None? then [] else [Spoken(reply.value).(id := s.issued)])
    ensures Controlled(s, t, op)
  {
    hide Stripped, LatestBy, OnlyControls;
    if reply.Some? {
      assert t.turns[..|s.turns|] == s.turns;
    }
  }

  /** An accepted control that corrects nothing does what it says and nothing else. */
  lemma ControlOutcome(env: Env, s: Session, op: Op, now: nat)
    requires op.Control? && PlanFor(env, s, op, now).error.None?
    requires op.control == CorrectLastAnswer ==> op.detail.None? || op.detail.value == ""
    ensures Controlled(s, Perform(env, s, op, now), op)
  {
    var reply := ControlReplies(s, op);
    hide ControlPlan, Controlling, Fitting, Controlled, OnlyControls, Apply;
    var step := ControlStep(op.control, reply);
    OneStepIs(env, s, step, now);
    Counterfactual.ApplyIs(env, s, step, now);
    ControllingIs(env, s, op.control, reply, now);
    SpokenFits(s, Controlling(env, s, op.control, reply, now), op, reply);
  }

  lemma ClarifyEnds(question: string, asked: string) returns (intro: string)
    ensures ClarifyText(question, asked)
         == intro + question + (if asked == "" then "" else " You specifically asked: " + asked)
  {
    intro := "Explain your own reasoning or experience related to: ";
  }

  // ---- pauses ----

  /** The only steps that touch the pause flag. */
  lemma PausedOf(env: Env, s: Session, step: Step, now: nat)
    ensures step.ControlStep? ==> Apply(env, s, step, now).paused == PausedBy(s.paused, step.control)
    ensures !step.ControlStep? ==> Apply(env, s, step, now).paused == (s.paused && !step.CancelStep?)
  {
    hide Apply, ClaimAll, Judging, ObserveOne, Controlling, Correcting;
    Counterfactual.ApplyIs(env, s, step, now);
    if step.ControlStep? {
      ControllingIs(env, s, step.control, step.reply, now);
    } else if step.AskStep? {
      AskPaused(env, s, step, now);
    } else if step.AssessStep? {
      AssessPaused(env, s, step, now);
    } else if step.CorrectStep? {
      CorrectPaused(env, s, step, now);
    } else if step.ClaimStep? {
      ClaimAllFrame(env, s, step.answer, step.tags, now);
    } else if step.JudgeStep? {
      JudgingFrame(env, s, step.call, now);
    } else if step.ObserveStep? {
      ObserveOneFrame(env, s, step.observation, now);
    } else {
      PlainPaused(env, s, step, now);
    }
  }

  lemma AskPaused(env: Env, s: Session, step: Step, now: nat)
    requires step.AskStep?
    ensures Apply(env, s, step, now).paused == s.paused
  {
    hide Ask, Asks;
    AskAsks(env, s, step.decision, step.origin, step.covered, step.tool, now);
    AsksPaused(s, Ask(env, s, step.decision, step.origin, step.covered, step.tool, now), step, step.origin == Opening);
  }

  lemma AsksPaused(s: Session, t: Session, step: Step, opening: bool)
    requires step.AskStep? && Asks(s, t, step.decision, step.covered, step.tool, opening)
    ensures t.paused == s.paused
  {
  }

  lemma CorrectPaused(env: Env, s: Session, step: Step, now: nat)
    requires step.CorrectStep?
    ensures Apply(env, s, step, now).paused == s.paused
  {
    hide SupersedeTurn, Log, SetText;
    var t := s.(revisions := s.revisions + [step.turn], turns := SetText(s.turns, step.turn, step.text), issued := s.issued + 1);
    Counterfactual.LogFields(env, t, TranscriptCorrected, Some(step.turn), Details(""), now);
    SupersedeTurnFrame(env, Log(env, t, TranscriptCorrected, Some(step.turn), Details(""), now), step.turn, now);
  }

  lemma AssessPaused(env: Env, s: Session, step: Step, now: nat)
    requires step.AssessStep?
    ensures Apply(env, s, step, now).paused == s.paused
  {
    hide Ask, Asks, ObserveAll, VerdictObservations, Extend, SetToolStatus;
    var v := Evaluating(env, s, step.submitted.id, now);
    var os := VerdictObservations(step.submitted, step.artifact, step.passed);
    ObserveAllFrame(env, v, os, now);
    var u := ObserveAll(env, v, os, now);
    var ask := AskStep(step.decision, AfterTool, step.covered, step.tool);
    AskPaused(env, u, ask, now);
  }

  lemma PlainPaused(env: Env, s: Session, step: Step, now: nat)
    requires Counterfactual.Plain(step) || step.HearStep?
    ensures Apply(env, s, step, now).paused == (s.paused && !step.CancelStep?)
  {
    hide LogCancels, Extend, SetToolStatus;
    Counterfactual.LogCancelsFields(env, s, s.tools, now);
  }

  predicate NoPausing(steps: seq<Step>) {
    forall i :: 0 <= i < |steps| ==> !steps[i].CancelStep? && (steps[i].ControlStep? ==> steps[i].control != ThinkingTime && steps[i].control != Resume)
  }

  lemma {:induction false} StepsKeepPause(env: Env, s: Session, steps: seq<Step>, now: nat)
    requires NoPausing(steps)
    ensures ApplyAll(env, s, steps, now).paused == s.paused
  {
    hide Apply;
    if |steps| > 0 {
      var n := |steps| - 1;
      StepsKeepPause(env, s, steps[..n], now);
      PausedOf(env, ApplyAll(env, s, steps[..n], now), steps[n], now);
    }
  }

  lemma StartDoesNotPause(env: Env, s: Session, opening: Option<BrainReply>, built: Option<Tool>)
    ensures NoPausing(StartPlan(env, s, opening, built).steps)
  {
    hide Requested, NextAnchor;
  }

  lemma ReplyDoesNotPause(env: Env, s: Session, op: Op)
    requires op.Answer?
    ensures NoPausing(ReplyPlan(env, s, op.text, op.judge, op.brain, op.built).steps)
  {
    hide Requested, Choose, LastQuestion;
  }

  lemma PlansDoNotPause(env: Env, s: Session, op: Op, now: nat)
    requires !op.Cancel? && (op.Control? ==> op.control != ThinkingTime && op.control != Resume)
    ensures NoPausing(PlanFor(env, s, op, now).steps)
  {
    hide StartPlan, ReplyPlan, Requested, AppendRefusal, TurnOf, Admissible, LatestRun, LastBy, Strip, ClarifyText, AllKnown,
         ApplyAll, Bystander;
    match op
    case Start(opening, built) => StartDoesNotPause(env, s, opening, built);
    case Answer(_, opening, built, _, _, _) =>
      StartDoesNotPause(env, s, opening, built);
      ReplyDoesNotPause(env, s, op);
      ReplyDoesNotPause(env, ApplyAll(env, s, StartPlan(env, s, opening, built).steps, now), op);
    case _ =>
  }

  /** The call is a candidate control that the session accepts. */
  ghost predicate Takes(env: Env, calls: seq<Call>, i: nat, kind: ControlKind)
    requires i < |calls|
  {
    calls[i].op.Control? && calls[i].op.control == kind && !Over(Reach(env, calls[..i]))
  }

  /** The call cancels a session that was not over. */
  ghost predicate Cancels(env: Env, calls: seq<Call>, i: nat)
    requires i < |calls|
  {
    calls[i].op.Cancel? && !Over(Reach(env, calls[..i]))
  }

  /** What one call makes of the pause flag. */
  lemma CallPauses(env: Env, s: Session, op: Op, now: nat)
    ensures Perform(env, s, op, now).paused
         == if op.Control? && !Over(s) then PausedBy(s.paused, op.control) else s.paused && !(op.Cancel? && !Over(s))
  {
    if op.Cancel? {
      CancelPauses(env, s, now);
    } else if op.Control? && (op.control == ThinkingTime || op.control == Resume) {
      PausePauses(env, s, op, now);
    } else {
      PlansDoNotPause(env, s, op, now);
      StepsKeepPause(env, s, PlanFor(env, s, op, now).steps, now);
    }
  }

  lemma CancelPauses(env: Env, s: Session, now: nat)
    ensures Perform(env, s, Cancel, now).paused == (s.paused && Over(s))
  {
    hide Apply;
    NoSteps(env, s, now);
    OneStepIs(env, s, CancelStep, now);
    PausedOf(env, s, CancelStep, now);
    hide ApplyAll;
  }

  lemma PausePauses(env: Env, s: Session, op: Op, now: nat)
    requires op.Control? && (op.control == ThinkingTime || op.control == Resume)
    ensures Perform(env, s, op, now).paused == if Over(s) then s.paused else PausedBy(s.paused, op.control)
  {
    hide Apply;
    NoSteps(env, s, now);
    OneStepIs(env, s, ControlStep(op.control, None), now);
    PausedOf(env, s, ControlStep(op.control, None), now);
    hide ApplyAll, LastBy;
  }

  /** The candidate asked for time to think, and neither went on nor had the session cancelled since. */
  ghost predicate StillThinking(env: Env, calls: seq<Call>, i: nat) {
    && i < |calls| && Takes(env, calls, i, ThinkingTime)
    && forall j :: i < j < |calls| ==> !Takes(env, calls, j, Resume) && !Cancels(env, calls, j)
  }

  lemma ThinkingNow(env: Env, calls: seq<Call>)
    requires |calls| > 0 && Takes(env, calls, |calls| - 1, ThinkingTime)
    ensures StillThinking(env, calls, |calls| - 1)
  {
    hide Takes, Cancels;
  }

  lemma ThinkingBefore(env: Env, calls: seq<Call>, i: nat)
    requires |calls| > 0 && i < |calls| - 1
    ensures var n := |calls| - 1;
            StillThinking(env, calls, i)
            <==> StillThinking(env, calls[..n], i) && !Takes(env, calls, n, Resume) && !Cancels(env, calls, n)
  {
    hide Takes, Cancels;
    var n := |calls| - 1;
    forall j: nat | j < n
      ensures Takes(env, calls[..n], j, ThinkingTime) <==> Takes(env, calls, j, ThinkingTime)
      ensures Takes(env, calls[..n], j, Resume) <==> Takes(env, calls, j, Resume)
      ensures Cancels(env, calls[..n], j) <==> Cancels(env, calls, j)
    {
      SamePrefix(env, calls, n, j);
    }
  }

  lemma StillThinkingIsWithin(env: Env, calls: seq<Call>)
    ensures forall i: nat :: StillThinking(env, calls, i) ==> i < |calls| && (i == |calls| - 1 ==> Takes(env, calls, i, ThinkingTime))
  {
    hide Takes, Cancels;
  }

  /**
   A session is paused exactly when the candidate asked for time to think and neither went on nor had the session
   cancelled since.
   */
  lemma {:induction false} PausedIff(env: Env, calls: seq<Call>)
    ensures Reach(env, calls).paused <==> exists i: nat :: StillThinking(env, calls, i)
  {
    hide Perform, NewSession, StillThinking;
    if |calls| == 0 {
      NewIsNotPaused(env);
      StillThinkingIsWithin(env, calls);
    } else {
      var n := |calls| - 1;
      PausedIff(env, calls[..n]);
      CallPauses(env, Reach(env, calls[..n]), calls[n].op, calls[n].now);
      forall i: nat | i < n
        ensures StillThinking(env, calls, i)
            <==> StillThinking(env, calls[..n], i) && !Takes(env, calls, n, Resume) && !Cancels(env, calls, n)
      {
        ThinkingBefore(env, calls, i);
      }
      StillThinkingIsWithin(env, calls);
      StillThinkingIsWithin(env, calls[..n]);
      if Takes(env, calls, n, ThinkingTime) {
        ThinkingNow(env, calls);
      }
    }
  }

  lemma SamePrefix(env: Env, calls: seq<Call>, n: nat, j: nat)
    requires j < n <= |calls|
    ensures forall kind :: Takes(env, calls[..n], j, kind) <==> Takes(env, calls, j, kind)
    ensures Cancels(env, calls[..n], j) <==> Cancels(env, calls, j)
  {
    hide Reach, Over;
    assert calls[..n][..j] == calls[..j];
  }

  lemma NewIsNotPaused(env: Env)
    ensures !NewSession(env, 0).paused && Reach(env, []) == NewSession(env, 0)
  {
  }

  /** While a session is paused no answer is accepted, and the answer is not recorded. */
  lemma PausedRefusesAnswers(env: Env, s: Session, op: Op, now: nat)
    requires op.Answer? && s.paused
    ensures PlanFor(env, s, op, now).error.Some?
    ensures s.status != Created ==> Perform(env, s, op, now) == s
  {
    NoSteps(env, s, now);
    if s.status == Created {
      var first := StartPlan(env, s, op.opening, op.openingBuilt);
      StartDoesNotPause(env, s, op.opening, op.openingBuilt);
      StepsKeepPause(env, s, first.steps, now);
    }
    hide StartPlan, ApplyAll, LastQuestion, EvidenceSteps, Choose, Requested;
  }
}
