/** Short histories in which a property the interview service might be expected to have does not hold. */
module InterviewCounterexamples {
  import opened Common
  import opened Events
  import opened AuditChain
  import opened Evidence
  import opened JudgeGate
  import opened Interview
  import opened Service
  import opened Plans
  import C = Counterfactual
  import O = ServiceObject
  import P = Policy
  import Reevaluation
  import Replay

  /** One competency, one question, no anchors and no tool templates. */
  const JOB := Job([Competency("c", None)], 1, 0.0, [], 0)

  const TOOL := Tool("t", "code", [], OPEN, None, None)

  const QUESTION := Decision("Tell me about c.", ["c"], None, false, None, "")

  const CLOSE := Decision("Thank you.", [], None, true, None, "")

  function EnvOf(h: HashFn): Env {
    Env(JOB, "j", h)
  }

  function Told(d: Decision): Option<BrainReply> {
    Some(BrainReply(d, []))
  }

  // ---- what single operations do to everything but the log ----

  lemma NoAnchorIsDue(s: Session)
    ensures NextAnchor(JOB, s).None?
  {
    hide FirstUnasked;
    assert CountAnchors(JOB.competencies) == 0 by {
      assert CountAnchors(JOB.competencies[..0]) == 0;
    }
  }

  lemma StartIs(h: HashFn, s: Session, d: Decision, now: nat)
    requires s.status == Created && d.template.None?
    requires d.completes || !(ANCHOR_PREFIX <= d.reason)
    ensures var t := Perform(EnvOf(h), s, Start(Told(d), None), now);
            && t == s.(status := Running, covered := [], issued := s.issued + 1, events := t.events,
                       turns := s.turns + [Turn(s.issued, Interviewer, d.text, d.parent, d.tags, Some(LaneOf(d)), false, false)],
                       asked := if d.completes then s.asked else s.asked + 1)
  {
    hide Log, AddMissing;
    NoAnchorIsDue(s);
    hide NextAnchor;
    var env := EnvOf(h);
    var ask := AskStep(d, Opening, [], None);
    assert StartPlan(env, s, Told(d), None) == Do([BeginStep, ask]);
    var begun := Begin(env, s, now);
    assert ApplyAll(env, s, [BeginStep, ask], now) == Apply(env, begun, ask, now) by {
      assert [BeginStep, ask][..1] == [BeginStep] && [BeginStep][..0] == [];
      assert ApplyAll(env, s, [], now) == s;
    }
    C.LogFields(env, s, InterviewStarted, None, Empty, now);
    C.LogFields(env, Posed(begun, d, []), InterviewerTurn, Some(begun.issued), ForQuestion([]), now);
  }

  lemma OpenIs(h: HashFn, s: Session, now: nat)
    requires !Ended(s) && s.tools == []
    ensures var t := Perform(EnvOf(h), s, OpenTool(TOOL), now);
            t == s.(tools := [TOOL], events := t.events)
  {
    hide Log;
    OneStepIs(EnvOf(h), s, OpenToolStep(TOOL), now);
    C.LogFields(EnvOf(h), s.(tools := s.tools + [TOOL]), ToolOpened, None, ForTool(TOOL.id), now);
  }

  lemma PauseIs(h: HashFn, s: Session, now: nat)
    requires !Ended(s)
    ensures var t := Perform(EnvOf(h), s, Control(ThinkingTime, None), now);
            t == s.(paused := true, events := t.events)
  {
    hide Log, LastBy;
    OneStepIs(EnvOf(h), s, ControlStep(ThinkingTime, None), now);
    C.LogFields(EnvOf(h), s.(paused := true), CandidateControl, None, ForControl(ThinkingTime), now);
  }

  lemma SubmissionPlanIs(h: HashFn, s: Session, d: Decision, now: nat)
    requires !Ended(s) && s.tools == [TOOL] && d.template.None?
    ensures SubmitPlan(EnvOf(h), s, "t", Some(None), Told(d), None)
         == Do(O.SubmissionSteps(s, "t", None, BrainReply(d, []), None))
  {
    hide ArtifactText;
  }

  lemma SubmissionRuns(h: HashFn, s: Session, d: Decision, now: nat)
    requires !Ended(s) && s.tools == [TOOL] && d.template.None?
    ensures Perform(EnvOf(h), s, SubmitTool("t", Some(None), Told(d), None), now)
         == ApplyAll(EnvOf(h), s, O.SubmissionSteps(s, "t", None, BrainReply(d, []), None), now)
  {
    SubmissionPlanIs(h, s, d, now);
    hide SubmitPlan, ApplyAll, O.SubmissionSteps;
  }

  /** The tool is submitted without a verdict, and the brain decides what follows. */
  lemma SubmitIs(h: HashFn, s: Session, d: Decision, now: nat)
    requires !Ended(s) && s.tools == [TOOL] && d.template.None? && (d.completes || !(ANCHOR_PREFIX <= d.reason))
    ensures var t := Perform(EnvOf(h), s, SubmitTool("t", Some(None), Told(d), None), now);
            && t.status == (if d.completes then Completed else s.status)
            && t.paused == s.paused && t.asked == (if d.completes then s.asked else s.asked + 1)
  {
    var env := EnvOf(h);
    SubmissionRuns(h, s, d, now);
    O.SubmissionIs(env, s, TOOL, None, BrainReply(d, []), None, now);
    hide Perform, ApplyAll, O.SubmissionSteps, ArtifactText, Submitting, Hear, Evaluating, Ask, ObserveAll, VerdictObservations;
    SubmittedKeeps(env, s, now);
    var t := Submitting(env, s, "t", now);
    HeardKeeps(env, t, now);
    var u := Hear(env, t, ArtifactText(TOOL), None, [], now);
    EvaluatedKeeps(env, u, t.issued, now);
    var v := Evaluating(env, u, "t", now);
    C.AskFields(env, v, d, AfterTool, [], None, now);
    AskKeepsPause(env, v, d, now);
  }

  lemma SubmittedKeeps(env: Env, s: Session, now: nat)
    ensures var t := Submitting(env, s, "t", now);
            t.status == s.status && t.paused == s.paused && t.asked == s.asked
  {
  }

  lemma HeardKeeps(env: Env, s: Session, now: nat)
    ensures var t := Hear(env, s, ArtifactText(TOOL), None, [], now);
            t.status == s.status && t.paused == s.paused && t.asked == s.asked
  {
  }

  lemma EvaluatedKeeps(env: Env, s: Session, artifact: Id, now: nat)
    ensures var t := Evaluating(env, s, "t", now);
            && t.status == s.status && t.paused == s.paused && t.asked == s.asked
            && ObserveAll(env, t, VerdictObservations(TOOL, artifact, None), now) == t
  {
  }

  lemma AskKeepsPause(env: Env, s: Session, d: Decision, now: nat)
    ensures Ask(env, s, d, AfterTool, [], None, now).paused == s.paused
  {
    hide AddMissing, LaneOf;
  }

  lemma ReachSnoc(env: Env, calls: seq<Call>, call: Call)
    ensures Reach(env, calls + [call]) == Perform(env, Reach(env, calls), call.op, call.now)
  {
    assert (calls + [call])[..|calls|] == calls;
  }

  lemma NewIs(env: Env)
    ensures var s := Reach(env, []);
            && s.status == Created && s.turns == [] && s.tools == [] && s.asked == 0 && s.issued == 0
            && s.followups == map[] && s.anchors == [] && !s.paused
  {
    hide Log;
    var empty := Session(Created, false, [], [], map[], [], 0, Initial(CompetencyIds(env.job)), [], [], [], [], [], [], [], 0);
    C.LogFields(env, empty, SessionCreated, None, Details(""), 0);
  }

  // ---- a replay forgets a pause ----

  const START := Call(Start(Told(QUESTION), None), 0)
  const OPEN_TOOL := Call(OpenTool(TOOL), 1)
  const PAUSE := Call(Control(ThinkingTime, None), 2)

  /** The candidate asks for thinking time, and a tool submission completes the interview. */
  const PAUSED_TO_THE_END: seq<Call> := [START, OPEN_TOOL, PAUSE, Call(SubmitTool("t", Some(None), Told(CLOSE), None), 3)]

  lemma PausedAtTheEnd(h: HashFn)
    ensures Reach(EnvOf(h), PAUSED_TO_THE_END).status == Completed && Reach(EnvOf(h), PAUSED_TO_THE_END).paused
  {
    hide Perform, Reach;
    var env := EnvOf(h);
    assert [] + [START] == [START] && [START] + [OPEN_TOOL] == [START, OPEN_TOOL];
    assert [START, OPEN_TOOL] + [PAUSE] == [START, OPEN_TOOL, PAUSE];
    assert [START, OPEN_TOOL, PAUSE] + [PAUSED_TO_THE_END[3]] == PAUSED_TO_THE_END;
    NewIs(env);
    ReachSnoc(env, [], START);
    StartIs(h, Reach(env, []), QUESTION, 0);
    ReachSnoc(env, [START], OPEN_TOOL);
    OpenIs(h, Reach(env, [START]), 1);
    ReachSnoc(env, [START, OPEN_TOOL], PAUSE);
    PauseIs(h, Reach(env, [START, OPEN_TOOL]), 2);
    ReachSnoc(env, [START, OPEN_TOOL, PAUSE], PAUSED_TO_THE_END[3]);
    SubmitIs(h, Reach(env, [START, OPEN_TOOL, PAUSE]), CLOSE, 3);
  }

  /** The session is completed and paused; its replay says completed and not paused. */
  lemma PauseIsForgotten(h: HashFn)
    ensures AllObey(NAMED_TOOLS, EnvOf(h), PAUSED_TO_THE_END)
    ensures var s := Reach(EnvOf(h), PAUSED_TO_THE_END);
            && s.status == Completed && s.paused
            && Replay.Replayed(s.events).status == Completed && !Replay.Replayed(s.events).paused
  {
    hide Reach, Replay.Replayed, Replay.TurnIds, Replay.ToolIds, Replay.CancelledIds;
    PausedAtTheEnd(h);
    Replay.ReplayIsLive(EnvOf(h), PAUSED_TO_THE_END);
  }

  // ---- an opening that follows up ----

  const FOLLOWING := Decision("And why?", ["c"], Some(0), false, None, "")

  /** The turn of a following opening is counted by a recount and not by the session. */
  lemma FollowingOpeningIsMiscounted(h: HashFn)
    ensures var s := Reach(EnvOf(h), [Call(Start(Told(FOLLOWING), None), 0)]);
            && s.status == Running && s.followups == map[]
            && C.Recount(s.turns).followups == map["c" := 1]
  {
    hide Perform, Reach;
    var env, call := EnvOf(h), Call(Start(Told(FOLLOWING), None), 0);
    NewIs(env);
    ReachSnoc(env, [], call);
    assert [] + [call] == [call];
    StartIs(h, Reach(env, []), FOLLOWING, 0);
    C.RecountSnoc([], Turn(0, Interviewer, FOLLOWING.text, Some(0), ["c"], Some(Adaptive), false, false));
  }

  // ---- an opening that closes ----

  const SUBMIT := Call(SubmitTool("t", Some(None), Told(QUESTION), None), 1)

  /** A tool is opened and submitted before the interview begins, and its question is the only one allowed. */
  const BUSY_BEFORE_START: seq<Call> := [Call(OpenTool(TOOL), 0), SUBMIT]

  const GREETING := P.Output(P.Advance, "Hello.", ["c"], None, "intro")

  /** The language model's first question turns into the closing words, the interview runs, and the counters differ. */
  lemma OpeningCloses(h: HashFn)
    ensures var s := Reach(EnvOf(h), BUSY_BEFORE_START);
            var d := P.ModelOpening(GREETING, s, JOB);
            && s.status == Created && s.asked == 1
            && d.Some? && d.value.completes
            && var t := Reach(EnvOf(h), BUSY_BEFORE_START + [Call(Start(Told(d.value), None), 2)]);
               t.status == Running && t.asked == 1 && |t.turns| > 0 && t.turns[|t.turns| - 1].lane == Some(Closing)
  {
    hide Perform, Reach;
    var env, open := EnvOf(h), Call(OpenTool(TOOL), 0);
    NewIs(env);
    ReachSnoc(env, [], open);
    assert [] + [open] == [open] && [open] + [SUBMIT] == BUSY_BEFORE_START;
    OpenIs(h, Reach(env, []), 0);
    ReachSnoc(env, [open], SUBMIT);
    SubmitIs(h, Reach(env, [open]), QUESTION, 1);
    var s := Reach(env, BUSY_BEFORE_START);
    var d := P.ModelOpening(GREETING, s, JOB).value;
    ReachSnoc(env, BUSY_BEFORE_START, Call(Start(Told(d), None), 2));
    StartIs(h, s, d, 2);
  }

  // ---- a re-evaluation that fails after superseding ----

  const FINDING := Finding("c", Claimed, 1.0, None, "ok")

  /** The judge raises on the answer itself. */
  const ANSWER := Call(Answer("yes", None, None, Some(JudgeRaised), Told(QUESTION), None), 1)

  const JUDGED_WELL := Call(Reevaluate(1, Some(JudgeReplied([FINDING], Plain))), 2)

  /** The same finding again, with an audit the service cannot read. */
  const JUDGED_BADLY := Call(Reevaluate(1, Some(JudgeReplied([FINDING], EnsembleAudit(true, false)))), 3)

  ghost predicate Answered(s: Session) {
    && |s.turns| >= 2
    && s.turns[0].id == 0 && s.turns[0].speaker == Interviewer && s.turns[0].tags == ["c"]
    && s.turns[1].id == 1 && s.turns[1].speaker == Candidate && s.turns[1].parent == Some(0)
  }

  lemma AnswerIs(h: HashFn, s: Session, now: nat)
    requires s.status == Running && !s.paused && s.issued == 1
    requires s.turns == [Turn(0, Interviewer, QUESTION.text, None, ["c"], Some(Adaptive), false, false)]
    ensures Answered(Perform(EnvOf(h), s, Answer("yes", None, None, Some(JudgeRaised), Told(QUESTION), None), now))
  {
    var env := EnvOf(h);
    NoAnchorIsDue(s);
    hide NextAnchor, Apply, ApplyAll;
    var question := LastQuestion(s.turns);
    assert question == Some(s.turns[0]);
    var heard := [HearStep("yes", Some(0), [])] + EvidenceSteps(env, question, 1, Some(JudgeRaised)).value;
    var ask := AskStep(QUESTION, AfterAnswer, [], None);
    assert ReplyPlan(env, s, "yes", Some(JudgeRaised), Told(QUESTION), None) == Do(heard + [ask]);
    EvidenceFine(NO_CONTRACT, env, s, "yes", question, Some(JudgeRaised), now);
    var t := ApplyAll(env, s, heard, now);
    OneMore(NO_CONTRACT, env, s, heard, ask, now) by {
      assert Fine(NO_CONTRACT, env, t, ask);
    }
    AskIs(env, t, now);
  }

  lemma AskIs(env: Env, s: Session, now: nat)
    ensures s.turns <= Apply(env, s, AskStep(QUESTION, AfterAnswer, [], None), now).turns
  {
    hide Ask;
    C.AskFields(env, s, QUESTION, AfterAnswer, [], None, now);
  }

  lemma AnsweredFinds(s: Session)
    requires Answered(s)
    ensures TurnOf(s.turns, 0) == Some(s.turns[0]) && TurnOf(s.turns, 1) == Some(s.turns[1])
  {
    assert s.turns[1..][0] == s.turns[1];
  }

  lemma FindingPasses(text: string)
    ensures Passes([FINDING], text, "j") && Reevaluation.AllFindingsKnown(JOB, [FINDING])
  {
    assert JOB.competencies[0].id == "c";
    assert KnownCompetency(JOB, "c");
  }

  lemma ReevaluationAccepted(h: HashFn, s: Session, reply: JudgeReply)
    requires Answered(s)
    ensures ReevaluatePlan(EnvOf(h), s, 1, Some(reply)).error.None?
  {
    AnsweredFinds(s);
    hide TurnOf, LatestRun;
  }

  /** A readable audit: the finding becomes the answer's standing evidence. */
  lemma JudgedWell(h: HashFn, s: Session, now: nat)
    requires Answered(s)
    ensures var t := Perform(EnvOf(h), s, JUDGED_WELL.op, now);
            Answered(t) && Reevaluation.Standing(t.graph, 1) != {}
  {
    var env := EnvOf(h);
    ReevaluationAccepted(h, s, JudgeReplied([FINDING], Plain));
    Reevaluation.ReevaluateIsOneCall(env, s, 1, Some(JudgeReplied([FINDING], Plain)), now);
    hide Perform, Judging, Passes, Reevaluation.Standing, Items, Reevaluation.Replacement, Answered;
    var call: JudgeCall :| call.supersede && call.answer == 1 && call.reply == JudgeReplied([FINDING], Plain)
                           && Perform(env, s, JUDGED_WELL.op, now) == Judging(env, s, call, now);
    FindingPasses(TextOf(s.turns, 1));
    assert Reevaluation.Succeeds(env, s, call);
    ReplacementHasOne(env, s, call);
    Reevaluation.ReevaluationIsAllOrNothing(env, s, call, now);
    hide *;
  }

  lemma ReplacementHasOne(env: Env, s: Session, call: JudgeCall)
    requires call.reply.JudgeReplied? && |call.reply.findings| > 0
    ensures Reevaluation.Replacement(env, s, call) != {}
  {
    hide ItemOf;
    var os := Observations(env, call.reply.findings, call.answer, s.issued);
    assert ItemOf(os[0], s.issued + 1 + 0) in Reevaluation.Replacement(env, s, call);
  }

  /** An unreadable one: the run fails, and the standing evidence is gone. */
  lemma JudgedBadly(h: HashFn, s: Session, now: nat)
    requires Answered(s) && Reevaluation.Standing(s.graph, 1) != {}
    ensures var t := Perform(EnvOf(h), s, JUDGED_BADLY.op, now);
            && |t.runs| > 0 && Reevaluation.LastRecorded(t).failed
            && t.graph != s.graph && Reevaluation.Standing(t.graph, 1) == {}
  {
    var env, reply := EnvOf(h), JUDGED_BADLY.op.judge.value;
    ReevaluationAccepted(h, s, reply);
    Reevaluation.ReevaluateIsOneCall(env, s, 1, Some(reply), now);
    hide Perform, Judging, Passes, Supersede, Items, ObserveAll;
    var call: JudgeCall :| call.supersede && call.answer == 1 && call.reply == reply
                           && Perform(env, s, JUDGED_BADLY.op, now) == Judging(env, s, call, now);
    FindingPasses(TextOf(s.turns, 1));
    Reevaluation.ReevaluationIsAllOrNothing(env, s, call, now);
    Reevaluation.GraphAfter(env, s, call, now);
    var start := s.(graph := Supersede(s.graph, 1), issued := s.issued + 1);
    assert Reevaluation.AppliedObservations(env, s, call) == [];
    NothingObserved(env, start, now);
    SupersedeRetires(s.graph, 1);
  }

  lemma NothingObserved(env: Env, s: Session, now: nat)
    ensures ObserveAll(env, s, [], now) == s
  {
  }

  /** The earlier, good judgement is withdrawn by a later one that fails. */
  lemma FailedReevaluationWithdraws(h: HashFn)
    ensures var s := Reach(EnvOf(h), [START, ANSWER, JUDGED_WELL]);
            var t := Reach(EnvOf(h), [START, ANSWER, JUDGED_WELL, JUDGED_BADLY]);
            && Reevaluation.Standing(s.graph, 1) != {}
            && |t.runs| > 0 && Reevaluation.LastRecorded(t).failed && Reevaluation.Standing(t.graph, 1) == {}
  {
    hide Perform, Reach, Reevaluation.Standing, Answered;
    var env := EnvOf(h);
    assert [] + [START] == [START] && [START] + [ANSWER] == [START, ANSWER];
    assert [START, ANSWER] + [JUDGED_WELL] == [START, ANSWER, JUDGED_WELL];
    assert [START, ANSWER, JUDGED_WELL] + [JUDGED_BADLY] == [START, ANSWER, JUDGED_WELL, JUDGED_BADLY];
    NewIs(env);
    ReachSnoc(env, [], START);
    StartIs(h, Reach(env, []), QUESTION, 0);
    ReachSnoc(env, [START], ANSWER);
    AnswerIs(h, Reach(env, [START]), 1);
    ReachSnoc(env, [START, ANSWER], JUDGED_WELL);
    JudgedWell(h, Reach(env, [START, ANSWER]), 2);
    ReachSnoc(env, [START, ANSWER, JUDGED_WELL], JUDGED_BADLY);
    JudgedBadly(h, Reach(env, [START, ANSWER, JUDGED_WELL]), 3);
  }
}
