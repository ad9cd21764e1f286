/** What the accepted operations of the service leave behind, field by field, and when they are refused. */
module Outcomes {
  import opened Common
  import opened Events
  import opened AuditChain
  import opened Interview
  import opened Service
  import opened Plans
  import AnchorShare
  import Policy

  /** The session has ended one way or the other. */
  predicate Over(s: Session) {
    s.status == Completed || s.status == Cancelled
  }

  // ---- questions, answers, tools by position ----

  /** Turn k is the latest question the interview is steered by. */
  ghost predicate LatestQuestion(turns: seq<Turn>, k: int) {
    && 0 <= k < |turns| && turns[k].speaker == Interviewer && !turns[k].control && !turns[k].nonEvaluative
    && forall j :: k < j < |turns| ==> turns[j].speaker == Candidate || turns[j].control || turns[j].nonEvaluative
  }

  ghost predicate NoQuestion(turns: seq<Turn>) {
    forall j :: 0 <= j < |turns| ==> turns[j].speaker == Candidate || turns[j].control || turns[j].nonEvaluative
  }

  lemma {:induction false} LastQuestionIsLatest(turns: seq<Turn>)
    ensures LastQuestion(turns).None? ==> NoQuestion(turns)
    ensures LastQuestion(turns).Some? ==> exists k :: LatestQuestion(turns, k) && turns[k] == LastQuestion(turns).value
  {
    if |turns| > 0 {
      var n := |turns| - 1;
      if Evaluative(turns[n]) {
        assert LatestQuestion(turns, n);
      } else {
        LastQuestionIsLatest(turns[..n]);
        assert forall j :: 0 <= j < n ==> turns[..n][j] == turns[j];
        if LastQuestion(turns[..n]).Some? {
          var k :| LatestQuestion(turns[..n], k) && turns[..n][k] == LastQuestion(turns[..n]).value;
          assert LatestQuestion(turns, k);
        }
      }
    }
  }

  lemma LatestQuestionIsUnique(turns: seq<Turn>, j: int, k: int)
    requires LatestQuestion(turns, j) && LatestQuestion(turns, k)
    ensures j == k
  {
  }

  /** Turn k is the speaker's latest. */
  ghost predicate LatestBy(turns: seq<Turn>, speaker: Speaker, k: int) {
    && 0 <= k < |turns| && turns[k].speaker == speaker
    && forall j :: k < j < |turns| ==> turns[j].speaker != speaker
  }

  lemma {:induction false} LastByIsLatest(turns: seq<Turn>, speaker: Speaker)
    ensures LastBy(turns, speaker).None? ==> forall j :: 0 <= j < |turns| ==> turns[j].speaker != speaker
    ensures LastBy(turns, speaker).Some? ==>
              exists k :: LatestBy(turns, speaker, k) && turns[k] == LastBy(turns, speaker).value
  {
    if |turns| > 0 {
      var n := |turns| - 1;
      if turns[n].speaker == speaker {
        assert LatestBy(turns, speaker, n);
      } else {
        LastByIsLatest(turns[..n], speaker);
        assert forall j :: 0 <= j < n ==> turns[..n][j] == turns[j];
        if LastBy(turns[..n], speaker).Some? {
          var k :| LatestBy(turns[..n], speaker, k) && turns[..n][k] == LastBy(turns[..n], speaker).value;
          assert LatestBy(turns, speaker, k);
        }
      }
    }
  }

  // ---- a question put ----

  /** The lane of a decision: a completion closes, and an anchor's reason says that it is one. */
  function LaneByReason(d: Decision): Lane {
    if d.completes then Closing else if "anchor:" <= d.reason then Anchor else Adaptive
  }

  /** From s to t one interviewer turn was added, and the counters, the tools and the status followed its decision. */
  ghost predicate Asks(s: Session, t: Session, d: Decision, covered: seq<string>, tool: Option<Tool>, opening: bool) {
    && t.turns == s.turns + [Turn(s.issued, Interviewer, d.text, d.parent, d.tags, Some(LaneByReason(d)), false, false)]
    && t.issued == s.issued + 1
    && t.covered == covered
    && t.asked == s.asked + (if d.completes then 0 else 1)
    && s.anchors <= t.anchors
    && (forall c :: c in t.anchors <==> c in s.anchors || (LaneByReason(d) == Anchor && c in d.tags))
    && FollowsUp(s.followups, t.followups, d, opening)
    && t.tools == s.tools + (if tool.None? then [] else [tool.value.(status := OPEN, openedFrom := Some(s.issued))])
    && t.status == (if d.completes && !opening then Completed else s.status)
    && t.paused == s.paused && t.graph == s.graph && t.runs == s.runs && t.revisions == s.revisions
    && t.appeals == s.appeals && t.submissions == s.submissions && t.evaluations == s.evaluations
  }

  /** A follow-up counts for the first competency it names; an opening does not. */
  ghost predicate FollowsUp(before: map<string, nat>, after: map<string, nat>, d: Decision, opening: bool) {
    if opening || d.parent.None? || d.tags == [] then after == before
    else
      && after.Keys == before.Keys + {d.tags[0]}
      && after[d.tags[0]] == (if d.tags[0] in before then before[d.tags[0]] + 1 else 1)
      && forall c :: c in before && c != d.tags[0] ==> after[c] == before[c]
  }

  lemma {:induction false} AddMissingIs(known: seq<string>, tags: seq<string>)
    ensures known <= AddMissing(known, tags)
    ensures forall c :: c in AddMissing(known, tags) <==> c in known || c in tags
  {
    if |tags| > 0 {
      var n := |tags| - 1;
      AddMissingIs(known, tags[..n]);
      assert tags == tags[..n] + [tags[n]];
    }
  }

  lemma LaneIs(d: Decision)
    ensures LaneOf(d) == LaneByReason(d)
  {
  }

  lemma BumpFollowsUp(followups: map<string, nat>, d: Decision)
    ensures FollowsUp(followups, followups, d, true)
    ensures d.parent.None? || d.tags == [] ==> FollowsUp(followups, followups, d, false)
    ensures d.parent.Some? && d.tags != [] ==> FollowsUp(followups, Bump(followups, d.tags[0]), d, false)
  {
  }

  lemma AskAsks(env: Env, s: Session, d: Decision, origin: Origin, covered: seq<string>, tool: Option<Tool>, now: nat)
    ensures Asks(s, Ask(env, s, d, origin, covered, tool, now), d, covered, tool, origin == Opening)
  {
    LaneIs(d);
    AddMissingIs(s.anchors, d.tags);
    BumpFollowsUp(s.followups, d);
    hide LaneOf, AddMissing, Extend, Bump, FollowsUp;
    assert s.tools + [] == s.tools;
  }

  // ---- an answer heard ----

  /** From s to u the answer was heard and evidence recorded; nothing else of the interview changed. */
  ghost predicate Hears(s: Session, u: Session, text: string, parent: Option<Id>) {
    && u.turns == s.turns + [Turn(s.issued, Candidate, text, parent, [], None, false, false)]
    && u.covered == s.covered && u.followups == s.followups && u.anchors == s.anchors && u.asked == s.asked
    && u.status == s.status && u.paused == s.paused && u.tools == s.tools && u.revisions == s.revisions
    && u.appeals == s.appeals && u.submissions == s.submissions && u.evaluations == s.evaluations
  }

  /** An answer is linked to the latest question, if there is one. */
  ghost predicate Answers(turns: seq<Turn>, parent: Option<Id>) {
    if parent.None? then NoQuestion(turns) else exists k :: LatestQuestion(turns, k) && parent == Some(turns[k].id)
  }

  lemma ParentAnswers(turns: seq<Turn>)
    ensures Answers(turns, ParentOf(LastQuestion(turns)))
  {
    LastQuestionIsLatest(turns);
    hide LastQuestion, NoQuestion;
  }

  lemma EvidenceFrame(env: Env, s: Session, text: string, question: Option<Turn>, judge: Option<JudgeReply>, now: nat)
    requires EvidenceSteps(env, question, s.issued, judge).Some?
    ensures var steps := [HearStep(text, ParentOf(question), [])] + EvidenceSteps(env, question, s.issued, judge).value;
            Hears(s, ApplyAll(env, s, steps, now), text, ParentOf(question))
  {
    hide ClaimAll, Judging, Extend;
    var hear := HearStep(text, ParentOf(question), []);
    var more := EvidenceSteps(env, question, s.issued, judge).value;
    var t := Hear(env, s, text, ParentOf(question), [], now);
    OneStepIs(env, s, hear, now);
    if |more| == 0 {
      assert [hear] + more == [hear];
    } else {
      ClaimAllFrame(env, t, s.issued, question.value.tags, now);
      MoreSteps(env, s, [hear], more[0], now);
      if |more| == 1 {
        assert [hear] + more == [hear] + [more[0]];
      } else {
        JudgingFrame(env, ClaimAll(env, t, s.issued, question.value.tags, now), more[1].call, now);
        MoreSteps(env, s, [hear] + [more[0]], more[1], now);
        assert [hear] + more == [hear] + [more[0]] + [more[1]];
      }
    }
  }

  // ---- a tool asked for ----

  /** The job's tool budget is not used up, and no tool of the session was made from the template. */
  predicate Unspent(job: Job, tools: seq<Tool>, template: string) {
    |tools| < job.maxTools && forall tool <- tools :: tool.template != Some(template)
  }

  /** The job's latest entry for the template allows the competencies. */
  predicate Allows(templates: seq<Template>, template: string, tags: seq<string>) {
    exists k :: 0 <= k < |templates| && templates[k].id == template
      && (forall j :: k < j < |templates| ==> templates[j].id != template)
      && (templates[k].competencies == [] || forall tag <- tags :: tag in templates[k].competencies)
  }

  predicate TagsOfJob(job: Job, tags: seq<string>) {
    forall tag <- tags :: exists j :: 0 <= j < |job.competencies| && job.competencies[j].id == tag
  }

  /** The session is not over, and the tool has a new id and competencies of the job. */
  predicate Fits(job: Job, s: Session, tool: Tool) {
    && (s.status == Created || s.status == Running)
    && (forall other <- s.tools :: other.id != tool.id)
    && TagsOfJob(job, tool.tags)
  }

  /** The tool a decision asks for, if any, is allowed, could be made, and fits. */
  predicate Granted(job: Job, s: Session, d: Decision, built: Option<Tool>) {
    d.template.Some? ==>
      && Unspent(job, s.tools, d.template.value) && Allows(job.templates, d.template.value, d.tags)
      && built.Some? && Fits(job, s, built.value)
  }

  lemma {:induction false} PolicyIsLatest(templates: seq<Template>, id: string)
    ensures PolicyFor(templates, id).None? ==> forall k :: 0 <= k < |templates| ==> templates[k].id != id
    ensures PolicyFor(templates, id).Some? ==>
              exists k :: 0 <= k < |templates| && templates[k] == PolicyFor(templates, id).value && templates[k].id == id
                && forall j :: k < j < |templates| ==> templates[j].id != id
  {
    if |templates| > 0 {
      var n := |templates| - 1;
      PolicyIsLatest(templates[..n], id);
      assert forall j :: 0 <= j < n ==> templates[..n][j] == templates[j];
      if templates[n].id != id && PolicyFor(templates, id).Some? {
        var k :| 0 <= k < n && templates[..n][k] == PolicyFor(templates[..n], id).value && templates[..n][k].id == id
          && forall j :: k < j < n ==> templates[..n][j].id != id;
        assert templates[k] == PolicyFor(templates, id).value;
      }
    }
  }

  lemma PolicyAllows(templates: seq<Template>, id: string, tags: seq<string>)
    ensures Allows(templates, id, tags) <==>
              PolicyFor(templates, id).Some?
              && (PolicyFor(templates, id).value.competencies == [] || AllIn(tags, PolicyFor(templates, id).value.competencies))
  {
    PolicyIsLatest(templates, id);
  }

  lemma UnspentIs(job: Job, tools: seq<Tool>, template: string)
    ensures Unspent(job, tools, template) <==> !(|tools| >= job.maxTools || UsedTemplate(tools, template))
  {
  }

  lemma TagsAreKnown(job: Job, tags: seq<string>)
    ensures AllKnown(job, tags) <==> TagsOfJob(job, tags)
  {
    if AllKnown(job, tags) {
      forall tag | tag in tags
        ensures exists j :: 0 <= j < |job.competencies| && job.competencies[j].id == tag
      {
        var i :| 0 <= i < |tags| && tags[i] == tag;
        assert KnownCompetency(job, tags[i]);
      }
    }
    if TagsOfJob(job, tags) {
      forall i | 0 <= i < |tags|
        ensures KnownCompetency(job, tags[i])
      {
        assert tags[i] in tags;
      }
    }
  }

  lemma FitsIs(env: Env, s: Session, tool: Tool)
    ensures Fits(env.job, s, tool) <==> AppendRefusal(env, s, tool).None?
    ensures Ended(s) ==> AppendRefusal(env, s, tool) == Some(Conflict)
  {
    TagsAreKnown(env.job, tool.tags);
    hide AllKnown, TagsOfJob;
    var k := IndexOfTool(s.tools, tool.id);
    assert (exists other <- s.tools :: other.id == tool.id) <==> k < |s.tools|;
  }

  /** What a brain asks for is granted exactly when it is within the job's policy, and then the tool is the one made. */
  lemma RequestIsGranted(env: Env, s: Session, d: Decision, built: Option<Tool>)
    ensures Requested(env, s, d, built).Ok? <==> Granted(env.job, s, d, built)
    ensures Requested(env, s, d, built).Ok? ==>
              Requested(env, s, d, built).value == if d.template.None? then None else built
    ensures d.template.Some? && !Unspent(env.job, s.tools, d.template.value) ==>
              Requested(env, s, d, built) == Err(Conflict)
    ensures d.template.Some? && Unspent(env.job, s.tools, d.template.value)
            && (!Allows(env.job.templates, d.template.value, d.tags) || built.None?) ==>
              Requested(env, s, d, built) == Err(BadRequest)
  {
    if d.template.Some? {
      UnspentIs(env.job, s.tools, d.template.value);
      PolicyAllows(env.job.templates, d.template.value, d.tags);
      if built.Some? {
        FitsIs(env, s, built.value);
      }
    }
    hide Unspent, Allows, Fits, AppendRefusal, PolicyFor, UsedTemplate, AllIn;
  }

  // ---- answers ----

  /** What is put after an answer: the next anchor question if one is due and the brain does not follow up. */
  ghost predicate Puts(job: Job, s: Session, adaptive: Decision, d: Decision) {
    if adaptive.parent.None? && AnchorShare.AnchorDue(job, s)
    then exists k :: AnchorShare.NextInOrder(job, s, k) && d == AnchorOf(job.competencies[k])
    else d == adaptive
  }

  function AnchorOf(c: Competency): Decision
    requires c.anchor.Some?
  {
    Decision(c.anchor.value, [c.id], None, false, None, "anchor:standardized_anchor")
  }

  lemma DueIsAnchorOf(job: Job, s: Session)
    requires Policy.DistinctCompetencies(job)
    ensures NextAnchor(job, s).Some? <==> AnchorShare.AnchorDue(job, s)
    ensures NextAnchor(job, s).Some? ==>
              exists k :: AnchorShare.NextInOrder(job, s, k) && NextAnchor(job, s).value == AnchorOf(job.competencies[k])
  {
    AnchorShare.PlannerAsksTheDue(job, s);
    NextIsAnchor(job, s);
    hide NextAnchor, AnchorShare.AnchorDue;
  }

  lemma NextIsAnchor(job: Job, s: Session)
    ensures NextAnchor(job, s).Some? ==>
              var d := NextAnchor(job, s).value;
              d == Decision(d.text, d.tags, None, false, None, "anchor:standardized_anchor")
  {
    hide FirstUnasked, AnchorBudget, Multiple;
  }

  lemma ChoosePuts(env: Env, s: Session, adaptive: Decision)
    requires Policy.DistinctCompetencies(env.job)
    ensures Puts(env.job, s, adaptive, Choose(env, s, adaptive))
    ensures Choose(env, s, adaptive).template.Some? ==>
              !(adaptive.parent.None? && AnchorShare.AnchorDue(env.job, s)) && Choose(env, s, adaptive) == adaptive
  {
    DueIsAnchorOf(env.job, s);
    hide NextAnchor, AnchorShare.AnchorDue, AnchorShare.NextInOrder;
  }

  /** A judge has to be heard about answers to a question with competencies. */
  ghost predicate JudgeNeeded(env: Env, turns: seq<Turn>) {
    env.judgeId != "disabled" && exists k :: LatestQuestion(turns, k) && turns[k].tags != []
  }

  lemma JudgeNeededIs(env: Env, s: Session, judge: Option<JudgeReply>)
    ensures EvidenceSteps(env, LastQuestion(s.turns), s.issued, judge).None? <==> JudgeNeeded(env, s.turns) && judge.None?
  {
    LastQuestionIsLatest(s.turns);
    hide LastQuestion;
    if LastQuestion(s.turns).Some? {
      var k :| LatestQuestion(s.turns, k) && s.turns[k] == LastQuestion(s.turns).value;
      forall j | LatestQuestion(s.turns, j)
        ensures j == k
      {
        LatestQuestionIsUnique(s.turns, j, k);
      }
    }
  }

  /** An answer to an interview under way is accepted exactly when nothing stands against it; a refusal changes nothing. */
  lemma AnswerIsAcceptedIff(env: Env, s: Session, op: Op, now: nat)
    requires Policy.DistinctCompetencies(env.job) && op.Answer? && s.status != Created
    ensures PlanFor(env, s, op, now).error.None? <==>
              && s.status == Running && !s.paused && op.brain.Some?
              && (JudgeNeeded(env, s.turns) ==> op.judge.Some?)
              && var d := op.brain.value.decision;
                 (d.parent.None? && AnchorShare.AnchorDue(env.job, s)) || Granted(env.job, s, d, op.built)
    ensures s.status != Running || s.paused ==> PlanFor(env, s, op, now).error == Some(Conflict)
    ensures s.status == Running && !s.paused && (op.brain.None? || (JudgeNeeded(env, s.turns) && op.judge.None?)) ==>
              PlanFor(env, s, op, now).error == Some(Raised)
    ensures PlanFor(env, s, op, now).error.Some? ==> Perform(env, s, op, now) == s
  {
    JudgeNeededIs(env, s, op.judge);
    NoSteps(env, s, now);
    if op.brain.Some? {
      var d := op.brain.value.decision;
      ChoosePuts(env, s, d);
      RequestIsGranted(env, s, Choose(env, s, d), op.built);
    }
    hide Choose, Requested, EvidenceSteps, LastQuestion, JudgeNeeded, Granted, ApplyAll, AnchorShare.AnchorDue;
  }

  /** What the tool slot of a decision is filled with. */
  function ToolFor(d: Decision, built: Option<Tool>): Option<Tool> {
    if d.template.None? then None else built
  }

  /** From s to t, through u, one answer was heard, judged, and followed by the question the planner or the brain put. */
  ghost predicate AnswersThrough(env: Env, s: Session, u: Session, t: Session, op: Op, parent: Option<Id>, d: Decision)
    requires op.Answer? && op.brain.Some?
  {
    && Answers(s.turns, parent) && Hears(s, u, op.text, parent)
    && Puts(env.job, s, op.brain.value.decision, d)
    && Asks(u, t, d, op.brain.value.covered, ToolFor(d, op.built), false)
  }

  /** An accepted answer is linked to the latest question, and followed by the due anchor or the brain's own decision. */
  lemma AnswerOutcome(env: Env, s: Session, op: Op, now: nat)
    requires Policy.DistinctCompetencies(env.job) && op.Answer? && s.status != Created
    requires PlanFor(env, s, op, now).error.None?
    ensures op.brain.Some?
    ensures exists u, parent, d :: AnswersThrough(env, s, u, Perform(env, s, op, now), op, parent, d)
  {
    hide Requested, Choose, EvidenceSteps, LastQuestion, Apply, ApplyAll, Ask, Answers, Hears, Asks, Puts;
    var question := LastQuestion(s.turns);
    var d := Choose(env, s, op.brain.value.decision);
    var heard := [HearStep(op.text, ParentOf(question), [])] + EvidenceSteps(env, question, s.issued, op.judge).value;
    var tool := Requested(env, s, d, op.built).value;
    var ask := AskStep(d, AfterAnswer, op.brain.value.covered, tool);
    assert PlanFor(env, s, op, now).steps == heard + [ask];
    RequestIsGranted(env, s, d, op.built);
    ChoosePuts(env, s, op.brain.value.decision);
    ParentAnswers(s.turns);
    EvidenceFrame(env, s, op.text, question, op.judge, now);
    var u := ApplyAll(env, s, heard, now);
    MoreSteps(env, s, heard, ask, now);
    AnchorShare.AskIs(env, u, ask, now);
    AskAsks(env, u, d, AfterAnswer, op.brain.value.covered, tool, now);
    hide Granted;
    assert AnswersThrough(env, s, u, Perform(env, s, op, now), op, ParentOf(question), d);
  }

  // ---- starts ----

  /** A session that an accepted start leaves as it is. */
  predicate Begun(s: Session) {
    Over(s) || (s.status == Running && |s.turns| > 0)
  }

  /** From s to t the interview began with the due anchor or, when none is due, the brain's opening. */
  ghost predicate Opens(env: Env, s: Session, t: Session, op: Op, d: Decision)
    requires op.Start?
  {
    exists u: Session :: u == s.(status := Running, events := u.events)
         && if AnchorShare.AnchorDue(env.job, s)
            then (exists k :: AnchorShare.NextInOrder(env.job, s, k) && d == AnchorOf(env.job.competencies[k]))
                 && Asks(u, t, d, s.covered, None, true)
            else op.opening.Some? && d == op.opening.value.decision
                 && Asks(u, t, d, op.opening.value.covered, ToolFor(d, op.built), true)
  }

  lemma StartIsAcceptedIff(env: Env, s: Session, op: Op, now: nat)
    requires Policy.DistinctCompetencies(env.job) && op.Start?
    ensures PlanFor(env, s, op, now).error.None? <==>
              || Begun(s) || AnchorShare.AnchorDue(env.job, s)
              || (op.opening.Some? && Granted(env.job, s, op.opening.value.decision, op.built))
    ensures PlanFor(env, s, op, now).error.Some? && op.opening.None? ==> PlanFor(env, s, op, now).error == Some(Raised)
    ensures Begun(s) || PlanFor(env, s, op, now).error.Some? ==> Perform(env, s, op, now) == s
  {
    DueIsAnchorOf(env.job, s);
    NoSteps(env, s, now);
    if NextAnchor(env.job, s).Some? {
      RequestIsGranted(env, s, NextAnchor(env.job, s).value, op.built);
    } else if op.opening.Some? {
      RequestIsGranted(env, s, op.opening.value.decision, op.built);
    }
    hide NextAnchor, Requested, ApplyAll, AnchorShare.AnchorDue, AnchorShare.NextInOrder, Unspent, Allows, Fits;
  }

  lemma StartOutcome(env: Env, s: Session, op: Op, now: nat)
    requires Policy.DistinctCompetencies(env.job) && op.Start? && !Begun(s)
    requires PlanFor(env, s, op, now).error.None?
    ensures exists d :: Opens(env, s, Perform(env, s, op, now), op, d)
  {
    DueIsAnchorOf(env.job, s);
    hide NextAnchor, Requested, Apply, ApplyAll, Ask, Asks, Begin, AnchorShare.AnchorDue, AnchorShare.NextInOrder;
    var ask := PlanFor(env, s, op, now).steps[1];
    assert PlanFor(env, s, op, now).steps == [BeginStep, ask];
    RequestIsGranted(env, s, ask.decision, op.built);
    hide Granted;
    TwoSteps(env, s, BeginStep, ask, now);
    BeginIs(env, s, now);
    var u := Begin(env, s, now);
    AnchorShare.AskIs(env, u, ask, now);
    AskAsks(env, u, ask.decision, Opening, ask.covered, ask.tool, now);
    assert u == s.(status := Running, events := u.events);
    assert Opens(env, s, Perform(env, s, op, now), op, ask.decision);
  }

  lemma BeginIs(env: Env, s: Session, now: nat)
    ensures var u := Begin(env, s, now);
            u == s.(status := Running, events := u.events) && Apply(env, s, BeginStep, now) == u
  {
    hide Extend;
  }
}
