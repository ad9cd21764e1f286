/** The interview service as it runs: a mutable working copy of the session, saved only when an operation gets through. */
module ServiceObject {
  import opened Common
  import opened Events
  import opened AuditChain
  import opened Evidence
  import opened JudgeGate
  import opened Interview
  import opened Service
  import Plans

  class LiveSession {
    const env: Env
    const graph: EvidenceGraph
    var status: Status
    var paused: bool
    var turns: seq<Turn>
    var covered: seq<string>
    var followups: map<string, nat>
    var anchors: seq<string>
    var asked: nat
    var runs: seq<JudgeRun>
    var revisions: seq<Id>
    var appeals: seq<Id>
    var tools: seq<Tool>
    var submissions: seq<string>
    var evaluations: seq<string>
    var events: seq<Event>
    var issued: nat

    function Value(): Session
      reads this, graph
    {
      Session(status, paused, turns, covered, followups, anchors, asked, graph.nodes, runs, revisions, appeals, tools,
              submissions, evaluations, events, issued)
    }

    /** A deep copy of a stored session. */
    constructor (env: Env, s: Session)
      ensures Value() == s && this.env == env && fresh(graph)
    {
      this.env := env;
      graph := new EvidenceGraph(s.graph);
      status, paused, turns, covered, followups := s.status, s.paused, s.turns, s.covered, s.followups;
      anchors, asked, runs, revisions, appeals := s.anchors, s.asked, s.runs, s.revisions, s.appeals;
      tools, submissions, evaluations, events, issued := s.tools, s.submissions, s.evaluations, s.events, s.issued;
    }

    method AppendEvent(kind: EventType, turnId: Option<Id>, payload: Payload, now: nat)
      modifies this`events
      ensures Value() == Log(env, old(Value()), kind, turnId, payload, now)
    {
      events := Extend(env.hash, events, kind, turnId, payload, now);
    }

    // ---- decisions ----

    method BeginInterview(now: nat)
      modifies this
      ensures Value() == Begin(env, old(Value()), now)
    {
      AppendEvent(InterviewStarted, None, Empty, now);
      status := Running;
    }

    static method WithAnchors(known: seq<string>, tags: seq<string>) returns (all: seq<string>)
      ensures all == AddMissing(known, tags)
    {
      all := known;
      for i := 0 to |tags|
        invariant all == AddMissing(known, tags[..i])
      {
        assert tags[..i + 1][..i] == tags[..i];
        if tags[i] !in all {
          all := all + [tags[i]];
        }
      }
      assert tags[..|tags|] == tags;
    }

    method PoseQuestion(d: Decision, brainCovered: seq<string>) returns (turn: Id)
      modifies this
      ensures turn == old(issued) && Value() == Posed(old(Value()), d, brainCovered)
    {
      hide AddMissing, LaneOf;
      var lane := LaneOf(d);
      turn := issued;
      var question := Turn(turn, Interviewer, d.text, d.parent, d.tags, Some(lane), false, false);
      covered, turns, issued := brainCovered, turns + [question], issued + 1;
      if lane != Closing {
        asked := asked + 1;
      }
      if lane == Anchor {
        anchors := WithAnchors(anchors, d.tags);
      }
    }

    method ApplyDecision(d: Decision, brainCovered: seq<string>, now: nat) returns (turn: Id)
      modifies this
      ensures turn == old(issued) && Value() == Put(env, old(Value()), d, brainCovered, now)
    {
      hide Log, Posed;
      turn := PoseQuestion(d, brainCovered);
      AppendEvent(InterviewerTurn, Some(turn), ForQuestion(brainCovered), now);
    }

    method AppendTool(tool: Tool, now: nat)
      modifies this
      ensures Value() == AddTool(env, old(Value()), tool, now)
    {
      tools := tools + [tool];
      AppendEvent(ToolOpened, None, ForTool(tool.id), now);
    }

    method Conclude(d: Decision, origin: Origin, brainCovered: seq<string>, tool: Option<Tool>, now: nat)
      modifies this
      ensures Value() == Ask(env, old(Value()), d, origin, brainCovered, tool, now)
    {
      hide Put, AddTool, Log, Bump;
      var turn := ApplyDecision(d, brainCovered, now);
      if !origin.Opening? && d.parent.Some? && |d.tags| > 0 {
        followups := Bump(followups, d.tags[0]);
      }
      if tool.Some? {
        AppendTool(tool.value.(status := OPEN, openedFrom := Some(turn)), now);
      }
      if d.completes && !origin.Opening? {
        status := Completed;
        AppendEvent(SessionCompleted, None, Empty, now);
      }
    }

    method AddCandidateTurn(text: string, parent: Option<Id>, tags: seq<string>, now: nat) returns (turn: Id)
      modifies this
      ensures turn == old(issued) && Value() == Hear(env, old(Value()), text, parent, tags, now)
    {
      turn := issued;
      issued := issued + 1;
      turns := turns + [Turn(turn, Candidate, text, parent, tags, None, false, false)];
      AppendEvent(CandidateTurn, Some(turn), Details(""), now);
    }

    // ---- evidence ----

    method RecordCandidateClaim(answer: Id, tags: seq<string>, now: nat)
      modifies this, graph
      ensures Value() == ClaimAll(env, old(Value()), answer, tags, now)
    {
      hide Log, Claim;
      ghost var before := Value();
      for i := 0 to |tags|
        invariant Value() == ClaimAll(env, before, answer, tags[..i], now)
      {
        assert tags[..i + 1][..i] == tags[..i];
        graph.RecordClaim(tags[i], ClaimItem(issued, answer));
        issued := issued + 1;
        AppendEvent(EvidenceObserved, Some(answer), Details(""), now);
      }
      assert tags[..|tags|] == tags;
    }

    method ApplyObservation(o: Observation, now: nat) returns (id: Id)
      modifies this, graph
      ensures id == old(issued) && Value() == ObserveOne(env, old(Value()), o, now)
      ensures issued == old(issued) + 1
    {
      hide Log, Observe;
      id := issued;
      graph.ApplyObservation(o.competency, ItemOf(o, id));
      issued := issued + 1;
      ghost var t := Value();
      AppendEvent(EvidenceObserved, Some(o.turnId), Details(""), now);
      LogIgnoresTools(env, t, tools, EvidenceObserved, Some(o.turnId), Details(""), now);
    }

    method ApplyObservations(os: seq<Observation>, now: nat)
      modifies this, graph
      ensures Value() == ObserveAll(env, old(Value()), os, now)
    {
      hide ObserveOne;
      ghost var before := Value();
      for i := 0 to |os|
        invariant Value() == ObserveAll(env, before, os[..i], now)
      {
        assert os[..i + 1][..i] == os[..i];
        var id := ApplyObservation(os[i], now);
      }
      assert os[..|os|] == os;
    }

    method SupersedeSemanticEvidence(turn: Id, now: nat)
      modifies this, graph
      ensures Value() == SupersedeTurn(env, old(Value()), turn, now)
    {
      hide Log, Supersede, Retired;
      var superseded := graph.SupersedeSemanticEvidenceForTurn(turn);
      ghost var before := Value();
      for i := 0 to |superseded|
        invariant Value() == LogTimes(env, before, i, EvidenceSuperseded, turn, now)
      {
        AppendEvent(EvidenceSuperseded, Some(turn), Details(""), now);
      }
    }

    method RecordRun(run: JudgeRun, now: nat)
      modifies this
      ensures Value() == Record(env, old(Value()), run, now)
    {
      runs := runs + [run];
      AppendEvent(EvidenceJudgeRunRecorded, Some(run.answer), Details(""), now);
    }

    method RecordFailedRun(run: JudgeRun, now: nat)
      modifies this
      ensures Value() == RecordFailure(env, old(Value()), run, now)
    {
      runs := runs + [run.(failed := true)];
      AppendEvent(EvidenceJudgeFailed, Some(run.answer), Details(""), now);
      AppendEvent(EvidenceJudgeRunRecorded, Some(run.answer), Details(""), now);
    }

    method CountRevisions(turn: Id) returns (n: nat)
      ensures n == CountOf(revisions, turn)
    {
      n := 0;
      for i := 0 to |revisions|
        invariant n == CountOf(revisions[..i], turn)
      {
        assert revisions[..i + 1][..i] == revisions[..i];
        if revisions[i] == turn {
          n := n + 1;
        }
      }
      assert revisions[..|revisions|] == revisions;
    }

    /** The observations one by one, until a competency the job does not know. */
    method ApplyGated(run: JudgeRun, findings: seq<Finding>, now: nat)
      modifies this, graph
      ensures Value() == ApplyFindings(env, old(Value()), run, findings, now)
    {
      hide ObserveOne, Record, RecordFailure, Observations;
      ghost var before := Value();
      ghost var from := issued;
      var known := KnownPrefix(env.job, findings);
      var os := Observations(env, findings[..known], run.answer, run.id);
      var ids: seq<Id> := [];
      for i := 0 to |os|
        invariant Value() == ObserveAll(env, before, os[..i], now)
        invariant issued == from + i && ids == Ids(from, i)
      {
        assert os[..i + 1][..i] == os[..i];
        var id := ApplyObservation(os[i], now);
        ids := ids + [id];
      }
      assert os[..|os|] == os;
      assert |os| == known;
      if known < |findings| {
        RecordFailedRun(run.(observations := ids), now);
      } else {
        RecordRun(run.(observations := ids), now);
      }
    }

    method JudgeCandidateEvidence(call: JudgeCall, now: nat)
      modifies this, graph
      ensures Value() == Judging(env, old(Value()), call, now)
    {
      hide Log, SupersedeTurn, ApplyFindings, RecordFailure, Passes, CountOf;
      var revisionCount := CountRevisions(call.answer);
      var run := JudgeRun(issued, call.question, call.answer, now, revisionCount, [], false, call.supersedes);
      issued := issued + 1;
      var gated := false;
      if call.reply.JudgeReplied? {
        var observations := Validate(call.answer, TextOf(turns, call.answer), call.reply.findings, env.judgeId);
        gated := observations.Ok?;
      }
      if !gated {
        RecordFailedRun(run, now);
        return;
      }
      if call.supersede {
        SupersedeSemanticEvidence(call.answer, now);
      }
      var audit := call.reply.audit;
      if audit.EnsembleAudit? && audit.malformed {
        RecordFailedRun(run, now);
        return;
      }
      if audit.EnsembleAudit? && audit.disputed {
        AppendEvent(EvidenceJudgeDisagreement, Some(call.answer), Details(""), now);
      }
      ApplyGated(run, call.reply.findings, now);
    }

    // ---- controls, corrections, appeals, tools ----

    method HandleControl(kind: ControlKind, reply: Option<ControlReply>, now: nat)
      modifies this
      ensures Value() == Controlling(env, old(Value()), kind, reply, now)
    {
      hide Log;
      if kind == ThinkingTime {
        paused := true;
      } else if kind == Resume {
        paused := false;
      }
      AppendEvent(CandidateControl, None, ForControl(kind), now);
      if reply.Some? {
        AddControlTurn(reply.value, now);
      }
    }

    method AddControlTurn(r: ControlReply, now: nat)
      modifies this
      ensures var t := old(Value());
              var turn := Turn(t.issued, Interviewer, r.text, None, r.tags, r.lane, true, r.nonEvaluative);
              Value() == Log(env, t.(turns := t.turns + [turn], issued := t.issued + 1), InterviewerTurn, Some(turn.id), Details(""), now)
    {
      hide Log;
      var turn := Turn(issued, Interviewer, r.text, None, r.tags, r.lane, true, r.nonEvaluative);
      turns, issued := turns + [turn], issued + 1;
      AppendEvent(InterviewerTurn, Some(turn.id), Details(""), now);
    }

    method ApplyTranscriptCorrection(turn: Id, text: string, now: nat)
      requires IndexOfTurn(turns, turn) < |turns|
      modifies this, graph
      ensures Value() == Correcting(env, old(Value()), turn, text, now)
    {
      hide Log, SupersedeTurn;
      revisions := revisions + [turn];
      issued := issued + 1;
      var k := IndexOfTurn(turns, turn);
      turns := turns[k := turns[k].(text := text)];
      AppendEvent(TranscriptCorrected, Some(turn), Details(""), now);
      SupersedeSemanticEvidence(turn, now);
    }

    method SubmitAppeal(now: nat)
      modifies this
      ensures Value() == Appealing(env, old(Value()), now)
    {
      var id := issued;
      issued := issued + 1;
      appeals := appeals + [id];
      AppendEvent(AppealSubmitted, None, ForAppeal(id), now);
    }

    method SubmitArtifact(tool: string, now: nat)
      requires IndexOfTool(tools, tool) < |tools|
      modifies this
      ensures Value() == Submitting(env, old(Value()), tool, now)
    {
      submissions := submissions + [tool];
      issued := issued + 1;
      var k := IndexOfTool(tools, tool);
      tools := tools[k := tools[k].(status := SUBMITTED)];
      AppendEvent(ToolSubmitted, None, ForTool(tool), now);
    }

    method RecordEvaluation(tool: string, now: nat)
      requires IndexOfTool(tools, tool) < |tools|
      modifies this
      ensures Value() == Evaluating(env, old(Value()), tool, now)
    {
      evaluations := evaluations + [tool];
      var k := IndexOfTool(tools, tool);
      tools := tools[k := tools[k].(status := EVALUATED)];
      AppendEvent(ToolEvaluated, None, ForTool(tool), now);
    }

    method AssessArtifact(tool: Tool, artifact: Id, passed: Option<bool>, d: Decision, brainCovered: seq<string>,
                          next: Option<Tool>, now: nat)
      requires IndexOfTool(tools, tool.id) < |tools|
      modifies this, graph
      ensures Value() == Assessing(env, old(Value()), tool, artifact, passed, d, brainCovered, next, now)
    {
      hide Evaluating, ObserveAll, Ask, VerdictObservations;
      RecordEvaluation(tool.id, now);
      ApplyObservations(VerdictObservations(tool, artifact, passed), now);
      Conclude(d, AfterTool, brainCovered, next, now);
    }

    method CancelTool(k: nat, now: nat)
      requires k < |tools|
      modifies this`tools, this`events
      ensures var s := old(Value());
              var tool := s.tools[k];
              Value() == if Cancellable(tool.status)
                         then Log(env, s, ToolCancelled, None, ForTool(tool.id), now).(tools := s.tools[k := tool.(status := CANCELLED)])
                         else s
    {
      hide Log;
      ghost var s := Value();
      var tool := tools[k];
      if Cancellable(tool.status) {
        tools := tools[k := tool.(status := CANCELLED)];
        LogIgnoresTools(env, s, tools, ToolCancelled, None, ForTool(tool.id), now);
        AppendEvent(ToolCancelled, None, ForTool(tool.id), now);
      }
    }

    /** Each open or submitted tool is cancelled and logged in turn. */
    method CancelOpenTools(now: nat)
      modifies this`tools, this`events
      ensures var s := old(Value());
              Value() == LogCancels(env, s, s.tools, now).(tools := CancelTools(s.tools))
    {
      hide Log, LogCancels, PartlyCancelled, CancelTools;
      ghost var s := Value();
      LogNoCancels(env, s, now);
      PartlyEnds(s.tools);
      for i := 0 to |tools|
        invariant |tools| == |s.tools|
        invariant Value() == LogCancels(env, s, s.tools[..i], now).(tools := PartlyCancelled(s.tools, i))
      {
        LogNextCancel(env, s, s.tools, i, now);
        PartlyNext(s.tools, i);
        LogIgnoresTools(env, LogCancels(env, s, s.tools[..i], now), tools, ToolCancelled, None, ForTool(tools[i].id), now);
        CancelTool(i, now);
      }
      assert s.tools[..|s.tools|] == s.tools;
    }

    method CancelEverything(now: nat)
      modifies this
      ensures Value() == Cancelling(env, old(Value()), now)
    {
      hide Log, LogCancels, CancelTools;
      CancelOpenTools(now);
      paused := false;
      status := Cancelled;
      AppendEvent(SessionCancelled, None, Details(""), now);
    }
  }

  /** The first n tools as cancelling leaves them, the others as they were. */
  function PartlyCancelled(tools: seq<Tool>, n: nat): (r: seq<Tool>)
    requires n <= |tools|
    ensures |r| == |tools|
  {
    CancelTools(tools)[..n] + tools[n..]
  }

  lemma PartlyEnds(tools: seq<Tool>)
    ensures PartlyCancelled(tools, 0) == tools && PartlyCancelled(tools, |tools|) == CancelTools(tools)
  {
    assert CancelTools(tools)[..|tools|] == CancelTools(tools);
  }

  lemma PartlyNext(tools: seq<Tool>, n: nat)
    requires n < |tools|
    ensures var before := PartlyCancelled(tools, n);
            && before[n] == tools[n]
            && PartlyCancelled(tools, n + 1)
               == if Cancellable(tools[n].status) then before[n := tools[n].(status := CANCELLED)] else before
  {
  }

  /** The service over one stored session: reading copies it, saving replaces it. */
  class InterviewService {
    const env: Env
    var stored: Session

    constructor (env: Env, now: nat)
      ensures this.env == env && stored == NewSession(env, now)
    {
      this.env := env;
      stored := NewSession(env, now);
    }

    method Start(opening: Option<BrainReply>, built: Option<Tool>, now: nat) returns (error: Option<OpError>)
      modifies this
      ensures stored == Perform(env, old(stored), Op.Start(opening, built), now)
      ensures error == PlanFor(env, old(stored), Op.Start(opening, built), now).error
    {
      hide Begin, Ask, Requested, NextAnchor;
      var session := new LiveSession(env, stored);
      if Ended(stored) || (stored.status == Running && |stored.turns| > 0) {
        return None;
      }
      session.BeginInterview(now);
      var anchor := NextAnchor(env.job, stored);
      var reply := if anchor.Some? then Some(BrainReply(anchor.value, stored.covered)) else opening;
      if reply.None? {
        return Some(Raised);
      }
      var tool := Requested(env, stored, reply.value.decision, built);
      if tool.Err? {
        return Some(tool.error);
      }
      session.Conclude(reply.value.decision, Opening, reply.value.covered, tool.value, now);
      TwoSteps(env, stored, BeginStep, AskStep(reply.value.decision, Opening, reply.value.covered, tool.value), now);
      stored := session.Value();
      return None;
    }

    /** The working copy after an answer and its evidence have been recorded, unless the judge raised. */
    method HearAnswer(text: string, question: Option<Turn>, judge: Option<JudgeReply>, now: nat)
      returns (session: LiveSession, judged: bool)
      ensures fresh(session) && fresh(session.graph) && session.env == env
      ensures var evidence := EvidenceSteps(env, question, stored.issued, judge);
              && judged == evidence.Some?
              && (judged ==> session.Value()
                             == ApplyAll(env, stored, [HearStep(text, ParentOf(question), [])] + evidence.value, now))
    {
      hide Hear, ClaimAll, Judging, ApplyAll;
      session := new LiveSession(env, stored);
      var answer := session.AddCandidateTurn(text, ParentOf(question), [], now);
      var hear := HearStep(text, ParentOf(question), []);
      OneStepIs(env, stored, hear, now);
      if question.None? || |question.value.tags| == 0 {
        assert [hear] + [] == [hear];
        return session, true;
      }
      var claim := ClaimStep(answer, question.value.tags);
      session.RecordCandidateClaim(answer, question.value.tags, now);
      MoreSteps(env, stored, [hear], claim, now);
      if !Judged(env) {
        return session, true;
      }
      if judge.None? {
        return session, false;
      }
      var call := JudgeCall(question.value.id, answer, judge.value, false, None);
      session.JudgeCandidateEvidence(call, now);
      MoreSteps(env, stored, [hear] + [claim], JudgeStep(call), now);
      assert [hear] + [claim] + [JudgeStep(call)] == [hear] + [claim, JudgeStep(call)];
      return session, true;
    }

    /** An answer to an interview that is under way. */
    method Reply(text: string, judge: Option<JudgeReply>, brain: Option<BrainReply>, built: Option<Tool>, now: nat)
      returns (error: Option<OpError>)
      modifies this
      ensures var plan := ReplyPlan(env, old(stored), text, judge, brain, built);
              stored == ApplyAll(env, old(stored), plan.steps, now) && error == plan.error
    {
      hide Ask, Requested, Choose, LastQuestion, ApplyAll, EvidenceSteps;
      NoSteps(env, stored, now);
      if Ended(stored) || stored.paused {
        return Some(Conflict);
      }
      var question := PreviousQuestion(stored.turns);
      var session, judged := HearAnswer(text, question, judge, now);
      if !judged || brain.None? {
        return Some(Raised);
      }
      var d := Choose(env, stored, brain.value.decision);
      var tool := Requested(env, stored, d, built);
      if tool.Err? {
        return Some(tool.error);
      }
      var ask := AskStep(d, AfterAnswer, brain.value.covered, tool.value);
      session.Conclude(d, AfterAnswer, brain.value.covered, tool.value, now);
      MoreSteps(env, stored, [HearStep(text, ParentOf(question), [])] + EvidenceSteps(env, question, stored.issued, judge).value,
                ask, now);
      stored := session.Value();
      return None;
    }

    static method PreviousQuestion(turns: seq<Turn>) returns (question: Option<Turn>)
      ensures question == LastQuestion(turns)
    {
      var i := |turns|;
      assert turns[..i] == turns;
      while i > 0
        invariant 0 <= i <= |turns|
        invariant LastQuestion(turns) == LastQuestion(turns[..i])
      {
        assert turns[..i][..i - 1] == turns[..i - 1];
        i := i - 1;
        if Evaluative(turns[i]) {
          return Some(turns[i]);
        }
      }
      return None;
    }

    /** An answer to an interview that has not begun begins it first, and saves that. */
    method Answer(text: string, opening: Option<BrainReply>, openingBuilt: Option<Tool>, judge: Option<JudgeReply>,
                  brain: Option<BrainReply>, built: Option<Tool>, now: nat) returns (error: Option<OpError>)
      modifies this
      ensures stored == Perform(env, old(stored), Op.Answer(text, opening, openingBuilt, judge, brain, built), now)
      ensures error == PlanFor(env, old(stored), Op.Answer(text, opening, openingBuilt, judge, brain, built), now).error
    {
      hide StartPlan, ReplyPlan, ApplyAll;
      ghost var before := stored;
      if stored.status == Created {
        error := Start(opening, openingBuilt, now);
        if error.Some? {
          return;
        }
      }
      ghost var begun := stored;
      error := Reply(text, judge, brain, built, now);
      if before.status == Created {
        ApplyAllConcat(env, before, StartPlan(env, before, opening, openingBuilt).steps,
                       ReplyPlan(env, begun, text, judge, brain, built).steps, now);
      }
    }

    static method LastTurnBy(turns: seq<Turn>, speaker: Speaker) returns (turn: Option<Turn>)
      ensures turn == LastBy(turns, speaker)
    {
      var i := |turns|;
      assert turns[..i] == turns;
      while i > 0
        invariant 0 <= i <= |turns|
        invariant LastBy(turns, speaker) == LastBy(turns[..i], speaker)
      {
        assert turns[..i][..i - 1] == turns[..i - 1];
        i := i - 1;
        if turns[i].speaker == speaker {
          return Some(turns[i]);
        }
      }
      return None;
    }

    /** What a control answers and refers to; nothing if it makes no sense in this session. */
    static method AnswerControl(s: Session, kind: ControlKind, detail: Option<string>) returns (r: Option<ControlResult>)
      requires !Ended(s)
      ensures r.None? ==> ControlPlan(s, kind, detail) == Refuse(BadRequest)
      ensures r.Some? ==> ControlPlan(s, kind, detail) == Do(ControlSteps(kind, r.value, detail))
      ensures r.Some? && kind == CorrectLastAnswer ==>
                r.value.reply.None? && LastBy(s.turns, Candidate).Some?
                && r.value.target == Some(LastBy(s.turns, Candidate).value.id)
    {
      hide LastBy, Strip, ClarifyText, LaneLabel;
      var question := LastTurnBy(s.turns, Interviewer);
      var answer := LastTurnBy(s.turns, Candidate);
      if kind == Repeat {
        if question.None? {
          return None;
        }
        var q := question.value;
        return Some(ControlResult(Some(ControlReply(q.text, q.tags, Some(LaneLabel(q)), false)), Some(q.id)));
      }
      if kind == Clarify {
        if question.None? {
          return None;
        }
        var q := question.value;
        var clarified := ClarifyText(q.text, Strip(TextIn(detail)));
        return Some(ControlResult(Some(ControlReply(clarified, q.tags, Some(LaneLabel(q)), false)), Some(q.id)));
      }
      if kind == ThinkingTime || kind == Resume {
        return Some(ControlResult(None, if question.Some? then Some(question.value.id) else None));
      }
      if kind == CorrectLastAnswer {
        if answer.None? {
          return None;
        }
        return Some(ControlResult(None, Some(answer.value.id)));
      }
      var asked := Strip(TextIn(detail));
      if asked == "" {
        return None;
      }
      return Some(ControlResult(Some(ControlReply("Your question was: " + asked, [], None, true)), None));
    }

    /** The control is logged and answered, and the correction it carries made. */
    method CarryOutControl(kind: ControlKind, result: ControlResult, detail: Option<string>, now: nat)
      requires kind == CorrectLastAnswer ==>
                 result.reply.None? && LastBy(stored.turns, Candidate).Some?
                 && result.target == Some(LastBy(stored.turns, Candidate).value.id)
      modifies this
      ensures stored == ApplyAll(env, old(stored), ControlSteps(kind, result, detail), now)
    {
      hide Controlling, Correcting, ApplyAll, LastBy, TextIn;
      var session := new LiveSession(env, stored);
      ghost var control := ControlStep(kind, result.reply);
      session.HandleControl(kind, result.reply, now);
      OneStepIs(env, stored, control, now);
      if kind == CorrectLastAnswer && result.target.Some? && TextIn(detail) != "" {
        CorrectableAnswer(env, stored, control, now);
        session.ApplyTranscriptCorrection(result.target.value, TextIn(detail), now);
        TwoSteps(env, stored, control, CorrectStep(result.target.value, TextIn(detail)), now);
      }
      stored := session.Value();
    }

    method HandleCandidateControl(kind: ControlKind, detail: Option<string>, now: nat) returns (error: Option<OpError>)
      modifies this
      ensures stored == Perform(env, old(stored), Control(kind, detail), now)
      ensures error == PlanFor(env, old(stored), Control(kind, detail), now).error
    {
      hide ApplyAll, LastBy, ControlPlan, ControlSteps;
      NoSteps(env, stored, now);
      if Ended(stored) {
        EndedRefuses(stored, kind, detail);
        return Some(Conflict);
      }
      var result := AnswerControl(stored, kind, detail);
      if result.None? {
        return Some(BadRequest);
      }
      CarryOutControl(kind, result.value, detail, now);
      return None;
    }

    /** The checks of a submission, in order; what passes them is the tool the brain asks for next, if any. */
    method CheckSubmission(toolId: string, verdict: Option<Option<bool>>, brain: Option<BrainReply>, built: Option<Tool>)
      returns (r: Result<Option<Tool>, OpError>)
      ensures unchanged(this)
      ensures r.Err? ==> SubmitPlan(env, stored, toolId, verdict, brain, built) == Refuse(r.error)
      ensures r.Ok? ==> verdict.Some? && brain.Some? && IndexOfTool(stored.tools, toolId) < |stored.tools|
      ensures r.Ok? ==>
                var steps := SubmissionSteps(stored, toolId, verdict.value, brain.value, r.value);
                SubmitPlan(env, stored, toolId, verdict, brain, built) == Do(steps)
    {
      hide Requested, AllKnown;
      var k := IndexOfTool(stored.tools, toolId);
      if Ended(stored) {
        return Err(Conflict);
      }
      if k == |stored.tools| {
        return Err(NotFound);
      }
      if stored.tools[k].status != OPEN {
        return Err(Conflict);
      }
      if verdict.None? {
        return Err(BadRequest);
      }
      if verdict.value.Some? && !AllKnown(env.job, stored.tools[k].tags) {
        return Err(Raised);
      }
      if brain.None? {
        return Err(Raised);
      }
      r := Requested(env, stored, brain.value.decision, built);
    }

    /** Submission, artifact turn, verdict and next question. */
    method CarryOutSubmission(tool: Tool, passed: Option<bool>, brain: BrainReply, next: Option<Tool>, now: nat)
      requires IndexOfTool(stored.tools, tool.id) < |stored.tools|
      requires tool == stored.tools[IndexOfTool(stored.tools, tool.id)]
      modifies this
      ensures stored == ApplyAll(env, old(stored), SubmissionSteps(old(stored), tool.id, passed, brain, next), now)
    {
      hide Submitting, Hear, Assessing, ApplyAll, ArtifactText, SubmissionSteps, IndexOfTool, SetToolStatus;
      SubmissionIs(env, stored, tool, passed, brain, next, now);
      var session := new LiveSession(env, stored);
      session.SubmitArtifact(tool.id, now);
      var artifact := session.AddCandidateTurn(ArtifactText(tool), tool.openedFrom, tool.tags, now);
      session.AssessArtifact(tool, artifact, passed, brain.decision, brain.covered, next, now);
      stored := session.Value();
    }

    method SubmitTool(toolId: string, verdict: Option<Option<bool>>, brain: Option<BrainReply>, built: Option<Tool>, now: nat)
      returns (error: Option<OpError>)
      modifies this
      ensures stored == Perform(env, old(stored), Op.SubmitTool(toolId, verdict, brain, built), now)
      ensures error == PlanFor(env, old(stored), Op.SubmitTool(toolId, verdict, brain, built), now).error
    {
      hide SubmitPlan, ApplyAll, SubmissionSteps;
      NoSteps(env, stored, now);
      var checked := CheckSubmission(toolId, verdict, brain, built);
      if checked.Err? {
        return Some(checked.error);
      }
      CarryOutSubmission(stored.tools[IndexOfTool(stored.tools, toolId)], verdict.value, brain.value, checked.value, now);
      return None;
    }

    method CorrectTranscript(turn: Id, text: string, now: nat) returns (error: Option<OpError>)
      modifies this
      ensures stored == Perform(env, old(stored), Correct(turn, text), now)
      ensures error == PlanFor(env, old(stored), Correct(turn, text), now).error
    {
      hide Correcting;
      var k := IndexOfTurn(stored.turns, turn);
      if k == |stored.turns| {
        return Some(NotFound);
      }
      if stored.turns[k].speaker != Candidate {
        return Some(BadRequest);
      }
      var session := new LiveSession(env, stored);
      session.ApplyTranscriptCorrection(turn, text, now);
      OneStepIs(env, stored, CorrectStep(turn, text), now);
      stored := session.Value();
      return None;
    }

    method ReevaluateEvidence(answer: Id, judge: Option<JudgeReply>, now: nat) returns (error: Option<OpError>)
      modifies this
      ensures stored == Perform(env, old(stored), Reevaluate(answer, judge), now)
      ensures error == PlanFor(env, old(stored), Reevaluate(answer, judge), now).error
    {
      hide Judging, LatestRun, TurnOf;
      if !Judged(env) {
        return Some(Conflict);
      }
      var found := TurnOf(stored.turns, answer);
      if found.None? {
        return Some(NotFound);
      }
      if found.value.speaker != Candidate || found.value.parent.None? {
        return Some(BadRequest);
      }
      var question := TurnOf(stored.turns, found.value.parent.value);
      if question.None? || question.value.speaker != Interviewer || |question.value.tags| == 0 {
        return Some(BadRequest);
      }
      if judge.None? {
        return Some(Raised);
      }
      var latest := LatestRun(stored.runs, found.value.id);
      var call := JudgeCall(question.value.id, found.value.id, judge.value, true, RunId(latest));
      var session := new LiveSession(env, stored);
      session.JudgeCandidateEvidence(call, now);
      OneStepIs(env, stored, JudgeStep(call), now);
      stored := session.Value();
      return None;
    }

    method CancelSession(now: nat) returns (error: Option<OpError>)
      modifies this
      ensures stored == Perform(env, old(stored), Cancel, now)
      ensures error == PlanFor(env, old(stored), Cancel, now).error
    {
      hide Cancelling;
      if stored.status == Completed {
        return Some(Conflict);
      }
      if stored.status == Cancelled {
        return None;
      }
      var session := new LiveSession(env, stored);
      session.CancelEverything(now);
      OneStepIs(env, stored, CancelStep, now);
      stored := session.Value();
      return None;
    }

    method OpenTool(tool: Tool, now: nat) returns (error: Option<OpError>)
      modifies this
      ensures stored == Perform(env, old(stored), Op.OpenTool(tool), now)
      ensures error == PlanFor(env, old(stored), Op.OpenTool(tool), now).error
    {
      hide AddTool, AllKnown, TurnOf;
      if Ended(stored) {
        return Some(Conflict);
      }
      if IndexOfTool(stored.tools, tool.id) < |stored.tools| {
        return Some(Conflict);
      }
      if !AllKnown(env.job, tool.tags) {
        return Some(BadRequest);
      }
      if tool.openedFrom.Some? && TurnOf(stored.turns, tool.openedFrom.value).None? {
        return Some(BadRequest);
      }
      var session := new LiveSession(env, stored);
      session.AppendTool(tool, now);
      OneStepIs(env, stored, OpenToolStep(tool), now);
      stored := session.Value();
      return None;
    }

    method SubmitAppeal(turns: seq<Id>, now: nat) returns (error: Option<OpError>)
      modifies this
      ensures stored == Perform(env, old(stored), Appeal(turns), now)
      ensures error == PlanFor(env, old(stored), Appeal(turns), now).error
    {
      hide Appealing, KnownTurns;
      if !KnownTurns(stored.turns, turns) {
        return Some(BadRequest);
      }
      var session := new LiveSession(env, stored);
      session.SubmitAppeal(now);
      OneStepIs(env, stored, AppealStep, now);
      stored := session.Value();
      return None;
    }

    method ObserveEvidence(o: Observation, now: nat) returns (error: Option<OpError>)
      modifies this
      ensures stored == Perform(env, old(stored), Op.ObserveEvidence(o), now)
      ensures error == PlanFor(env, old(stored), Op.ObserveEvidence(o), now).error
    {
      hide ObserveOne, Admissible;
      if !Admissible(env, stored, o) {
        return Some(BadRequest);
      }
      var session := new LiveSession(env, stored);
      var id := session.ApplyObservation(o, now);
      OneStepIs(env, stored, ObserveStep(o), now);
      stored := session.Value();
      return None;
    }
  }

  function SubmissionSteps(s: Session, toolId: string, passed: Option<bool>, brain: BrainReply, next: Option<Tool>): seq<Step>
    requires IndexOfTool(s.tools, toolId) < |s.tools|
  {
    var tool := s.tools[IndexOfTool(s.tools, toolId)];
    [SubmitStep(toolId), HearStep(ArtifactText(tool), tool.openedFrom, tool.tags),
     AssessStep(tool, s.issued + 1, passed, brain.decision, brain.covered, next)]
  }

  lemma SubmissionIs(env: Env, s: Session, tool: Tool, passed: Option<bool>, brain: BrainReply, next: Option<Tool>, now: nat)
    requires IndexOfTool(s.tools, tool.id) < |s.tools| && tool == s.tools[IndexOfTool(s.tools, tool.id)]
    ensures var t := Submitting(env, s, tool.id, now);
            var u := Hear(env, t, ArtifactText(tool), tool.openedFrom, tool.tags, now);
            && t.issued == s.issued + 1
            && IndexOfTool(t.tools, tool.id) < |t.tools| && IndexOfTool(u.tools, tool.id) < |u.tools|
            && ApplyAll(env, s, SubmissionSteps(s, tool.id, passed, brain, next), now)
               == Assessing(env, u, tool, t.issued, passed, brain.decision, brain.covered, next, now)
  {
    SubmitKeepsTools(env, s, tool.id, now);
    var submit, hear := SubmitStep(tool.id), HearStep(ArtifactText(tool), tool.openedFrom, tool.tags);
    var assess := AssessStep(tool, s.issued + 1, passed, brain.decision, brain.covered, next);
    assert SubmissionSteps(s, tool.id, passed, brain, next) == [submit, hear, assess];
    ThreeSteps(env, s, submit, hear, assess, now);
    var t := Submitting(env, s, tool.id, now);
    var u := Hear(env, t, ArtifactText(tool), tool.openedFrom, tool.tags, now);
    SubmissionApplies(env, s, tool.id, now);
    HearingApplies(env, t, hear, now);
    AssessmentApplies(env, u, assess, now);
    HearKeepsTools(env, t, ArtifactText(tool), tool.openedFrom, tool.tags, now);
    hide *;
  }

  lemma SubmissionApplies(env: Env, s: Session, tool: string, now: nat)
    ensures Apply(env, s, SubmitStep(tool), now) == Submitting(env, s, tool, now)
  {
    hide Submitting;
  }

  lemma HearingApplies(env: Env, s: Session, step: Step, now: nat)
    requires step.HearStep?
    ensures Apply(env, s, step, now) == Hear(env, s, step.text, step.parent, step.tags, now)
  {
    hide Hear;
  }

  lemma AssessmentApplies(env: Env, s: Session, step: Step, now: nat)
    requires step.AssessStep?
    ensures Apply(env, s, step, now)
         == Assessing(env, s, step.submitted, step.artifact, step.passed, step.decision, step.covered, step.tool, now)
  {
    hide Assessing;
  }

  /** What a control answers, and the turn it refers to. */
  datatype ControlResult = ControlResult(reply: Option<ControlReply>, target: Option<Id>)

  /** A correction request with a text goes on to correct the turn it refers to. */
  function ControlSteps(kind: ControlKind, r: ControlResult, detail: Option<string>): seq<Step> {
    if kind == CorrectLastAnswer && r.target.Some? && TextIn(detail) != ""
    then [ControlStep(kind, r.reply), CorrectStep(r.target.value, TextIn(detail))]
    else [ControlStep(kind, r.reply)]
  }

  lemma EndedRefuses(s: Session, kind: ControlKind, detail: Option<string>)
    requires Ended(s)
    ensures ControlPlan(s, kind, detail) == Refuse(Conflict)
  {
  }

  /** The answer that a control corrects is still there once the control has been logged. */
  lemma CorrectableAnswer(env: Env, s: Session, step: Step, now: nat)
    requires step.ControlStep? && step.reply.None? && LastBy(s.turns, Candidate).Some?
    ensures var t := Apply(env, s, step, now);
            t.turns == s.turns && IndexOfTurn(t.turns, LastBy(s.turns, Candidate).value.id) < |t.turns|
  {
    Plans.LastByOccurs(s.turns, Candidate);
  }

  lemma HearKeepsTools(env: Env, s: Session, text: string, parent: Option<Id>, tags: seq<string>, now: nat)
    ensures Hear(env, s, text, parent, tags, now).tools == s.tools
  {
  }

  lemma SubmitKeepsTools(env: Env, s: Session, tool: string, now: nat)
    requires IndexOfTool(s.tools, tool) < |s.tools|
    ensures var t := Submitting(env, s, tool, now);
            IndexOfTool(t.tools, tool) < |t.tools| && t.issued == s.issued + 1
  {
    assert SetToolStatus(s.tools, tool, SUBMITTED)[IndexOfTool(s.tools, tool)].id == tool;
  }

  lemma LogNoCancels(env: Env, s: Session, now: nat)
    ensures LogCancels(env, s, s.tools[..0], now) == s
  {
  }

  lemma LogNextCancel(env: Env, s: Session, tools: seq<Tool>, i: nat, now: nat)
    requires i < |tools|
    ensures LogCancels(env, s, tools[..i + 1], now)
         == if Cancellable(tools[i].status)
            then Log(env, LogCancels(env, s, tools[..i], now), ToolCancelled, None, ForTool(tools[i].id), now)
            else LogCancels(env, s, tools[..i], now)
  {
    hide Log;
    assert tools[..i + 1][..i] == tools[..i];
  }

  lemma LogIgnoresTools(env: Env, s: Session, tools: seq<Tool>, kind: EventType, turnId: Option<Id>, payload: Payload, now: nat)
    ensures Log(env, s.(tools := tools), kind, turnId, payload, now) == Log(env, s, kind, turnId, payload, now).(tools := tools)
    ensures Log(env, s, kind, turnId, payload, now).issued == s.issued
  {
  }
}
