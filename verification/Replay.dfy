/** Replaying a session's log from nothing, and its agreement with the live session. */
module Replay {
  import opened Common
  import opened Events
  import opened AuditChain
  import opened Evidence
  import opened JudgeGate
  import opened Interview
  import opened Service
  import opened Plans

  datatype View = View(
    status: Status, paused: bool, interviewers: seq<Id>, candidates: seq<Id>, corrected: seq<Id>, appeals: seq<Id>,
    tools: seq<string>, submitted: seq<string>, evaluated: seq<string>, cancelled: seq<string>)

  const BLANK := View(Created, false, [], [], [], [], [], [], [], [])

  function Append(ids: seq<Id>, id: Option<Id>): seq<Id> {
    match id case Some(i) => ids + [i] case None => ids
  }

  function AppendName(names: seq<string>, payload: Payload): seq<string> {
    if payload.ForTool? && payload.toolId != "" then names + [payload.toolId] else names
  }

  /** What one event does to a replay. */
  function ReplayStep(v: View, kind: EventType, turnId: Option<Id>, payload: Payload): View {
    match kind
    case SessionCreated => v.(status := Created)
    case InterviewStarted => v.(status := Running)
    case InterviewerTurn => v.(interviewers := Append(v.interviewers, turnId))
    case CandidateTurn => v.(candidates := Append(v.candidates, turnId))
    case CandidateControl =>
      if payload == ForControl(ThinkingTime) then v.(paused := true)
      else if payload == ForControl(Resume) then v.(paused := false)
      else v
    case TranscriptCorrected => v.(corrected := Append(v.corrected, turnId))
    case AppealSubmitted => if payload.ForAppeal? then v.(appeals := v.appeals + [payload.appealId]) else v
    case ToolOpened => v.(tools := AppendName(v.tools, payload))
    case ToolSubmitted => v.(submitted := AppendName(v.submitted, payload))
    case ToolEvaluated => v.(evaluated := AppendName(v.evaluated, payload))
    case ToolCancelled => v.(cancelled := AppendName(v.cancelled, payload))
    case SessionCompleted => v.(status := Completed, paused := false)
    case SessionCancelled => v.(status := Cancelled, paused := false)
    case _ => v
  }

  function Replayed(log: seq<Event>): View {
    if |log| == 0 then BLANK
    else
      var e := log[|log| - 1];
      ReplayStep(Replayed(log[..|log| - 1]), e.kind, e.turnId, e.payload)
  }

  datatype ReplayError = BadChain(error: ChainError) | Gap(expected: nat)

  /** The loop of the replay: the chain is verified first, then the numbering, event by event. */
  method ReplayEvents(h: HashFn, log: seq<Event>) returns (r: Result<View, ReplayError>)
    ensures r.Ok? <==> Verify(h, log).Ok? && Numbered(log)
    ensures r.Ok? ==> r.value == Replayed(log)
  {
    hide ReplayStep, Verify;
    var audit := new EventLog(h, log);
    var head := audit.VerifyEventChain();
    if head.Err? {
      return Err(BadChain(head.error));
    }
    var state := BLANK;
    for i := 0 to |log|
      invariant Numbered(log[..i]) && state == Replayed(log[..i])
    {
      var event := log[i];
      assert log[..i + 1][..i] == log[..i];
      if event.seqNo != i + 1 {
        return Err(Gap(i + 1));
      }
      state := ReplayStep(state, event.kind, event.turnId, event.payload);
    }
    assert log[..|log|] == log;
    return Ok(state);
  }

  // ---- the live session in the same terms ----

  function TurnIds(turns: seq<Turn>, speaker: Speaker): seq<Id> {
    if |turns| == 0 then []
    else
      var n := |turns| - 1;
      TurnIds(turns[..n], speaker) + if turns[n].speaker == speaker then [turns[n].id] else []
  }

  function ToolIds(tools: seq<Tool>): (ids: seq<string>)
    ensures |ids| == |tools|
    ensures forall i :: 0 <= i < |tools| ==> ids[i] == tools[i].id
  {
    seq(|tools|, i requires 0 <= i < |tools| => tools[i].id)
  }

  function CancelledIds(tools: seq<Tool>): seq<string> {
    if |tools| == 0 then []
    else
      var n := |tools| - 1;
      CancelledIds(tools[..n]) + if tools[n].status == CANCELLED then [tools[n].id] else []
  }

  /** The flag of a completed interview is forgotten by the replay, not by the session. */
  function Live(s: Session): View {
    View(s.status, s.paused && s.status != Completed, TurnIds(s.turns, Interviewer), TurnIds(s.turns, Candidate),
         s.revisions, s.appeals, ToolIds(s.tools), s.submissions, s.evaluations, CancelledIds(s.tools))
  }

  ghost predicate NoneCancelled(tools: seq<Tool>) {
    forall i :: 0 <= i < |tools| ==> tools[i].status != CANCELLED
  }

  ghost predicate AllNamed(tools: seq<Tool>) {
    forall i :: 0 <= i < |tools| ==> tools[i].id != ""
  }

  ghost predicate Inv(env: Env, s: Session) {
    && GoodLog(env.hash, s.events)
    && Replayed(s.events) == Live(s)
    && AllNamed(s.tools)
    && (s.status != Cancelled ==> NoneCancelled(s.tools))
  }

  // ---- one logged event ----

  lemma LogReplays(env: Env, s: Session, kind: EventType, turnId: Option<Id>, payload: Payload, now: nat)
    requires GoodLog(env.hash, s.events)
    ensures var t := Log(env, s, kind, turnId, payload, now);
            && GoodLog(env.hash, t.events)
            && Replayed(t.events) == ReplayStep(Replayed(s.events), kind, turnId, payload)
            && t == s.(events := t.events)
  {
    hide ReplayStep, GoodLog, Chained, Head;
    ExtendKeepsGood(env.hash, s.events, kind, turnId, payload, now);
    var t := Extend(env.hash, s.events, kind, turnId, payload, now);
    assert t[..|s.events|] == s.events;
  }

  predicate Silent(kind: EventType) {
    || Bystander(kind) || kind == EvidenceObserved || kind == EvidenceJudgeFailed || kind == EvidenceJudgeDisagreement
    || kind == EvidenceJudgeRunRecorded || kind == EvidenceSuperseded
  }

  /** The log has grown and says nothing new to a replay. */
  ghost predicate Quieter(env: Env, s: Session, t: Session) {
    GoodLog(env.hash, s.events) ==> GoodLog(env.hash, t.events) && Replayed(t.events) == Replayed(s.events)
  }

  lemma SilentLog(env: Env, s: Session, kind: EventType, turnId: Option<Id>, payload: Payload, now: nat)
    requires Silent(kind)
    ensures Quieter(env, s, Log(env, s, kind, turnId, payload, now))
  {
    hide GoodLog, Replayed, Log;
    if GoodLog(env.hash, s.events) {
      LogReplays(env, s, kind, turnId, payload, now);
    }
  }

  lemma {:induction false} SilentLogTimes(env: Env, s: Session, n: nat, kind: EventType, turnId: Id, now: nat)
    requires Silent(kind)
    ensures Quieter(env, s, LogTimes(env, s, n, kind, turnId, now))
  {
    hide GoodLog, Replayed, Silent, Log;
    if n > 0 {
      SilentLogTimes(env, s, n - 1, kind, turnId, now);
      SilentLog(env, LogTimes(env, s, n - 1, kind, turnId, now), kind, Some(turnId), Details(""), now);
    }
  }

  lemma SilentSupersede(env: Env, s: Session, turn: Id, now: nat)
    ensures Quieter(env, s, SupersedeTurn(env, s, turn, now))
  {
    hide GoodLog, Replayed, LogTimes, Retired;
    SilentLogTimes(env, s.(graph := Supersede(s.graph, turn)), |Retired(s.graph, turn)|, EvidenceSuperseded, turn, now);
  }

  lemma {:induction false} SilentClaims(env: Env, s: Session, answer: Id, tags: seq<string>, now: nat)
    ensures Quieter(env, s, ClaimAll(env, s, answer, tags, now))
  {
    hide GoodLog, Replayed, Claim, ClaimItem, Log;
    if |tags| > 0 {
      SilentClaims(env, s, answer, tags[..|tags| - 1], now);
      var t := ClaimAll(env, s, answer, tags[..|tags| - 1], now);
      var u := t.(graph := Claim(t.graph, tags[|tags| - 1], ClaimItem(t.issued, answer)), issued := t.issued + 1);
      SilentLog(env, u, EvidenceObserved, Some(answer), Details(""), now);
    }
  }

  lemma {:induction false} SilentObservations(env: Env, s: Session, os: seq<Observation>, now: nat)
    ensures Quieter(env, s, ObserveAll(env, s, os, now))
  {
    hide GoodLog, Replayed, Observe, ItemOf, Log;
    if |os| > 0 {
      var n := |os| - 1;
      SilentObservations(env, s, os[..n], now);
      SilentObservation(env, ObserveAll(env, s, os[..n], now), os[n], now);
    }
  }

  lemma SilentObservation(env: Env, s: Session, o: Observation, now: nat)
    ensures Quieter(env, s, ObserveOne(env, s, o, now))
  {
    hide GoodLog, Replayed, Observe, ItemOf, Log;
    var t := s.(graph := Observe(s.graph, o.competency, ItemOf(o, s.issued)), issued := s.issued + 1);
    SilentLog(env, t, EvidenceObserved, Some(o.turnId), Details(""), now);
  }

  lemma SilentFailure(env: Env, s: Session, run: JudgeRun, now: nat)
    ensures Quieter(env, s, RecordFailure(env, s, run, now))
  {
    hide GoodLog, Replayed, Log;
    var t := s.(runs := s.runs + [run.(failed := true)]);
    SilentLog(env, t, EvidenceJudgeFailed, Some(run.answer), Details(""), now);
    SilentLog(env, Log(env, t, EvidenceJudgeFailed, Some(run.answer), Details(""), now),
              EvidenceJudgeRunRecorded, Some(run.answer), Details(""), now);
  }

  lemma SilentFindings(env: Env, s: Session, run: JudgeRun, findings: seq<Finding>, now: nat)
    ensures Quieter(env, s, ApplyFindings(env, s, run, findings, now))
  {
    hide GoodLog, Replayed, Log, ObserveAll, Observations, KnownPrefix, RecordFailure;
    var n := KnownPrefix(env.job, findings);
    var os := Observations(env, findings[..n], run.answer, run.id);
    SilentObservations(env, s, os, now);
    var t, done := ObserveAll(env, s, os, now), run.(observations := Ids(s.issued, n));
    SilentFailure(env, t, done, now);
    SilentLog(env, t.(runs := t.runs + [done]), EvidenceJudgeRunRecorded, Some(done.answer), Details(""), now);
  }

  lemma SilentJudging(env: Env, s: Session, call: JudgeCall, now: nat)
    ensures Quieter(env, s, Judging(env, s, call, now))
  {
    hide GoodLog, Replayed, Log, SupersedeTurn, Gated, ApplyFindings, RecordFailure, RunOf;
    var run, t := RunOf(s, call, now), s.(issued := s.issued + 1);
    SilentFailure(env, t, run, now);
    if Gated(env, s, call) {
      GatedReplied(env, s, call);
      SilentSupersede(env, t, call.answer, now);
      var u := if call.supersede then SupersedeTurn(env, t, call.answer, now) else t;
      SilentFailure(env, u, run, now);
      SilentLog(env, u, EvidenceJudgeDisagreement, Some(run.answer), Details(""), now);
      SilentFindings(env, Dispute(env, u, run, call.reply.audit, now), run, call.reply.findings, now);
    }
  }

  // ---- one step ----

  lemma TurnIdsSnoc(turns: seq<Turn>, turn: Turn, speaker: Speaker)
    ensures TurnIds(turns + [turn], speaker) == TurnIds(turns, speaker) + if turn.speaker == speaker then [turn.id] else []
  {
    assert (turns + [turn])[..|turns|] == turns;
  }

  lemma {:induction false} TurnIdsSetText(turns: seq<Turn>, id: Id, text: string, speaker: Speaker)
    ensures TurnIds(SetText(turns, id, text), speaker) == TurnIds(turns, speaker)
  {
    SameIds(turns, SetText(turns, id, text), speaker);
  }

  lemma {:induction false} SameIds(a: seq<Turn>, b: seq<Turn>, speaker: Speaker)
    requires |a| == |b| && forall i :: 0 <= i < |a| ==> a[i].id == b[i].id && a[i].speaker == b[i].speaker
    ensures TurnIds(a, speaker) == TurnIds(b, speaker)
  {
    if |a| > 0 {
      SameIds(a[..|a| - 1], b[..|b| - 1], speaker);
    }
  }

  lemma {:induction false} NoneCancelledIds(tools: seq<Tool>)
    requires NoneCancelled(tools)
    ensures CancelledIds(tools) == []
  {
    if |tools| > 0 {
      NoneCancelledIds(tools[..|tools| - 1]);
    }
  }

  lemma BeginAgrees(env: Env, s: Session, now: nat)
    requires Inv(env, s) && (s.status == Created || s.status == Running)
    ensures Inv(env, Begin(env, s, now))
  {
    hide GoodLog, Replayed, Log;
    LogReplays(env, s, InterviewStarted, None, Empty, now);
  }

  lemma PutAgrees(env: Env, s: Session, d: Decision, covered: seq<string>, now: nat)
    requires Inv(env, s)
    ensures Inv(env, Put(env, s, d, covered, now)) && Put(env, s, d, covered, now).tools == s.tools
    ensures Put(env, s, d, covered, now).status == s.status
  {
    hide GoodLog, Replayed, Log, LaneOf, AddMissing, TurnIds, ToolIds, CancelledIds, AllNamed, NoneCancelled;
    var lane := LaneOf(d);
    var turn := Turn(s.issued, Interviewer, d.text, d.parent, d.tags, Some(lane), false, false);
    var t := s.(covered := covered, turns := s.turns + [turn], issued := s.issued + 1,
                asked := if lane == Closing then s.asked else s.asked + 1,
                anchors := if lane == Anchor then AddMissing(s.anchors, d.tags) else s.anchors);
    LogReplays(env, t, InterviewerTurn, Some(turn.id), ForQuestion(covered), now);
    TurnIdsSnoc(s.turns, turn, Interviewer);
    TurnIdsSnoc(s.turns, turn, Candidate);
  }

  lemma AddToolAgrees(env: Env, s: Session, tool: Tool, now: nat)
    requires Inv(env, s) && ToolOk(tool)
    ensures Inv(env, AddTool(env, s, tool, now)) && AddTool(env, s, tool, now).status == s.status
  {
    hide GoodLog, Replayed, Log, TurnIds;
    LogReplays(env, s.(tools := s.tools + [tool]), ToolOpened, None, ForTool(tool.id), now);
    assert (s.tools + [tool])[..|s.tools|] == s.tools;
    assert ToolIds(s.tools + [tool]) == ToolIds(s.tools) + [tool.id];
  }

  lemma AskAgrees(env: Env, s: Session, d: Decision, origin: Origin, covered: seq<string>, tool: Option<Tool>, now: nat)
    requires Inv(env, s) && ToolsOk(tool) && s.status != Cancelled
    ensures Inv(env, Ask(env, s, d, origin, covered, tool, now))
  {
    hide GoodLog, Replayed, Log, Put, AddTool;
    PutAgrees(env, s, d, covered, now);
    var put := Put(env, s, d, covered, now);
    var counted := if origin.Opening? then put else CountFollowup(put, d);
    assert Inv(env, counted);
    if tool.Some? {
      AddToolAgrees(env, counted, tool.value.(status := OPEN, openedFrom := Some(s.issued)), now);
    }
    CompleteAgrees(env, AddRequested(env, counted, tool, s.issued, now), now);
  }

  lemma CompleteAgrees(env: Env, s: Session, now: nat)
    requires Inv(env, s)
    ensures s.status != Cancelled ==> Inv(env, Complete(env, s, now))
    ensures NoneCancelled(s.tools) ==> Inv(env, Complete(env, s, now))
  {
    hide GoodLog, Replayed, Log, TurnIds, ToolIds, CancelledIds;
    LogReplays(env, s.(status := Completed), SessionCompleted, None, Empty, now);
  }

  lemma HearAgrees(env: Env, s: Session, text: string, parent: Option<Id>, tags: seq<string>, now: nat)
    requires Inv(env, s)
    ensures Inv(env, Hear(env, s, text, parent, tags, now))
  {
    hide GoodLog, Replayed, Log, TurnIds, ToolIds, CancelledIds, AllNamed, NoneCancelled;
    var turn := Turn(s.issued, Candidate, text, parent, tags, None, false, false);
    LogReplays(env, s.(turns := s.turns + [turn], issued := s.issued + 1), CandidateTurn, Some(turn.id), Details(""), now);
    TurnIdsSnoc(s.turns, turn, Interviewer);
    TurnIdsSnoc(s.turns, turn, Candidate);
  }

  /** Recording evidence says nothing to a replay. */
  lemma EvidenceAgrees(env: Env, s: Session, t: Session)
    requires Inv(env, s) && SameInterview(s, t) && Quieter(env, s, t)
    ensures Inv(env, t)
  {
    hide GoodLog, Replayed, TurnIds, ToolIds, CancelledIds, AllNamed, NoneCancelled;
  }

  lemma ControlAgrees(env: Env, s: Session, kind: ControlKind, reply: Option<ControlReply>, now: nat)
    requires Inv(env, s) && !Ended(s)
    ensures Inv(env, Controlling(env, s, kind, reply, now))
  {
    hide GoodLog, Replayed, Log, TurnIds, ToolIds, CancelledIds, AllNamed, NoneCancelled;
    LogReplays(env, s.(paused := PauseAfter(s.paused, kind)), CandidateControl, None, ForControl(kind), now);
    if reply.Some? {
      var t := Log(env, s.(paused := PauseAfter(s.paused, kind)), CandidateControl, None, ForControl(kind), now);
      var r := reply.value;
      var turn := Turn(t.issued, Interviewer, r.text, None, r.tags, r.lane, true, r.nonEvaluative);
      LogReplays(env, t.(turns := t.turns + [turn], issued := t.issued + 1), InterviewerTurn, Some(turn.id), Details(""), now);
      TurnIdsSnoc(s.turns, turn, Interviewer);
      TurnIdsSnoc(s.turns, turn, Candidate);
    }
  }

  lemma CorrectAgrees(env: Env, s: Session, turn: Id, text: string, now: nat)
    requires Inv(env, s)
    ensures Inv(env, Correcting(env, s, turn, text, now))
  {
    hide GoodLog, Replayed, Log, TurnIds, ToolIds, CancelledIds, AllNamed, NoneCancelled, SetText, SupersedeTurn;
    var t := s.(revisions := s.revisions + [turn], turns := SetText(s.turns, turn, text), issued := s.issued + 1);
    TurnIdsSetText(s.turns, turn, text, Interviewer);
    TurnIdsSetText(s.turns, turn, text, Candidate);
    LogReplays(env, t, TranscriptCorrected, Some(turn), Details(""), now);
    var u := Log(env, t, TranscriptCorrected, Some(turn), Details(""), now);
    SupersedeTurnFrame(env, u, turn, now);
    SilentSupersede(env, u, turn, now);
  }

  lemma AppealAgrees(env: Env, s: Session, now: nat)
    requires Inv(env, s)
    ensures Inv(env, Appealing(env, s, now))
  {
    hide GoodLog, Replayed, Log, TurnIds, ToolIds, CancelledIds, AllNamed, NoneCancelled;
    LogReplays(env, s.(appeals := s.appeals + [s.issued], issued := s.issued + 1), AppealSubmitted, None, ForAppeal(s.issued), now);
  }

  /** Moving a tool between states other than cancelled is invisible in the lists of tools. */
  lemma StatusChange(tools: seq<Tool>, id: string, status: ToolStatus)
    requires status != CANCELLED && IndexOfTool(tools, id) < |tools|
    requires tools[IndexOfTool(tools, id)].status != CANCELLED
    ensures ToolIds(SetToolStatus(tools, id, status)) == ToolIds(tools)
    ensures CancelledIds(SetToolStatus(tools, id, status)) == CancelledIds(tools)
    ensures AllNamed(tools) ==> AllNamed(SetToolStatus(tools, id, status))
    ensures NoneCancelled(tools) ==> NoneCancelled(SetToolStatus(tools, id, status))
  {
    SameCancelled(tools, SetToolStatus(tools, id, status));
  }

  lemma {:induction false} SameCancelled(a: seq<Tool>, b: seq<Tool>)
    requires |a| == |b|
    requires forall i :: 0 <= i < |a| ==> a[i].id == b[i].id && (a[i].status == CANCELLED <==> b[i].status == CANCELLED)
    ensures CancelledIds(a) == CancelledIds(b)
  {
    if |a| > 0 {
      SameCancelled(a[..|a| - 1], b[..|b| - 1]);
    }
  }

  lemma SubmitAgrees(env: Env, s: Session, tool: string, now: nat)
    requires Inv(env, s) && OpenFor(s, tool)
    ensures Inv(env, Submitting(env, s, tool, now))
  {
    hide GoodLog, Replayed, Log, TurnIds, ToolIds, CancelledIds, NoneCancelled, SetToolStatus;
    StatusChange(s.tools, tool, SUBMITTED);
    var t := s.(submissions := s.submissions + [tool], tools := SetToolStatus(s.tools, tool, SUBMITTED), issued := s.issued + 1);
    LogReplays(env, t, ToolSubmitted, None, ForTool(tool), now);
  }

  lemma EvaluateAgrees(env: Env, s: Session, tool: string, now: nat)
    requires Inv(env, s) && IndexOfTool(s.tools, tool) < |s.tools|
    requires s.tools[IndexOfTool(s.tools, tool)].status == SUBMITTED
    ensures Inv(env, Evaluating(env, s, tool, now)) && Evaluating(env, s, tool, now).status == s.status
  {
    hide GoodLog, Replayed, Log, TurnIds, ToolIds, CancelledIds, NoneCancelled, SetToolStatus;
    StatusChange(s.tools, tool, EVALUATED);
    var t := s.(evaluations := s.evaluations + [tool], tools := SetToolStatus(s.tools, tool, EVALUATED));
    LogReplays(env, t, ToolEvaluated, None, ForTool(tool), now);
  }

  lemma AssessAgrees(env: Env, s: Session, step: Step, now: nat)
    requires Inv(env, s) && step.AssessStep? && Fine(NAMED_TOOLS, env, s, step)
    ensures Inv(env, Apply(env, s, step, now))
  {
    hide Inv, Evaluating, ObserveAll, VerdictObservations, Ask;
    EvaluateAgrees(env, s, step.submitted.id, now);
    var evaluated := Evaluating(env, s, step.submitted.id, now);
    var os := VerdictObservations(step.submitted, step.artifact, step.passed);
    ObserveAllFrame(env, evaluated, os, now);
    SilentObservations(env, evaluated, os, now);
    EvidenceAgrees(env, evaluated, ObserveAll(env, evaluated, os, now));
    AskAgrees(env, ObserveAll(env, evaluated, os, now), step.decision, AfterTool, step.covered, step.tool, now);
  }

  lemma CancelledSnoc(tools: seq<Tool>)
    requires |tools| > 0 && AllNamed(tools) && NoneCancelled(tools)
    ensures var n := |tools| - 1;
            CancelledIds(CancelTools(tools)) == CancelledIds(CancelTools(tools[..n]))
              + (if Cancellable(tools[n].status) then [tools[n].id] else [])
  {
    assert CancelTools(tools)[..|tools| - 1] == CancelTools(tools[..|tools| - 1]);
  }

  lemma {:induction false} CancelEvents(env: Env, s: Session, tools: seq<Tool>, now: nat)
    requires GoodLog(env.hash, s.events) && NoneCancelled(tools) && AllNamed(tools)
    ensures var t := LogCancels(env, s, tools, now);
            && GoodLog(env.hash, t.events) && t == s.(events := t.events)
            && Replayed(t.events) == Replayed(s.events).(cancelled := Replayed(s.events).cancelled + CancelledIds(CancelTools(tools)))
  {
    hide GoodLog, Replayed, Log;
    if |tools| == 0 {
      assert Replayed(s.events).cancelled + [] == Replayed(s.events).cancelled;
    } else {
      var n := |tools| - 1;
      CancelEvents(env, s, tools[..n], now);
      CancelledSnoc(tools);
      hide CancelTools, CancelledIds;
      LogReplays(env, LogCancels(env, s, tools[..n], now), ToolCancelled, None, ForTool(tools[n].id), now);
    }
  }

  lemma CancelAgrees(env: Env, s: Session, now: nat)
    requires Inv(env, s) && !Ended(s)
    ensures Inv(env, Cancelling(env, s, now))
  {
    hide GoodLog, Replayed, Log, TurnIds, LogCancels;
    CancelEvents(env, s, s.tools, now);
    NoneCancelledIds(s.tools);
    var t := LogCancels(env, s, s.tools, now);
    assert ToolIds(CancelTools(s.tools)) == ToolIds(s.tools);
    assert [] + CancelledIds(CancelTools(s.tools)) == CancelledIds(CancelTools(s.tools));
    LogReplays(env, t.(tools := CancelTools(s.tools), paused := false, status := Cancelled), SessionCancelled, None, Details(""), now);
  }

  lemma NoteAgrees(env: Env, s: Session, kind: EventType, now: nat)
    requires Inv(env, s) && Bystander(kind)
    ensures Inv(env, Log(env, s, kind, None, Details(""), now))
  {
    hide Inv, Log;
    SilentLog(env, s, kind, None, Details(""), now);
    LogOnly(env, s, kind, now);
    EvidenceAgrees(env, s, Log(env, s, kind, None, Details(""), now));
  }

  lemma LogOnly(env: Env, s: Session, kind: EventType, now: nat)
    ensures SameInterview(s, Log(env, s, kind, None, Details(""), now))
  {
  }

  lemma StepAgrees(env: Env, s: Session, step: Step, now: nat)
    requires Inv(env, s) && Fine(NAMED_TOOLS, env, s, step)
    ensures Inv(env, Apply(env, s, step, now))
  {
    hide Inv, AppendRefusal, TurnOf, Begin, Ask, Hear, ClaimAll, Judging, ObserveOne, Controlling, Correcting, Appealing,
         AddTool, Submitting, Assessing, Cancelling, Admissible;
    match step
    case BeginStep => BeginAgrees(env, s, now);
    case AskStep(d, origin, covered, tool) => AskAgrees(env, s, d, origin, covered, tool, now);
    case HearStep(text, parent, tags) => HearAgrees(env, s, text, parent, tags, now);
    case ClaimStep(answer, tags) =>
      ClaimAllFrame(env, s, answer, tags, now);
      SilentClaims(env, s, answer, tags, now);
      EvidenceAgrees(env, s, ClaimAll(env, s, answer, tags, now));
    case JudgeStep(call) =>
      JudgingFrame(env, s, call, now);
      SilentJudging(env, s, call, now);
      EvidenceAgrees(env, s, Judging(env, s, call, now));
    case ObserveStep(o) =>
      ObserveOneFrame(env, s, o, now);
      SilentObservation(env, s, o, now);
      EvidenceAgrees(env, s, ObserveOne(env, s, o, now));
    case ControlStep(kind, reply) => ControlAgrees(env, s, kind, reply, now);
    case CorrectStep(turn, text) => CorrectAgrees(env, s, turn, text, now);
    case AppealStep => AppealAgrees(env, s, now);
    case OpenToolStep(tool) => AddToolAgrees(env, s, tool, now);
    case SubmitStep(tool) => SubmitAgrees(env, s, tool, now);
    case AssessStep(_, _, _, _, _, _) => AssessAgrees(env, s, step, now);
    case CancelStep => CancelAgrees(env, s, now);
    case NoteStep(kind) => NoteAgrees(env, s, kind, now);
  }

  lemma {:induction false} StepsAgree(env: Env, s: Session, steps: seq<Step>, now: nat)
    requires Inv(env, s) && AllFine(NAMED_TOOLS, env, s, steps, now)
    ensures Inv(env, ApplyAll(env, s, steps, now))
  {
    hide Inv, Fine, Apply;
    if |steps| > 0 {
      var n := |steps| - 1;
      StepsAgree(env, s, steps[..n], now);
      StepAgrees(env, ApplyAll(env, s, steps[..n], now), steps[n], now);
    }
  }

  lemma NewAgrees(env: Env)
    ensures Inv(env, NewSession(env, 0))
  {
    hide Log;
    var empty := Session(Created, false, [], [], map[], [], 0, Initial(CompetencyIds(env.job)), [], [], [], [], [], [], [], 0);
    LogReplays(env, empty, SessionCreated, None, Details(""), 0);
  }

  lemma {:induction false} ReachAgrees(env: Env, calls: seq<Call>)
    requires AllObey(NAMED_TOOLS, env, calls)
    ensures Inv(env, Reach(env, calls))
  {
    hide Inv, PlanFor, ApplyAll, NewSession, Obeys;
    if |calls| == 0 {
      NewAgrees(env);
    } else {
      var n := |calls| - 1;
      AllObeyPrefix(NAMED_TOOLS, env, calls, n);
      ReachAgrees(env, calls[..n]);
      var s := Reach(env, calls[..n]);
      PlanFine(NAMED_TOOLS, env, s, calls[n].op, calls[n].now);
      StepsAgree(env, s, PlanFor(env, s, calls[n].op, calls[n].now).steps, calls[n].now);
    }
  }

  /**
   Replaying the log of any reachable session succeeds and gives the live session's status, its interviewer and
   candidate turns, corrections, appeals, and opened, submitted, evaluated and cancelled tools, each in order; and
   its pause flag in every state that is not completed, where the replay always says not paused.
   */
  lemma ReplayIsLive(env: Env, calls: seq<Call>)
    requires AllObey(NAMED_TOOLS, env, calls)
    ensures var s := Reach(env, calls);
            var v := Replayed(s.events);
            && Verify(env.hash, s.events).Ok? && Numbered(s.events)
            && v.status == s.status
            && v.interviewers == TurnIds(s.turns, Interviewer) && v.candidates == TurnIds(s.turns, Candidate)
            && v.corrected == s.revisions && v.appeals == s.appeals
            && v.tools == ToolIds(s.tools) && v.submitted == s.submissions && v.evaluated == s.evaluations
            && v.cancelled == CancelledIds(s.tools)
            && v.paused == (s.paused && s.status != Completed)
  {
    hide PlanFor, ApplyAll, NewSession, Reach, TurnIds, ToolIds, CancelledIds, AllObey;
    ReachAgrees(env, calls);
    VerifyIffChained(env.hash, Reach(env, calls).events);
  }

  /** Exactly the tools with an id that do not arrive cancelled keep the replay in agreement. */
  lemma ManualToolAgreesIff(env: Env, s: Session, tool: Tool, now: nat)
    requires Inv(env, s) && !Ended(s)
    ensures var t := AddTool(env, s, tool, now);
            Replayed(t.events) == Live(t) <==> tool.id != "" && tool.status != CANCELLED
  {
    hide GoodLog, Replayed, Log, TurnIds;
    LogReplays(env, s.(tools := s.tools + [tool]), ToolOpened, None, ForTool(tool.id), now);
    assert (s.tools + [tool])[..|s.tools|] == s.tools;
    assert ToolIds(s.tools + [tool]) == ToolIds(s.tools) + [tool.id];
    NoneCancelledIds(s.tools);
    if tool.id == "" {
      assert |ToolIds(s.tools + [tool])| != |ToolIds(s.tools)|;
    } else if tool.status == CANCELLED {
      assert CancelledIds(s.tools + [tool]) == [tool.id];
    }
  }
}
