/** The log accounts for the evidence: its events number the items, the withdrawals, and the judge runs of the session. */
module Accounting {
  import opened Common
  import opened Events
  import opened AuditChain
  import opened Evidence
  import opened JudgeGate
  import opened Interview
  import opened Service
  import opened Plans
  import Counterfactual
  import Reevaluation

  function Logged(log: seq<Event>, kind: EventType): nat {
    if |log| == 0 then 0 else Logged(log[..|log| - 1], kind) + if log[|log| - 1].kind == kind then 1 else 0
  }

  function InactiveIn(items: seq<Item>): nat {
    if |items| == 0 then 0 else InactiveIn(items[..|items| - 1]) + if items[|items| - 1].active then 0 else 1
  }

  function InactiveCount(g: Graph): nat {
    if |g| == 0 then 0 else InactiveCount(g[..|g| - 1]) + InactiveIn(g[|g| - 1].items)
  }

  function FailedCount(runs: seq<JudgeRun>): nat {
    if |runs| == 0 then 0 else FailedCount(runs[..|runs| - 1]) + if runs[|runs| - 1].failed then 1 else 0
  }

  /** How far the log is ahead of the items observed, the items withdrawn, the runs recorded, and those that failed. */
  datatype Balance = Balance(observed: int, withdrawn: int, recorded: int, failed: int)

  function BalanceOf(s: Session): Balance {
    Balance(Logged(s.events, EvidenceObserved) - Reevaluation.ItemCount(s.graph),
            Logged(s.events, EvidenceSuperseded) - InactiveCount(s.graph),
            Logged(s.events, EvidenceJudgeRunRecorded) - |s.runs|,
            Logged(s.events, EvidenceJudgeFailed) - FailedCount(s.runs))
  }

  /** One event more. */
  function Ahead(b: Balance, kind: EventType): Balance {
    match kind
    case EvidenceObserved => b.(observed := b.observed + 1)
    case EvidenceSuperseded => b.(withdrawn := b.withdrawn + 1)
    case EvidenceJudgeRunRecorded => b.(recorded := b.recorded + 1)
    case EvidenceJudgeFailed => b.(failed := b.failed + 1)
    case _ => b
  }

  lemma LogAhead(env: Env, s: Session, kind: EventType, turnId: Option<Id>, payload: Payload, now: nat)
    ensures BalanceOf(Log(env, s, kind, turnId, payload, now)) == Ahead(BalanceOf(s), kind)
  {
    hide Reevaluation.ItemCount, InactiveCount, FailedCount;
    var t := Log(env, s, kind, turnId, payload, now);
    assert t.events[..|s.events|] == s.events;
  }

  // ---- the graph ----

  lemma {:induction false} InactiveUpdate(g: Graph, k: nat, n: Node)
    requires k < |g|
    ensures InactiveCount(g[k := n]) == InactiveCount(g) - InactiveIn(g[k].items) + InactiveIn(n.items)
  {
    hide InactiveIn;
    var m := |g| - 1;
    if k < m {
      InactiveUpdate(g[..m], k, n);
      assert g[k := n][..m] == g[..m][k := n];
    } else {
      assert g[k := n][..m] == g[..m];
    }
  }

  lemma SetInactive(g: Graph, c: string, n: Node, item: Item)
    requires n.items == NodeFor(g, c).items + [item] && item.active
    ensures InactiveCount(SetNode(g, c, n)) == InactiveCount(g)
    ensures Reevaluation.ItemCount(SetNode(g, c, n)) == Reevaluation.ItemCount(g) + 1
  {
    assert (NodeFor(g, c).items + [item])[..|NodeFor(g, c).items|] == NodeFor(g, c).items;
    if IndexOf(g, c) < |g| {
      InactiveUpdate(g, IndexOf(g, c), n);
      Reevaluation.CountUpdate(g, IndexOf(g, c), n);
    } else {
      assert (g + [n])[..|g|] == g;
      assert InactiveIn([]) == 0;
    }
  }

  lemma {:induction false} RetiredAreInactive(items: seq<Item>, turn: Id)
    ensures InactiveIn(RetireAll(items, turn)) == InactiveIn(items) + |RetiredItems(items, turn)|
    ensures (forall i :: 0 <= i < |items| ==> !Superseded(items[i], turn)) ==> RetiredItems(items, turn) == []
  {
    if |items| > 0 {
      var n := |items| - 1;
      RetiredAreInactive(items[..n], turn);
      assert RetireAll(items, turn)[..n] == RetireAll(items[..n], turn);
    }
  }

  lemma {:induction false} SupersedeInactive(g: Graph, turn: Id)
    ensures InactiveCount(Supersede(g, turn)) == InactiveCount(g) + |Retired(g, turn)|
  {
    if |g| > 0 {
      var n := |g| - 1;
      SupersedeInactive(g[..n], turn);
      assert Supersede(g, turn)[..n] == Supersede(g[..n], turn);
      RetiredAreInactive(g[n].items, turn);
      NodeInactive(g[n], turn);
      hide InactiveIn, RetiredItems, SupersedeNode;
    }
  }

  lemma NodeInactive(n: Node, turn: Id)
    ensures InactiveIn(SupersedeNode(n, turn).items) == InactiveIn(n.items) + |RetiredItems(n.items, turn)|
  {
    RetiredAreInactive(n.items, turn);
    hide InactiveIn, RetiredItems, Strongest, BestConfidence;
  }

  // ---- evidence ----

  /** The graph has grown by one active item. */
  lemma GrownGraph(s: Session, g: Graph, n: Node, c: string, item: Item, issued: nat)
    requires n.items == NodeFor(s.graph, c).items + [item] && item.active && g == SetNode(s.graph, c, n)
    ensures var b := BalanceOf(s); BalanceOf(s.(graph := g, issued := issued)) == b.(observed := b.observed - 1)
  {
    SetInactive(s.graph, c, n, item);
    hide Reevaluation.ItemCount, InactiveCount, FailedCount, Logged, SetNode, NodeFor;
  }

  lemma {:induction false} ClaimsBalance(env: Env, s: Session, answer: Id, tags: seq<string>, now: nat)
    ensures BalanceOf(ClaimAll(env, s, answer, tags, now)) == BalanceOf(s)
  {
    hide BalanceOf, ClaimNode, NodeFor, SetNode, Log;
    if |tags| > 0 {
      var c := tags[|tags| - 1];
      ClaimsBalance(env, s, answer, tags[..|tags| - 1], now);
      var t := ClaimAll(env, s, answer, tags[..|tags| - 1], now);
      var item := ClaimItem(t.issued, answer);
      var n := ClaimNode(NodeFor(t.graph, c), item);
      ClaimNodeItems(NodeFor(t.graph, c), item);
      GrownGraph(t, Claim(t.graph, c, item), n, c, item, t.issued + 1);
      LogAhead(env, t.(graph := Claim(t.graph, c, item), issued := t.issued + 1), EvidenceObserved, Some(answer), Details(""), now);
    }
  }

  lemma ClaimNodeItems(n: Node, item: Item)
    ensures ClaimNode(n, item).items == n.items + [item] && ObserveNode(n, item).items == n.items + [item]
  {
  }

  lemma ObservationBalance(env: Env, s: Session, o: Observation, now: nat)
    ensures BalanceOf(ObserveOne(env, s, o, now)) == BalanceOf(s)
  {
    hide BalanceOf, ObserveNode, NodeFor, SetNode, Log;
    var item := ItemOf(o, s.issued);
    ClaimNodeItems(NodeFor(s.graph, o.competency), item);
    GrownGraph(s, Observe(s.graph, o.competency, item), ObserveNode(NodeFor(s.graph, o.competency), item), o.competency, item,
               s.issued + 1);
    LogAhead(env, s.(graph := Observe(s.graph, o.competency, item), issued := s.issued + 1), EvidenceObserved, Some(o.turnId),
             Details(""), now);
  }

  lemma {:induction false} ObservationsBalance(env: Env, s: Session, os: seq<Observation>, now: nat)
    ensures BalanceOf(ObserveAll(env, s, os, now)) == BalanceOf(s)
  {
    hide BalanceOf, ObserveOne;
    if |os| > 0 {
      var n := |os| - 1;
      ObservationsBalance(env, s, os[..n], now);
      ObservationBalance(env, ObserveAll(env, s, os[..n], now), os[n], now);
    }
  }

  lemma {:induction false} LogTimesAhead(env: Env, s: Session, n: nat, turn: Id, now: nat)
    ensures var b := BalanceOf(s);
            BalanceOf(LogTimes(env, s, n, EvidenceSuperseded, turn, now)) == b.(withdrawn := b.withdrawn + n)
  {
    hide BalanceOf, Log;
    if n > 0 {
      LogTimesAhead(env, s, n - 1, turn, now);
      LogAhead(env, LogTimes(env, s, n - 1, EvidenceSuperseded, turn, now), EvidenceSuperseded, Some(turn), Details(""), now);
    }
  }

  /** The graph has lost the turn's judged items. */
  lemma WithdrawnGraph(s: Session, turn: Id)
    ensures var b := BalanceOf(s);
            BalanceOf(s.(graph := Supersede(s.graph, turn))) == b.(withdrawn := b.withdrawn - |Retired(s.graph, turn)|)
  {
    SupersedeInactive(s.graph, turn);
    Reevaluation.SupersedeCounts(s.graph, turn);
    hide Supersede, Retired, Logged, FailedCount, InactiveCount, Reevaluation.ItemCount;
  }

  lemma SupersedeBalance(env: Env, s: Session, turn: Id, now: nat)
    ensures BalanceOf(SupersedeTurn(env, s, turn, now)) == BalanceOf(s)
  {
    WithdrawnGraph(s, turn);
    LogTimesAhead(env, s.(graph := Supersede(s.graph, turn)), |Retired(s.graph, turn)|, turn, now);
    hide Supersede, Retired, LogTimes, BalanceOf;
  }

  // ---- judging ----

  lemma RunBalance(s: Session, run: JudgeRun)
    ensures var b := BalanceOf(s);
            BalanceOf(s.(runs := s.runs + [run]))
            == b.(recorded := b.recorded - 1, failed := b.failed - (if run.failed then 1 else 0))
  {
    hide Logged, InactiveCount, Reevaluation.ItemCount;
    assert (s.runs + [run])[..|s.runs|] == s.runs;
  }

  lemma RecordBalance(env: Env, s: Session, run: JudgeRun, now: nat)
    requires !run.failed
    ensures BalanceOf(Record(env, s, run, now)) == BalanceOf(s)
    ensures BalanceOf(RecordFailure(env, s, run, now)) == BalanceOf(s)
  {
    hide BalanceOf, Log;
    RunBalance(s, run);
    LogAhead(env, s.(runs := s.runs + [run]), EvidenceJudgeRunRecorded, Some(run.answer), Details(""), now);
    var failed := run.(failed := true);
    RunBalance(s, failed);
    var t := s.(runs := s.runs + [failed]);
    LogAhead(env, t, EvidenceJudgeFailed, Some(run.answer), Details(""), now);
    LogAhead(env, Log(env, t, EvidenceJudgeFailed, Some(run.answer), Details(""), now), EvidenceJudgeRunRecorded, Some(run.answer),
             Details(""), now);
  }

  lemma FindingsBalance(env: Env, s: Session, run: JudgeRun, findings: seq<Finding>, now: nat)
    requires !run.failed
    ensures BalanceOf(ApplyFindings(env, s, run, findings, now)) == BalanceOf(s)
  {
    hide BalanceOf, ObserveAll, Observations, KnownPrefix, Record, RecordFailure;
    var n := KnownPrefix(env.job, findings);
    var os := Observations(env, findings[..n], run.answer, run.id);
    ObservationsBalance(env, s, os, now);
    RecordBalance(env, ObserveAll(env, s, os, now), run.(observations := Ids(s.issued, n)), now);
  }

  lemma DisputeBalance(env: Env, s: Session, run: JudgeRun, audit: Audit, now: nat)
    ensures BalanceOf(Dispute(env, s, run, audit, now)) == BalanceOf(s)
  {
    hide BalanceOf, Log;
    LogAhead(env, s, EvidenceJudgeDisagreement, Some(run.answer), Details(""), now);
  }

  lemma IssuedBalance(s: Session, issued: nat)
    ensures BalanceOf(s.(issued := issued)) == BalanceOf(s)
  {
  }

  lemma JudgingBalance(env: Env, s: Session, call: JudgeCall, now: nat)
    ensures BalanceOf(Judging(env, s, call, now)) == BalanceOf(s)
  {
    hide BalanceOf, SupersedeTurn, Dispute, Gated, ApplyFindings, RecordFailure, CountOf;
    var run, t := RunOf(s, call, now), s.(issued := s.issued + 1);
    IssuedBalance(s, s.issued + 1);
    RecordBalance(env, t, run, now);
    if Gated(env, s, call) {
      GatedReplied(env, s, call);
      SupersedeBalance(env, t, call.answer, now);
      var u := if call.supersede then SupersedeTurn(env, t, call.answer, now) else t;
      RecordBalance(env, u, run, now);
      DisputeBalance(env, u, run, call.reply.audit, now);
      FindingsBalance(env, Dispute(env, u, run, call.reply.audit, now), run, call.reply.findings, now);
    }
  }

  // ---- the other steps ----

  /** The evidence and the runs are the same. */
  predicate SameRecords(s: Session, t: Session) {
    t.graph == s.graph && t.runs == s.runs && t.events == s.events
  }

  lemma SameBalance(s: Session, t: Session)
    requires SameRecords(s, t)
    ensures BalanceOf(t) == BalanceOf(s)
  {
  }

  predicate Neutral(kind: EventType) {
    kind != EvidenceObserved && kind != EvidenceSuperseded && kind != EvidenceJudgeRunRecorded && kind != EvidenceJudgeFailed
  }

  /** A change of something else, logged under a kind that the balance does not count. */
  lemma NeutralBalance(env: Env, s: Session, v: Session, kind: EventType, turnId: Option<Id>, payload: Payload, now: nat)
    requires SameRecords(s, v) && Neutral(kind)
    ensures BalanceOf(Log(env, v, kind, turnId, payload, now)) == BalanceOf(s)
  {
    SameBalance(s, v);
    LogAhead(env, v, kind, turnId, payload, now);
    hide BalanceOf, Log;
  }

  lemma AskBalance(env: Env, s: Session, d: Decision, origin: Origin, covered: seq<string>, tool: Option<Tool>, now: nat)
    ensures BalanceOf(Ask(env, s, d, origin, covered, tool, now)) == BalanceOf(s)
  {
    hide BalanceOf, Log, LaneOf, AddMissing, Bump;
    NeutralBalance(env, s, Posed(s, d, covered), InterviewerTurn, Some(s.issued), ForQuestion(covered), now);
    var put := Put(env, s, d, covered, now);
    var counted := if origin.Opening? then put else CountFollowup(put, d);
    SameBalance(put, counted);
    if tool.Some? {
      var t := tool.value.(status := OPEN, openedFrom := Some(s.issued));
      NeutralBalance(env, counted, counted.(tools := counted.tools + [t]), ToolOpened, None, ForTool(t.id), now);
    }
    var withTool := AddRequested(env, counted, tool, s.issued, now);
    NeutralBalance(env, withTool, withTool.(status := Completed), SessionCompleted, None, Empty, now);
  }

  lemma ControlBalance(env: Env, s: Session, kind: ControlKind, reply: Option<ControlReply>, now: nat)
    ensures BalanceOf(Controlling(env, s, kind, reply, now)) == BalanceOf(s)
  {
    hide BalanceOf, Log;
    var v := s.(paused := PauseAfter(s.paused, kind));
    NeutralBalance(env, s, v, CandidateControl, None, ForControl(kind), now);
    if reply.Some? {
      var t, r := Log(env, v, CandidateControl, None, ForControl(kind), now), reply.value;
      var turn := Turn(t.issued, Interviewer, r.text, None, r.tags, r.lane, true, r.nonEvaluative);
      NeutralBalance(env, t, t.(turns := t.turns + [turn], issued := t.issued + 1), InterviewerTurn, Some(turn.id), Details(""), now);
    }
  }

  lemma CorrectBalance(env: Env, s: Session, turn: Id, text: string, now: nat)
    ensures BalanceOf(Correcting(env, s, turn, text, now)) == BalanceOf(s)
  {
    hide BalanceOf, Log, SetText, SupersedeTurn;
    var v := s.(revisions := s.revisions + [turn], turns := SetText(s.turns, turn, text), issued := s.issued + 1);
    NeutralBalance(env, s, v, TranscriptCorrected, Some(turn), Details(""), now);
    SupersedeBalance(env, Log(env, v, TranscriptCorrected, Some(turn), Details(""), now), turn, now);
  }

  lemma AssessBalance(env: Env, s: Session, step: Step, now: nat)
    requires step.AssessStep?
    ensures BalanceOf(Apply(env, s, step, now)) == BalanceOf(s)
  {
    hide BalanceOf, Log, SetToolStatus, ObserveAll, VerdictObservations, Ask;
    var tool := step.submitted;
    NeutralBalance(env, s, s.(evaluations := s.evaluations + [tool.id], tools := SetToolStatus(s.tools, tool.id, EVALUATED)),
                   ToolEvaluated, None, ForTool(tool.id), now);
    var evaluated, os := Evaluating(env, s, tool.id, now), VerdictObservations(tool, step.artifact, step.passed);
    ObservationsBalance(env, evaluated, os, now);
    AskBalance(env, ObserveAll(env, evaluated, os, now), step.decision, AfterTool, step.covered, step.tool, now);
  }

  lemma {:induction false} CancelsBalance(env: Env, s: Session, tools: seq<Tool>, now: nat)
    ensures BalanceOf(LogCancels(env, s, tools, now)) == BalanceOf(s)
  {
    hide BalanceOf, Log;
    if |tools| > 0 {
      var n := |tools| - 1;
      CancelsBalance(env, s, tools[..n], now);
      var t := LogCancels(env, s, tools[..n], now);
      NeutralBalance(env, t, t, ToolCancelled, None, ForTool(tools[n].id), now);
    }
  }

  lemma CancelBalance(env: Env, s: Session, now: nat)
    ensures BalanceOf(Cancelling(env, s, now)) == BalanceOf(s)
  {
    hide BalanceOf, Log, LogCancels, CancelTools;
    CancelsBalance(env, s, s.tools, now);
    var t := LogCancels(env, s, s.tools, now);
    NeutralBalance(env, t, t.(tools := CancelTools(s.tools), paused := false, status := Cancelled), SessionCancelled, None,
                   Details(""), now);
  }

  /** Beginning, hearing, appealing, opening and submitting a tool, noting. */
  lemma PlainBalance(env: Env, s: Session, step: Step, now: nat)
    requires step.BeginStep? || step.HearStep? || step.AppealStep? || step.OpenToolStep? || step.SubmitStep? || step.NoteStep?
    requires step.NoteStep? ==> Neutral(step.kind)
    ensures BalanceOf(Apply(env, s, step, now)) == BalanceOf(s)
  {
    hide BalanceOf, Log, SetToolStatus;
    match step
    case BeginStep =>
      NeutralBalance(env, s, s, InterviewStarted, None, Empty, now);
      SameBalance(Log(env, s, InterviewStarted, None, Empty, now), Begin(env, s, now));
    case HearStep(text, parent, tags) =>
      var turn := Turn(s.issued, Candidate, text, parent, tags, None, false, false);
      NeutralBalance(env, s, s.(turns := s.turns + [turn], issued := s.issued + 1), CandidateTurn, Some(turn.id), Details(""), now);
    case AppealStep =>
      NeutralBalance(env, s, s.(appeals := s.appeals + [s.issued], issued := s.issued + 1), AppealSubmitted, None,
                     ForAppeal(s.issued), now);
    case OpenToolStep(tool) =>
      NeutralBalance(env, s, s.(tools := s.tools + [tool]), ToolOpened, None, ForTool(tool.id), now);
    case SubmitStep(tool) =>
      NeutralBalance(env, s, s.(submissions := s.submissions + [tool], tools := SetToolStatus(s.tools, tool, SUBMITTED),
                                issued := s.issued + 1), ToolSubmitted, None, ForTool(tool), now);
    case NoteStep(kind) => NeutralBalance(env, s, s, kind, None, Details(""), now);
  }

  lemma StepBalance(env: Env, s: Session, step: Step, now: nat)
    requires step.NoteStep? ==> Neutral(step.kind)
    ensures BalanceOf(Apply(env, s, step, now)) == BalanceOf(s)
  {
    hide BalanceOf, Apply, Ask, ClaimAll, Judging, ObserveOne, Controlling, Correcting, Cancelling;
    Counterfactual.ApplyIs(env, s, step, now);
    if step.AskStep? {
      AskBalance(env, s, step.decision, step.origin, step.covered, step.tool, now);
    } else if step.ClaimStep? {
      ClaimsBalance(env, s, step.answer, step.tags, now);
    } else if step.JudgeStep? {
      JudgingBalance(env, s, step.call, now);
    } else if step.ObserveStep? {
      ObservationBalance(env, s, step.observation, now);
    } else if step.ControlStep? {
      ControlBalance(env, s, step.control, step.reply, now);
    } else if step.CorrectStep? {
      CorrectBalance(env, s, step.turn, step.text, now);
    } else if step.AssessStep? {
      AssessBalance(env, s, step, now);
    } else if step.CancelStep? {
      CancelIs(env, s, now);
      CancelBalance(env, s, now);
    } else {
      PlainBalance(env, s, step, now);
    }
  }

  lemma CancelIs(env: Env, s: Session, now: nat)
    ensures Apply(env, s, CancelStep, now) == Cancelling(env, s, now)
  {
    hide Cancelling;
  }

  predicate NeutralNotes(steps: seq<Step>) {
    forall i :: 0 <= i < |steps| && steps[i].NoteStep? ==> Neutral(steps[i].kind)
  }

  lemma {:induction false} StepsBalance(env: Env, s: Session, steps: seq<Step>, now: nat)
    requires NeutralNotes(steps)
    ensures BalanceOf(ApplyAll(env, s, steps, now)) == BalanceOf(s)
  {
    hide BalanceOf, Apply;
    if |steps| > 0 {
      var n := |steps| - 1;
      StepsBalance(env, s, steps[..n], now);
      StepBalance(env, ApplyAll(env, s, steps[..n], now), steps[n], now);
    }
  }

  lemma StartNotes(env: Env, s: Session, opening: Option<BrainReply>, built: Option<Tool>)
    ensures NeutralNotes(StartPlan(env, s, opening, built).steps)
  {
    hide Requested, NextAnchor;
  }

  lemma ReplyNotes(env: Env, s: Session, op: Op)
    requires op.Answer?
    ensures NeutralNotes(ReplyPlan(env, s, op.text, op.judge, op.brain, op.built).steps)
  {
    hide Requested, Choose, LastQuestion;
  }

  lemma PlanNotes(env: Env, s: Session, op: Op, now: nat)
    ensures NeutralNotes(PlanFor(env, s, op, now).steps)
  {
    hide StartPlan, ReplyPlan, Requested, AppendRefusal, TurnOf, Admissible, LatestRun, LastBy, Strip, ClarifyText, AllKnown, ApplyAll;
    match op
    case Start(opening, built) => StartNotes(env, s, opening, built);
    case Answer(_, opening, built, _, _, _) =>
      StartNotes(env, s, opening, built);
      ReplyNotes(env, s, op);
      ReplyNotes(env, ApplyAll(env, s, StartPlan(env, s, opening, built).steps, now), op);
    case _ =>
  }

  lemma {:induction false} ReachBalances(env: Env, calls: seq<Call>)
    ensures BalanceOf(Reach(env, calls)) == Balance(0, 0, 0, 0)
  {
    hide BalanceOf, PlanFor, ApplyAll, NewSession;
    if |calls| == 0 {
      NewBalances(env);
    } else {
      var n := |calls| - 1;
      ReachBalances(env, calls[..n]);
      var s := Reach(env, calls[..n]);
      PlanNotes(env, s, calls[n].op, calls[n].now);
      StepsBalance(env, s, PlanFor(env, s, calls[n].op, calls[n].now).steps, calls[n].now);
    }
  }

  lemma {:induction false} NothingCounted(competencies: seq<string>)
    ensures Reevaluation.ItemCount(Initial(competencies)) == 0 && InactiveCount(Initial(competencies)) == 0
  {
    if |competencies| > 0 {
      var n := |competencies| - 1;
      NothingCounted(competencies[..n]);
      assert Initial(competencies)[..n] == Initial(competencies[..n]);
    }
  }

  lemma OneLogged(e: Event, kind: EventType)
    ensures Logged([e], kind) == if e.kind == kind then 1 else 0
  {
    assert [e][..0] == [] && Logged([], kind) == 0;
  }

  lemma NewSessionIs(env: Env)
    ensures var s := NewSession(env, 0);
            s.events == [NewEvent(env.hash, [], SessionCreated, None, Details(""), 0)]
            && s.graph == Initial(CompetencyIds(env.job)) && s.runs == []
  {
    hide NewEvent, Initial, CompetencyIds;
  }

  lemma NewBalances(env: Env)
    ensures BalanceOf(NewSession(env, 0)) == Balance(0, 0, 0, 0)
  {
    hide NewSession, Initial, CompetencyIds, Logged, InactiveCount, Reevaluation.ItemCount, NewEvent;
    NewSessionIs(env);
    NothingCounted(CompetencyIds(env.job));
    var e := NewEvent(env.hash, [], SessionCreated, None, Details(""), 0);
    NewEventKind(env.hash, 0);
    OneLogged(e, EvidenceObserved);
    OneLogged(e, EvidenceSuperseded);
    OneLogged(e, EvidenceJudgeRunRecorded);
    OneLogged(e, EvidenceJudgeFailed);
  }

  lemma NewEventKind(h: HashFn, now: nat)
    ensures NewEvent(h, [], SessionCreated, None, Details(""), now).kind == SessionCreated
  {
  }

  /**
   In every reachable session the log has one observation for each evidence item, one supersession for each item that is
   no longer active, one record for each judge run, and one failure for each run that failed.
   */
  lemma LogAccountsForEvidence(env: Env, calls: seq<Call>)
    ensures var s := Reach(env, calls);
            && Logged(s.events, EvidenceObserved) == Reevaluation.ItemCount(s.graph)
            && Logged(s.events, EvidenceSuperseded) == InactiveCount(s.graph)
            && Logged(s.events, EvidenceJudgeRunRecorded) == |s.runs|
            && Logged(s.events, EvidenceJudgeFailed) == FailedCount(s.runs)
  {
    ReachBalances(env, calls);
    hide Reach, Logged, Reevaluation.ItemCount, InactiveCount, FailedCount;
  }

  // ---- disputes ----

  function Disputes(s: Session): nat {
    Logged(s.events, EvidenceJudgeDisagreement)
  }

  lemma LogDisputes(env: Env, s: Session, kind: EventType, turnId: Option<Id>, payload: Payload, now: nat)
    ensures Disputes(Log(env, s, kind, turnId, payload, now)) == Disputes(s) + if kind == EvidenceJudgeDisagreement then 1 else 0
  {
    assert Log(env, s, kind, turnId, payload, now).events[..|s.events|] == s.events;
  }

  lemma {:induction false} LogTimesDisputes(env: Env, s: Session, n: nat, turn: Id, now: nat)
    ensures Disputes(LogTimes(env, s, n, EvidenceSuperseded, turn, now)) == Disputes(s)
  {
    hide Disputes, Log;
    if n > 0 {
      LogTimesDisputes(env, s, n - 1, turn, now);
      LogDisputes(env, LogTimes(env, s, n - 1, EvidenceSuperseded, turn, now), EvidenceSuperseded, Some(turn), Details(""), now);
    }
  }

  lemma {:induction false} ObservationsDisputes(env: Env, s: Session, os: seq<Observation>, now: nat)
    ensures Disputes(ObserveAll(env, s, os, now)) == Disputes(s)
  {
    hide Log, Observe, ItemOf, Logged;
    if |os| > 0 {
      var n := |os| - 1;
      ObservationsDisputes(env, s, os[..n], now);
      var t := ObserveAll(env, s, os[..n], now);
      LogDisputes(env, t.(graph := Observe(t.graph, os[n].competency, ItemOf(os[n], t.issued)), issued := t.issued + 1),
                  EvidenceObserved, Some(os[n].turnId), Details(""), now);
    }
  }

  lemma FailureDisputes(env: Env, s: Session, run: JudgeRun, now: nat)
    ensures Disputes(RecordFailure(env, s, run, now)) == Disputes(s) && Disputes(Record(env, s, run, now)) == Disputes(s)
  {
    hide Log, Logged;
    var t := s.(runs := s.runs + [run.(failed := true)]);
    LogDisputes(env, t, EvidenceJudgeFailed, Some(run.answer), Details(""), now);
    LogDisputes(env, Log(env, t, EvidenceJudgeFailed, Some(run.answer), Details(""), now), EvidenceJudgeRunRecorded,
                Some(run.answer), Details(""), now);
    LogDisputes(env, s.(runs := s.runs + [run]), EvidenceJudgeRunRecorded, Some(run.answer), Details(""), now);
  }

  lemma FindingsDisputes(env: Env, s: Session, run: JudgeRun, findings: seq<Finding>, now: nat)
    ensures Disputes(ApplyFindings(env, s, run, findings, now)) == Disputes(s)
  {
    hide Disputes, ObserveAll, Observations, KnownPrefix, Record, RecordFailure;
    var n := KnownPrefix(env.job, findings);
    var os := Observations(env, findings[..n], run.answer, run.id);
    ObservationsDisputes(env, s, os, now);
    FailureDisputes(env, ObserveAll(env, s, os, now), run.(observations := Ids(s.issued, n)), now);
  }

  lemma ReplyDisputes(env: Env, s: Session, call: JudgeCall, run: JudgeRun, now: nat)
    requires call.reply.JudgeReplied?
    ensures Disputes(ApplyReply(env, s, call, run, now))
         == Disputes(s) + if call.reply.audit == EnsembleAudit(false, true) then 1 else 0
  {
    hide Disputes, Supersede, Retired, LogTimes, ApplyFindings, RecordFailure, Log;
    LogTimesDisputes(env, s.(graph := Supersede(s.graph, call.answer)), |Retired(s.graph, call.answer)|, call.answer, now);
    GraphDisputes(s, Supersede(s.graph, call.answer));
    var t := if call.supersede then SupersedeTurn(env, s, call.answer, now) else s;
    FailureDisputes(env, t, run, now);
    LogDisputes(env, t, EvidenceJudgeDisagreement, Some(run.answer), Details(""), now);
    FindingsDisputes(env, Dispute(env, t, run, call.reply.audit, now), run, call.reply.findings, now);
  }

  lemma GraphDisputes(s: Session, g: Graph)
    ensures Disputes(s.(graph := g)) == Disputes(s) && Disputes(s.(issued := s.issued + 1)) == Disputes(s)
  {
  }

  /** The judge replied and every finding is grounded in the answer. */
  ghost predicate AllGrounded(env: Env, s: Session, call: JudgeCall) {
    && call.reply.JudgeReplied?
    && forall i :: 0 <= i < |call.reply.findings| ==>
         Grounded(call.reply.findings[i], TextOf(s.turns, call.answer), env.judgeId)
  }

  lemma GatedIff(env: Env, s: Session, call: JudgeCall)
    ensures Gated(env, s, call) <==> AllGrounded(env, s, call)
  {
    if call.reply.JudgeReplied? {
      PassesIffGrounded(call.reply.findings, TextOf(s.turns, call.answer), env.judgeId);
    }
    hide Grounded, Passes, TextOf;
  }

  /** A call logs a disagreement exactly if its findings are grounded and its audit is a readable one that reports a dispute. */
  lemma DisagreementIsLogged(env: Env, s: Session, call: JudgeCall, now: nat)
    ensures Disputes(Judging(env, s, call, now))
         == Disputes(s) + if AllGrounded(env, s, call) && call.reply.audit == EnsembleAudit(false, true) then 1 else 0
  {
    hide Disputes, ApplyReply, RecordFailure, AllGrounded, Gated, CountOf;
    var run, t := RunOf(s, call, now), s.(issued := s.issued + 1);
    GatedIff(env, s, call);
    GraphDisputes(s, s.graph);
    if Gated(env, s, call) {
      GatedReplied(env, s, call);
      ReplyDisputes(env, t, call, run, now);
    } else {
      FailureDisputes(env, t, run, now);
    }
  }
}
