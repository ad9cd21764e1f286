/** Operations beside the dialogue: when they are accepted, what they leave behind, and what an ended session keeps. */
module Amendments {
  import opened Common
  import opened Events
  import opened AuditChain
  import opened Evidence
  import opened JudgeGate
  import opened Interview
  import opened Service
  import opened Plans
  import opened Outcomes
  import Counterfactual
  import JudgedEvidence

  // ---- turns by identifier ----

  /** Turn k is the first one with the identifier. */
  ghost predicate TurnAt(turns: seq<Turn>, id: Id, k: int) {
    0 <= k < |turns| && turns[k].id == id && forall j :: 0 <= j < k ==> turns[j].id != id
  }

  lemma TurnAtIs(turns: seq<Turn>, id: Id)
    ensures forall k :: TurnAt(turns, id, k) <==> k == IndexOfTurn(turns, id) < |turns|
    ensures TurnOf(turns, id).Some? <==> exists k :: TurnAt(turns, id, k)
    ensures forall k :: TurnAt(turns, id, k) ==> TurnOf(turns, id) == Some(turns[k])
  {
    if IndexOfTurn(turns, id) < |turns| {
      assert TurnAt(turns, id, IndexOfTurn(turns, id));
    }
  }

  ghost predicate HasTurn(turns: seq<Turn>, id: Id) {
    exists k :: 0 <= k < |turns| && turns[k].id == id
  }

  lemma HasTurnIs(turns: seq<Turn>, id: Id)
    ensures TurnOf(turns, id).Some? <==> HasTurn(turns, id)
  {
    assert forall j :: 0 <= j < IndexOfTurn(turns, id) ==> turns[j].id != id;
  }

  // ---- corrections ----

  lemma CorrectionIsAcceptedIff(env: Env, s: Session, op: Op, now: nat)
    requires op.Correct?
    ensures PlanFor(env, s, op, now).error
         == if !HasTurn(s.turns, op.turn) then Some(NotFound)
            else if !(exists k :: TurnAt(s.turns, op.turn, k) && s.turns[k].speaker == Candidate) then Some(BadRequest) else None
    ensures PlanFor(env, s, op, now).error.Some? ==> Perform(env, s, op, now) == s
  {
    TurnAtIs(s.turns, op.turn);
    HasTurnIs(s.turns, op.turn);
    NoSteps(env, s, now);
    hide TurnOf, TurnAt, HasTurn, ApplyAll;
    if exists k :: TurnAt(s.turns, op.turn, k) {
      var k :| TurnAt(s.turns, op.turn, k);
      assert TurnOf(s.turns, op.turn) == Some(s.turns[k]);
    }
  }

  /** What of a turn's judged evidence is withdrawn: nothing of a judge's about the turn stays active, the rest stays. */
  ghost predicate Withdraws(before: Graph, after: Graph, turn: Id) {
    && |after| == |before|
    && forall i :: 0 <= i < |before| ==> NodeWithdraws(before[i], after[i], turn)
  }

  predicate Doomed(item: Item, turn: Id) {
    item.active && item.turnId == turn && "semantic_judge:" <= item.source
  }

  /** A node that loses no item stays; any other has its state and confidence from the items that stay active. */
  ghost predicate NodeWithdraws(before: Node, after: Node, turn: Id) {
    && after.competency == before.competency && |after.items| == |before.items|
    && (forall j :: 0 <= j < |before.items| ==>
          after.items[j] == if Doomed(before.items[j], turn) then before.items[j].(active := false) else before.items[j])
    && if exists j :: 0 <= j < |before.items| && Doomed(before.items[j], turn) then FromItems(after) else after == before
  }

  /** The state is the strongest of the active items; the confidence is the best in that state, or none for a mere claim. */
  ghost predicate FromItems(n: Node) {
    && (forall item <- n.items :: item.active ==> JudgedEvidence.AtLeast(n.state, item.state))
    && (n.state != Unknown ==> exists item :: item in n.items && item.active && item.state == n.state)
    && (n.confidence.None? <==> n.state == Unknown || n.state == Claimed)
    && (n.confidence.Some? ==>
          && (exists item :: item in n.items && item.active && item.state == n.state && item.confidence == n.confidence.value)
          && forall item <- n.items :: item.active && item.state == n.state ==> item.confidence <= n.confidence.value)
  }

  lemma RecomputedFromItems(n: Node)
    ensures FromItems(RecomputeNode(n))
  {
    var state := Strongest(n.items);
    StrongestIsMaximum(n.items);
    BestConfidenceIsBacked(n.items, state);
    forall item | item in n.items && item.active
      ensures JudgedEvidence.AtLeast(state, item.state)
    {
      var i :| 0 <= i < |n.items| && n.items[i] == item;
      assert Rank(n.items[i].state) <= Rank(state);
    }
    hide Strongest, BestConfidence, Rank, JudgedEvidence.AtLeast;
    if state != Unknown {
      var i :| 0 <= i < |n.items| && n.items[i].active && n.items[i].state == state;
      assert n.items[i] in n.items && Backing(n.items[i], state);
    }
    forall item | item in n.items && item.active && item.state == state
      ensures BestConfidence(n.items, state).Some? && item.confidence <= BestConfidence(n.items, state).value
    {
      var i :| 0 <= i < |n.items| && n.items[i] == item;
      assert Backing(n.items[i], state);
    }
  }

  lemma SupersedeWithdraws(g: Graph, turn: Id)
    ensures Withdraws(g, Supersede(g, turn), turn)
  {
    forall i | 0 <= i < |g|
      ensures NodeWithdraws(g[i], Supersede(g, turn)[i], turn)
    {
      SupersededNodeWithdraws(g[i], turn);
    }
    hide NodeWithdraws, SupersedeNode;
  }

  lemma SupersededNodeWithdraws(n: Node, turn: Id)
    ensures NodeWithdraws(n, SupersedeNode(n, turn), turn)
  {
    RecomputedFromItems(n.(items := RetireAll(n.items, turn)));
    hide FromItems, Strongest, BestConfidence;
  }

  /** An accepted correction replaces the text, counts as a revision and withdraws what judges said about the old text. */
  lemma CorrectionOutcome(env: Env, s: Session, op: Op, now: nat)
    requires op.Correct? && PlanFor(env, s, op, now).error.None?
    ensures exists k :: TurnAt(s.turns, op.turn, k) && Corrects(s, Perform(env, s, op, now), k, op.text)
  {
    TurnAtIs(s.turns, op.turn);
    var k := IndexOfTurn(s.turns, op.turn);
    hide Apply, Correcting, TurnAt, Corrects;
    var step := CorrectStep(op.turn, op.text);
    OneStepIs(env, s, step, now);
    Counterfactual.ApplyIs(env, s, step, now);
    CorrectingCorrects(env, s, op.turn, op.text, now);
  }

  ghost predicate Corrects(s: Session, t: Session, k: int, text: string)
    requires 0 <= k < |s.turns|
  {
    && t.turns == s.turns[k := s.turns[k].(text := text)] && t.revisions == s.revisions + [s.turns[k].id]
    && Withdraws(s.graph, t.graph, s.turns[k].id)
    && t.status == s.status && t.paused == s.paused && t.covered == s.covered && t.followups == s.followups
    && t.anchors == s.anchors && t.asked == s.asked && t.tools == s.tools && t.runs == s.runs && t.appeals == s.appeals
    && t.submissions == s.submissions && t.evaluations == s.evaluations
  }

  lemma CorrectingCorrects(env: Env, s: Session, turn: Id, text: string, now: nat)
    requires IndexOfTurn(s.turns, turn) < |s.turns|
    ensures Corrects(s, Correcting(env, s, turn, text, now), IndexOfTurn(s.turns, turn), text)
  {
    hide SupersedeTurn, Extend, Supersede, Withdraws;
    var t := s.(revisions := s.revisions + [turn], turns := SetText(s.turns, turn, text), issued := s.issued + 1);
    SupersedeTurnFrame(env, Log(env, t, TranscriptCorrected, Some(turn), Details(""), now), turn, now);
    SupersedeWithdraws(s.graph, turn);
  }

  // ---- tools by hand, appeals, observations ----

  lemma ToolIsAcceptedIff(env: Env, s: Session, op: Op, now: nat)
    requires op.OpenTool?
    ensures PlanFor(env, s, op, now).error.None? <==>
              Fits(env.job, s, op.tool) && (op.tool.openedFrom.Some? ==> HasTurn(s.turns, op.tool.openedFrom.value))
    ensures Over(s) || (exists other <- s.tools :: other.id == op.tool.id) ==> PlanFor(env, s, op, now).error == Some(Conflict)
    ensures PlanFor(env, s, op, now).error.Some? && !Over(s) && (forall other <- s.tools :: other.id != op.tool.id) ==>
              PlanFor(env, s, op, now).error == Some(BadRequest)
    ensures var t := Perform(env, s, op, now);
            if PlanFor(env, s, op, now).error.None? then t == s.(tools := s.tools + [op.tool], events := t.events) else t == s
  {
    FitsIs(env, s, op.tool);
    if op.tool.openedFrom.Some? {
      HasTurnIs(s.turns, op.tool.openedFrom.value);
    }
    NoSteps(env, s, now);
    OneStepIs(env, s, OpenToolStep(op.tool), now);
    hide AppendRefusal, Fits, TurnOf, HasTurn, ApplyAll, Extend;
  }

  lemma AppealIsAcceptedIff(env: Env, s: Session, op: Op, now: nat)
    requires op.Appeal?
    ensures PlanFor(env, s, op, now).error == if forall id <- op.turns :: HasTurn(s.turns, id) then None else Some(BadRequest)
    ensures var t := Perform(env, s, op, now);
            if PlanFor(env, s, op, now).error.None?
            then t == s.(appeals := s.appeals + [s.issued], issued := s.issued + 1, events := t.events) else t == s
  {
    forall id
      ensures TurnOf(s.turns, id).Some? <==> HasTurn(s.turns, id)
    {
      HasTurnIs(s.turns, id);
    }
    NoSteps(env, s, now);
    OneStepIs(env, s, AppealStep, now);
    hide TurnOf, HasTurn, ApplyAll, Extend;
    assert KnownTurns(s.turns, op.turns) <==> forall id <- op.turns :: HasTurn(s.turns, id);
  }

  /** An observation from outside names a competency of the job and a turn, quotes literally, and no judge verifies. */
  ghost predicate Acceptable(env: Env, s: Session, o: Observation) {
    && JudgedEvidence.OfJob(env.job, o.competency) && HasTurn(s.turns, o.turnId)
    && (o.quote.Some? ==> exists k :: TurnAt(s.turns, o.turnId, k) && Occurs(o.quote.value, s.turns[k].text))
    && !(o.state == Verified && "semantic_judge:" <= o.source)
  }

  lemma ObservationIsAcceptedIff(env: Env, s: Session, op: Op, now: nat)
    requires op.ObserveEvidence?
    ensures PlanFor(env, s, op, now).error.None? <==> Acceptable(env, s, op.observation)
    ensures PlanFor(env, s, op, now).error.Some? ==> PlanFor(env, s, op, now).error == Some(BadRequest)
    ensures PlanFor(env, s, op, now).error.None? ==> Observed(s, Perform(env, s, op, now), op.observation)
    ensures PlanFor(env, s, op, now).error.Some? ==> Perform(env, s, op, now) == s
  {
    var o := op.observation;
    HasTurnIs(s.turns, o.turnId);
    AdmissibleIs(env, s, o);
    NoSteps(env, s, now);
    OneStepIs(env, s, ObserveStep(o), now);
    ObservingObserves(env, s, o, now);
    hide Admissible, Acceptable, Observed, ApplyAll, ObserveOne;
  }

  lemma AdmissibleIs(env: Env, s: Session, o: Observation)
    ensures Admissible(env, s, o) <==> Acceptable(env, s, o)
  {
    HasTurnIs(s.turns, o.turnId);
    TurnAtIs(s.turns, o.turnId);
    hide HasTurn, TurnAt, Occurs;
    if TurnOf(s.turns, o.turnId).Some? {
      var k :| TurnAt(s.turns, o.turnId, k);
      assert TextOf(s.turns, o.turnId) == s.turns[k].text;
    }
  }

  /** The observation is a new active item of its competency's node, which it may move; no other node changes. */
  ghost predicate Observed(s: Session, t: Session, o: Observation) {
    && t == s.(graph := t.graph, issued := s.issued + 1, events := t.events)
    && (forall c :: c != o.competency ==> NodeFor(t.graph, c) == NodeFor(s.graph, c))
    && Moves(NodeFor(s.graph, o.competency), NodeFor(t.graph, o.competency),
             Item(s.issued, o.turnId, o.state, o.confidence, o.quote, o.source, o.runId, true))
  }

  /** A node takes over state and confidence of an item at least as strong as itself, unless it is contradicted. */
  ghost predicate Moves(before: Node, after: Node, item: Item) {
    && after.items == before.items + [item] && after.competency == before.competency
    && if before.state != Contradicted && JudgedEvidence.AtLeast(item.state, before.state)
       then after.state == item.state && after.confidence == Some(item.confidence)
       else after.state == before.state && after.confidence == before.confidence
  }

  lemma ObservingMoves(n: Node, item: Item)
    ensures Moves(n, ObserveNode(n, item), item)
  {
  }

  lemma ObservingObserves(env: Env, s: Session, o: Observation, now: nat)
    ensures Observed(s, ObserveOne(env, s, o, now), o)
  {
    var item := ItemOf(o, s.issued);
    forall c
      ensures NodeFor(Observe(s.graph, o.competency, item), c)
           == if c == o.competency then ObserveNode(NodeFor(s.graph, c), item) else NodeFor(s.graph, c)
    {
      JudgedEvidence.ObservedNode(s.graph, o.competency, item, c);
    }
    ObservingMoves(NodeFor(s.graph, o.competency), item);
    hide NodeFor, Observe, ObserveNode, Moves, Extend;
  }

  /** The kinds the interview's own operations log. */
  predicate OfInterview(kind: EventType) {
    || kind == SessionCreated || kind == InterviewStarted || kind == InterviewerTurn || kind == CandidateTurn
    || kind == CandidateControl || kind == TranscriptCorrected || kind == AppealSubmitted || kind == EvidenceObserved
    || kind == EvidenceJudgeFailed || kind == EvidenceJudgeDisagreement || kind == EvidenceJudgeRunRecorded
    || kind == EvidenceSuperseded || kind == ToolOpened || kind == ToolSubmitted || kind == ToolEvaluated
    || kind == ToolCancelled || kind == SessionCompleted || kind == SessionCancelled
  }

  /** Others may log any other kind, and nothing but the log changes. */
  lemma NoteIsAcceptedIff(env: Env, s: Session, op: Op, now: nat)
    requires op.Note?
    ensures PlanFor(env, s, op, now).error.None? <==> !OfInterview(op.kind)
    ensures var t := Perform(env, s, op, now);
            t == s.(events := t.events) && |t.events| == |s.events| + if OfInterview(op.kind) then 0 else 1
  {
    NoSteps(env, s, now);
    OneStepIs(env, s, NoteStep(op.kind), now);
    hide ApplyAll, NewEvent;
  }

  // ---- re-evaluation ----

  /** The answer is linked to a question with competencies. */
  ghost predicate Judgeable(s: Session, answer: Id, k: int, q: int) {
    && TurnAt(s.turns, answer, k) && s.turns[k].speaker == Candidate && s.turns[k].parent.Some?
    && TurnAt(s.turns, s.turns[k].parent.value, q) && s.turns[q].speaker == Interviewer && s.turns[q].tags != []
  }

  lemma ReevaluationIsAcceptedIff(env: Env, s: Session, op: Op, now: nat)
    requires op.Reevaluate?
    ensures PlanFor(env, s, op, now).error.None? <==>
              env.judgeId != "disabled" && op.judge.Some? && exists k, q :: Judgeable(s, op.turn, k, q)
    ensures env.judgeId == "disabled" ==> PlanFor(env, s, op, now).error == Some(Conflict)
    ensures env.judgeId != "disabled" && !HasTurn(s.turns, op.turn) ==> PlanFor(env, s, op, now).error == Some(NotFound)
    ensures env.judgeId != "disabled" && op.judge.None? && (exists k, q :: Judgeable(s, op.turn, k, q)) ==>
              PlanFor(env, s, op, now).error == Some(Raised)
    ensures PlanFor(env, s, op, now).error.Some? ==> Perform(env, s, op, now) == s
  {
    var k := IndexOfTurn(s.turns, op.turn);
    TurnAtIs(s.turns, op.turn);
    HasTurnIs(s.turns, op.turn);
    hide HasTurn;
    NoSteps(env, s, now);
    if k < |s.turns| && s.turns[k].parent.Some? {
      TurnAtIs(s.turns, s.turns[k].parent.value);
      var q := IndexOfTurn(s.turns, s.turns[k].parent.value);
      hide TurnAt, TurnOf, LatestRun, ApplyAll;
      assert TurnOf(s.turns, op.turn) == Some(s.turns[k]) by {
        assert TurnAt(s.turns, op.turn, k);
      }
      if q < |s.turns| {
        assert TurnAt(s.turns, s.turns[k].parent.value, q);
        assert Judgeable(s, op.turn, k, q) <==>
            s.turns[k].speaker == Candidate && s.turns[q].speaker == Interviewer && s.turns[q].tags != [];
      }
    } else {
      hide TurnOf, LatestRun, ApplyAll;
    }
  }

  /** A new run names the answer's latest run, the first of those with the latest time. */
  ghost predicate LatestOf(runs: seq<JudgeRun>, answer: Id, k: int) {
    && 0 <= k < |runs| && runs[k].answer == answer
    && (forall j :: 0 <= j < |runs| && runs[j].answer == answer ==> runs[j].createdAt <= runs[k].createdAt)
    && (forall j :: 0 <= j < k && runs[j].answer == answer ==> runs[j].createdAt < runs[k].createdAt)
  }

  lemma {:induction false} LatestRunIs(runs: seq<JudgeRun>, answer: Id)
    ensures LatestRun(runs, answer).None? ==> forall j :: 0 <= j < |runs| ==> runs[j].answer != answer
    ensures LatestRun(runs, answer).Some? ==> exists k :: LatestOf(runs, answer, k) && runs[k] == LatestRun(runs, answer).value
  {
    if |runs| > 0 {
      var n := |runs| - 1;
      LatestRunIs(runs[..n], answer);
      if LatestRun(runs[..n], answer).None? {
        FirstIsLatest(runs[..n], runs[n], answer);
        assert runs == runs[..n] + [runs[n]];
      } else {
        var k :| LatestOf(runs[..n], answer, k) && runs[..n][k] == LatestRun(runs[..n], answer).value;
        LatestSnoc(runs, answer, k);
      }
      hide LatestOf;
    }
  }

  lemma FirstIsLatest(before: seq<JudgeRun>, last: JudgeRun, answer: Id)
    requires forall j :: 0 <= j < |before| ==> before[j].answer != answer
    ensures last.answer == answer ==> LatestOf(before + [last], answer, |before|)
    ensures last.answer != answer ==> forall run <- before + [last] :: run.answer != answer
  {
  }

  lemma LatestSnoc(runs: seq<JudgeRun>, answer: Id, k: nat)
    requires |runs| > 0 && LatestOf(runs[..|runs| - 1], answer, k)
    ensures var last := runs[|runs| - 1];
            if last.answer == answer && last.createdAt > runs[k].createdAt then LatestOf(runs, answer, |runs| - 1)
            else LatestOf(runs, answer, k)
  {
    var before := runs[..|runs| - 1];
    assert forall j :: 0 <= j < |before| ==> before[j] == runs[j];
  }

  /** An accepted re-evaluation adds one run about the linked question and answer, superseding the latest one. */
  lemma ReevaluationOutcome(env: Env, s: Session, op: Op, now: nat)
    requires op.Reevaluate? && PlanFor(env, s, op, now).error.None?
    ensures exists k, q :: Judgeable(s, op.turn, k, q) && NewRun(s, Perform(env, s, op, now), s.turns[q].id, op.turn, now)
  {
    ReevaluationIsAcceptedIff(env, s, op, now);
    var k, q :| Judgeable(s, op.turn, k, q);
    TurnAtIs(s.turns, op.turn);
    TurnAtIs(s.turns, s.turns[k].parent.value);
    LatestRunIs(s.runs, op.turn);
    hide TurnAt, TurnOf, LatestRun, LatestOf, Apply, Judging;
    var call := JudgeCall(s.turns[q].id, op.turn, op.judge.value, true, RunId(LatestRun(s.runs, op.turn)));
    TurnAtHasId(s.turns, op.turn, k);
    assert PlanFor(env, s, op, now).steps == [JudgeStep(call)];
    OneStepIs(env, s, JudgeStep(call), now);
    Counterfactual.ApplyIs(env, s, JudgeStep(call), now);
    JudgingAddsRun(env, s, call, now);
    hide Judgeable, PlanFor, ApplyAll, CountOf;
    assert NewRun(s, Perform(env, s, op, now), s.turns[q].id, op.turn, now);
  }

  lemma TurnAtHasId(turns: seq<Turn>, id: Id, k: int)
    requires TurnAt(turns, id, k)
    ensures turns[k].id == id
  {
  }

  ghost predicate NewRun(s: Session, t: Session, question: Id, answer: Id, now: nat) {
    && |t.runs| == |s.runs| + 1 && t.runs[..|s.runs|] == s.runs
    && var run := t.runs[|s.runs|];
       && run.question == question && run.answer == answer && run.createdAt == now && run.id == s.issued
       && if run.supersedes.None? then forall j :: 0 <= j < |s.runs| ==> s.runs[j].answer != answer
          else exists k :: LatestOf(s.runs, answer, k) && run.supersedes == Some(s.runs[k].id)
  }

  /** One run was added, the given one but for what it observed and whether it failed. */
  ghost predicate AddsRun(s: Session, t: Session, run: JudgeRun) {
    && |t.runs| == |s.runs| + 1 && t.runs[..|s.runs|] == s.runs
    && t.runs[|s.runs|] == run.(observations := t.runs[|s.runs|].observations, failed := t.runs[|s.runs|].failed)
  }

  lemma FindingsAddRun(env: Env, s: Session, run: JudgeRun, findings: seq<Finding>, now: nat)
    ensures AddsRun(s, ApplyFindings(env, s, run, findings, now), run)
  {
    hide ObserveAll, KnownPrefix, Observations, Extend;
    var n := KnownPrefix(env.job, findings);
    ObserveAllFrame(env, s, Observations(env, findings[..n], run.answer, run.id), now);
  }

  lemma ReplyAddsRun(env: Env, s: Session, call: JudgeCall, run: JudgeRun, now: nat)
    requires call.reply.JudgeReplied?
    ensures AddsRun(s, ApplyReply(env, s, call, run, now), run)
  {
    hide SupersedeTurn, ApplyFindings, Extend;
    SupersedeTurnFrame(env, s, call.answer, now);
    var u := if call.supersede then SupersedeTurn(env, s, call.answer, now) else s;
    FindingsAddRun(env, Dispute(env, u, run, call.reply.audit, now), run, call.reply.findings, now);
  }

  lemma JudgingAddsRun(env: Env, s: Session, call: JudgeCall, now: nat)
    ensures AddsRun(s, Judging(env, s, call, now), RunOf(s, call, now))
  {
    hide ApplyReply, Passes, CountOf, Extend, TextOf;
    if Gated(env, s, call) {
      ReplyAddsRun(env, s.(issued := s.issued + 1), call, RunOf(s, call, now), now);
    }
  }

  // ---- cancellation, and what an ended session keeps ----

  /** Cancelling ends the session and every tool that is open or submitted; a completed session refuses it. */
  lemma CancellationOutcome(env: Env, s: Session, now: nat)
    ensures PlanFor(env, s, Cancel, now).error == if s.status == Completed then Some(Conflict) else None
    ensures var t := Perform(env, s, Cancel, now);
            if Over(s) then t == s
            else
              && t == s.(status := Cancelled, paused := false, tools := t.tools, events := t.events)
              && |t.tools| == |s.tools|
              && forall i :: 0 <= i < |s.tools| ==>
                   t.tools[i] == if s.tools[i].status == OPEN || s.tools[i].status == SUBMITTED
                                 then s.tools[i].(status := CANCELLED) else s.tools[i]
  {
    NoSteps(env, s, now);
    OneStepIs(env, s, CancelStep, now);
    Counterfactual.LogCancelsFields(env, s, s.tools, now);
    hide ApplyAll, LogCancels, Extend;
  }

  /** The dialogue, its counters and its tools are as they were; texts may be corrected, and records only grow. */
  ghost predicate Frozen(s: Session, t: Session) {
    && t.status == s.status && t.paused == s.paused && t.covered == s.covered && t.followups == s.followups
    && t.anchors == s.anchors && t.asked == s.asked && t.tools == s.tools && t.submissions == s.submissions
    && t.evaluations == s.evaluations && SameButText(s.turns, t.turns)
    && s.runs <= t.runs && s.revisions <= t.revisions && s.appeals <= t.appeals
  }

  ghost predicate SameButText(a: seq<Turn>, b: seq<Turn>) {
    |a| == |b| && forall i :: 0 <= i < |a| ==> b[i] == a[i].(text := b[i].text)
  }

  lemma FrozenTransitive(s: Session, t: Session, u: Session)
    requires Frozen(s, t) && Frozen(t, u)
    ensures Frozen(s, u)
  {
  }

  lemma JudgingFreezes(env: Env, s: Session, call: JudgeCall, now: nat)
    ensures Frozen(s, Judging(env, s, call, now))
  {
    JudgingFrame(env, s, call, now);
    JudgingAddsRun(env, s, call, now);
    hide Judging, RunOf;
    var t := Judging(env, s, call, now);
    assert s.runs == t.runs[..|s.runs|];
  }

  lemma CorrectingFreezes(env: Env, s: Session, turn: Id, text: string, now: nat)
    requires IndexOfTurn(s.turns, turn) < |s.turns|
    ensures Frozen(s, Correcting(env, s, turn, text, now))
  {
    CorrectingCorrects(env, s, turn, text, now);
    hide Correcting, Withdraws;
  }

  /** What an ended session still does. */
  lemma EndedStep(env: Env, s: Session, op: Op, now: nat)
    requires Over(s)
    ensures Frozen(s, Perform(env, s, op, now))
  {
    hide Frozen, Perform;
    match op
    case Correct(_, _) => CorrectionFreezes(env, s, op, now);
    case Appeal(_) => AppealFreezes(env, s, op, now);
    case ObserveEvidence(_) => ObservationFreezes(env, s, op, now);
    case Reevaluate(_, _) => ReevaluationFreezes(env, s, op, now);
    case Note(_) => NoteFreezes(env, s, op, now);
    case _ =>
      EndedDoesNothing(env, s, op, now);
      StaysFrozen(s);
  }

  lemma CorrectionFreezes(env: Env, s: Session, op: Op, now: nat)
    requires op.Correct?
    ensures Frozen(s, Perform(env, s, op, now))
  {
    StaysFrozen(s);
    CorrectionIsAcceptedIff(env, s, op, now);
    if PlanFor(env, s, op, now).error.None? {
      CorrectionOutcome(env, s, op, now);
      hide Perform, PlanFor, TurnAt, Withdraws;
      var k :| TurnAt(s.turns, op.turn, k) && Corrects(s, Perform(env, s, op, now), k, op.text);
    }
  }

  lemma AppealFreezes(env: Env, s: Session, op: Op, now: nat)
    requires op.Appeal?
    ensures Frozen(s, Perform(env, s, op, now))
  {
    AppealIsAcceptedIff(env, s, op, now);
    hide Perform, PlanFor, HasTurn;
  }

  lemma ObservationFreezes(env: Env, s: Session, op: Op, now: nat)
    requires op.ObserveEvidence?
    ensures Frozen(s, Perform(env, s, op, now))
  {
    ObservationIsAcceptedIff(env, s, op, now);
    hide Perform, PlanFor, Acceptable, Moves;
  }

  lemma NoteFreezes(env: Env, s: Session, op: Op, now: nat)
    requires op.Note?
    ensures Frozen(s, Perform(env, s, op, now))
  {
    NoSteps(env, s, now);
    OneStepIs(env, s, NoteStep(op.kind), now);
    hide ApplyAll, Bystander, Extend;
  }

  lemma StaysFrozen(s: Session)
    ensures Frozen(s, s)
  {
  }

  lemma ReevaluationFreezes(env: Env, s: Session, op: Op, now: nat)
    requires op.Reevaluate?
    ensures Frozen(s, Perform(env, s, op, now))
  {
    NoSteps(env, s, now);
    StaysFrozen(s);
    var p := PlanFor(env, s, op, now);
    if |p.steps| > 0 {
      assert p.steps == [p.steps[0]] && p.steps[0].JudgeStep?;
      hide PlanFor;
      OneStepIs(env, s, p.steps[0], now);
      Counterfactual.ApplyIs(env, s, p.steps[0], now);
      JudgingFreezes(env, s, p.steps[0].call, now);
    }
  }

  lemma EndedDoesNothing(env: Env, s: Session, op: Op, now: nat)
    requires Over(s)
    requires op.Start? || op.Answer? || op.Control? || op.SubmitTool? || op.OpenTool? || op.Cancel?
    ensures Perform(env, s, op, now) == s
  {
    NoSteps(env, s, now);
    hide ApplyAll, Requested, NextAnchor, LastBy, Strip, IndexOfTool;
  }

  /** Once a session is completed or cancelled, its dialogue, its counters and its tools never change again. */
  lemma {:induction false} EndedIsFrozen(env: Env, calls: seq<Call>, more: seq<Call>)
    requires Over(Reach(env, calls))
    ensures Frozen(Reach(env, calls), Reach(env, calls + more))
  {
    hide Perform, Frozen, NewSession;
    if |more| == 0 {
      assert calls + more == calls;
      StaysFrozen(Reach(env, calls));
    } else {
      var n := |more| - 1;
      EndedIsFrozen(env, calls, more[..n]);
      assert (calls + more)[..|calls| + n] == calls + more[..n];
      var s, t := Reach(env, calls), Reach(env, calls + more[..n]);
      FrozenStatus(s, t);
      EndedStep(env, t, more[n].op, more[n].now);
      FrozenTransitive(s, t, Reach(env, calls + more));
    }
  }

  lemma FrozenStatus(s: Session, t: Session)
    requires Frozen(s, t)
    ensures t.status == s.status
  {
  }
}
