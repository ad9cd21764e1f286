/** What the evidence graph holds after a judge's findings have been recorded, finding by finding. */
module JudgedEvidence {
  import opened Common
  import opened Events
  import opened Evidence
  import opened JudgeGate
  import opened Interview
  import opened Service
  import opened Plans
  import Reevaluation
  import Report
  import Counterfactual
  import Outcomes

  // ---- one node at a time ----

  lemma {:induction false} IndexAppended(g: Graph, n: Node, c: string)
    ensures IndexOf(g + [n], c) == if IndexOf(g, c) < |g| || n.competency != c then (if IndexOf(g, c) < |g| then IndexOf(g, c) else |g| + 1) else |g|
  {
    var k, m := IndexOf(g, c), IndexOf(g + [n], c);
    if k < |g| {
      assert (g + [n])[k].competency == c;
    } else if n.competency == c {
      assert (g + [n])[|g|].competency == c;
    }
  }

  lemma IndexReplaced(g: Graph, k: nat, n: Node, c: string)
    requires k < |g| && n.competency == g[k].competency
    ensures IndexOf(g[k := n], c) == IndexOf(g, c)
  {
    var i, j := IndexOf(g, c), IndexOf(g[k := n], c);
    if i < |g| {
      assert g[k := n][i].competency == c;
    }
  }

  /** An observation changes the node of its competency and no other. */
  lemma ObservedNode(g: Graph, c: string, item: Item, d: string)
    ensures NodeFor(Observe(g, c, item), d) == if d == c then ObserveNode(NodeFor(g, c), item) else NodeFor(g, d)
  {
    var n := ObserveNode(NodeFor(g, c), item);
    if IndexOf(g, c) < |g| {
      IndexReplaced(g, IndexOf(g, c), n, d);
    } else {
      IndexAppended(g, n, d);
    }
  }

  /** The node bears a state at least as strong as the given one; a contradiction is stronger than anything. */
  predicate AtLeast(state: EvidenceState, than: EvidenceState) {
    match than
    case Unknown => true
    case Insufficient => state != Unknown
    case Claimed => state != Unknown && state != Insufficient
    case Demonstrated => state == Demonstrated || state == Verified || state == Contradicted
    case Verified => state == Verified || state == Contradicted
    case Contradicted => state == Contradicted
  }

  lemma ObservingStrengthens(n: Node, item: Item, than: EvidenceState)
    ensures AtLeast(ObserveNode(n, item).state, item.state)
    ensures AtLeast(n.state, than) ==> AtLeast(ObserveNode(n, item).state, than)
    ensures ObserveNode(n, item).items == n.items + [item]
  {
  }

  /** Every observation of a list is in the node of its competency, which is at least as strong. */
  lemma {:induction false} ObservedAll(env: Env, s: Session, os: seq<Observation>, now: nat, k: nat)
    requires k < |os|
    ensures var n := NodeFor(ObserveAll(env, s, os, now).graph, os[k].competency);
            ItemOf(os[k], s.issued + k) in n.items && AtLeast(n.state, os[k].state)
    decreases |os|
  {
    hide Observe, ObserveNode, ItemOf, NodeFor, AtLeast;
    var m := |os| - 1;
    var t := ObserveAll(env, s, os[..m], now);
    Reevaluation.ObserveAllItems(env, s, os[..m], now);
    var item := ItemOf(os[m], t.issued);
    ObservedNode(t.graph, os[m].competency, item, os[k].competency);
    ObservingStrengthens(NodeFor(t.graph, os[m].competency), item, os[k].state);
    ObserveOneGraph(env, t, os[m], now);
    ItemState(os[m], t.issued);
    if k < m {
      ObservedAll(env, s, os[..m], now, k);
    }
  }

  lemma ItemState(o: Observation, id: Id)
    ensures ItemOf(o, id).state == o.state
  {
  }

  lemma ObserveOneGraph(env: Env, s: Session, o: Observation, now: nat)
    ensures ObserveOne(env, s, o, now).graph == Observe(s.graph, o.competency, ItemOf(o, s.issued))
  {
  }

  // ---- a whole call ----

  /** The graph as a call finds it when it starts to record: a re-evaluation has withdrawn what stood before. */
  function Base(s: Session, call: JudgeCall): Graph {
    if call.supersede then Supersede(s.graph, call.answer) else s.graph
  }

  ghost predicate OfJob(job: Job, c: string) {
    exists j :: 0 <= j < |job.competencies| && job.competencies[j].id == c
  }

  /** The judge replied, every finding is grounded and of a competency of the job, and the audit is readable. */
  ghost predicate WellJudged(env: Env, s: Session, call: JudgeCall) {
    && call.reply.JudgeReplied?
    && !(call.reply.audit.EnsembleAudit? && call.reply.audit.malformed)
    && (forall i :: 0 <= i < |call.reply.findings| ==>
          Grounded(call.reply.findings[i], TextOf(s.turns, call.answer), env.judgeId))
    && (forall i :: 0 <= i < |call.reply.findings| ==> OfJob(env.job, call.reply.findings[i].competency))
  }

  /** The node of the finding's competency has an active item that says what the finding says of the answer. */
  ghost predicate RecordedAs(g: Graph, f: Finding, id: Id, answer: Id, judgeId: string, run: Id) {
    exists item :: item in NodeFor(g, f.competency).items
      && item.id == id && item.active && item.turnId == answer
      && item.state == f.state && item.confidence == f.confidence && item.quote == f.quote
      && item.source == "semantic_judge:" + judgeId && item.runId == Some(run)
  }

  lemma WellJudgedSucceeds(env: Env, s: Session, call: JudgeCall)
    requires WellJudged(env, s, call)
    ensures Reevaluation.Succeeds(env, s, call) && KnownPrefix(env.job, call.reply.findings) == |call.reply.findings|
  {
    PassesIffGrounded(call.reply.findings, TextOf(s.turns, call.answer), env.judgeId);
    hide Grounded, Passes, TextOf;
    Reevaluation.KnownPrefixIsAll(env.job, call.reply.findings);
  }

  lemma DisputeFields(env: Env, s: Session, run: JudgeRun, audit: Audit, now: nat)
    ensures var t := Dispute(env, s, run, audit, now);
            t.graph == s.graph && t.issued == s.issued && t.runs == s.runs
  {
  }

  /** The session in which a call starts to record. */
  function Opened(env: Env, s: Session, call: JudgeCall, now: nat): Session
    requires call.reply.JudgeReplied?
  {
    var t := s.(issued := s.issued + 1);
    Dispute(env, if call.supersede then SupersedeTurn(env, t, call.answer, now) else t, RunOf(s, call, now), call.reply.audit, now)
  }

  lemma OpenedFields(env: Env, s: Session, call: JudgeCall, now: nat)
    requires call.reply.JudgeReplied?
    ensures var v := Opened(env, s, call, now);
            v.graph == Base(s, call) && v.issued == s.issued + 1 && v.runs == s.runs
  {
    hide SupersedeTurn, Dispute, Supersede;
    var t := s.(issued := s.issued + 1);
    SupersedeTurnFrame(env, t, call.answer, now);
    var u := if call.supersede then SupersedeTurn(env, t, call.answer, now) else t;
    DisputeFields(env, u, RunOf(s, call, now), call.reply.audit, now);
  }

  lemma JudgingApplies(env: Env, s: Session, call: JudgeCall, now: nat)
    requires Reevaluation.Succeeds(env, s, call)
    ensures Judging(env, s, call, now)
         == ApplyFindings(env, Opened(env, s, call, now), RunOf(s, call, now), call.reply.findings, now)
  {
    hide SupersedeTurn, Dispute, ApplyFindings, Passes, CountOf;
  }

  lemma ApplyingRecords(env: Env, s: Session, run: JudgeRun, findings: seq<Finding>, now: nat)
    requires KnownPrefix(env.job, findings) == |findings|
    ensures var t := ApplyFindings(env, s, run, findings, now);
            && t.graph == ObserveAll(env, s, Observations(env, findings, run.answer, run.id), now).graph
            && t.runs == s.runs + [run.(observations := Ids(s.issued, |findings|))]
  {
    hide ObserveAll, Observations, KnownPrefix;
    assert findings[..|findings|] == findings;
    ObserveAllFrame(env, s, Observations(env, findings, run.answer, run.id), now);
  }

  /** A call that succeeds observes all its findings on the base graph and records them as its run's. */
  lemma CallObserves(env: Env, s: Session, call: JudgeCall, now: nat)
    requires Reevaluation.Succeeds(env, s, call)
    requires KnownPrefix(env.job, call.reply.findings) == |call.reply.findings|
    ensures var t := Judging(env, s, call, now);
            var start := s.(graph := Base(s, call), issued := s.issued + 1);
            && t.graph == ObserveAll(env, start, Observations(env, call.reply.findings, call.answer, s.issued), now).graph
            && t.runs == s.runs + [RunOf(s, call, now).(observations := Ids(s.issued + 1, |call.reply.findings|))]
  {
    JudgingApplies(env, s, call, now);
    hide SupersedeTurn, Supersede, Passes, CountOf, ObserveAll, Observations, Log, KnownPrefix, ApplyFindings, Opened, Judging;
    var v := Opened(env, s, call, now);
    OpenedFields(env, s, call, now);
    ApplyingRecords(env, v, RunOf(s, call, now), call.reply.findings, now);
    Reevaluation.ObserveFrom(env, s.(graph := Base(s, call), issued := s.issued + 1), v,
                             Observations(env, call.reply.findings, call.answer, s.issued), now);
  }

  lemma ObservationReports(env: Env, findings: seq<Finding>, answer: Id, run: Id, i: nat)
    requires i < |findings|
    ensures var o := Observations(env, findings, answer, run)[i];
            Reports(o, findings[i], answer, env.judgeId) && o.runId == Some(run)
  {
  }

  /**
   After a call that was judged well, each finding is an active item of its competency's node, with the finding's own
   state, confidence and quote, on the judged answer and in the judge's name; the recorded run lists exactly the items
   that are new; and every such node is at least as strong as the finding, a contradicted one contradicted.
   */
  lemma FindingsAreRecorded(env: Env, s: Session, call: JudgeCall, now: nat)
    requires WellJudged(env, s, call)
    ensures var t, findings := Judging(env, s, call, now), call.reply.findings;
            && |t.runs| == |s.runs| + 1
            && var run := t.runs[|s.runs|];
               && !run.failed && run.answer == call.answer && run.question == call.question && run.createdAt == now
               && |run.observations| == |findings|
               && (forall i :: 0 <= i < |findings| ==>
                     && RecordedAs(t.graph, findings[i], run.observations[i], call.answer, env.judgeId, run.id)
                     && AtLeast(NodeFor(t.graph, findings[i].competency).state, findings[i].state))
               && (forall item <- Items(t.graph) :: item in Items(Base(s, call)) || item.id in run.observations)
  {
    hide Grounded, ObserveAll, Observations, ItemOf, NodeFor, AtLeast, RecordedAs, Items, Report.NewItems, Supersede, Judging;
    WellJudgedSucceeds(env, s, call);
    CallObserves(env, s, call, now);
    var findings := call.reply.findings;
    var start := s.(graph := Base(s, call), issued := s.issued + 1);
    var os := Observations(env, findings, call.answer, s.issued);
    var t := ObserveAll(env, start, os, now);
    Reevaluation.ObserveAllItems(env, start, os, now);
    forall i | 0 <= i < |findings|
      ensures RecordedAs(t.graph, findings[i], s.issued + 1 + i, call.answer, env.judgeId, s.issued)
      ensures AtLeast(NodeFor(t.graph, findings[i].competency).state, findings[i].state)
    {
      ObservedAll(env, start, os, now, i);
      ObservationReports(env, findings, call.answer, s.issued, i);
      ItemRecords(t.graph, findings[i], os[i], s.issued + 1 + i, call.answer, env.judgeId, s.issued);
    }
    forall item | item in Report.NewItems(os, s.issued + 1)
      ensures item.id in Ids(s.issued + 1, |findings|)
    {
      NewItemIsListed(os, s.issued + 1, item);
    }
  }

  lemma ItemRecords(g: Graph, f: Finding, o: Observation, id: Id, answer: Id, judgeId: string, run: Id)
    requires ItemOf(o, id) in NodeFor(g, f.competency).items
    requires Reports(o, f, answer, judgeId) && o.runId == Some(run)
    ensures RecordedAs(g, f, id, answer, judgeId, run)
  {
    hide NodeFor;
  }

  lemma NewItemIsListed(os: seq<Observation>, from: nat, item: Item)
    requires item in Report.NewItems(os, from)
    ensures item.id in Ids(from, |os|)
  {
    var i :| 0 <= i < |os| && item == ItemOf(os[i], from + i);
    assert Ids(from, |os|)[i] == from + i;
  }

  // ---- the operations that judge ----

  /** Every finding is on record for the answer, under one run, and has strengthened its node. */
  ghost predicate OnRecord(env: Env, t: Session, findings: seq<Finding>, answer: Id) {
    exists run :: run in t.runs && !run.failed && run.answer == answer && |run.observations| == |findings|
      && forall i :: 0 <= i < |findings| ==>
           && RecordedAs(t.graph, findings[i], run.observations[i], answer, env.judgeId, run.id)
           && AtLeast(NodeFor(t.graph, findings[i].competency).state, findings[i].state)
  }

  lemma JudgedIsOnRecord(env: Env, s: Session, call: JudgeCall, now: nat)
    requires WellJudged(env, s, call)
    ensures OnRecord(env, Judging(env, s, call, now), call.reply.findings, call.answer)
  {
    hide Judging, RecordedAs, NodeFor, AtLeast, WellJudged;
    FindingsAreRecorded(env, s, call, now);
    var t := Judging(env, s, call, now);
    assert t.runs[|s.runs|] in t.runs;
  }

  lemma StaysOnRecord(env: Env, t: Session, u: Session, findings: seq<Finding>, answer: Id)
    requires OnRecord(env, t, findings, answer) && u.graph == t.graph && t.runs <= u.runs
    ensures OnRecord(env, u, findings, answer)
  {
    hide RecordedAs, NodeFor, AtLeast;
    var run :| run in t.runs && !run.failed && run.answer == answer && |run.observations| == |findings|
      && forall i :: 0 <= i < |findings| ==>
           && RecordedAs(t.graph, findings[i], run.observations[i], answer, env.judgeId, run.id)
           && AtLeast(NodeFor(t.graph, findings[i].competency).state, findings[i].state);
    var k :| 0 <= k < |t.runs| && t.runs[k] == run;
    assert u.runs[k] == run;
  }

  /** The reply of a judge about a text is one the service records in full. */
  ghost predicate Sound(env: Env, reply: JudgeReply, text: string) {
    && reply.JudgeReplied? && !(reply.audit.EnsembleAudit? && reply.audit.malformed)
    && (forall i :: 0 <= i < |reply.findings| ==>
          && Grounded(reply.findings[i], text, env.judgeId)
          && OfJob(env.job, reply.findings[i].competency))
  }

  lemma SoundIsWellJudged(env: Env, s: Session, call: JudgeCall)
    requires Sound(env, call.reply, TextOf(s.turns, call.answer))
    ensures WellJudged(env, s, call)
  {
    hide Grounded, TextOf, OfJob;
  }

  /** An accepted re-evaluation with a sound reply puts every finding on record. */
  lemma ReevaluationIsOnRecord(env: Env, s: Session, answer: Id, reply: JudgeReply, now: nat)
    requires ReevaluatePlan(env, s, answer, Some(reply)).error.None? && Sound(env, reply, TextOf(s.turns, answer))
    ensures OnRecord(env, Perform(env, s, Reevaluate(answer, Some(reply)), now), reply.findings, answer)
  {
    Reevaluation.ReevaluateIsOneCall(env, s, answer, Some(reply), now);
    hide Perform, Judging, OnRecord, ReevaluatePlan, Sound, WellJudged, TextOf;
    var call: JudgeCall :| call.supersede && call.answer == answer && call.reply == reply
                           && Perform(env, s, Reevaluate(answer, Some(reply)), now) == Judging(env, s, call, now);
    SoundIsWellJudged(env, s, call);
    JudgedIsOnRecord(env, s, call, now);
  }

  lemma NewTurnIsFound(turns: seq<Turn>, turn: Turn)
    requires forall i :: 0 <= i < |turns| ==> turns[i].id != turn.id
    ensures TextOf(turns + [turn], turn.id) == turn.text
  {
    var k := IndexOfTurn(turns + [turn], turn.id);
    assert (turns + [turn])[|turns|] == turn;
  }

  /** The session after the answer has been heard and claimed, in which the judge is asked. */
  lemma HeardBeforeJudged(env: Env, s: Session, text: string, parent: Option<Id>, tags: seq<string>, now: nat)
    requires forall i :: 0 <= i < |s.turns| ==> s.turns[i].id < s.issued
    ensures var t := ClaimAll(env, Hear(env, s, text, parent, [], now), s.issued, tags, now);
            TextOf(t.turns, s.issued) == text
  {
    hide ClaimAll, Hear, TextOf;
    var t := Hear(env, s, text, parent, [], now);
    Counterfactual.HearFields(env, s, text, parent, [], now);
    ClaimAllFrame(env, t, s.issued, tags, now);
    NewTurnIsFound(s.turns, t.turns[|s.turns|]);
  }

  /**
   An accepted answer to a running interview, to a question with competencies, whose judge's reply is sound: every
   finding is on record for the answer.
   */
  lemma AnswerIsOnRecord(env: Env, s: Session, op: Op, now: nat)
    requires op.Answer? && s.status == Running && forall i :: 0 <= i < |s.turns| ==> s.turns[i].id < s.issued
    requires PlanFor(env, s, op, now).error.None?
    requires Outcomes.JudgeNeeded(env, s.turns)
    requires op.judge.Some? && Sound(env, op.judge.value, op.text)
    ensures OnRecord(env, Perform(env, s, op, now), op.judge.value.findings, s.issued)
  {
    var k :| Outcomes.LatestQuestion(s.turns, k) && s.turns[k].tags != [];
    LatestIsLast(s.turns, k);
    var question := s.turns[k];
    var call := JudgeCall(question.id, s.issued, op.judge.value, false, None);
    var heard := Hear(env, s, op.text, Some(question.id), [], now);
    var claimed := ClaimAll(env, heard, s.issued, question.tags, now);
    AnswerIsJudged(env, s, op, now);
    hide Perform, PlanFor, Judging, OnRecord, Sound, WellJudged, ClaimAll, Hear, TextOf, LastQuestion, Outcomes.LatestQuestion;
    HeardBeforeJudged(env, s, op.text, Some(question.id), question.tags, now);
    SoundIsWellJudged(env, claimed, call);
    JudgedIsOnRecord(env, claimed, call, now);
    StaysOnRecord(env, Judging(env, claimed, call, now), Perform(env, s, op, now), op.judge.value.findings, s.issued);
  }

  /** Hearing, claiming, judging, and then a question that leaves the evidence alone. */
  lemma AnswerIsJudged(env: Env, s: Session, op: Op, now: nat)
    requires op.Answer? && s.status == Running && PlanFor(env, s, op, now).error.None?
    requires LastQuestion(s.turns).Some? && LastQuestion(s.turns).value.tags != [] && env.judgeId != "disabled"
    requires op.judge.Some?
    ensures var question := LastQuestion(s.turns).value;
            var heard := Hear(env, s, op.text, Some(question.id), [], now);
            var claimed := ClaimAll(env, heard, s.issued, question.tags, now);
            var judged := Judging(env, claimed, JudgeCall(question.id, s.issued, op.judge.value, false, None), now);
            var t := Perform(env, s, op, now);
            t.graph == judged.graph && t.runs == judged.runs
  {
    hide LastQuestion, Choose, Requested, Judging, ClaimAll, Hear, Ask;
    var question := LastQuestion(s.turns).value;
    var d := Choose(env, s, op.brain.value.decision);
    var tool := Requested(env, s, d, op.built).value;
    var hear, claim := HearStep(op.text, Some(question.id), []), ClaimStep(s.issued, question.tags);
    var judge := JudgeStep(JudgeCall(question.id, s.issued, op.judge.value, false, None));
    var ask := AskStep(d, AfterAnswer, op.brain.value.covered, tool);
    assert PlanFor(env, s, op, now).steps == [hear, claim, judge, ask];
    hide PlanFor;
    FourSteps(env, s, hear, claim, judge, ask, now);
    var judged := Apply(env, Apply(env, Apply(env, s, hear, now), claim, now), judge, now);
    Counterfactual.AskFields(env, judged, d, AfterAnswer, op.brain.value.covered, tool, now);
  }

  // ---- the candidate's own claims ----

  /** The node has an active claim of the answer, of the candidate's own, and is claimed at least. */
  ghost predicate ClaimedBy(g: Graph, c: string, answer: Id) {
    && (exists item :: item in NodeFor(g, c).items && OwnClaim(item, answer))
    && AtLeast(NodeFor(g, c).state, Claimed)
  }

  predicate OwnClaim(item: Item, answer: Id) {
    && item.active && item.turnId == answer && item.state == Claimed && item.confidence == 1.0
    && item.quote.None? && item.source == "candidate_response" && item.runId.None?
  }

  /** A claim changes the node of its competency and no other. */
  lemma ClaimedNode(g: Graph, c: string, item: Item, d: string)
    ensures NodeFor(Claim(g, c, item), d) == if d == c then ClaimNode(NodeFor(g, c), item) else NodeFor(g, d)
  {
    var n := ClaimNode(NodeFor(g, c), item);
    if IndexOf(g, c) < |g| {
      IndexReplaced(g, IndexOf(g, c), n, d);
    } else {
      IndexAppended(g, n, d);
    }
  }

  /** A claim lifts a node that is weaker and then clears its confidence; any other node keeps state and confidence. */
  lemma ClaimMoves(g: Graph, c: string, item: Item)
    ensures var before, after := NodeFor(g, c), NodeFor(Claim(g, c, item), c);
            && after.items == before.items + [item]
            && if before.state == Unknown || before.state == Insufficient
               then after.state == Claimed && after.confidence.None?
               else after.state == before.state && after.confidence == before.confidence
    ensures forall d :: d != c ==> NodeFor(Claim(g, c, item), d) == NodeFor(g, d)
  {
    forall d
      ensures NodeFor(Claim(g, c, item), d) == if d == c then ClaimNode(NodeFor(g, c), item) else NodeFor(g, d)
    {
      ClaimedNode(g, c, item, d);
    }
    hide NodeFor, Claim;
  }

  lemma ClaimingKeeps(g: Graph, c: string, item: Item, d: string, answer: Id)
    ensures ClaimedBy(g, d, answer) ==> ClaimedBy(Claim(g, c, item), d, answer)
    ensures OwnClaim(item, answer) ==> ClaimedBy(Claim(g, c, item), c, answer)
  {
    ClaimedNode(g, c, item, d);
    ClaimedNode(g, c, item, c);
    hide NodeFor, OwnClaim, Claim;
    assert item in ClaimNode(NodeFor(g, c), item).items;
  }

  lemma ObservingKeeps(g: Graph, c: string, item: Item, d: string, answer: Id)
    ensures ClaimedBy(g, d, answer) ==> ClaimedBy(Observe(g, c, item), d, answer)
  {
    ObservedNode(g, c, item, d);
    ObservingStrengthens(NodeFor(g, c), item, Claimed);
    hide NodeFor, OwnClaim, Observe, ObserveNode, AtLeast;
  }

  lemma {:induction false} ClaimsAreRecorded(env: Env, s: Session, answer: Id, tags: seq<string>, now: nat, k: nat)
    requires k < |tags|
    ensures ClaimedBy(ClaimAll(env, s, answer, tags, now).graph, tags[k], answer)
    decreases |tags|
  {
    hide Claim, ClaimItem, ClaimedBy;
    var m := |tags| - 1;
    var t := ClaimAll(env, s, answer, tags[..m], now);
    ClaimIsOwn(t.issued, answer);
    ClaimingKeeps(t.graph, tags[m], ClaimItem(t.issued, answer), tags[k], answer);
    if k < m {
      ClaimsAreRecorded(env, s, answer, tags[..m], now, k);
    }
  }

  lemma ClaimIsOwn(id: Id, answer: Id)
    ensures OwnClaim(ClaimItem(id, answer), answer)
  {
  }

  lemma {:induction false} ObservationsKeepClaims(env: Env, s: Session, os: seq<Observation>, now: nat, c: string, answer: Id)
    requires ClaimedBy(s.graph, c, answer)
    ensures ClaimedBy(ObserveAll(env, s, os, now).graph, c, answer)
  {
    hide Observe, ItemOf, ClaimedBy;
    if |os| > 0 {
      var m := |os| - 1;
      ObservationsKeepClaims(env, s, os[..m], now, c, answer);
      var t := ObserveAll(env, s, os[..m], now);
      ObserveOneGraph(env, t, os[m], now);
      ObservingKeeps(t.graph, os[m].competency, ItemOf(os[m], t.issued), c, answer);
    }
  }

  /** A call that withdraws nothing only observes, however it ends. */
  lemma JudgingOnlyAdds(env: Env, s: Session, call: JudgeCall, now: nat) returns (os: seq<Observation>)
    requires !call.supersede
    ensures Judging(env, s, call, now).graph == ObserveAll(env, s.(issued := s.issued + 1), os, now).graph
  {
    hide SupersedeTurn, KnownPrefix, Passes, CountOf, ObserveAll, Observations;
    var start, run := s.(issued := s.issued + 1), RunOf(s, call, now);
    Reevaluation.ObserveNothing(env, start, now);
    os := [];
    if Gated(env, s, call) && !Reevaluation.Malformed(call) {
      os := Observations(env, call.reply.findings[..KnownPrefix(env.job, call.reply.findings)], call.answer, s.issued);
      Reevaluation.ObserveFrom(env, start, Dispute(env, start, run, call.reply.audit, now), os, now);
    }
  }

  lemma JudgingKeepsClaims(env: Env, s: Session, call: JudgeCall, now: nat, c: string, answer: Id)
    requires !call.supersede && ClaimedBy(s.graph, c, answer)
    ensures ClaimedBy(Judging(env, s, call, now).graph, c, answer)
  {
    hide Judging, ClaimedBy, ObserveAll;
    var os := JudgingOnlyAdds(env, s, call, now);
    ObservationsKeepClaims(env, s.(issued := s.issued + 1), os, now, c, answer);
  }

  lemma AnswerIsUnjudged(env: Env, s: Session, op: Op, now: nat)
    requires op.Answer? && s.status != Created && PlanFor(env, s, op, now).error.None?
    requires LastQuestion(s.turns).Some? && LastQuestion(s.turns).value.tags != [] && env.judgeId == "disabled"
    ensures var question := LastQuestion(s.turns).value;
            Perform(env, s, op, now).graph
            == ClaimAll(env, Hear(env, s, op.text, Some(question.id), [], now), s.issued, question.tags, now).graph
  {
    hide LastQuestion, Choose, Requested, ClaimAll, Hear, Ask;
    var question := LastQuestion(s.turns).value;
    var d := Choose(env, s, op.brain.value.decision);
    var hear, claim := HearStep(op.text, Some(question.id), []), ClaimStep(s.issued, question.tags);
    var ask := AskStep(d, AfterAnswer, op.brain.value.covered, Requested(env, s, d, op.built).value);
    assert PlanFor(env, s, op, now).steps == [hear, claim, ask];
    hide PlanFor;
    ThreeSteps(env, s, hear, claim, ask, now);
    Counterfactual.AskFields(env, Apply(env, Apply(env, s, hear, now), claim, now), d, AfterAnswer, op.brain.value.covered, ask.tool, now);
  }

  lemma AcceptedIsRunning(env: Env, s: Session, op: Op, now: nat)
    requires op.Answer? && s.status != Created && PlanFor(env, s, op, now).error.None?
    ensures s.status == Running
    ensures LastQuestion(s.turns).Some? && LastQuestion(s.turns).value.tags != [] && env.judgeId != "disabled" ==> op.judge.Some?
  {
    hide LastQuestion, Choose, Requested;
  }

  /** After an accepted answer every competency of the question it answers bears the candidate's claim, judged or not. */
  lemma AnswerIsClaimed(env: Env, s: Session, op: Op, now: nat, k: int, tag: string)
    requires op.Answer? && s.status != Created && PlanFor(env, s, op, now).error.None?
    requires Outcomes.LatestQuestion(s.turns, k) && tag in s.turns[k].tags
    ensures ClaimedBy(Perform(env, s, op, now).graph, tag, s.issued)
  {
    LatestIsLast(s.turns, k);
    AcceptedIsRunning(env, s, op, now);
    var question := s.turns[k];
    var heard := Hear(env, s, op.text, Some(question.id), [], now);
    var claimed := ClaimAll(env, heard, s.issued, question.tags, now);
    hide LastQuestion, Outcomes.LatestQuestion, Judging, ClaimAll, Hear, Perform, PlanFor, ClaimedBy;
    var i :| 0 <= i < |question.tags| && question.tags[i] == tag;
    ClaimsAreRecorded(env, heard, s.issued, question.tags, now, i);
    if env.judgeId != "disabled" {
      JudgingKeepsClaims(env, claimed, JudgeCall(question.id, s.issued, op.judge.value, false, None), now, tag, s.issued);
      AnswerIsJudged(env, s, op, now);
      SameGraphSameClaims(Judging(env, claimed, JudgeCall(question.id, s.issued, op.judge.value, false, None), now),
                          Perform(env, s, op, now), tag, s.issued);
    } else {
      AnswerIsUnjudged(env, s, op, now);
      SameGraphSameClaims(claimed, Perform(env, s, op, now), tag, s.issued);
    }
  }

  lemma SameGraphSameClaims(s: Session, t: Session, c: string, answer: Id)
    requires ClaimedBy(s.graph, c, answer) && t.graph == s.graph
    ensures ClaimedBy(t.graph, c, answer)
  {
  }

  lemma LatestIsLast(turns: seq<Turn>, k: int)
    requires Outcomes.LatestQuestion(turns, k)
    ensures LastQuestion(turns) == Some(turns[k])
  {
    Outcomes.LastQuestionIsLatest(turns);
    if LastQuestion(turns).Some? {
      var j :| Outcomes.LatestQuestion(turns, j) && turns[j] == LastQuestion(turns).value;
      Outcomes.LatestQuestionIsUnique(turns, j, k);
    }
  }
}
