/** Re-evaluating an answer: what success replaces, and exactly when failure leaves everything as it was. */
module Reevaluation {
  import opened Common
  import opened Events
  import opened Evidence
  import opened JudgeGate
  import opened Interview
  import opened Service
  import opened Plans
  import Report

  /** The active semantic evidence of one turn. */
  function Standing(g: Graph, turn: Id): set<Item> {
    set item <- Items(g) | Superseded(item, turn)
  }

  predicate Malformed(call: JudgeCall) {
    call.reply.JudgeReplied? && call.reply.audit.EnsembleAudit? && call.reply.audit.malformed
  }

  predicate AllFindingsKnown(job: Job, findings: seq<Finding>) {
    forall i :: 0 <= i < |findings| ==> KnownCompetency(job, findings[i].competency)
  }

  /** What a re-evaluation needs to succeed; all of it can be told before anything changes. */
  predicate Succeeds(env: Env, s: Session, call: JudgeCall) {
    Gated(env, s, call) && !Malformed(call) && AllFindingsKnown(env.job, call.reply.findings)
  }

  function LastRecorded(s: Session): JudgeRun
    requires |s.runs| > 0
  {
    s.runs[|s.runs| - 1]
  }

  lemma KnownPrefixIsAll(job: Job, findings: seq<Finding>)
    ensures AllFindingsKnown(job, findings) <==> KnownPrefix(job, findings) == |findings|
  {
    hide KnownCompetency;
  }

  // ---- which findings reach the graph ----

  /** The number of findings applied before the call ends, well or badly. */
  function AppliedCount(env: Env, s: Session, call: JudgeCall): (n: nat)
    requires call.reply.JudgeReplied?
    ensures n <= |call.reply.findings|
  {
    if Gated(env, s, call) && !Malformed(call) then KnownPrefix(env.job, call.reply.findings) else 0
  }

  function AppliedObservations(env: Env, s: Session, call: JudgeCall): seq<Observation>
    requires call.reply.JudgeReplied?
  {
    Observations(env, call.reply.findings[..AppliedCount(env, s, call)], call.answer, s.issued)
  }

  lemma {:induction false} ObserveAllItems(env: Env, s: Session, os: seq<Observation>, now: nat)
    ensures ObserveAll(env, s, os, now).issued == s.issued + |os|
    ensures Items(ObserveAll(env, s, os, now).graph) == Items(s.graph) + Report.NewItems(os, s.issued)
    ensures ItemCount(ObserveAll(env, s, os, now).graph) == ItemCount(s.graph) + |os|
  {
    hide Observe, Items, Report.NewItems, ItemCount, ItemOf;
    if |os| == 0 {
      Report.NoNewItems(s.issued);
      assert os == [];
    } else {
      var n := |os| - 1;
      ObserveAllItems(env, s, os[..n], now);
      var t := ObserveAll(env, s, os[..n], now);
      ObserveAddsItem(t.graph, os[n].competency, ItemOf(os[n], t.issued));
      ObserveCounts(t.graph, os[n].competency, ItemOf(os[n], t.issued));
      Report.NewItemsSnoc(os, s.issued);
    }
  }

  // ---- counting items ----

  function ItemCount(g: Graph): nat {
    if |g| == 0 then 0 else ItemCount(g[..|g| - 1]) + |g[|g| - 1].items|
  }

  lemma {:induction false} CountUpdate(g: Graph, k: nat, n: Node)
    requires k < |g|
    ensures ItemCount(g[k := n]) == ItemCount(g) - |g[k].items| + |n.items|
  {
    var m := |g| - 1;
    if k < m {
      CountUpdate(g[..m], k, n);
      assert g[k := n][..m] == g[..m][k := n];
    } else {
      assert g[k := n][..m] == g[..m];
    }
  }

  lemma ObserveCounts(g: Graph, c: string, item: Item)
    ensures ItemCount(Observe(g, c, item)) == ItemCount(g) + 1
  {
    var n := ObserveNode(NodeFor(g, c), item);
    if IndexOf(g, c) < |g| {
      CountUpdate(g, IndexOf(g, c), n);
    } else {
      assert (g + [n])[..|g|] == g;
    }
  }

  lemma {:induction false} SameShapeSameCount(g: Graph, h: Graph)
    requires |g| == |h| && forall i :: 0 <= i < |g| ==> |g[i].items| == |h[i].items|
    ensures ItemCount(g) == ItemCount(h)
  {
    if |g| > 0 {
      SameShapeSameCount(g[..|g| - 1], h[..|h| - 1]);
    }
  }

  lemma SupersedeCounts(g: Graph, turn: Id)
    ensures ItemCount(Supersede(g, turn)) == ItemCount(g)
  {
    forall i | 0 <= i < |g|
      ensures |Supersede(g, turn)[i].items| == |g[i].items|
    {
      assert Supersede(g, turn)[i] == SupersedeNode(g[i], turn);
    }
    SameShapeSameCount(Supersede(g, turn), g);
  }

  lemma AffectedStands(g: Graph, i: nat, turn: Id)
    requires i < |g|
    ensures Affected(g[i], turn) ==> Standing(g, turn) != {}
  {
    if Affected(g[i], turn) {
      var j :| 0 <= j < |g[i].items| && Superseded(g[i].items[j], turn);
      assert g[i].items[j] in Items(g);
      assert g[i].items[j] in Standing(g, turn);
    }
  }

  /** Superseding changes the graph exactly when there is something to supersede. */
  lemma SupersedeChangesIff(g: Graph, turn: Id)
    ensures Supersede(g, turn) == g <==> Standing(g, turn) == {}
  {
    hide RecomputeNode;
    SupersedeRetires(g, turn);
    if Standing(g, turn) == {} {
      forall i | 0 <= i < |g|
        ensures !Affected(g[i], turn)
      {
        AffectedStands(g, i, turn);
      }
      assert Supersede(g, turn) == g;
    } else {
      var item :| item in Standing(g, turn);
      assert item !in Items(Supersede(g, turn));
    }
  }

  // ---- the graph after a re-evaluation ----

  lemma ObserveFrom(env: Env, s: Session, t: Session, os: seq<Observation>, now: nat)
    requires t.graph == s.graph && t.issued == s.issued
    ensures ObserveAll(env, t, os, now).graph == ObserveAll(env, s, os, now).graph
    ensures ObserveAll(env, t, os, now).issued == ObserveAll(env, s, os, now).issued
  {
    hide Observe, ItemOf;
    if |os| > 0 {
      ObserveFrom(env, s, t, os[..|os| - 1], now);
    }
  }

  /** The graph is the one after superseding and then observing what was applied; before the gate, nothing happens. */
  lemma GraphAfter(env: Env, s: Session, call: JudgeCall, now: nat)
    requires call.supersede
    ensures !Gated(env, s, call) ==> Judging(env, s, call, now).graph == s.graph
    ensures Gated(env, s, call) ==>
              call.reply.JudgeReplied?
              && Judging(env, s, call, now).graph
                 == ObserveAll(env, s.(graph := Supersede(s.graph, call.answer), issued := s.issued + 1),
                               AppliedObservations(env, s, call), now).graph
  {
    hide SupersedeTurn, KnownPrefix, Supersede, Passes, CountOf, ObserveAll;
    var run, t := RunOf(s, call, now), s.(issued := s.issued + 1);
    if Gated(env, s, call) {
      SupersedeTurnFrame(env, t, call.answer, now);
      var u := SupersedeTurn(env, t, call.answer, now);
      var v := Dispute(env, u, run, call.reply.audit, now);
      var start := s.(graph := Supersede(s.graph, call.answer), issued := s.issued + 1);
      var os := AppliedObservations(env, s, call);
      ObserveFrom(env, start, v, os, now);
      if Malformed(call) {
        assert os == [];
        ObserveNothing(env, start, now);
      }
    }
  }

  lemma ObserveNothing(env: Env, s: Session, now: nat)
    ensures ObserveAll(env, s, [], now) == s
  {
  }

  lemma RunAfter(env: Env, s: Session, call: JudgeCall, now: nat)
    ensures var t := Judging(env, s, call, now);
            && |t.runs| == |s.runs| + 1 && t.runs[..|s.runs|] == s.runs
            && LastRecorded(t).id == s.issued && LastRecorded(t).answer == call.answer
            && (LastRecorded(t).failed <==> !Succeeds(env, s, call))
  {
    hide SupersedeTurn, ObserveAll, KnownPrefix, Passes, CountOf, Log, KnownCompetency;
    var run, t := RunOf(s, call, now), s.(issued := s.issued + 1);
    if Gated(env, s, call) {
      SupersedeTurnFrame(env, t, call.answer, now);
      var u := if call.supersede then SupersedeTurn(env, t, call.answer, now) else t;
      DisputeRuns(env, u, run, call.reply.audit, now);
      KnownPrefixIsAll(env.job, call.reply.findings);
      Report.FailureRuns(env, u, run, now);
      FindingsRun(env, Dispute(env, u, run, call.reply.audit, now), run, call.reply.findings, now);
    } else {
      Report.FailureRuns(env, t, run, now);
    }
  }

  lemma DisputeRuns(env: Env, s: Session, run: JudgeRun, audit: Audit, now: nat)
    ensures Dispute(env, s, run, audit, now).runs == s.runs
  {
  }

  lemma FindingsRun(env: Env, s: Session, run: JudgeRun, findings: seq<Finding>, now: nat)
    requires !run.failed
    ensures var t := ApplyFindings(env, s, run, findings, now);
            && |t.runs| == |s.runs| + 1 && t.runs[..|s.runs|] == s.runs
            && LastRecorded(t).id == run.id && LastRecorded(t).answer == run.answer
            && (LastRecorded(t).failed <==> KnownPrefix(env.job, findings) < |findings|)
  {
    hide ObserveAll, KnownPrefix;
    var n := KnownPrefix(env.job, findings);
    ObserveAllFrame(env, s, Observations(env, findings[..n], run.answer, run.id), now);
    Report.FailureRuns(env, ObserveAll(env, s, Observations(env, findings[..n], run.answer, run.id), now),
                       run.(observations := Ids(s.issued, n)), now);
  }

  /** The items the new run contributes on success. */
  function Replacement(env: Env, s: Session, call: JudgeCall): set<Item>
    requires call.reply.JudgeReplied?
  {
    Report.NewItems(Observations(env, call.reply.findings, call.answer, s.issued), s.issued + 1)
  }

  lemma ReplacementStands(env: Env, s: Session, call: JudgeCall, x: Item)
    requires call.reply.JudgeReplied? && x in Replacement(env, s, call)
    ensures Superseded(x, call.answer) && x.runId == Some(s.issued)
  {
    hide Semantic;
    var os := Observations(env, call.reply.findings, call.answer, s.issued);
    var i :| 0 <= i < |os| && x == ItemOf(os[i], s.issued + 1 + i);
    assert Semantic(os[i].source) by {
      assert os[i].source == ToObservation(call.reply.findings[i], call.answer, env.judgeId).source;
    }
  }

  /**
   Re-evaluation succeeds or fails as a whole. Success leaves exactly the new run's observations as the turn's active
   semantic evidence, retires what stood before, and touches no other item. Failure leaves the graph unchanged exactly
   when the gate refused the reply, or nothing stood to be superseded and the audit was malformed or the first
   finding already named an unknown competency.
   */
  lemma ReevaluationIsAllOrNothing(env: Env, s: Session, call: JudgeCall, now: nat)
    requires call.supersede
    ensures var t := Judging(env, s, call, now);
            && SameInterview(s, t)
            && |t.runs| == |s.runs| + 1 && (LastRecorded(t).failed <==> !Succeeds(env, s, call))
            && (Succeeds(env, s, call) ==>
                  && Standing(t.graph, call.answer) == Replacement(env, s, call)
                  && Items(t.graph) == (set item <- Items(s.graph) :: Retire(item, call.answer)) + Replacement(env, s, call))
            && (!Succeeds(env, s, call) ==>
                  (t.graph == s.graph
                   <==> || !Gated(env, s, call)
                        || (Standing(s.graph, call.answer) == {}
                            && (Malformed(call) || !KnownCompetency(env.job, call.reply.findings[0].competency)))))
  {
    hide Judging, Gated, Supersede, Observations, Items, KnownCompetency, Standing, Report.NewItems, ObserveAll;
    JudgingFrame(env, s, call, now);
    RunAfter(env, s, call, now);
    GraphAfter(env, s, call, now);
    if Gated(env, s, call) {
      GatedReplied(env, s, call);
      var start := s.(graph := Supersede(s.graph, call.answer), issued := s.issued + 1);
      var os := AppliedObservations(env, s, call);
      ObserveAllItems(env, start, os, now);
      SupersedeRetires(s.graph, call.answer);
      KnownPrefixIsAll(env.job, call.reply.findings);
      if Succeeds(env, s, call) {
        assert call.reply.findings[..|call.reply.findings|] == call.reply.findings;
        StandingAfter(env, s, call, Judging(env, s, call, now).graph);
      } else {
        FailureLeavesIff(env, s, call, now);
      }
    }
  }

  lemma StandingAfter(env: Env, s: Session, call: JudgeCall, g: Graph)
    requires call.reply.JudgeReplied?
    requires Items(g) == (set item <- Items(s.graph) :: Retire(item, call.answer)) + Replacement(env, s, call)
    ensures Standing(g, call.answer) == Replacement(env, s, call)
  {
    hide Items, Replacement, Semantic;
    forall x | x in Replacement(env, s, call)
      ensures x in Standing(g, call.answer)
    {
      ReplacementStands(env, s, call, x);
    }
  }

  lemma FailureLeavesIff(env: Env, s: Session, call: JudgeCall, now: nat)
    requires call.supersede && Gated(env, s, call) && !Succeeds(env, s, call)
    ensures call.reply.JudgeReplied? && (!Malformed(call) ==> |call.reply.findings| > 0)
    ensures Judging(env, s, call, now).graph == s.graph
       <==> Standing(s.graph, call.answer) == {}
            && (Malformed(call) || !KnownCompetency(env.job, call.reply.findings[0].competency))
  {
    hide Judging, Passes, Supersede, Items, KnownCompetency, Standing, ObserveAll, ItemCount, TextOf;
    GraphAfter(env, s, call, now);
    var start := s.(graph := Supersede(s.graph, call.answer), issued := s.issued + 1);
    var os := AppliedObservations(env, s, call);
    ObserveAllItems(env, start, os, now);
    SupersedeCounts(s.graph, call.answer);
    SupersedeChangesIff(s.graph, call.answer);
    KnownPrefixIsAll(env.job, call.reply.findings);
    if |os| == 0 {
      assert os == [];
      ObserveNothing(env, start, now);
    }
  }

  /** With a well-formed audit and findings that name only the job's competencies, failure changes nothing. */
  lemma FailureChangesNothing(env: Env, s: Session, call: JudgeCall, now: nat)
    requires call.supersede
    requires call.reply.JudgeReplied? ==> !Malformed(call) && AllFindingsKnown(env.job, call.reply.findings)
    ensures LastRecordedFailed(Judging(env, s, call, now)) ==> Judging(env, s, call, now).graph == s.graph
  {
    hide Judging, Gated, Standing, AllFindingsKnown;
    ReevaluationIsAllOrNothing(env, s, call, now);
    if Gated(env, s, call) {
      GatedReplied(env, s, call);
    }
  }

  predicate LastRecordedFailed(s: Session) {
    |s.runs| > 0 && LastRecorded(s).failed
  }

  /** The operation is this call: an accepted re-evaluation judges the answer against its own question, superseding. */
  lemma ReevaluateIsOneCall(env: Env, s: Session, answer: Id, judge: Option<JudgeReply>, now: nat)
    requires ReevaluatePlan(env, s, answer, judge).error.None?
    ensures judge.Some?
    ensures exists call: JudgeCall ::
              && call.supersede && call.answer == answer && call.reply == judge.value
              && call.supersedes == RunId(LatestRun(s.runs, answer))
              && Perform(env, s, Reevaluate(answer, judge), now) == Judging(env, s, call, now)
  {
    hide Judging, TurnOf, LatestRun;
    TurnOfHasId(s.turns, answer);
    var step := ReevaluatePlan(env, s, answer, judge).steps[0];
    assert ReevaluatePlan(env, s, answer, judge).steps == [step];
    assert [step][..0] == [];
    assert ApplyAll(env, s, [], now) == s;
    assert Perform(env, s, Reevaluate(answer, judge), now) == Judging(env, s, step.call, now);
  }

  lemma TurnOfHasId(turns: seq<Turn>, id: Id)
    ensures TurnOf(turns, id).Some? ==> TurnOf(turns, id).value.id == id
  {
  }
}
