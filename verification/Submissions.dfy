/** When a tool submission is accepted, what it leaves behind, and what its verdict says in the evidence graph. */
module Submissions {
  import opened Common
  import opened Events
  import opened AuditChain
  import opened Evidence
  import opened JudgeGate
  import opened Interview
  import opened Service
  import opened Plans
  import opened Outcomes
  import JudgedEvidence
  import Reevaluation
  import Report
  import ServiceObject

  /** Tool k is the first one with the id. */
  ghost predicate FirstTool(tools: seq<Tool>, id: string, k: int) {
    0 <= k < |tools| && tools[k].id == id && forall j :: 0 <= j < k ==> tools[j].id != id
  }

  lemma FirstIsIndex(tools: seq<Tool>, id: string, k: int)
    ensures FirstTool(tools, id, k) <==> k == IndexOfTool(tools, id) < |tools|
  {
  }

  /** Nothing stands against a submission of tool k. */
  ghost predicate Submittable(env: Env, s: Session, op: Op, k: int)
    requires op.SubmitTool?
  {
    && (s.status == Created || s.status == Running)
    && FirstTool(s.tools, op.toolId, k) && s.tools[k].status == OPEN
    && op.verdict.Some? && (op.verdict.value.Some? ==> TagsOfJob(env.job, s.tools[k].tags))
    && op.brain.Some? && Granted(env.job, s, op.brain.value.decision, op.built)
  }

  /** A submission is accepted exactly for an open tool of an interview that is not over; a refusal changes nothing. */
  lemma SubmissionIsAcceptedIff(env: Env, s: Session, op: Op, now: nat)
    requires op.SubmitTool?
    ensures PlanFor(env, s, op, now).error.None? <==> exists k :: Submittable(env, s, op, k)
    ensures PlanFor(env, s, op, now).error.Some? ==> Perform(env, s, op, now) == s
    ensures s.status == Completed || s.status == Cancelled ==> PlanFor(env, s, op, now).error == Some(Conflict)
    ensures !Over(s) && (forall tool <- s.tools :: tool.id != op.toolId) ==> PlanFor(env, s, op, now).error == Some(NotFound)
    ensures forall k :: !Over(s) && FirstTool(s.tools, op.toolId, k) ==>
              && (s.tools[k].status != OPEN ==> PlanFor(env, s, op, now).error == Some(Conflict))
              && (s.tools[k].status == OPEN && op.verdict.None? ==> PlanFor(env, s, op, now).error == Some(BadRequest))
              && (s.tools[k].status == OPEN && op.verdict.Some? && op.brain.None? ==> PlanFor(env, s, op, now).error == Some(Raised))
  {
    NoSteps(env, s, now);
    var k := IndexOfTool(s.tools, op.toolId);
    FirstIsIndex(s.tools, op.toolId, k);
    if k < |s.tools| {
      TagsAreKnown(env.job, s.tools[k].tags);
    }
    if op.brain.Some? {
      RequestIsGranted(env, s, op.brain.value.decision, op.built);
    }
    hide Requested, Granted, AllKnown, TagsOfJob, ApplyAll;
    if PlanFor(env, s, op, now).error.None? {
      assert Submittable(env, s, op, k);
    }
    forall j | Submittable(env, s, op, j)
      ensures j == k
    {
      FirstIsIndex(s.tools, op.toolId, j);
    }
  }

  // ---- the verdict ----

  /** What an automatic check says of a competency: passing demonstrates, failing does not suffice. */
  function Says(ok: bool): EvidenceState {
    if ok then Demonstrated else Insufficient
  }

  predicate IsVerdict(item: Item, artifact: Id, ok: bool, kind: string) {
    && item.active && item.turnId == artifact && item.state == Says(ok) && item.confidence == 1.0
    && item.quote.None? && item.source == "tool:" + kind && item.runId.None?
  }

  /** Every competency of the tool has the verdict on record and is at least as strong; nothing else was added. */
  ghost predicate VerdictRecorded(before: Graph, after: Graph, tool: Tool, artifact: Id, passed: Option<bool>) {
    if passed.None? then after == before
    else
      && (forall c <- tool.tags ::
            && (exists item :: item in NodeFor(after, c).items && IsVerdict(item, artifact, passed.value, tool.kind))
            && JudgedEvidence.AtLeast(NodeFor(after, c).state, Says(passed.value)))
      && (forall item <- Items(after) :: item in Items(before) || IsVerdict(item, artifact, passed.value, tool.kind))
  }

  lemma VerdictItem(tool: Tool, artifact: Id, ok: bool, i: nat, id: Id)
    requires i < |tool.tags|
    ensures var os := VerdictObservations(tool, artifact, Some(ok));
            && |os| == |tool.tags| && os[i].competency == tool.tags[i] && os[i].state == Says(ok)
            && IsVerdict(ItemOf(os[i], id), artifact, ok, tool.kind)
  {
  }

  lemma VerdictIsRecorded(env: Env, s: Session, tool: Tool, artifact: Id, passed: Option<bool>, now: nat)
    ensures VerdictRecorded(s.graph, ObserveAll(env, s, VerdictObservations(tool, artifact, passed), now).graph,
                            tool, artifact, passed)
  {
    hide ObserveAll, VerdictObservations, ItemOf, NodeFor, JudgedEvidence.AtLeast, IsVerdict, Items, Report.NewItems;
    var os := VerdictObservations(tool, artifact, passed);
    var t := ObserveAll(env, s, os, now);
    if passed.None? {
      NoVerdict(tool, artifact);
      Reevaluation.ObserveNothing(env, s, now);
    } else {
      VerdictSize(tool, artifact, passed.value);
      forall c | c in tool.tags
        ensures exists item :: item in NodeFor(t.graph, c).items && IsVerdict(item, artifact, passed.value, tool.kind)
        ensures JudgedEvidence.AtLeast(NodeFor(t.graph, c).state, Says(passed.value))
      {
        var i :| 0 <= i < |tool.tags| && tool.tags[i] == c;
        VerdictItem(tool, artifact, passed.value, i, s.issued + i);
        JudgedEvidence.ObservedAll(env, s, os, now, i);
      }
      Reevaluation.ObserveAllItems(env, s, os, now);
      forall item | item in Report.NewItems(os, s.issued)
        ensures IsVerdict(item, artifact, passed.value, tool.kind)
      {
        NewItemAt(os, s.issued, item);
        var i :| 0 <= i < |os| && item == ItemOf(os[i], s.issued + i);
        VerdictItem(tool, artifact, passed.value, i, s.issued + i);
      }
    }
  }

  lemma NoVerdict(tool: Tool, artifact: Id)
    ensures VerdictObservations(tool, artifact, None) == []
  {
  }

  lemma VerdictSize(tool: Tool, artifact: Id, ok: bool)
    ensures |VerdictObservations(tool, artifact, Some(ok))| == |tool.tags|
  {
  }

  lemma NewItemAt(os: seq<Observation>, from: nat, item: Item)
    requires item in Report.NewItems(os, from)
    ensures exists i :: 0 <= i < |os| && item == ItemOf(os[i], from + i)
  {
  }

  // ---- the whole submission ----

  /** From s to u tool k was submitted, its artifact heard and its verdict recorded; nothing else of the interview changed. */
  ghost predicate Assesses(s: Session, u: Session, k: int, passed: Option<bool>)
    requires 0 <= k < |s.tools|
  {
    var tool := s.tools[k];
    && u.turns == s.turns + [Turn(s.issued + 1, Candidate, "[" + tool.kind + " artifact submitted]", tool.openedFrom, tool.tags,
                                  None, false, false)]
    && u.tools == s.tools[k := tool.(status := EVALUATED)]
    && u.submissions == s.submissions + [tool.id] && u.evaluations == s.evaluations + [tool.id]
    && VerdictRecorded(s.graph, u.graph, tool, s.issued + 1, passed)
    && u.status == s.status && u.paused == s.paused && u.covered == s.covered && u.followups == s.followups
    && u.anchors == s.anchors && u.asked == s.asked && u.runs == s.runs && u.revisions == s.revisions && u.appeals == s.appeals
  }

  lemma StatusTwice(tools: seq<Tool>, k: nat)
    requires k < |tools| && FirstTool(tools, tools[k].id, k)
    ensures SetToolStatus(SetToolStatus(tools, tools[k].id, SUBMITTED), tools[k].id, EVALUATED)
         == tools[k := tools[k].(status := EVALUATED)]
  {
    FirstIsIndex(tools, tools[k].id, k);
    var once := SetToolStatus(tools, tools[k].id, SUBMITTED);
    assert FirstTool(once, tools[k].id, k);
    FirstIsIndex(once, tools[k].id, k);
  }

  lemma ArtifactHeard(env: Env, s: Session, k: nat, now: nat)
    requires k < |s.tools|
    ensures var tool := s.tools[k];
            var u := Hear(env, Submitting(env, s, tool.id, now), ArtifactText(tool), tool.openedFrom, tool.tags, now);
            u == s.(turns := s.turns + [Turn(s.issued + 1, Candidate, "[" + tool.kind + " artifact submitted]", tool.openedFrom,
                                             tool.tags, None, false, false)],
                    tools := SetToolStatus(s.tools, tool.id, SUBMITTED), submissions := s.submissions + [tool.id],
                    issued := s.issued + 2, events := u.events)
  {
    hide Extend, SetToolStatus;
  }

  lemma EvaluatedIs(env: Env, s: Session, id: string, now: nat)
    ensures var u := Evaluating(env, s, id, now);
            u == s.(tools := SetToolStatus(s.tools, id, EVALUATED), evaluations := s.evaluations + [id], events := u.events)
  {
    hide Extend, SetToolStatus;
  }

  /** The session in which the brain's next question is put. */
  function Assessed(env: Env, s: Session, tool: Tool, passed: Option<bool>, now: nat): Session {
    var heard := Hear(env, Submitting(env, s, tool.id, now), ArtifactText(tool), tool.openedFrom, tool.tags, now);
    ObserveAll(env, Evaluating(env, heard, tool.id, now), VerdictObservations(tool, s.issued + 1, passed), now)
  }

  /** The session once tool k has been submitted, its artifact heard, and its evaluation recorded. */
  ghost predicate Evaluates(s: Session, v: Session, k: int)
    requires 0 <= k < |s.tools|
  {
    var tool := s.tools[k];
    v == s.(turns := s.turns + [Turn(s.issued + 1, Candidate, "[" + tool.kind + " artifact submitted]",
                                     tool.openedFrom, tool.tags, None, false, false)],
            tools := s.tools[k := tool.(status := EVALUATED)], submissions := s.submissions + [tool.id],
            evaluations := s.evaluations + [tool.id], issued := v.issued, events := v.events)
  }

  lemma EvaluatesTool(env: Env, s: Session, k: nat, now: nat)
    requires k < |s.tools| && FirstTool(s.tools, s.tools[k].id, k)
    ensures var tool := s.tools[k];
            var heard := Hear(env, Submitting(env, s, tool.id, now), ArtifactText(tool), tool.openedFrom, tool.tags, now);
            Evaluates(s, Evaluating(env, heard, tool.id, now), k)
  {
    ArtifactHeard(env, s, k, now);
    StatusTwice(s.tools, k);
    hide Hear, Submitting, Evaluating, SetToolStatus, FirstTool, ArtifactText;
    var tool := s.tools[k];
    EvaluatedIs(env, Hear(env, Submitting(env, s, tool.id, now), ArtifactText(tool), tool.openedFrom, tool.tags, now), tool.id, now);
  }

  lemma AssessesWhen(env: Env, s: Session, v: Session, k: nat, passed: Option<bool>, now: nat)
    requires k < |s.tools| && Evaluates(s, v, k)
    ensures Assesses(s, ObserveAll(env, v, VerdictObservations(s.tools[k], s.issued + 1, passed), now), k, passed)
  {
    hide VerdictRecorded, ObserveAll, VerdictObservations;
    ObserveAllFrame(env, v, VerdictObservations(s.tools[k], s.issued + 1, passed), now);
    VerdictIsRecorded(env, v, s.tools[k], s.issued + 1, passed, now);
  }

  lemma AssessedIs(env: Env, s: Session, k: nat, passed: Option<bool>, now: nat)
    requires k < |s.tools| && FirstTool(s.tools, s.tools[k].id, k)
    ensures Assesses(s, Assessed(env, s, s.tools[k], passed, now), k, passed)
  {
    hide Hear, Submitting, Evaluating, ObserveAll, VerdictObservations, Assesses, Evaluates, FirstTool, ArtifactText;
    EvaluatesTool(env, s, k, now);
    var tool := s.tools[k];
    var heard := Hear(env, Submitting(env, s, tool.id, now), ArtifactText(tool), tool.openedFrom, tool.tags, now);
    AssessesWhen(env, s, Evaluating(env, heard, tool.id, now), k, passed, now);
  }

  /** From s to t, through u, tool k was submitted and assessed, and the brain's decision put. */
  ghost predicate SubmitsThrough(s: Session, u: Session, t: Session, op: Op, k: int)
    requires op.SubmitTool? && op.verdict.Some? && op.brain.Some?
  {
    && FirstTool(s.tools, op.toolId, k) && Assesses(s, u, k, op.verdict.value)
    && Asks(u, t, op.brain.value.decision, op.brain.value.covered, ToolFor(op.brain.value.decision, op.built), false)
  }

  lemma SubmissionSteps(env: Env, s: Session, op: Op, now: nat)
    requires op.SubmitTool? && PlanFor(env, s, op, now).error.None?
    ensures op.verdict.Some? && op.brain.Some? && IndexOfTool(s.tools, op.toolId) < |s.tools|
    ensures var tool := s.tools[IndexOfTool(s.tools, op.toolId)];
            && tool.id == op.toolId && Requested(env, s, op.brain.value.decision, op.built).Ok?
            && PlanFor(env, s, op, now).steps
               == ServiceObject.SubmissionSteps(s, tool.id, op.verdict.value, op.brain.value,
                                                Requested(env, s, op.brain.value.decision, op.built).value)
  {
    hide Requested, AllKnown;
  }

  lemma AssessingIs(env: Env, s: Session, tool: Tool, artifact: Id, passed: Option<bool>, d: Decision,
                    covered: seq<string>, next: Option<Tool>, now: nat)
    ensures Assessing(env, s, tool, artifact, passed, d, covered, next, now)
         == Ask(env, ObserveAll(env, Evaluating(env, s, tool.id, now), VerdictObservations(tool, artifact, passed), now),
                d, AfterTool, covered, next, now)
  {
    hide Ask, ObserveAll, Evaluating, VerdictObservations;
  }

  /**
   An accepted submission: the tool is evaluated, the artifact is an answer to the turn that opened the tool, a verdict
   demonstrates or falls short of every competency of the tool, and the brain's decision is put.
   */
  lemma SubmissionOutcome(env: Env, s: Session, op: Op, now: nat)
    requires op.SubmitTool? && PlanFor(env, s, op, now).error.None?
    ensures op.verdict.Some? && op.brain.Some?
    ensures exists u, k :: SubmitsThrough(s, u, Perform(env, s, op, now), op, k)
  {
    SubmissionSteps(env, s, op, now);
    var k := IndexOfTool(s.tools, op.toolId);
    FirstIsIndex(s.tools, op.toolId, k);
    var tool, d := s.tools[k], op.brain.value.decision;
    RequestIsGranted(env, s, d, op.built);
    var next := Requested(env, s, d, op.built).value;
    ServiceObject.SubmissionIs(env, s, tool, op.verdict.value, op.brain.value, next, now);
    AssessedIs(env, s, k, op.verdict.value, now);
    var u := Assessed(env, s, tool, op.verdict.value, now);
    ArtifactHeard(env, s, k, now);
    var heard := Hear(env, Submitting(env, s, tool.id, now), ArtifactText(tool), tool.openedFrom, tool.tags, now);
    AssessingIs(env, heard, tool, s.issued + 1, op.verdict.value, d, op.brain.value.covered, next, now);
    AskAsks(env, u, d, AfterTool, op.brain.value.covered, next, now);
    hide Requested, Granted, PlanFor, ApplyAll, ServiceObject.SubmissionSteps, Assessing, Ask, Asks, Assesses, Hear, Submitting,
         Evaluating, ObserveAll, VerdictObservations, ArtifactText, FirstTool;
    assert SubmitsThrough(s, u, Perform(env, s, op, now), op, k);
  }
}
