/** When the report's flags are raised: by the call that failed and by the correction that came after, and by nothing else. */
module Summaries {
  import opened Common
  import opened Events
  import opened JudgeGate
  import opened Interview
  import opened Service
  import opened Plans
  import opened Amendments
  import JudgedEvidence
  import Reevaluation
  import Report

  lemma LatestIsNew(runs: seq<JudgeRun>, run: JudgeRun)
    requires forall r <- runs :: r.answer == run.answer ==> r.createdAt < run.createdAt
    ensures LatestRun(runs + [run], run.answer) == Some(run)
  {
    LatestRunIs(runs, run.answer);
    assert (runs + [run])[..|runs|] == runs;
    if LatestRun(runs, run.answer).Some? {
      var k :| LatestOf(runs, run.answer, k) && runs[k] == LatestRun(runs, run.answer).value;
      assert runs[k] in runs;
    }
  }

  lemma WellJudgedIff(env: Env, s: Session, call: JudgeCall)
    ensures JudgedEvidence.WellJudged(env, s, call) <==> Reevaluation.Succeeds(env, s, call)
  {
    if call.reply.JudgeReplied? {
      PassesIffGrounded(call.reply.findings, TextOf(s.turns, call.answer), env.judgeId);
      forall c
        ensures KnownCompetency(env.job, c) <==> JudgedEvidence.OfJob(env.job, c)
      {
      }
    }
    hide Grounded, Passes, TextOf, KnownCompetency, JudgedEvidence.OfJob;
  }

  /** Right after a later call its run is the answer's summary: fresh, and failed exactly if the call was not judged well. */
  lemma CallIsSummarised(env: Env, s: Session, call: JudgeCall, now: nat)
    requires forall r <- s.runs :: r.answer == call.answer ==> r.createdAt < now
    ensures var sum := Report.SummaryOf(Judging(env, s, call, now), call.answer);
            && sum.Some? && sum.value.run.id == s.issued && sum.value.run.question == call.question && !sum.value.stale
            && (sum.value.failed <==> !JudgedEvidence.WellJudged(env, s, call))
  {
    var t, run := Judging(env, s, call, now), RunOf(s, call, now);
    JudgingAddsRun(env, s, call, now);
    JudgingFrame(env, s, call, now);
    Reevaluation.RunAfter(env, s, call, now);
    WellJudgedIff(env, s, call);
    hide Judging, JudgedEvidence.WellJudged, Reevaluation.Succeeds, CountOf;
    var last := t.runs[|s.runs|];
    assert t.runs == s.runs + [last];
    LatestIsNew(s.runs, last);
    hide LatestRun;
  }

  lemma CountSnoc(revisions: seq<Id>, turn: Id, id: Id)
    ensures CountOf(revisions + [turn], id) == CountOf(revisions, id) + if turn == id then 1 else 0
  {
    assert (revisions + [turn])[..|revisions|] == revisions;
  }

  lemma LatestIsOneOf(s: Session, answer: Id)
    requires LatestRun(s.runs, answer).Some?
    ensures LatestRun(s.runs, answer).value in s.runs && LatestRun(s.runs, answer).value.answer == answer
  {
    LatestRunIs(s.runs, answer);
    hide LatestRun;
  }

  /** A correction makes the summary of the corrected answer stale, and leaves every other summary as it was. */
  lemma CorrectionMakesStale(env: Env, calls: seq<Call>, op: Op, now: nat, answer: Id)
    requires op.Correct? && PlanFor(env, Reach(env, calls), op, now).error.None?
    ensures var s, t := Reach(env, calls), Perform(env, Reach(env, calls), op, now);
            var before, after := Report.SummaryOf(s, answer), Report.SummaryOf(t, answer);
            && (before.None? <==> after.None?)
            && (after.Some? ==> after.value == if answer == op.turn then before.value.(stale := true) else before.value)
  {
    var s, t := Reach(env, calls), Perform(env, Reach(env, calls), op, now);
    CorrectionOutcome(env, s, op, now);
    Report.ReachKeeps(env, calls);
    hide Reach, Perform, PlanFor, CountOf, LatestRun, Withdraws, Report.TurnsOk, Report.ItemsOk, Report.CurrentExcept;
    var k :| TurnAt(s.turns, op.turn, k) && Corrects(s, t, k, op.text);
    if LatestRun(s.runs, answer).Some? {
      var r := LatestRun(s.runs, answer).value;
      LatestIsOneOf(s, answer);
      assert Report.RunOk(s, r);
      CountSnoc(s.revisions, op.turn, answer);
    }
  }
}
