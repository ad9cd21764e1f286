/** Judge runs as the recruiter's report presents them, and what that says about the evidence graph. */
module Report {
  import opened Common
  import opened Events
  import opened Evidence
  import opened JudgeGate
  import opened Interview
  import opened Service
  import opened Plans
  import Counterfactual
  import Policy

  // ---- the report ----

  datatype Summary = Summary(run: JudgeRun, failed: bool, stale: bool)

  function Stale(s: Session, r: JudgeRun): bool {
    r.revisions != CountOf(s.revisions, r.answer)
  }

  function SummaryOf(s: Session, answer: Id): Option<Summary> {
    match LatestRun(s.runs, answer)
    case None => None
    case Some(r) => Some(Summary(r, r.failed, Stale(s, r)))
  }

  /** The passes of the report: revisions by turn, the latest run by answer, and the flags of each. */
  method JudgeRunSummaries(s: Session) returns (summaries: map<Id, Summary>)
    ensures forall a :: SummaryOf(s, a) == if a in summaries then Some(summaries[a]) else None
  {
    var revisionsByTurn: map<Id, nat> := map[];
    for i := 0 to |s.revisions|
      invariant forall a :: CountOf(s.revisions[..i], a) == if a in revisionsByTurn then revisionsByTurn[a] else 0
    {
      assert s.revisions[..i + 1][..i] == s.revisions[..i];
      var turn := s.revisions[i];
      revisionsByTurn := revisionsByTurn[turn := (if turn in revisionsByTurn then revisionsByTurn[turn] else 0) + 1];
    }
    assert s.revisions[..|s.revisions|] == s.revisions;
    var latest: map<Id, JudgeRun> := map[];
    for i := 0 to |s.runs|
      invariant forall a :: LatestRun(s.runs[..i], a) == if a in latest then Some(latest[a]) else None
      invariant forall a :: a in latest ==> latest[a].answer == a
    {
      assert s.runs[..i + 1][..i] == s.runs[..i];
      var run := s.runs[i];
      if run.answer !in latest || run.createdAt > latest[run.answer].createdAt {
        latest := latest[run.answer := run];
      }
    }
    assert s.runs[..|s.runs|] == s.runs;
    summaries := map a | a in latest ::
      var r := latest[a];
      Summary(r, r.failed, r.revisions != if a in revisionsByTurn then revisionsByTurn[a] else 0);
  }

  // ---- what every reachable session keeps ----

  ghost predicate TurnsOk(s: Session) {
    && (forall i :: 0 <= i < |s.turns| ==> s.turns[i].id < s.issued)
    && (forall i, j :: 0 <= i < j < |s.turns| ==> s.turns[i].id != s.turns[j].id)
  }

  /** An active semantic quote is literal in the current text of its turn, and no judge's item is verified. */
  ghost predicate ItemOk(turns: seq<Turn>, item: Item) {
    && TurnOf(turns, item.turnId).Some?
    && (item.active && Semantic(item.source) && item.quote.Some? ==> Occurs(item.quote.value, TextOf(turns, item.turnId)))
    && (Semantic(item.source) ==> item.state != Verified)
  }

  ghost predicate ItemsOk(s: Session) {
    forall item <- Items(s.graph) :: item.id < s.issued && ItemOk(s.turns, item)
  }

  ghost predicate HasItem(g: Graph, id: Id) {
    exists item :: item in Items(g) && item.id == id
  }

  ghost predicate ItemOfRun(s: Session, r: JudgeRun, item: Item) {
    && item.turnId == r.answer && Semantic(item.source)
    && (r.revisions < CountOf(s.revisions, r.answer) ==> !item.active)
  }

  ghost predicate RunOk(s: Session, r: JudgeRun) {
    && (forall id <- r.observations :: id < s.issued)
    && r.revisions <= CountOf(s.revisions, r.answer)
    && (!r.failed ==>
          && (forall id <- r.observations :: HasItem(s.graph, id))
          && (forall item <- Items(s.graph) :: item.id in r.observations ==> ItemOfRun(s, r, item)))
  }

  ghost predicate RunsOk(s: Session) {
    forall r <- s.runs :: RunOk(s, r)
  }

  /** The last run of an answer in the order of recording. */
  function LastRun(runs: seq<JudgeRun>, answer: Id): Option<JudgeRun> {
    if |runs| == 0 then None
    else if runs[|runs| - 1].answer == answer then Some(runs[|runs| - 1])
    else LastRun(runs[..|runs| - 1], answer)
  }

  ghost predicate AllActive(g: Graph, r: JudgeRun) {
    forall item <- Items(g) :: item.id in r.observations ==> item.active
  }

  /** The last run of every answer but one is current: unless it failed or is stale, all its items are active. */
  ghost predicate CurrentExcept(s: Session, skip: Option<Id>) {
    forall r <- s.runs ::
      LastRun(s.runs, r.answer) == Some(r) && !r.failed && !Stale(s, r) && skip != Some(r.answer) ==> AllActive(s.graph, r)
  }

  /** The invariant, but for the runs of an answer that is being judged again. */
  ghost predicate InvExcept(s: Session, skip: Option<Id>) {
    TurnsOk(s) && ItemsOk(s) && RunsOk(s) && CurrentExcept(s, skip)
  }

  ghost predicate Inv(s: Session) {
    InvExcept(s, None)
  }

  // ---- kinds of change ----

  /** Every turn of s is still found in t, with the same text. */
  ghost predicate SameTexts(s: Session, t: Session) {
    forall id :: TurnOf(s.turns, id).Some? ==> TurnOf(t.turns, id).Some? && TextOf(t.turns, id) == TextOf(s.turns, id)
  }

  lemma EvidenceUntouched(s: Session, t: Session)
    requires Inv(s) && TurnsOk(t) && SameTexts(s, t) && t.issued >= s.issued
    requires t.graph == s.graph && t.runs == s.runs && t.revisions == s.revisions
    ensures Inv(t)
  {
    hide TurnOf, TextOf, CountOf, LastRun, TurnsOk, Items;
    assert RunsOk(t) by {
      forall r | r in t.runs
        ensures RunOk(t, r)
      {
        assert RunOk(s, r);
        assert forall item <- Items(s.graph) :: ItemOfRun(s, r, item) ==> ItemOfRun(t, r, item);
      }
    }
  }

  lemma TurnAdded(s: Session, t: Session, turn: Turn)
    requires TurnsOk(s) && t.turns == s.turns + [turn] && turn.id == s.issued && t.issued > s.issued
    ensures TurnsOk(t) && SameTexts(s, t)
  {
    hide CountOf;
    forall id | TurnOf(s.turns, id).Some?
      ensures TurnOf(t.turns, id) == TurnOf(s.turns, id)
    {
      SameIndex(s.turns, turn, id);
    }
  }

  lemma {:induction false} SameIndex(turns: seq<Turn>, turn: Turn, id: Id)
    requires IndexOfTurn(turns, id) < |turns|
    ensures IndexOfTurn(turns + [turn], id) == IndexOfTurn(turns, id)
  {
    var k := IndexOfTurn(turns, id);
    var m := IndexOfTurn(turns + [turn], id);
    assert (turns + [turn])[k].id == id;
  }

  /** One new item, with a new id, on a known turn. */
  lemma ItemAdded(s: Session, t: Session, item: Item, skip: Option<Id>)
    requires TurnsOk(s) && ItemsOk(s) && RunsOk(s) && CurrentExcept(s, skip)
    requires Items(t.graph) == Items(s.graph) + {item} && item.id == s.issued && t.issued == s.issued + 1
    requires t.turns == s.turns && t.runs == s.runs && t.revisions == s.revisions
    requires ItemOk(t.turns, item)
    ensures TurnsOk(t) && ItemsOk(t) && RunsOk(t) && CurrentExcept(t, skip)
  {
    hide TurnOf, TextOf, CountOf, LastRun, ItemOk, Items;
    forall r | r in t.runs
      ensures RunOk(t, r) && item.id !in r.observations
    {
      assert RunOk(s, r);
      RunSurvives(s, t, item, r);
    }
  }

  lemma RunSurvives(s: Session, t: Session, item: Item, r: JudgeRun)
    requires RunOk(s, r) && t.issued >= s.issued && t.revisions == s.revisions
    requires Items(t.graph) == Items(s.graph) + {item} && item.id == s.issued
    ensures RunOk(t, r) && item.id !in r.observations
  {
    hide CountOf, Items;
    if !r.failed {
      forall id | id in r.observations
        ensures HasItem(t.graph, id)
      {
        var x :| x in Items(s.graph) && x.id == id;
        assert x in Items(t.graph);
      }
      forall x | x in Items(t.graph) && x.id in r.observations
        ensures ItemOfRun(t, r, x)
      {
        assert x in Items(s.graph);
        assert ItemOfRun(s, r, x);
      }
    }
  }

  /** Retiring the semantic items of a turn only unsettles the last run of that turn. */
  lemma ItemsRetired(s: Session, t: Session, turn: Id, skip: Option<Id>)
    requires TurnsOk(s) && ItemsOk(s) && RunsOk(s) && CurrentExcept(s, skip)
    requires t.graph == Supersede(s.graph, turn) && t.issued == s.issued
    requires t.turns == s.turns && t.runs == s.runs && t.revisions == s.revisions
    requires skip.Some? ==> skip == Some(turn)
    ensures TurnsOk(t) && ItemsOk(t) && RunsOk(t) && CurrentExcept(t, Some(turn))
  {
    hide TurnOf, TextOf, CountOf, LastRun, Items;
    SupersedeRetires(s.graph, turn);
    forall x | x in Items(t.graph)
      ensures x.id < t.issued && ItemOk(t.turns, x)
    {
      var y :| y in Items(s.graph) && x == Retire(y, turn);
    }
    forall r | r in t.runs
      ensures RunOk(t, r)
    {
      assert RunOk(s, r);
      RunRetired(s, t, turn, r);
    }
    forall r | r in t.runs && LastRun(t.runs, r.answer) == Some(r) && !r.failed && !Stale(t, r) && r.answer != turn
      ensures AllActive(t.graph, r)
    {
      OtherRunStaysActive(s, t, turn, r);
    }
  }

  lemma RunRetired(s: Session, t: Session, turn: Id, r: JudgeRun)
    requires RunOk(s, r) && t.issued >= s.issued
    requires CountOf(t.revisions, r.answer) == CountOf(s.revisions, r.answer)
             || (r.answer == turn && CountOf(t.revisions, r.answer) == CountOf(s.revisions, r.answer) + 1)
    requires Items(t.graph) == set item <- Items(s.graph) :: Retire(item, turn)
    ensures RunOk(t, r)
  {
    hide CountOf, Items;
    if !r.failed {
      forall id | id in r.observations
        ensures HasItem(t.graph, id)
      {
        var x :| x in Items(s.graph) && x.id == id;
        assert Retire(x, turn) in Items(t.graph);
      }
      forall x | x in Items(t.graph) && x.id in r.observations
        ensures ItemOfRun(t, r, x)
      {
        var y :| y in Items(s.graph) && x == Retire(y, turn);
        assert ItemOfRun(s, r, y);
      }
    }
  }

  lemma OtherRunStaysActive(s: Session, t: Session, turn: Id, r: JudgeRun)
    requires RunOk(s, r) && AllActive(s.graph, r) && !r.failed && r.answer != turn
    requires Items(t.graph) == set item <- Items(s.graph) :: Retire(item, turn)
    ensures AllActive(t.graph, r)
  {
    hide CountOf, Items;
    forall x | x in Items(t.graph) && x.id in r.observations
      ensures x.active
    {
      var y :| y in Items(s.graph) && x == Retire(y, turn);
      assert ItemOfRun(s, r, y);
    }
  }

  /** Recording a run settles its answer again. */
  lemma RunAdded(s: Session, t: Session, r: JudgeRun)
    requires TurnsOk(s) && ItemsOk(s) && RunsOk(s) && CurrentExcept(s, Some(r.answer))
    requires t.runs == s.runs + [r] && t.graph == s.graph && t.issued == s.issued
    requires t.turns == s.turns && t.revisions == s.revisions
    requires RunOk(t, r) && (!r.failed ==> AllActive(t.graph, r))
    ensures Inv(t)
  {
    hide TurnOf, TextOf, CountOf, ItemOk, Items;
    forall q | q in t.runs
      ensures RunOk(t, q)
    {
      if q in s.runs {
        assert RunOk(s, q);
        SameRunOk(s, t, q);
      }
    }
    forall q | q in t.runs && LastRun(t.runs, q.answer) == Some(q) && !q.failed && !Stale(t, q)
      ensures AllActive(t.graph, q)
    {
      assert t.runs[..|s.runs|] == s.runs;
      if q.answer != r.answer {
        assert LastRun(s.runs, q.answer) == Some(q);
        assert q in s.runs;
      }
    }
  }

  lemma SameRunOk(s: Session, t: Session, r: JudgeRun)
    requires RunOk(s, r) && t.graph == s.graph && t.issued >= s.issued && t.revisions == s.revisions
    ensures RunOk(t, r)
  {
    hide CountOf, Items;
    assert forall item <- Items(s.graph) :: ItemOfRun(s, r, item) ==> ItemOfRun(t, r, item);
  }

  // ---- the steps ----

  lemma NotSemantic(source: string)
    requires |source| > 0 && source[0] != 's'
    ensures !Semantic(source)
  {
    assert SEMANTIC[0] == 's';
  }

  lemma ClaimsKeep(env: Env, s: Session, answer: Id, tags: seq<string>, now: nat)
    requires Inv(s) && TurnOf(s.turns, answer).Some?
    ensures Inv(ClaimAll(env, s, answer, tags, now))
  {
    hide Inv, Claim, TurnOf, ItemOk, Log;
    if |tags| > 0 {
      var n := |tags| - 1;
      var t := ClaimAll(env, s, answer, tags[..n], now);
      ClaimsKeep(env, s, answer, tags[..n], now);
      ClaimAllFrame(env, s, answer, tags[..n], now);
      var item := ClaimItem(t.issued, answer);
      var u := t.(graph := Claim(t.graph, tags[n], item), issued := t.issued + 1);
      ClaimAddsItem(t.graph, tags[n], item);
      ClaimItemOk(t.turns, t.issued, answer);
      InvWithItem(t, u, item);
      Counterfactual.LogFields(env, u, EvidenceObserved, Some(answer), Details(""), now);
      SameInv(u, Log(env, u, EvidenceObserved, Some(answer), Details(""), now));
    }
  }

  lemma ClaimItemOk(turns: seq<Turn>, id: Id, answer: Id)
    requires TurnOf(turns, answer).Some?
    ensures ItemOk(turns, ClaimItem(id, answer))
  {
    NotSemantic("candidate_response");
  }

  lemma InvWithItem(s: Session, t: Session, item: Item)
    requires Inv(s)
    requires Items(t.graph) == Items(s.graph) + {item} && item.id == s.issued && t.issued == s.issued + 1
    requires t.turns == s.turns && t.runs == s.runs && t.revisions == s.revisions
    requires ItemOk(t.turns, item)
    ensures Inv(t)
  {
    hide TurnsOk, ItemsOk, RunsOk, CurrentExcept, ItemOk, Items;
    ItemAdded(s, t, item, None);
  }

  lemma SameInv(s: Session, t: Session)
    requires Inv(s) && t.turns == s.turns && t.graph == s.graph && t.runs == s.runs && t.revisions == s.revisions && t.issued == s.issued
    ensures Inv(t)
  {
    SameExcept(s, t, None);
  }

  lemma SameExcept(s: Session, t: Session, skip: Option<Id>)
    requires InvExcept(s, skip)
    requires t.turns == s.turns && t.graph == s.graph && t.runs == s.runs && t.revisions == s.revisions && t.issued == s.issued
    ensures InvExcept(t, skip)
  {
    hide TurnOf, TextOf, CountOf, LastRun, ItemOk, Items;
    assert forall r <- s.runs :: RunOk(s, r) ==> RunOk(t, r) by {
      forall r | r in s.runs && RunOk(s, r)
        ensures RunOk(t, r)
      {
        SameRunOk(s, t, r);
      }
    }
  }

  /** The items that a list of observations becomes. */
  function NewItems(os: seq<Observation>, from: nat): set<Item> {
    set i | 0 <= i < |os| :: ItemOf(os[i], from + i)
  }

  lemma NewItemsSnoc(os: seq<Observation>, from: nat)
    requires |os| > 0
    ensures NewItems(os, from) == NewItems(os[..|os| - 1], from) + {ItemOf(os[|os| - 1], from + |os| - 1)}
  {
    var n := |os| - 1;
    forall x | x in NewItems(os, from)
      ensures x in NewItems(os[..n], from) + {ItemOf(os[n], from + n)}
    {
      var i :| 0 <= i < |os| && x == ItemOf(os[i], from + i);
      if i < n {
        assert os[..n][i] == os[i];
      }
    }
    forall x | x in NewItems(os[..n], from)
      ensures x in NewItems(os, from)
    {
      var i :| 0 <= i < n && x == ItemOf(os[..n][i], from + i);
      assert os[..n][i] == os[i];
    }
  }

  lemma {:induction false} ObservationsKeep(env: Env, s: Session, os: seq<Observation>, now: nat, skip: Option<Id>)
    requires InvExcept(s, skip)
    requires forall i :: 0 <= i < |os| ==> ItemOk(s.turns, ItemOf(os[i], 0))
    ensures InvExcept(ObserveAll(env, s, os, now), skip)
    ensures ObserveAll(env, s, os, now).issued == s.issued + |os|
    ensures Items(ObserveAll(env, s, os, now).graph) == Items(s.graph) + NewItems(os, s.issued)
  {
    hide InvExcept, Observe, ItemOk, ObserveOne, Items, NewItems;
    if |os| == 0 {
      assert NewItems(os, s.issued) == {} by {
        NoNewItems(s.issued);
      }
    } else {
      var n := |os| - 1;
      var t := ObserveAll(env, s, os[..n], now);
      ObservationsKeep(env, s, os[..n], now, skip);
      ObserveAllFrame(env, s, os[..n], now);
      ObservationKeeps(env, t, os[n], now, skip);
      NewItemsSnoc(os, s.issued);
    }
  }

  lemma NoNewItems(from: nat)
    ensures NewItems([], from) == {}
  {
  }

  lemma ObservationKeeps(env: Env, s: Session, o: Observation, now: nat, skip: Option<Id>)
    requires InvExcept(s, skip) && ItemOk(s.turns, ItemOf(o, 0))
    ensures InvExcept(ObserveOne(env, s, o, now), skip)
    ensures ObserveOne(env, s, o, now).issued == s.issued + 1
    ensures Items(ObserveOne(env, s, o, now).graph) == Items(s.graph) + {ItemOf(o, s.issued)}
  {
    hide TurnsOk, ItemsOk, RunsOk, CurrentExcept, Observe, TurnOf, TextOf, Log, Items;
    var item := ItemOf(o, s.issued);
    var t := s.(graph := Observe(s.graph, o.competency, item), issued := s.issued + 1);
    ObserveAddsItem(s.graph, o.competency, item);
    ItemAdded(s, t, item, skip);
    Counterfactual.LogFields(env, t, EvidenceObserved, Some(o.turnId), Details(""), now);
    SameExcept(t, Log(env, t, EvidenceObserved, Some(o.turnId), Details(""), now), skip);
  }

  lemma CountSnoc(revisions: seq<Id>, turn: Id, id: Id)
    ensures CountOf(revisions + [turn], id) == CountOf(revisions, id) + if turn == id then 1 else 0
  {
    assert (revisions + [turn])[..|revisions|] == revisions;
  }

  lemma TextAfterSet(turns: seq<Turn>, turn: Id, text: string, id: Id)
    ensures TurnOf(turns, id).Some? <==> TurnOf(SetText(turns, turn, text), id).Some?
    ensures id != turn ==> TextOf(SetText(turns, turn, text), id) == TextOf(turns, id)
  {
    SameIdsSameIndex(turns, SetText(turns, turn, text), id);
  }

  lemma {:induction false} SameIdsSameIndex(a: seq<Turn>, b: seq<Turn>, id: Id)
    requires |a| == |b| && forall i :: 0 <= i < |a| ==> a[i].id == b[i].id
    ensures IndexOfTurn(a, id) == IndexOfTurn(b, id)
  {
    var i, j := IndexOfTurn(a, id), IndexOfTurn(b, id);
    if i < |a| {
      assert b[i].id == id;
    }
    if j < |b| {
      assert a[j].id == id;
    }
  }

  /** A correction withdraws every judgement of the old text and makes the runs of that answer stale. */
  lemma CorrectKeeps(env: Env, s: Session, turn: Id, text: string, now: nat)
    requires Inv(s)
    ensures Inv(Correcting(env, s, turn, text, now))
  {
    hide TurnOf, TextOf, CountOf, LastRun, Correcting, Items, SetText;
    var t := Correcting(env, s, turn, text, now);
    Counterfactual.CorrectFields(env, s, turn, text, now);
    SupersedeRetires(s.graph, turn);
    assert ItemsOk(t) by {
      forall x | x in Items(t.graph)
        ensures x.id < t.issued && ItemOk(t.turns, x)
      {
        var y :| y in Items(s.graph) && x == Retire(y, turn);
        TextAfterSet(s.turns, turn, text, y.turnId);
      }
    }
    forall r | r in t.runs
      ensures RunOk(t, r)
    {
      assert RunOk(s, r);
      CountSnoc(s.revisions, turn, r.answer);
      RunRetired(s, t, turn, r);
    }
    forall r | r in t.runs && LastRun(t.runs, r.answer) == Some(r) && !r.failed && !Stale(t, r)
      ensures AllActive(t.graph, r)
    {
      assert RunOk(s, r);
      CountSnoc(s.revisions, turn, r.answer);
      OtherRunStaysActive(s, t, turn, r);
    }
  }

  lemma FailureKeeps(env: Env, s: Session, run: JudgeRun, now: nat)
    requires InvExcept(s, Some(run.answer))
    requires (forall id <- run.observations :: id < s.issued) && run.revisions <= CountOf(s.revisions, run.answer)
    ensures Inv(RecordFailure(env, s, run, now))
  {
    hide TurnsOk, ItemsOk, RunsOk, CurrentExcept, CountOf, Items;
    RunAdded(s, RecordFailure(env, s, run, now), run.(failed := true));
  }

  lemma FindingItemOk(env: Env, turns: seq<Turn>, f: Finding, answer: Id, run: Id)
    requires TurnOf(turns, answer).Some? && GateOne(f, TextOf(turns, answer), env.judgeId).None?
    ensures ItemOk(turns, ItemOf(ToObservation(f, answer, env.judgeId).(runId := Some(run)), 0))
  {
    hide TurnOf, TextOf, Occurs;
  }

  /** The items of a new run are its own: nothing older has their ids. */
  lemma NewRunOk(s: Session, t: Session, run: JudgeRun, os: seq<Observation>)
    requires ItemsOk(s) && Items(t.graph) == Items(s.graph) + NewItems(os, s.issued) && t.issued == s.issued + |os|
    requires run.observations == Ids(s.issued, |os|) && run.revisions == CountOf(t.revisions, run.answer)
    requires forall i :: 0 <= i < |os| ==> os[i].turnId == run.answer && Semantic(os[i].source)
    ensures RunOk(t, run) && AllActive(t.graph, run)
  {
    hide CountOf, ItemOk, Items, Semantic;
    forall id | id in run.observations
      ensures HasItem(t.graph, id)
    {
      var i :| 0 <= i < |os| && id == s.issued + i;
      assert ItemOf(os[i], s.issued + i) in NewItems(os, s.issued);
      assert ItemOf(os[i], s.issued + i) in Items(t.graph);
    }
    forall x | x in Items(t.graph) && x.id in run.observations
      ensures ItemOfRun(t, run, x) && x.active
    {
      if x in Items(s.graph) {
        assert false;
      } else {
        var i :| 0 <= i < |os| && x == ItemOf(os[i], s.issued + i);
      }
    }
  }

  lemma FindingsKeep(env: Env, s: Session, run: JudgeRun, findings: seq<Finding>, now: nat)
    requires InvExcept(s, Some(run.answer)) && TurnOf(s.turns, run.answer).Some?
    requires run.revisions == CountOf(s.revisions, run.answer) && !run.failed
    requires Passes(findings, TextOf(s.turns, run.answer), env.judgeId)
    ensures Inv(ApplyFindings(env, s, run, findings, now))
  {
    hide InvExcept, Inv, TurnOf, TextOf, CountOf, ItemOk, Items, NewItems, GateOne, KnownPrefix, ObserveAll, Semantic, NewItems;
    var n := KnownPrefix(env.job, findings);
    var os := Observations(env, findings[..n], run.answer, run.id);
    forall i | 0 <= i < |os|
      ensures ItemOk(s.turns, ItemOf(os[i], 0))
    {
      assert GateOne(findings[i], TextOf(s.turns, run.answer), env.judgeId).None?;
      FindingItemOk(env, s.turns, findings[i], run.answer, run.id);
    }
    ObservationsKeep(env, s, os, now, Some(run.answer));
    ObserveAllFrame(env, s, os, now);
    var t, done := ObserveAll(env, s, os, now), run.(observations := Ids(s.issued, n));
    if n < |findings| {
      FailureKeeps(env, t, done, now);
    } else {
      ItemsOfInv(s, Some(run.answer));
      NewRunOk(s, t, done, os);
      RecordKeeps(env, t, done, now);
    }
  }

  lemma ItemsOfInv(s: Session, skip: Option<Id>)
    requires InvExcept(s, skip)
    ensures ItemsOk(s)
  {
  }

  lemma RecordKeeps(env: Env, s: Session, run: JudgeRun, now: nat)
    requires InvExcept(s, Some(run.answer)) && RunOk(s, run) && AllActive(s.graph, run)
    ensures Inv(Record(env, s, run, now))
  {
    hide TurnsOk, ItemsOk, RunsOk, CurrentExcept, CountOf, Items, RunOk, AllActive;
    SameRunOk(s, Record(env, s, run, now), run);
    RunAdded(s, Record(env, s, run, now), run);
  }

  lemma IssuedMore(s: Session, t: Session)
    requires Inv(s) && t == s.(issued := s.issued + 1)
    ensures Inv(t) && forall skip :: InvExcept(t, skip)
  {
    hide CountOf, LastRun, TurnOf, TextOf, ItemOk, Items;
    assert forall r <- s.runs :: RunOk(s, r) ==> RunOk(t, r) by {
      forall r | r in s.runs && RunOk(s, r)
        ensures RunOk(t, r)
      {
        SameRunOk(s, t, r);
      }
    }
  }

  lemma JudgingKeeps(env: Env, s: Session, call: JudgeCall, now: nat)
    requires Inv(s) && TurnOf(s.turns, call.answer).Some?
    ensures Inv(Judging(env, s, call, now))
  {
    hide Inv, InvExcept, TurnOf, TextOf, CountOf, SupersedeTurn, ApplyFindings, RecordFailure, Passes;
    var run, t := RunOf(s, call, now), s.(issued := s.issued + 1);
    IssuedMore(s, t);
    if Gated(env, s, call) {
      SupersedeTurnFrame(env, t, call.answer, now);
      var u := if call.supersede then SupersedeTurn(env, t, call.answer, now) else t;
      RetiringKeeps(t, u, call.answer);
      var v := Dispute(env, u, run, call.reply.audit, now);
      SameExcept(u, v, Some(call.answer));
      FailureKeeps(env, u, run, now);
      FindingsKeep(env, v, run, call.reply.findings, now);
    } else {
      FailureKeeps(env, t, run, now);
    }
  }

  lemma RetiringKeeps(s: Session, t: Session, turn: Id)
    requires InvExcept(s, None) && InvExcept(s, Some(turn))
    requires t.turns == s.turns && t.runs == s.runs && t.revisions == s.revisions && t.issued == s.issued
    requires t.graph == s.graph || t.graph == Supersede(s.graph, turn)
    ensures InvExcept(t, Some(turn))
  {
    hide TurnsOk, ItemsOk, RunsOk, CurrentExcept;
    if t.graph == s.graph {
      SameExcept(s, t, Some(turn));
    } else {
      ItemsRetired(s, t, turn, None);
    }
  }

  lemma AskKeeps(env: Env, s: Session, d: Decision, origin: Origin, covered: seq<string>, tool: Option<Tool>, now: nat)
    requires Inv(s)
    ensures Inv(Ask(env, s, d, origin, covered, tool, now))
  {
    hide Inv, Ask;
    var t := Ask(env, s, d, origin, covered, tool, now);
    Counterfactual.AskFields(env, s, d, origin, covered, tool, now);
    TurnsOfInv(s);
    TurnAdded(s, t, t.turns[|s.turns|]);
    EvidenceUntouched(s, t);
  }

  lemma TurnsOfInv(s: Session)
    requires Inv(s)
    ensures TurnsOk(s)
  {
  }

  lemma SameTurns(s: Session, t: Session)
    requires Inv(s) && t.turns == s.turns && t.issued >= s.issued
    requires t.graph == s.graph && t.runs == s.runs && t.revisions == s.revisions
    ensures Inv(t)
  {
    hide ItemsOk, RunsOk, CurrentExcept, TurnOf, TextOf;
    EvidenceUntouched(s, t);
  }

  lemma HearKeeps(env: Env, s: Session, text: string, parent: Option<Id>, tags: seq<string>, now: nat)
    requires Inv(s)
    ensures Inv(Hear(env, s, text, parent, tags, now))
  {
    hide Inv, Hear;
    var t := Hear(env, s, text, parent, tags, now);
    Counterfactual.HearFields(env, s, text, parent, tags, now);
    TurnsOfInv(s);
    TurnAdded(s, t, t.turns[|s.turns|]);
    EvidenceUntouched(s, t);
  }

  lemma ControlKeeps(env: Env, s: Session, kind: ControlKind, reply: Option<ControlReply>, now: nat)
    requires Inv(s)
    ensures Inv(Controlling(env, s, kind, reply, now))
  {
    hide Inv, Log;
    Policy.ControlFields(env, s, kind, reply, now);
    var t := Log(env, s.(paused := PauseAfter(s.paused, kind)), CandidateControl, None, ForControl(kind), now);
    Counterfactual.LogFields(env, s.(paused := PauseAfter(s.paused, kind)), CandidateControl, None, ForControl(kind), now);
    if reply.Some? {
      var r := reply.value;
      var turn := Turn(t.issued, Interviewer, r.text, None, r.tags, r.lane, true, r.nonEvaluative);
      Counterfactual.LogFields(env, t.(turns := t.turns + [turn], issued := t.issued + 1), InterviewerTurn,
                               Some(turn.id), Details(""), now);
      TurnsOfInv(s);
      TurnAdded(s, Controlling(env, s, kind, reply, now), turn);
      EvidenceUntouched(s, Controlling(env, s, kind, reply, now));
    } else {
      SameTurns(s, t);
    }
  }

  lemma VerdictOk(turns: seq<Turn>, tool: Tool, artifact: Id, passed: Option<bool>)
    requires TurnOf(turns, artifact).Some?
    ensures forall i :: 0 <= i < |VerdictObservations(tool, artifact, passed)| ==>
              ItemOk(turns, ItemOf(VerdictObservations(tool, artifact, passed)[i], 0))
  {
    hide TurnOf, TextOf;
    assert ("tool:" + tool.kind)[0] == 't';
    NotSemantic("tool:" + tool.kind);
  }

  lemma AssessKeeps(env: Env, s: Session, step: Step, now: nat)
    requires Inv(s) && step.AssessStep? && TurnOf(s.turns, step.artifact).Some?
    ensures Inv(Apply(env, s, step, now))
  {
    hide TurnsOk, ItemsOk, RunsOk, CurrentExcept, Evaluating, ObserveAll, VerdictObservations, Ask, TurnOf, ItemOk;
    Counterfactual.EvaluatingFields(env, s, step.submitted.id, now);
    var evaluated := Evaluating(env, s, step.submitted.id, now);
    SameTurns(s, evaluated);
    var os := VerdictObservations(step.submitted, step.artifact, step.passed);
    VerdictOk(evaluated.turns, step.submitted, step.artifact, step.passed);
    ObservationsKeep(env, evaluated, os, now, None);
    AskKeeps(env, ObserveAll(env, evaluated, os, now), step.decision, AfterTool, step.covered, step.tool, now);
  }

  lemma AdmissibleItemOk(env: Env, s: Session, o: Observation)
    requires Admissible(env, s, o)
    ensures ItemOk(s.turns, ItemOf(o, 0))
  {
    hide TurnOf, TextOf, Occurs;
  }

  lemma StepKeeps(env: Env, s: Session, step: Step, now: nat)
    requires Inv(s) && Enabled(env, s, step)
    ensures Inv(Apply(env, s, step, now))
  {
    hide TurnsOk, ItemsOk, RunsOk, CurrentExcept, TurnOf, Admissible, AppendRefusal, Ask, Hear, ClaimAll, Judging, ObserveOne,
         Controlling, Correcting, Log, Assessing, Submitting, Cancelling;
    match step
    case AskStep(d, origin, covered, tool) => AskKeeps(env, s, d, origin, covered, tool, now);
    case HearStep(text, parent, tags) => HearKeeps(env, s, text, parent, tags, now);
    case ClaimStep(answer, tags) => ClaimsKeep(env, s, answer, tags, now);
    case JudgeStep(call) => JudgingKeeps(env, s, call, now);
    case ObserveStep(o) =>
      AdmissibleItemOk(env, s, o);
      ObservationKeeps(env, s, o, now, None);
    case ControlStep(kind, reply) => ControlKeeps(env, s, kind, reply, now);
    case CorrectStep(turn, text) => CorrectKeeps(env, s, turn, text, now);
    case AssessStep(_, _, _, _, _, _) => AssessKeeps(env, s, step, now);
    case _ =>
      Counterfactual.PlainFields(env, s, step, now);
      SameTurns(s, Apply(env, s, step, now));
  }

  lemma {:induction false} StepsKeep(env: Env, s: Session, steps: seq<Step>, now: nat)
    requires Inv(s) && AllFine(NO_CONTRACT, env, s, steps, now)
    ensures Inv(ApplyAll(env, s, steps, now))
  {
    hide Inv, Enabled, Apply;
    if |steps| > 0 {
      var n := |steps| - 1;
      StepsKeep(env, s, steps[..n], now);
      StepKeeps(env, ApplyAll(env, s, steps[..n], now), steps[n], now);
    }
  }

  lemma NewKeeps(env: Env)
    ensures Inv(NewSession(env, 0))
  {
    assert Items(Initial(CompetencyIds(env.job))) == {};
  }

  lemma {:induction false} ReachKeeps(env: Env, calls: seq<Call>)
    ensures Inv(Reach(env, calls))
  {
    hide Inv, PlanFor, ApplyAll, NewSession;
    if |calls| == 0 {
      NewKeeps(env);
    } else {
      var n := |calls| - 1;
      ReachKeeps(env, calls[..n]);
      var s := Reach(env, calls[..n]);
      PlanFine(NO_CONTRACT, env, s, calls[n].op, calls[n].now);
      StepsKeep(env, s, PlanFor(env, s, calls[n].op, calls[n].now).steps, calls[n].now);
    }
  }

  // ---- the graph's own invariant ----

  lemma {:induction false} ClaimsKeepGraph(env: Env, s: Session, answer: Id, tags: seq<string>, now: nat)
    requires GraphOk(s.graph)
    ensures GraphOk(ClaimAll(env, s, answer, tags, now).graph)
  {
    hide GraphOk, Claim;
    if |tags| > 0 {
      var n := |tags| - 1;
      ClaimsKeepGraph(env, s, answer, tags[..n], now);
      var t := ClaimAll(env, s, answer, tags[..n], now);
      StepKeepsOk(t.graph, ClaimOp(tags[n], ClaimItem(t.issued, answer)));
    }
  }

  lemma {:induction false} ObservationsKeepGraph(env: Env, s: Session, os: seq<Observation>, now: nat)
    requires GraphOk(s.graph)
    ensures GraphOk(ObserveAll(env, s, os, now).graph)
  {
    hide GraphOk, Observe;
    if |os| > 0 {
      var n := |os| - 1;
      ObservationsKeepGraph(env, s, os[..n], now);
      var t := ObserveAll(env, s, os[..n], now);
      StepKeepsOk(t.graph, ObserveOp(os[n].competency, ItemOf(os[n], t.issued)));
    }
  }

  lemma JudgingKeepsGraph(env: Env, s: Session, call: JudgeCall, now: nat)
    requires GraphOk(s.graph)
    ensures GraphOk(Judging(env, s, call, now).graph)
  {
    hide GraphOk, SupersedeTurn, ObserveAll, KnownPrefix, RunOf, Passes;
    var run, t := RunOf(s, call, now), s.(issued := s.issued + 1);
    if Gated(env, s, call) {
      SupersedeTurnFrame(env, t, call.answer, now);
      StepKeepsOk(t.graph, SupersedeOp(call.answer));
      var u := if call.supersede then SupersedeTurn(env, t, call.answer, now) else t;
      var v, findings := Dispute(env, u, run, call.reply.audit, now), call.reply.findings;
      var n := KnownPrefix(env.job, findings);
      ObservationsKeepGraph(env, v, Observations(env, findings[..n], run.answer, run.id), now);
    }
  }

  lemma StepKeepsGraph(env: Env, s: Session, step: Step, now: nat)
    requires GraphOk(s.graph)
    ensures GraphOk(Apply(env, s, step, now).graph)
  {
    hide GraphOk, Ask, Hear, ClaimAll, Judging, Controlling, Correcting, Log, ObserveAll, VerdictObservations, Submitting,
         Cancelling, Evaluating;
    match step
    case AskStep(d, origin, covered, tool) => Counterfactual.AskFields(env, s, d, origin, covered, tool, now);
    case HearStep(text, parent, tags) => Counterfactual.HearFields(env, s, text, parent, tags, now);
    case ClaimStep(answer, tags) => ClaimsKeepGraph(env, s, answer, tags, now);
    case JudgeStep(call) => JudgingKeepsGraph(env, s, call, now);
    case ObserveStep(o) =>
      StepKeepsOk(s.graph, ObserveOp(o.competency, ItemOf(o, s.issued)));
      var t := s.(graph := Observe(s.graph, o.competency, ItemOf(o, s.issued)), issued := s.issued + 1);
      Counterfactual.LogFields(env, t, EvidenceObserved, Some(o.turnId), Details(""), now);
    case ControlStep(kind, reply) => Policy.ControlFields(env, s, kind, reply, now);
    case CorrectStep(turn, text) =>
      Counterfactual.CorrectFields(env, s, turn, text, now);
      StepKeepsOk(s.graph, SupersedeOp(turn));
    case AssessStep(tool, artifact, passed, _, _, _) =>
      Counterfactual.AssessFields(env, s, step, now);
      Counterfactual.EvaluatingFields(env, s, tool.id, now);
      ObservationsKeepGraph(env, Evaluating(env, s, tool.id, now), VerdictObservations(tool, artifact, passed), now);
    case _ => Counterfactual.PlainFields(env, s, step, now);
  }

  lemma {:induction false} StepsKeepGraph(env: Env, s: Session, steps: seq<Step>, now: nat)
    requires GraphOk(s.graph)
    ensures GraphOk(ApplyAll(env, s, steps, now).graph)
  {
    hide GraphOk, Apply;
    if |steps| > 0 {
      var n := |steps| - 1;
      StepsKeepGraph(env, s, steps[..n], now);
      StepKeepsGraph(env, ApplyAll(env, s, steps[..n], now), steps[n], now);
    }
  }

  lemma {:induction false} ReachKeepsGraph(env: Env, calls: seq<Call>)
    requires Policy.DistinctCompetencies(env.job)
    ensures GraphOk(Reach(env, calls).graph)
  {
    hide GraphOk, PlanFor, ApplyAll;
    if |calls| == 0 {
      InitialOk(CompetencyIds(env.job));
    } else {
      var n := |calls| - 1;
      ReachKeepsGraph(env, calls[..n]);
      var s := Reach(env, calls[..n]);
      StepsKeepGraph(env, s, PlanFor(env, s, calls[n].op, calls[n].now).steps, calls[n].now);
    }
  }

  // ---- the latest run is the last one ----

  ghost predicate Ticking(calls: seq<Call>) {
    forall i, j :: 0 <= i < j < |calls| ==> calls[i].now < calls[j].now
  }

  /** Runs are recorded at increasing times, none later than the given one. */
  ghost predicate RunsBy(runs: seq<JudgeRun>, now: int) {
    && (forall i :: 0 <= i < |runs| ==> runs[i].createdAt <= now)
    && (forall i, j :: 0 <= i < j < |runs| ==> runs[i].createdAt < runs[j].createdAt)
  }

  /** An operation records at most one run, at its own time. */
  ghost predicate AtMostOneRun(s: Session, t: Session, now: nat) {
    t.runs == s.runs || (|t.runs| == |s.runs| + 1 && t.runs[..|s.runs|] == s.runs && t.runs[|s.runs|].createdAt == now)
  }

  lemma JudgingRuns(env: Env, s: Session, call: JudgeCall, now: nat)
    ensures AtMostOneRun(s, Judging(env, s, call, now), now)
  {
    hide SupersedeTurn, ObserveAll, KnownPrefix, Passes, CountOf, Log;
    var run, t := RunOf(s, call, now), s.(issued := s.issued + 1);
    if Gated(env, s, call) {
      SupersedeTurnFrame(env, t, call.answer, now);
      var u := if call.supersede then SupersedeTurn(env, t, call.answer, now) else t;
      Counterfactual.LogFields(env, u, EvidenceJudgeDisagreement, Some(run.answer), Details(""), now);
      FailureRuns(env, u, run, now);
      FindingsRuns(env, Dispute(env, u, run, call.reply.audit, now), run, call.reply.findings, now);
    } else {
      FailureRuns(env, t, run, now);
    }
  }

  lemma FailureRuns(env: Env, s: Session, run: JudgeRun, now: nat)
    ensures RecordFailure(env, s, run, now).runs == s.runs + [run.(failed := true)]
  {
  }

  lemma FindingsRuns(env: Env, s: Session, run: JudgeRun, findings: seq<Finding>, now: nat)
    ensures var t := ApplyFindings(env, s, run, findings, now);
            |t.runs| == |s.runs| + 1 && t.runs[..|s.runs|] == s.runs && t.runs[|s.runs|].createdAt == run.createdAt
  {
    hide ObserveAll, KnownPrefix, Log;
    var n := KnownPrefix(env.job, findings);
    var os := Observations(env, findings[..n], run.answer, run.id);
    ObserveAllFrame(env, s, os, now);
    var t, done := ObserveAll(env, s, os, now), run.(observations := Ids(s.issued, n));
    FailureRuns(env, t, done, now);
    Counterfactual.LogFields(env, t.(runs := t.runs + [done]), EvidenceJudgeRunRecorded, Some(run.answer), Details(""), now);
  }

  lemma StepRuns(env: Env, s: Session, step: Step, now: nat)
    ensures AtMostOneRun(s, Apply(env, s, step, now), now)
    ensures !step.JudgeStep? ==> Apply(env, s, step, now).runs == s.runs
  {
    hide Ask, Hear, ClaimAll, Judging, Controlling, Correcting, Log, ObserveAll, VerdictObservations, Submitting,
         Cancelling, Evaluating, Observe, ItemOf;
    match step
    case JudgeStep(call) => JudgingRuns(env, s, call, now);
    case AskStep(d, origin, covered, tool) => Counterfactual.AskFields(env, s, d, origin, covered, tool, now);
    case HearStep(text, parent, tags) => Counterfactual.HearFields(env, s, text, parent, tags, now);
    case ClaimStep(answer, tags) => ClaimAllFrame(env, s, answer, tags, now);
    case ObserveStep(o) =>
      var u := s.(graph := Observe(s.graph, o.competency, ItemOf(o, s.issued)), issued := s.issued + 1);
      Counterfactual.LogFields(env, u, EvidenceObserved, Some(o.turnId), Details(""), now);
    case ControlStep(kind, reply) => Policy.ControlFields(env, s, kind, reply, now);
    case CorrectStep(turn, text) => Counterfactual.CorrectFields(env, s, turn, text, now);
    case AssessStep(_, _, _, _, _, _) => Counterfactual.AssessFields(env, s, step, now);
    case _ => Counterfactual.PlainFields(env, s, step, now);
  }

  predicate NoJudge(steps: seq<Step>) {
    forall i :: 0 <= i < |steps| ==> !steps[i].JudgeStep?
  }

  predicate OneJudge(steps: seq<Step>) {
    forall i, j :: 0 <= i < j < |steps| ==> !(steps[i].JudgeStep? && steps[j].JudgeStep?)
  }

  lemma {:induction false} StepsRuns(env: Env, s: Session, steps: seq<Step>, now: nat)
    requires OneJudge(steps)
    ensures AtMostOneRun(s, ApplyAll(env, s, steps, now), now)
    ensures NoJudge(steps) ==> ApplyAll(env, s, steps, now).runs == s.runs
  {
    hide Apply;
    if |steps| > 0 {
      var n := |steps| - 1;
      StepsRuns(env, s, steps[..n], now);
      StepRuns(env, ApplyAll(env, s, steps[..n], now), steps[n], now);
      if steps[n].JudgeStep? {
        assert NoJudge(steps[..n]);
      }
    }
  }

  lemma PlanJudgesOnce(env: Env, s: Session, op: Op, now: nat)
    ensures OneJudge(PlanFor(env, s, op, now).steps)
  {
    hide Requested, AppendRefusal, TurnOf, Admissible, LatestRun, LastBy, Strip, ClarifyText, AllKnown, NextAnchor, LastQuestion,
         ApplyAll, KnownTurns, ReplyPlan;
    if op.Answer? {
      ReplyJudgesOnce(env, s, op);
      if s.status == Created {
        var first := StartPlan(env, s, op.opening, op.openingBuilt);
        ReplyJudgesOnce(env, ApplyAll(env, s, first.steps, now), op);
      }
    }
  }

  lemma ReplyJudgesOnce(env: Env, s: Session, op: Op)
    requires op.Answer?
    ensures OneJudge(ReplyPlan(env, s, op.text, op.judge, op.brain, op.built).steps)
  {
    hide Requested, NextAnchor, LastQuestion, Choose;
  }

  lemma {:induction false} ReachRuns(env: Env, calls: seq<Call>)
    requires Ticking(calls)
    ensures RunsBy(Reach(env, calls).runs, if |calls| == 0 then 0 else calls[|calls| - 1].now)
  {
    hide PlanFor, ApplyAll;
    if |calls| > 0 {
      var n := |calls| - 1;
      ReachRuns(env, calls[..n]);
      var s := Reach(env, calls[..n]);
      PlanJudgesOnce(env, s, calls[n].op, calls[n].now);
      StepsRuns(env, s, PlanFor(env, s, calls[n].op, calls[n].now).steps, calls[n].now);
      RunsGrow(s.runs, Reach(env, calls).runs, calls, n);
    }
  }

  lemma RunsGrow(runs: seq<JudgeRun>, more: seq<JudgeRun>, calls: seq<Call>, n: nat)
    requires Ticking(calls) && n == |calls| - 1
    requires RunsBy(runs, if n == 0 then 0 else calls[n - 1].now)
    requires n == 0 ==> runs == []
    requires more == runs || (|more| == |runs| + 1 && more[..|runs|] == runs && more[|runs|].createdAt == calls[n].now)
    ensures RunsBy(more, calls[n].now)
  {
    assert forall i :: 0 <= i < |runs| && |more| > |runs| ==> more[i] == more[..|runs|][i];
  }

  lemma {:induction false} LatestIsLast(runs: seq<JudgeRun>, answer: Id, now: int)
    requires RunsBy(runs, now)
    ensures LatestRun(runs, answer) == LastRun(runs, answer)
    ensures LastRun(runs, answer).Some? ==> LastRun(runs, answer).value in runs && LastRun(runs, answer).value.answer == answer
  {
    if |runs| > 0 {
      var n := |runs| - 1;
      assert RunsBy(runs[..n], now);
      LatestIsLast(runs[..n], answer, now);
      if LastRun(runs[..n], answer).Some? {
        var r := LastRun(runs[..n], answer).value;
        var i :| 0 <= i < n && runs[..n][i] == r;
        assert r.createdAt < runs[n].createdAt;
      }
    }
  }

  // ---- the theorems ----

  /**
   The report's flags mean what they say. If the latest run of an answer is reported neither failed nor stale, each of
   its observations is in the graph and active, and its quote is literal in the answer's current text. If it is
   reported stale and not failed, none of its observations is active.
   */
  lemma FlagsAreHonest(env: Env, calls: seq<Call>, answer: Id)
    requires Ticking(calls) && SummaryOf(Reach(env, calls), answer).Some?
    ensures var s := Reach(env, calls);
            var sum := SummaryOf(s, answer).value;
            && sum.run in s.runs && sum.run.answer == answer
            && (!sum.failed ==>
                  && (forall id <- sum.run.observations :: HasItem(s.graph, id))
                  && (forall item <- Items(s.graph) :: item.id in sum.run.observations ==>
                        && item.turnId == answer
                        && item.active == !sum.stale
                        && (!sum.stale && item.quote.Some? ==> Occurs(item.quote.value, TextOf(s.turns, answer)))))
  {
    hide Reach, TurnOf, TextOf, CountOf, LatestRun, LastRun, Items, Ticking, TurnsOk, HasItem;
    var s := Reach(env, calls);
    ReachKeeps(env, calls);
    ReachRuns(env, calls);
    LatestIsLast(s.runs, answer, if |calls| == 0 then 0 else calls[|calls| - 1].now);
    var r := SummaryOf(s, answer).value.run;
    assert RunOk(s, r);
    if !r.failed {
      forall item | item in Items(s.graph) && item.id in r.observations
        ensures item.turnId == answer && item.active == !Stale(s, r)
        ensures !Stale(s, r) && item.quote.Some? ==> Occurs(item.quote.value, TextOf(s.turns, answer))
      {
        assert ItemOfRun(s, r, item);
        assert ItemOk(s.turns, item);
        if !Stale(s, r) {
          assert AllActive(s.graph, r);
        }
      }
    }
  }

  /**
   In every reachable session each active semantic quote is literal in the current text of its turn; each node's
   state is what recomputing it from its active items gives; and a verified node has an active verified item that
   does not come from a semantic judge.
   */
  lemma GraphIsGrounded(env: Env, calls: seq<Call>)
    requires Policy.DistinctCompetencies(env.job)
    ensures var s := Reach(env, calls);
            && (forall item <- Items(s.graph) :: item.active && Semantic(item.source) && item.quote.Some? ==>
                  TurnOf(s.turns, item.turnId).Some? && Occurs(item.quote.value, TextOf(s.turns, item.turnId)))
            && (forall i :: 0 <= i < |s.graph| ==> s.graph[i].state == RecomputeNode(s.graph[i]).state)
            && (forall i :: 0 <= i < |s.graph| && s.graph[i].state == Verified ==>
                  exists item :: item in Items(s.graph) && item in s.graph[i].items && item.active && item.state == Verified
                                 && !Semantic(item.source))
  {
    hide Reach, TurnOf, TextOf, Occurs, Policy.DistinctCompetencies, TurnsOk, RunsOk, CurrentExcept, Semantic;
    var s := Reach(env, calls);
    ReachKeeps(env, calls);
    ReachKeepsGraph(env, calls);
    assert forall item <- Items(s.graph) :: ItemOk(s.turns, item);
    forall i | 0 <= i < |s.graph| && s.graph[i].state == Verified
      ensures exists item :: item in Items(s.graph) && item in s.graph[i].items && item.active && item.state == Verified
                             && !Semantic(item.source)
    {
      assert NodeOk(s.graph[i]);
      StrongestIsMaximum(s.graph[i].items);
      var j :| 0 <= j < |s.graph[i].items| && s.graph[i].items[j].active && s.graph[i].items[j].state == Strongest(s.graph[i].items);
      var item := s.graph[i].items[j];
      assert item in Items(s.graph);
      assert ItemOk(s.turns, item);
    }
  }
}
