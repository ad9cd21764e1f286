/** Every committed webhook-safe event is delivered exactly once to each matching subscription. */
module WebhookRuns {
  import opened Common
  import opened Events
  import opened AuditChain
  import opened SessionStore
  import opened StoreRuns

  function Pending(o: Obj): seq<Delivery> {
    if o.task.Dispatching? then o.task.pending else []
  }

  /** The event is in the latest committed log of its session and the subscription wants it. */
  ghost predicate Due(env: Env, w: World, d: Delivery) {
    var logs := Accepted(w, d.session);
    && |logs| > 0 && d.session in w.organizations
    && d.subscription < |env.subs|
    && DueIn(env, w.organizations[d.session], logs[|logs| - 1], d)
  }

  ghost predicate DueIn(env: Env, organization: Option<string>, log: seq<Event>, d: Delivery)
    requires d.subscription < |env.subs|
  {
    1 <= d.event <= |log| && Wants(env.subs[d.subscription], organization, log[d.event - 1].kind)
  }

  ghost predicate Awaits(w: World, d: Delivery, a: nat) {
    a in w.objects && d in Pending(w.objects[a])
  }

  ghost predicate AwaitedBySomeone(w: World, d: Delivery) {
    exists a :: Awaits(w, d, a)
  }

  /** Committed equals dispatched plus pending. */
  ghost predicate Balanced(env: Env, w: World) {
    forall d :: Due(env, w, d) <==> d in w.dispatched || AwaitedBySomeone(w, d)
  }

  /** Nothing is dispatched twice, nothing dispatched is pending, nothing is pending twice. */
  ghost predicate Disjoint(w: World) {
    && NoRepeats(w.dispatched)
    && (forall a :: a in w.objects ==> NoRepeats(Pending(w.objects[a])))
    && (forall d, a :: Awaits(w, d, a) ==> d !in w.dispatched)
    && (forall d, a, b :: Awaits(w, d, a) && Awaits(w, d, b) ==> a == b)
  }

  /** While its deliveries go out, an object holds exactly what it saved. */
  ghost predicate Unchanged(w: World) {
    forall a :: a in w.objects && w.objects[a].task.Dispatching? ==>
      && w.objects[a].id in w.accepted
      && 0 < w.objects[a].version <= |w.accepted[w.objects[a].id]|
      && w.objects[a].log == w.accepted[w.objects[a].id][w.objects[a].version - 1]
  }

  ghost predicate DeliveryInv(env: Env, w: World) {
    Inv(env, w) && Balanced(env, w) && Disjoint(w) && Unchanged(w)
  }

  // ---- steps that commit nothing and deliver nothing ----

  ghost predicate SamePending(w: World, v: World) {
    && (forall a :: a in w.objects ==> a in v.objects && Pending(v.objects[a]) == Pending(w.objects[a]))
    && (forall a :: a in v.objects && a !in w.objects ==> Pending(v.objects[a]) == [])
  }

  lemma QuietStep(env: Env, w: World, v: World)
    requires DeliveryInv(env, w) && Inv(env, v) && SamePending(w, v)
    requires v.dispatched == w.dispatched
    requires forall d :: Due(env, v, d) == Due(env, w, d)
    requires Unchanged(v)
    ensures DeliveryInv(env, v)
  {
    hide Inv, Due, Unchanged;
    assert forall d, a :: Awaits(v, d, a) == Awaits(w, d, a);
    forall d
      ensures AwaitedBySomeone(v, d) == AwaitedBySomeone(w, d)
    {
      if AwaitedBySomeone(w, d) {
        var a :| Awaits(w, d, a);
        assert Awaits(v, d, a);
      }
    }
  }

  // ---- the first save ----

  /** What a numbered log owes beyond its first n events. */
  lemma OwedBeyond(env: Env, h: HashFn, session: string, organization: Option<string>, log: seq<Event>, n: nat, d: Delivery)
    requires GoodLog(h, log) && n <= |log|
    ensures d in ForEvents(env.subs, session, organization, Fresh(log, n))
       <==> d.session == session && d.subscription < |env.subs| && d.event > n && DueIn(env, organization, log, d)
  {
    var news := Fresh(log, n);
    ForEventsHas(env.subs, session, organization, news, d);
    hide GoodLog, Fresh, ForEvents;
    assert Numbered(log) by {
      GoodIsNumbered(h, log);
    }
    if d.subscription < |env.subs| && d.session == session {
      if d in ForEvents(env.subs, session, organization, news) {
        var i :| 0 <= i < |news| && news[i].seqNo == d.event && Wants(env.subs[d.subscription], organization, news[i].kind);
        FreshHas(log, n, news[i]);
      }
      if d.event > n && DueIn(env, organization, log, d) {
        var e := log[d.event - 1];
        assert e.seqNo == d.event;
        FreshHas(log, n, e);
        var i :| 0 <= i < |news| && news[i] == e;
      }
    }
  }

  lemma GoodIsNumbered(h: HashFn, log: seq<Event>)
    requires GoodLog(h, log)
    ensures Numbered(log)
  {
  }

  lemma OwedNoRepeats(env: Env, h: HashFn, session: string, organization: Option<string>, log: seq<Event>, n: nat)
    requires GoodLog(h, log)
    ensures NoRepeats(ForEvents(env.subs, session, organization, Fresh(log, n)))
  {
    GoodIsNumbered(h, log);
    hide GoodLog;
    FreshAscending(log, n);
    ForEventsNoRepeats(env.subs, session, organization, Fresh(log, n));
  }

  /** Length of the log a successful save builds on. */
  function BaseLength(w: World, id: string): nat {
    var logs := Accepted(w, id);
    if |logs| == 0 then 0 else |logs[|logs| - 1]|
  }

  /** If the save goes through, what was read before it is the log it builds on. */
  lemma PreparedIsBase(env: Env, w: World, actor: nat)
    requires Inv(env, w) && actor in w.objects && w.objects[actor].task.Prepared?
    requires NextVersion(w.store, w.objects[actor].id, w.objects[actor].version).Ok?
    ensures LastSeq(w.objects[actor].task.previous) == BaseLength(w, w.objects[actor].id) <= |w.objects[actor].log|
  {
    var o := w.objects[actor];
    assert ObjectOk(env, w, o);
    AcceptedSaveExtends(env, w, actor, o);
    if o.id in w.store {
      var logs := w.accepted[o.id];
      assert PrefixChain(env.hash, logs);
      assert o.task.previous.Some?;
      assert o.task.previous.value.log == logs[|logs| - 1];
      GoodIsNumbered(env.hash, logs[|logs| - 1]);
    }
  }

  /** A successful save adds exactly the deliveries of the events beyond its base. */
  lemma SaveMakesDue(env: Env, w: World, actor: nat, o: Obj, d: Delivery)
    requires Inv(env, w) && Rooted(env, w, o)
    requires NextVersion(w.store, o.id, o.version).Ok?
    ensures Due(env, Save(w, actor, o), d)
       <==> Due(env, w, d)
            || (d.session == o.id && d.subscription < |env.subs| && d.event > BaseLength(w, o.id)
                && DueIn(env, o.organization, o.log, d))
  {
    AcceptedSaveExtends(env, w, actor, o);
    hide GoodLog, PrefixChain, ObjectsOk, NewAreDistinct, Wants;
    if d.session == o.id {
      var logs := Accepted(w, o.id);
      if |logs| > 0 {
        assert logs[|logs| - 1] <= o.log;
      }
    }
  }

  /** The deliveries queued by a successful first save. */
  function Queued(env: Env, w: World, actor: nat): seq<Delivery>
    requires actor in w.objects
  {
    var o := w.objects[actor];
    ForEvents(env.subs, o.id, o.organization, Fresh(o.log, BaseLength(w, o.id)))
  }

  lemma CommitQueues(env: Env, w: World, a: Action)
    requires Inv(env, w) && a.Commit? && Enabled(w, a)
    requires NextVersion(w.store, w.objects[a.actor].id, w.objects[a.actor].version).Ok?
    ensures var o := w.objects[a.actor];
            Next(env, w, a) == Save(w, a.actor, o.(task := AfterCommit(env, o, o.task.previous)))
    ensures var v := Next(env, w, a);
            && v.objects.Keys == w.objects.Keys && v.dispatched == w.dispatched
            && (forall b :: b in w.objects && b != a.actor ==> v.objects[b] == w.objects[b])
            && Pending(w.objects[a.actor]) == []
            && Pending(v.objects[a.actor]) == Queued(env, w, a.actor)
  {
    PreparedIsBase(env, w, a.actor);
    hide Inv, ForEvents, Fresh, BaseLength, LastSeq;
  }

  lemma CommitMakesDue(env: Env, w: World, a: Action, d: Delivery)
    requires Inv(env, w) && a.Commit? && Enabled(w, a)
    requires NextVersion(w.store, w.objects[a.actor].id, w.objects[a.actor].version).Ok?
    ensures Due(env, Next(env, w, a), d) <==> Due(env, w, d) || d in Queued(env, w, a.actor)
    ensures d in Queued(env, w, a.actor) ==> !Due(env, w, d)
  {
    var o := w.objects[a.actor];
    assert ObjectOk(env, w, o);
    PreparedIsBase(env, w, a.actor);
    CommitQueues(env, w, a);
    hide Inv, ForEvents, Fresh, LastSeq, Wants, Save, PreparedOk;
    OwedBeyond(env, env.hash, o.id, o.organization, o.log, BaseLength(w, o.id), d);
    SaveMakesDue(env, w, a.actor, o.(task := AfterCommit(env, o, o.task.previous)), d);
  }

  lemma CommitKeepsUnchanged(env: Env, w: World, a: Action)
    requires Inv(env, w) && Unchanged(w) && a.Commit? && Enabled(w, a)
    requires NextVersion(w.store, w.objects[a.actor].id, w.objects[a.actor].version).Ok?
    ensures Unchanged(Next(env, w, a))
  {
    var o := w.objects[a.actor];
    assert ObjectOk(env, w, o);
    AcceptedSaveExtends(env, w, a.actor, o);
    hide Inv, ForEvents, Fresh, LastSeq, PrefixChain, GoodLog, PreparedOk;
  }

  lemma CommitDelivers(env: Env, w: World, a: Action)
    requires DeliveryInv(env, w) && a.Commit? && Enabled(w, a)
    requires NextVersion(w.store, w.objects[a.actor].id, w.objects[a.actor].version).Ok?
    ensures DeliveryInv(env, Next(env, w, a))
  {
    var v := Next(env, w, a);
    var due := Queued(env, w, a.actor);
    StepInv(env, w, a);
    CommitKeepsUnchanged(env, w, a);
    QueuedNoRepeats(env, w, a.actor);
    CommitQueues(env, w, a);
    hide *;
    forall d
      ensures Due(env, v, d) <==> Due(env, w, d) || d in due
      ensures d in due ==> !Due(env, w, d)
    {
      CommitMakesDue(env, w, a, d);
    }
    CommitBalances(env, w, v, a.actor, due);
    DeliveryInvFrom(env, v);
  }

  lemma DeliveryInvFrom(env: Env, w: World)
    requires Inv(env, w) && Balanced(env, w) && Disjoint(w) && Unchanged(w)
    ensures DeliveryInv(env, w)
  {
  }

  lemma QueuedNoRepeats(env: Env, w: World, actor: nat)
    requires Inv(env, w) && actor in w.objects
    ensures NoRepeats(Queued(env, w, actor))
  {
    var o := w.objects[actor];
    assert ObjectOk(env, w, o);
    hide ForEvents, Fresh, BaseLength, PrefixChain, PreparedOk;
    OwedNoRepeats(env, env.hash, o.id, o.organization, o.log, BaseLength(w, o.id));
  }

  lemma CommitBalances(env: Env, w: World, v: World, actor: nat, due: seq<Delivery>)
    requires Balanced(env, w) && Disjoint(w)
    requires actor in w.objects && Pending(w.objects[actor]) == [] && actor in v.objects && Pending(v.objects[actor]) == due
    requires v.objects.Keys == w.objects.Keys && v.dispatched == w.dispatched
    requires forall b :: b in w.objects && b != actor ==> v.objects[b] == w.objects[b]
    requires NoRepeats(due)
    requires forall d :: Due(env, v, d) <==> Due(env, w, d) || d in due
    requires forall d :: d in due ==> !Due(env, w, d)
    ensures Balanced(env, v) && Disjoint(v)
  {
    hide Due;
    forall d, b
      ensures Awaits(v, d, b) <==> Awaits(w, d, b) || (b == actor && d in due)
    {
    }
    forall d
      ensures AwaitedBySomeone(v, d) <==> AwaitedBySomeone(w, d) || d in due
    {
      if d in due {
        assert Awaits(v, d, actor);
      }
      if AwaitedBySomeone(w, d) {
        var b :| Awaits(w, d, b);
        assert Awaits(v, d, b);
      }
    }
    forall d, b | Awaits(v, d, b)
      ensures d !in v.dispatched
    {
      if d in due {
        assert !Due(env, w, d);
      } else {
        assert Awaits(w, d, b);
      }
    }
    forall d, b, c | Awaits(v, d, b) && Awaits(v, d, c)
      ensures b == c
    {
      if d in due {
        assert !Due(env, w, d);
        assert !AwaitedBySomeone(w, d);
        assert !Awaits(w, d, b) && !Awaits(w, d, c);
      } else {
        assert Awaits(w, d, b) && Awaits(w, d, c);
      }
    }
  }

  // ---- one delivery ----

  lemma DeliverBalances(env: Env, w: World, a: Action)
    requires DeliveryInv(env, w) && a.Deliver? && Enabled(w, a)
    ensures DeliveryInv(env, Next(env, w, a))
  {
    hide Inv, Due, Unchanged;
    var v := Next(env, w, a);
    StepInv(env, w, a);
    var o := w.objects[a.actor];
    var d0 := o.task.pending[0];
    DeliverOwesTheSame(env, w, a);
    assert Awaits(w, d0, a.actor);
    assert AwaitedBySomeone(w, d0);
    assert o.task.pending == [d0] + o.task.pending[1..];
    forall d, b
      ensures Awaits(v, d, b) <==> Awaits(w, d, b) && !(b == a.actor && d == d0)
    {
      assert NoRepeats(Pending(o));
    }
    forall d
      ensures AwaitedBySomeone(v, d) <==> AwaitedBySomeone(w, d) && d != d0
    {
      if AwaitedBySomeone(w, d) && d != d0 {
        var b :| Awaits(w, d, b);
        assert Awaits(v, d, b);
      }
      if AwaitedBySomeone(v, d) {
        var b :| Awaits(v, d, b);
        assert Awaits(w, d, b);
      }
    }
    assert NoRepeats(v.dispatched);
    assert Unchanged(v) by {
      DeliverKeepsUnchanged(env, w, a);
    }
  }

  lemma DeliverOwesTheSame(env: Env, w: World, a: Action)
    requires a.Deliver? && Enabled(w, a)
    ensures forall d :: Due(env, Next(env, w, a), d) == Due(env, w, d)
  {
    hide DueIn;
  }

  lemma DeliverKeepsUnchanged(env: Env, w: World, a: Action)
    requires Unchanged(w) && a.Deliver? && Enabled(w, a)
    ensures Unchanged(Next(env, w, a))
  {
  }

  // ---- the second save ----

  /** The second save commits only delivery records, which nobody subscribes to. */
  lemma SecondSaveOwesNothing(env: Env, w: World, a: Action, d: Delivery)
    requires DeliveryInv(env, w) && a.SecondSave? && Enabled(w, a)
    ensures Due(env, Next(env, w, a), d) == Due(env, w, d)
  {
    hide Recorded, Balanced, Disjoint;
    var o := w.objects[a.actor];
    var p := o.(log := Recorded(env.hash, o.log, o.task.results, a.now), task := Working);
    assert ObjectOk(env, w, o);
    if NextVersion(w.store, o.id, o.version).Ok? {
      RecordedKeepsGood(env.hash, o.log, o.task.results, a.now);
      assert Rooted(env, w, p);
      AcceptedSaveExtends(env, w, a.actor, o);
      SaveMakesDue(env, w, a.actor, p, d);
      assert BaseLength(w, o.id) == |o.log|;
    }
  }

  lemma StepDelivers(env: Env, w: World, a: Action)
    requires DeliveryInv(env, w)
    ensures DeliveryInv(env, Next(env, w, a))
  {
    if Enabled(w, a) {
      var v := Next(env, w, a);
      StepInv(env, w, a);
      if a.Deliver? {
        DeliverBalances(env, w, a);
      } else if a.Commit? && NextVersion(w.store, w.objects[a.actor].id, w.objects[a.actor].version).Ok? {
        CommitDelivers(env, w, a);
      } else if a.SecondSave? {
        forall d
          ensures Due(env, v, d) == Due(env, w, d)
        {
          SecondSaveOwesNothing(env, w, a, d);
        }
        SecondSaveKeepsUnchanged(env, w, a);
        hide Inv, Due, Unchanged;
        QuietStep(env, w, v);
      } else {
        OthersOweNothing(env, w, a);
        hide Inv, Due, Unchanged;
        QuietStep(env, w, v);
      }
    }
  }

  lemma SecondSaveKeepsUnchanged(env: Env, w: World, a: Action)
    requires Unchanged(w) && a.SecondSave? && Enabled(w, a)
    ensures Unchanged(Next(env, w, a)) && SamePending(w, Next(env, w, a))
  {
    hide Recorded;
  }

  lemma OthersOweNothing(env: Env, w: World, a: Action)
    requires Inv(env, w) && Unchanged(w) && Enabled(w, a) && !a.Deliver? && !a.SecondSave?
    requires a.Commit? ==> NextVersion(w.store, w.objects[a.actor].id, w.objects[a.actor].version).Err?
    ensures forall d :: Due(env, Next(env, w, a), d) == Due(env, w, d)
    ensures Unchanged(Next(env, w, a)) && SamePending(w, Next(env, w, a))
    ensures Next(env, w, a).dispatched == w.dispatched
  {
    hide Inv, Due, Unchanged, SamePending, Next;
    OthersOweTheSame(env, w, a);
    OthersKeepPending(env, w, a);
  }

  lemma OthersOweTheSame(env: Env, w: World, a: Action)
    requires Inv(env, w) && Enabled(w, a) && !a.Deliver? && !a.SecondSave?
    requires a.Commit? ==> NextVersion(w.store, w.objects[a.actor].id, w.objects[a.actor].version).Err?
    ensures forall d :: Due(env, Next(env, w, a), d) == Due(env, w, d)
    ensures Next(env, w, a).dispatched == w.dispatched
  {
    hide Extend, ObjectsOk, NewAreDistinct, PrefixChain, DueIn;
  }

  lemma OthersKeepPending(env: Env, w: World, a: Action)
    requires Unchanged(w) && Enabled(w, a) && !a.Deliver? && !a.SecondSave?
    requires a.Commit? ==> NextVersion(w.store, w.objects[a.actor].id, w.objects[a.actor].version).Err?
    ensures Unchanged(Next(env, w, a)) && SamePending(w, Next(env, w, a))
  {
    hide Extend;
  }

  lemma {:induction false} RunDelivers(env: Env, actions: seq<Action>)
    ensures DeliveryInv(env, Run(env, EMPTY, actions))
  {
    if |actions| == 0 {
      assert Inv(env, EMPTY);
    } else {
      RunDelivers(env, actions[..|actions| - 1]);
      StepDelivers(env, Run(env, EMPTY, actions[..|actions| - 1]), actions[|actions| - 1]);
    }
  }

  /**
   Under every interleaving: a delivery has been made or is pending exactly when its event is committed
   and wanted; none is made twice, and none is both made and pending. Delivery records are never sent.
   */
  lemma ExactlyOnce(env: Env, actions: seq<Action>, d: Delivery)
    ensures var w := Run(env, EMPTY, actions);
            && (Due(env, w, d) <==> d in w.dispatched || AwaitedBySomeone(w, d))
            && !(d in w.dispatched && AwaitedBySomeone(w, d))
            && (forall a, b :: Awaits(w, d, a) && Awaits(w, d, b) ==> a == b)
            && multiset(w.dispatched)[d] <= 1
            && (d in w.dispatched ==>
                  var logs := Accepted(w, d.session);
                  && |logs| > 0 && 1 <= d.event <= |logs[|logs| - 1]|
                  && logs[|logs| - 1][d.event - 1].kind in SAFE_KINDS - {WebhookDelivery})
  {
    var w := Run(env, EMPTY, actions);
    RunDelivers(env, actions);
    CountOnce(w.dispatched, d);
  }

  lemma {:induction false} CountOnce<T>(xs: seq<T>, x: T)
    requires NoRepeats(xs)
    ensures multiset(xs)[x] <= 1
  {
    if |xs| > 0 {
      var n := |xs| - 1;
      CountOnce(xs[..n], x);
      assert xs == xs[..n] + [xs[n]];
      if x == xs[n] {
        assert x !in xs[..n];
      }
    }
  }

  // ---- who gets what ----

  /** What subscribers may be told: the stages of the session, its tools, artifacts, appeals and reviews. */
  predicate Announced(kind: EventType) {
    || kind == SessionCreated || kind == InterviewStarted || kind == SessionCompleted || kind == SessionCancelled
    || kind == ToolOpened || kind == ToolSubmitted || kind == ToolEvaluated || kind == ToolCancelled
    || kind == ArtifactCreated || kind == ArtifactDeleted || kind == AppealSubmitted || kind == AppealReviewed
    || kind == ReviewAssigned || kind == ReviewStarted || kind == ReviewCompleted || kind == ReviewAssignmentCancelled
  }

  /** What candidates said, what judges and voices made of it, and who looked at it. */
  predicate Private(kind: EventType) {
    || kind == InterviewerTurn || kind == CandidateTurn || kind == CandidateControl || kind == TranscriptCorrected
    || kind == EvidenceObserved || kind == EvidenceJudgeFailed || kind == EvidenceJudgeDisagreement
    || kind == EvidenceJudgeRunRecorded || kind == EvidenceSuperseded || kind == IntegritySignal
    || kind == IntegrityReviewed || kind == VoiceEvent || kind == ArtifactAccessed || kind == WebhookDelivery
  }

  /** The committed event a delivery is about. */
  function Announcement(w: World, d: Delivery): Option<Event> {
    var logs := Accepted(w, d.session);
    if |logs| > 0 && 1 <= d.event <= |logs[|logs| - 1]| then Some(logs[|logs| - 1][d.event - 1]) else None
  }

  /**
   Under every interleaving whatever has been delivered, or is about to be, is about a committed event of a kind that
   its subscription lists and that is not private, in a session of that subscription's own organization; a
   subscription without an organization hears of all sessions.
   */
  lemma TenantsHearOfTheirOwn(env: Env, actions: seq<Action>, d: Delivery)
    requires var w := Run(env, EMPTY, actions); d in w.dispatched || AwaitedBySomeone(w, d)
    ensures var w := Run(env, EMPTY, actions);
            && d.subscription < |env.subs| && d.session in w.organizations && Announcement(w, d).Some?
            && (env.subs[d.subscription].organization == None
                || env.subs[d.subscription].organization == w.organizations[d.session])
            && Announcement(w, d).value.kind in env.subs[d.subscription].kinds
            && !Private(Announcement(w, d).value.kind)
  {
    hide Run, Private;
    ExactlyOnce(env, actions, d);
    var w := Run(env, EMPTY, actions);
    SafeIsNotPrivate(Announcement(w, d).value.kind);
  }

  lemma SafeIsNotPrivate(kind: EventType)
    ensures kind in SAFE_KINDS ==> !Private(kind)
    ensures Announced(kind) ==> kind in SAFE_KINDS
  {
  }

  /**
   And nobody is passed over: every event of a kind that may be announced, in any log ever committed for a session, has
   been delivered or is about to be to every subscription that lists its kind and is of the same or of no organization.
   */
  lemma NobodyIsPassedOver(env: Env, actions: seq<Action>, id: string, version: nat, n: nat, sub: nat)
    requires id in Run(env, EMPTY, actions).accepted && version < |Run(env, EMPTY, actions).accepted[id]|
    requires n < |Run(env, EMPTY, actions).accepted[id][version]|
    requires Announced(Run(env, EMPTY, actions).accepted[id][version][n].kind)
    requires sub < |env.subs| && Run(env, EMPTY, actions).accepted[id][version][n].kind in env.subs[sub].kinds
    ensures id in Run(env, EMPTY, actions).organizations
    ensures var w := Run(env, EMPTY, actions);
            env.subs[sub].organization == None || env.subs[sub].organization == w.organizations[id] ==>
              Delivery(id, n + 1, sub) in w.dispatched || AwaitedBySomeone(w, Delivery(id, n + 1, sub))
  {
    hide *;
    RunKeepsHistory(env, actions);
    ExactlyOnce(env, actions, Delivery(id, n + 1, sub));
    AnnouncedIsDue(env, Run(env, EMPTY, actions), id, version, n, sub);
  }

  lemma RunKeepsHistory(env: Env, actions: seq<Action>)
    ensures HistoryOk(env, Run(env, EMPTY, actions))
  {
    hide Run;
    RunDelivers(env, actions);
  }

  /** A committed event that may be announced is owed to every subscription that lists it and may see the tenant. */
  lemma AnnouncedIsDue(env: Env, w: World, id: string, version: nat, n: nat, sub: nat)
    requires HistoryOk(env, w) && id in w.accepted && version < |w.accepted[id]| && n < |w.accepted[id][version]|
    requires Announced(w.accepted[id][version][n].kind)
    requires sub < |env.subs| && w.accepted[id][version][n].kind in env.subs[sub].kinds
    ensures id in w.organizations
    ensures env.subs[sub].organization == None || env.subs[sub].organization == w.organizations[id] ==>
              Due(env, w, Delivery(id, n + 1, sub))
  {
    LaterLogKeepsEvent(env, w, id, version, n);
    SafeIsNotPrivate(w.accepted[id][version][n].kind);
    hide Announced, HistoryOk;
  }

  lemma LaterLogKeepsEvent(env: Env, w: World, id: string, version: nat, n: nat)
    requires HistoryOk(env, w) && id in w.accepted && version < |w.accepted[id]| && n < |w.accepted[id][version]|
    ensures id in w.organizations
    ensures var last := w.accepted[id][|w.accepted[id]| - 1];
            n < |last| && last[n] == w.accepted[id][version][n]
  {
    var logs := w.accepted[id];
    assert logs[version] <= logs[|logs| - 1];
  }
}
