/**
 Operations interleaved over the webhook store, split at every suspension point: read a copy, append,
 read the previous state, save conditionally, deliver one webhook at a time, save the delivery records.
 */
module StoreRuns {
  import opened Common
  import opened Events
  import opened AuditChain
  import opened SessionStore

  /** Where an operation stands inside `put_session`. */
  datatype Task =
    | Working
    | Prepared(previous: Option<Saved>)
    | Dispatching(pending: seq<Delivery>, results: seq<(Delivery, bool)>)

  datatype Obj = Obj(id: string, version: nat, organization: Option<string>, log: seq<Event>, task: Task)

  /** The store, the objects of the running operations, and the record of the run. */
  datatype World = World(
    store: Table,
    objects: map<nat, Obj>,
    organizations: map<string, Option<string>>,   // of every session id ever created
    accepted: map<string, seq<seq<Event>>>,       // the logs of the accepted saves, oldest first
    dispatched: seq<Delivery>)

  datatype Env = Env(hash: HashFn, subs: seq<Subscription>)

  datatype Action =
    | Create(actor: nat, id: string, organization: Option<string>)
    | Load(actor: nat, id: string)
    | AppendEvent(actor: nat, kind: EventType, turnId: Option<Id>, payload: Payload, now: nat)
    | ReadPrevious(actor: nat)
    | Commit(actor: nat)
    | Deliver(actor: nat, delivered: bool)
    | SecondSave(actor: nat, now: nat)
    | Delete(id: string)

  const EMPTY := World(map[], map[], map[], map[], [])

  predicate Free(w: World, actor: nat) {
    actor in w.objects ==> w.objects[actor].task.Working?
  }

  predicate Enabled(w: World, a: Action) {
    match a
    case Create(actor, id, _) => Free(w, actor) && id !in w.organizations
    case Load(actor, id) => Free(w, actor) && id in w.store
    case AppendEvent(actor, kind, _, _, _) =>
      actor in w.objects && w.objects[actor].task.Working? && kind != WebhookDelivery
    case ReadPrevious(actor) => actor in w.objects && w.objects[actor].task.Working?
    case Commit(actor) => actor in w.objects && w.objects[actor].task.Prepared?
    case Deliver(actor, _) =>
      actor in w.objects && w.objects[actor].task.Dispatching? && |w.objects[actor].task.pending| > 0
    case SecondSave(actor, _) =>
      actor in w.objects && w.objects[actor].task.Dispatching? && |w.objects[actor].task.pending| == 0
    case Delete(_) => true
  }

  function Accepted(w: World, id: string): seq<seq<Event>> {
    if id in w.accepted then w.accepted[id] else []
  }

  /** Saves the object; on success the store, its history and the object's version move on. */
  function Save(w: World, actor: nat, o: Obj): World {
    match NextVersion(w.store, o.id, o.version)
    case Err(_) => w.(objects := w.objects[actor := o])
    case Ok(next) =>
      w.(store := Put(w.store, o.id, Saved(o.version, o.organization, o.log)),
         objects := w.objects[actor := o.(version := next)],
         accepted := w.accepted[o.id := Accepted(w, o.id) + [o.log]])
  }

  function Lookup(w: World, id: string): Option<Saved> {
    if id in w.store then Some(w.store[id]) else None
  }

  /** What follows a successful first save. */
  function AfterCommit(env: Env, o: Obj, previous: Option<Saved>): Task {
    var due := ForEvents(env.subs, o.id, o.organization, Fresh(o.log, LastSeq(previous)));
    if |due| == 0 then Working else Dispatching(due, [])
  }

  function OnCommit(env: Env, w: World, actor: nat): World
    requires actor in w.objects && w.objects[actor].task.Prepared?
  {
    var o := w.objects[actor];
    var saves := NextVersion(w.store, o.id, o.version).Ok?;
    Save(w, actor, o.(task := if saves then AfterCommit(env, o, o.task.previous) else Working))
  }

  function OnDeliver(w: World, actor: nat, delivered: bool): World
    requires actor in w.objects && w.objects[actor].task.Dispatching? && |w.objects[actor].task.pending| > 0
  {
    var o := w.objects[actor];
    var d := o.task.pending[0];
    w.(dispatched := w.dispatched + [d],
       objects := w.objects[actor := o.(task := Dispatching(o.task.pending[1..], o.task.results + [(d, delivered)]))])
  }

  function OnSecondSave(env: Env, w: World, actor: nat, now: nat): World
    requires actor in w.objects && w.objects[actor].task.Dispatching?
  {
    var o := w.objects[actor];
    Save(w, actor, o.(log := Recorded(env.hash, o.log, o.task.results, now), task := Working))
  }

  function Next(env: Env, w: World, a: Action): World {
    if !Enabled(w, a) then w
    else
      match a
      case Create(actor, id, organization) =>
        w.(objects := w.objects[actor := Obj(id, 0, organization, [], Working)],
           organizations := w.organizations[id := organization])
      case Load(actor, id) =>
        var saved := w.store[id];
        w.(objects := w.objects[actor := Obj(id, saved.version, saved.organization, saved.log, Working)])
      case AppendEvent(actor, kind, turnId, payload, now) =>
        var o := w.objects[actor];
        w.(objects := w.objects[actor := o.(log := Extend(env.hash, o.log, kind, turnId, payload, now))])
      case ReadPrevious(actor) =>
        var o := w.objects[actor];
        w.(objects := w.objects[actor := o.(task := Prepared(Lookup(w, o.id)))])
      case Commit(actor) => OnCommit(env, w, actor)
      case Deliver(actor, delivered) => OnDeliver(w, actor, delivered)
      case SecondSave(actor, now) => OnSecondSave(env, w, actor, now)
      case Delete(id) => w.(store := w.store - {id})
  }

  function Run(env: Env, w: World, actions: seq<Action>): World {
    if |actions| == 0 then w else Next(env, Run(env, w, actions[..|actions| - 1]), actions[|actions| - 1])
  }

  // ---- the invariant of the store and its objects ----

  ghost predicate StoredIsLatest(w: World) {
    forall id :: id in w.store ==>
      && id in w.accepted
      && |w.accepted[id]| == w.store[id].version > 0
      && w.accepted[id][w.store[id].version - 1] == w.store[id].log
      && id in w.organizations && w.organizations[id] == w.store[id].organization
  }

  ghost predicate PrefixChain(h: HashFn, logs: seq<seq<Event>>) {
    && |logs| > 0
    && (forall i :: 0 <= i < |logs| ==> GoodLog(h, logs[i]))
    && (forall i, j :: 0 <= i <= j < |logs| ==> logs[i] <= logs[j])
  }

  ghost predicate HistoryOk(env: Env, w: World) {
    forall id :: id in w.accepted ==> id in w.organizations && PrefixChain(env.hash, w.accepted[id])
  }

  /** An object grows out of the save whose version it carries, or was never saved. */
  ghost predicate Rooted(env: Env, w: World, o: Obj) {
    && GoodLog(env.hash, o.log)
    && o.id in w.organizations && w.organizations[o.id] == o.organization
    && (o.version == 0 ==> o.id !in w.accepted)
    && (o.version > 0 ==>
          o.id in w.accepted && o.version <= |w.accepted[o.id]| && w.accepted[o.id][o.version - 1] <= o.log)
  }

  /** What the decorator read before saving is either the object's own base or already newer. */
  ghost predicate PreparedOk(w: World, o: Obj) {
    o.task.Prepared? ==>
      match o.task.previous
      case None => o.version == 0 || o.id !in w.store
      case Some(previous) =>
        && o.id in w.accepted
        && o.version <= previous.version <= |w.accepted[o.id]| && previous.version > 0
        && previous.log == w.accepted[o.id][previous.version - 1]
  }

  ghost predicate ObjectOk(env: Env, w: World, o: Obj) {
    Rooted(env, w, o) && PreparedOk(w, o)
  }

  ghost predicate ObjectsOk(env: Env, w: World) {
    forall a :: a in w.objects ==> ObjectOk(env, w, w.objects[a])
  }

  /** Two objects that were never saved belong to different sessions. */
  ghost predicate NewAreDistinct(w: World) {
    forall a, b ::
      a in w.objects && b in w.objects && a != b && w.objects[a].version == w.objects[b].version == 0
      ==> w.objects[a].id != w.objects[b].id
  }

  ghost predicate Inv(env: Env, w: World) {
    StoredIsLatest(w) && HistoryOk(env, w) && ObjectsOk(env, w) && NewAreDistinct(w)
  }

  // ---- steps ----

  lemma PrefixChainSnoc(h: HashFn, logs: seq<seq<Event>>, log: seq<Event>)
    requires GoodLog(h, log)
    requires |logs| > 0 ==> PrefixChain(h, logs) && logs[|logs| - 1] <= log
    ensures PrefixChain(h, logs + [log])
  {
    hide GoodLog;
    var all := logs + [log];
    forall i, j | 0 <= i <= j < |all|
      ensures all[i] <= all[j]
    {
      if i < |logs| == j {
        assert logs[i] <= logs[|logs| - 1] <= log;
      }
    }
  }

  /** A save that is accepted has the stored session as its base. */
  lemma AcceptedSaveExtends(env: Env, w: World, actor: nat, o: Obj)
    requires Inv(env, w) && Rooted(env, w, o)
    requires NextVersion(w.store, o.id, o.version).Ok?
    ensures o.id in w.store ==> w.store[o.id].log <= o.log && o.version == |Accepted(w, o.id)|
    ensures o.id !in w.store ==> o.version == 0 && Accepted(w, o.id) == []
    ensures PrefixChain(env.hash, Accepted(w, o.id) + [o.log])
  {
    PrefixChainSnoc(env.hash, Accepted(w, o.id), o.log);
  }

  lemma SaveKeepsStore(env: Env, w: World, actor: nat, o: Obj)
    requires Inv(env, w) && Rooted(env, w, o)
    ensures StoredIsLatest(Save(w, actor, o)) && HistoryOk(env, Save(w, actor, o))
  {
    if NextVersion(w.store, o.id, o.version).Ok? {
      AcceptedSaveExtends(env, w, actor, o);
      hide PrefixChain, GoodLog, ObjectsOk;
    }
  }

  lemma RootedStaysRooted(env: Env, w: World, o: Obj, p: Obj)
    requires Inv(env, w) && Rooted(env, w, o) && ObjectOk(env, w, p)
    requires NextVersion(w.store, o.id, o.version).Ok?
    requires o.version == 0 && p.version == 0 ==> o.id != p.id
    ensures ObjectOk(env, Save(w, 0, o), p)
  {
    AcceptedSaveExtends(env, w, 0, o);
    hide GoodLog, PrefixChain, ObjectsOk, HistoryOk, NewAreDistinct;
  }

  lemma SavedIsRooted(env: Env, w: World, o: Obj)
    requires Inv(env, w) && Rooted(env, w, o)
    requires NextVersion(w.store, o.id, o.version).Ok?
    ensures Rooted(env, Save(w, 0, o), o.(version := NextVersion(w.store, o.id, o.version).value))
  {
    AcceptedSaveExtends(env, w, 0, o);
    hide GoodLog, PrefixChain, ObjectsOk, HistoryOk, NewAreDistinct;
  }

  lemma ObjectIgnoresObjects(env: Env, w: World, v: World, p: Obj)
    requires v.accepted == w.accepted && v.organizations == w.organizations && v.store == w.store
    ensures ObjectOk(env, w, p) == ObjectOk(env, v, p)
  {
  }

  lemma SaveKeepsObjects(env: Env, w: World, actor: nat, o: Obj)
    requires Inv(env, w) && Rooted(env, w, o) && !o.task.Prepared?
    requires actor in w.objects && w.objects[actor].id == o.id && w.objects[actor].version == o.version
    ensures ObjectsOk(env, Save(w, actor, o))
  {
    var v := Save(w, actor, o);
    forall a | a in v.objects
      ensures ObjectOk(env, v, v.objects[a])
    {
      if NextVersion(w.store, o.id, o.version).Ok? {
        if a == actor {
          SavedIsRooted(env, w, o);
        } else {
          RootedStaysRooted(env, w, o, w.objects[a]);
        }
        ObjectIgnoresObjects(env, Save(w, 0, o), v, v.objects[a]);
      } else {
        ObjectIgnoresObjects(env, w, v, v.objects[a]);
      }
    }
  }

  lemma SaveKeepsDistinct(env: Env, w: World, actor: nat, o: Obj)
    requires NewAreDistinct(w) && actor in w.objects && w.objects[actor].id == o.id && w.objects[actor].version == o.version
    ensures NewAreDistinct(Save(w, actor, o))
  {
    hide Put;
  }

  lemma SaveInv(env: Env, w: World, actor: nat, o: Obj)
    requires Inv(env, w) && Rooted(env, w, o) && !o.task.Prepared?
    requires actor in w.objects && w.objects[actor].id == o.id && w.objects[actor].version == o.version
    ensures Inv(env, Save(w, actor, o))
  {
    SaveKeepsStore(env, w, actor, o);
    SaveKeepsObjects(env, w, actor, o);
    SaveKeepsDistinct(env, w, actor, o);
    hide Save, Rooted, ObjectsOk, StoredIsLatest, HistoryOk, NewAreDistinct;
  }

  /** Replacing one object by another rooted one, with the store untouched. */
  lemma ReplaceInv(env: Env, w: World, actor: nat, o: Obj)
    requires Inv(env, w) && ObjectOk(env, w, o)
    requires o.version == 0 ==> actor in w.objects && w.objects[actor].version == 0 && w.objects[actor].id == o.id
    ensures Inv(env, w.(objects := w.objects[actor := o]))
  {
    var v := w.(objects := w.objects[actor := o]);
    forall a | a in v.objects
      ensures ObjectOk(env, v, v.objects[a])
    {
      ObjectIgnoresObjects(env, w, v, v.objects[a]);
    }
  }

  /** Registering the organization of a new session leaves every object as it was. */
  lemma NewIdIsFree(env: Env, w: World, id: string, organization: Option<string>, b: nat)
    requires Inv(env, w) && id !in w.organizations && b in w.objects
    ensures ObjectOk(env, w.(organizations := w.organizations[id := organization]), w.objects[b])
    ensures w.objects[b].id != id
  {
    hide GoodLog, PrefixChain;
    assert ObjectOk(env, w, w.objects[b]);
  }

  lemma CreateKeepsStore(env: Env, w: World, a: Action)
    requires StoredIsLatest(w) && HistoryOk(env, w) && a.Create? && Enabled(w, a)
    ensures StoredIsLatest(Next(env, w, a)) && HistoryOk(env, Next(env, w, a))
    ensures ObjectOk(env, w.(organizations := w.organizations[a.id := a.organization]), Obj(a.id, 0, a.organization, [], Working))
  {
    hide PrefixChain;
  }

  lemma CreateInv(env: Env, w: World, a: Action)
    requires Inv(env, w) && a.Create? && Enabled(w, a)
    ensures Inv(env, Next(env, w, a))
  {
    var v := w.(organizations := w.organizations[a.id := a.organization]);
    var o := Obj(a.id, 0, a.organization, [], Working);
    var t := Next(env, w, a);
    CreateKeepsStore(env, w, a);
    forall b | b in w.objects
      ensures ObjectOk(env, v, w.objects[b]) && w.objects[b].id != a.id
    {
      NewIdIsFree(env, w, a.id, a.organization, b);
    }
    hide ObjectOk, StoredIsLatest, HistoryOk;
    forall b | b in t.objects
      ensures ObjectOk(env, t, t.objects[b])
    {
      ObjectIgnoresObjects(env, v, t, t.objects[b]);
    }
  }

  lemma LoadInv(env: Env, w: World, a: Action)
    requires Inv(env, w) && a.Load? && Enabled(w, a)
    ensures Inv(env, Next(env, w, a))
  {
    var saved := w.store[a.id];
    var o := Obj(a.id, saved.version, saved.organization, saved.log, Working);
    assert ObjectOk(env, w, o);
    ReplaceInv(env, w, a.actor, o);
  }

  lemma AppendInv(env: Env, w: World, a: Action)
    requires Inv(env, w) && a.AppendEvent? && Enabled(w, a)
    ensures Inv(env, Next(env, w, a))
  {
    var o := w.objects[a.actor];
    assert ObjectOk(env, w, o);
    ExtendKeepsGood(env.hash, o.log, a.kind, a.turnId, a.payload, a.now);
    hide GoodLog, Extend;
    var p := o.(log := Extend(env.hash, o.log, a.kind, a.turnId, a.payload, a.now));
    ExtendExtends(env.hash, o.log, a.kind, a.turnId, a.payload, a.now);
    assert ObjectOk(env, w, p);
    ReplaceInv(env, w, a.actor, p);
  }

  lemma ExtendExtends(h: HashFn, log: seq<Event>, kind: EventType, turnId: Option<Id>, payload: Payload, now: nat)
    ensures log <= Extend(h, log, kind, turnId, payload, now)
  {
  }

  lemma ReadInv(env: Env, w: World, a: Action)
    requires Inv(env, w) && a.ReadPrevious? && Enabled(w, a)
    ensures Inv(env, Next(env, w, a))
  {
    var o := w.objects[a.actor];
    assert ObjectOk(env, w, o);
    var p := o.(task := Prepared(Lookup(w, o.id)));
    assert ObjectOk(env, w, p) by {
      hide GoodLog, PrefixChain;
    }
    ReplaceInv(env, w, a.actor, p);
  }

  lemma SavingInv(env: Env, w: World, a: Action)
    requires Inv(env, w) && (a.Commit? || a.SecondSave?) && Enabled(w, a)
    ensures Inv(env, Next(env, w, a))
  {
    var o := w.objects[a.actor];
    assert ObjectOk(env, w, o);
    if a.SecondSave? {
      RecordedKeepsGood(env.hash, o.log, o.task.results, a.now);
      SaveInv(env, w, a.actor, o.(log := Recorded(env.hash, o.log, o.task.results, a.now), task := Working));
    } else {
      var saves := NextVersion(w.store, o.id, o.version).Ok?;
      SaveInv(env, w, a.actor, o.(task := if saves then AfterCommit(env, o, o.task.previous) else Working));
    }
  }

  lemma DeliverInv(env: Env, w: World, a: Action)
    requires Inv(env, w) && a.Deliver? && Enabled(w, a)
    ensures Inv(env, Next(env, w, a))
  {
    var o := w.objects[a.actor];
    assert ObjectOk(env, w, o);
    var d := o.task.pending[0];
    var p := o.(task := Dispatching(o.task.pending[1..], o.task.results + [(d, a.delivered)]));
    assert ObjectOk(env, w, p);
    ReplaceInv(env, w, a.actor, p);
    var v := w.(objects := w.objects[a.actor := p]);
    var t := Next(env, w, a);
    assert t == v.(dispatched := w.dispatched + [d]);
    forall b | b in t.objects
      ensures ObjectOk(env, t, t.objects[b])
    {
      ObjectIgnoresObjects(env, v, t, t.objects[b]);
    }
  }

  lemma DeleteInv(env: Env, w: World, a: Action)
    requires Inv(env, w) && a.Delete?
    ensures Inv(env, Next(env, w, a))
  {
    var t := Next(env, w, a);
    forall b | b in t.objects
      ensures ObjectOk(env, t, t.objects[b])
    {
      assert ObjectOk(env, w, w.objects[b]);
    }
  }

  lemma StepInv(env: Env, w: World, a: Action)
    requires Inv(env, w)
    ensures Inv(env, Next(env, w, a))
  {
    if Enabled(w, a) {
      match a
      case Create(_, _, _) => CreateInv(env, w, a);
      case Load(_, _) => LoadInv(env, w, a);
      case AppendEvent(_, _, _, _, _) => AppendInv(env, w, a);
      case ReadPrevious(_) => ReadInv(env, w, a);
      case Commit(_) => SavingInv(env, w, a);
      case Deliver(_, _) => DeliverInv(env, w, a);
      case SecondSave(_, _) => SavingInv(env, w, a);
      case Delete(_) => DeleteInv(env, w, a);
    }
  }

  lemma {:induction false} RunInv(env: Env, w: World, actions: seq<Action>)
    requires Inv(env, w)
    ensures Inv(env, Run(env, w, actions))
  {
    if |actions| > 0 {
      RunInv(env, w, actions[..|actions| - 1]);
      StepInv(env, Run(env, w, actions[..|actions| - 1]), actions[|actions| - 1]);
    }
  }

  // ---- no lost updates ----

  /**
   Under every interleaving, the logs accepted for a session form a chain under prefix, each verifies
   and is numbered 1..n, and what is stored is the last of them, under the number of accepted saves.
   */
  lemma NoLostUpdates(env: Env, actions: seq<Action>, id: string)
    ensures var w := Run(env, EMPTY, actions);
            var logs := Accepted(w, id);
            && (forall i, j :: 0 <= i <= j < |logs| ==> logs[i] <= logs[j])
            && (forall i :: 0 <= i < |logs| ==> Verify(env.hash, logs[i]) == Ok(Head(logs[i])))
            && (forall i, k :: 0 <= i < |logs| && 0 <= k < |logs[i]| ==> logs[i][k].seqNo == k + 1)
            && (id in w.store ==>
                  |logs| > 0 && w.store[id].version == |logs| && w.store[id].log == logs[|logs| - 1])
  {
    var w := Run(env, EMPTY, actions);
    assert Inv(env, EMPTY);
    RunInv(env, EMPTY, actions);
    if id in w.accepted {
      assert PrefixChain(env.hash, w.accepted[id]);
      forall i | 0 <= i < |w.accepted[id]|
        ensures Verify(env.hash, w.accepted[id][i]) == Ok(Head(w.accepted[id][i]))
      {
        VerifyIffChained(env.hash, w.accepted[id][i]);
      }
    }
  }

  lemma StepKeepsDeleted(env: Env, w: World, a: Action, id: string)
    requires Inv(env, w) && id in w.accepted && id !in w.store
    ensures id in Next(env, w, a).accepted && id !in Next(env, w, a).store
  {
    if Enabled(w, a) && (a.Commit? || a.SecondSave?) {
      assert ObjectOk(env, w, w.objects[a.actor]);
    }
  }

  /** A deleted session is never brought back, whatever its stale writers do. */
  lemma {:induction false} DeletedStaysDeleted(env: Env, before: seq<Action>, after: seq<Action>, id: string)
    requires id in Run(env, EMPTY, before).accepted && id !in Run(env, EMPTY, before).store
    ensures id in Run(env, EMPTY, before + after).accepted && id !in Run(env, EMPTY, before + after).store
    decreases |after|
  {
    if |after| == 0 {
      assert before + after == before;
    } else {
      var n := |after| - 1;
      assert (before + after)[..|before| + n] == before + after[..n];
      DeletedStaysDeleted(env, before, after[..n], id);
      assert Inv(env, EMPTY);
      RunInv(env, EMPTY, before + after[..n]);
      StepKeepsDeleted(env, Run(env, EMPTY, before + after[..n]), after[n], id);
    }
  }

  // ---- an object that lost a race stays lost ----

  /** The object can never be saved again: the store has moved past it or dropped its session. */
  ghost predicate Outdated(w: World, o: Obj) {
    o.version > 0 && (o.id in w.store ==> w.store[o.id].version > o.version)
  }

  /** A save is refused to a saved object exactly when it is outdated. */
  lemma RefusedIffOutdated(env: Env, w: World, actor: nat)
    requires Inv(env, w) && actor in w.objects && w.objects[actor].version > 0
    ensures NextVersion(w.store, w.objects[actor].id, w.objects[actor].version).Err?
       <==> Outdated(w, w.objects[actor])
  {
    assert ObjectOk(env, w, w.objects[actor]);
  }

  /** The actor keeps its object through this step. */
  predicate Keeps(a: Action, actor: nat) {
    !(a.Create? && a.actor == actor) && !(a.Load? && a.actor == actor)
  }

  lemma OutdatedStep(env: Env, w: World, a: Action, actor: nat)
    requires Inv(env, w) && actor in w.objects && Outdated(w, w.objects[actor]) && Keeps(a, actor)
    ensures actor in Next(env, w, a).objects
    ensures Outdated(Next(env, w, a), Next(env, w, a).objects[actor])
    ensures Next(env, w, a).objects[actor].id == w.objects[actor].id
    ensures Next(env, w, a).objects[actor].version == w.objects[actor].version
  {
    hide Extend, GoodLog, HistoryOk, NewAreDistinct, PrefixChain;
    assert ObjectOk(env, w, w.objects[actor]);
    if Enabled(w, a) && (a.Commit? || a.SecondSave?) {
      assert ObjectOk(env, w, w.objects[a.actor]);
    }
  }

  /** Once an object's save has been refused, no later save of that object is ever accepted. */
  lemma {:induction false} RefusedForEver(env: Env, before: seq<Action>, after: seq<Action>, actor: nat)
    requires var w := Run(env, EMPTY, before);
             actor in w.objects && w.objects[actor].version > 0
             && NextVersion(w.store, w.objects[actor].id, w.objects[actor].version).Err?
    requires forall i :: 0 <= i < |after| ==> Keeps(after[i], actor)
    ensures var w, v := Run(env, EMPTY, before), Run(env, EMPTY, before + after);
            && actor in v.objects && v.objects[actor].id == w.objects[actor].id
            && v.objects[actor].version == w.objects[actor].version
            && Outdated(v, v.objects[actor])
            && NextVersion(v.store, v.objects[actor].id, v.objects[actor].version).Err?
    decreases |after|
  {
    assert Inv(env, EMPTY);
    RunInv(env, EMPTY, before);
    RefusedIffOutdated(env, Run(env, EMPTY, before), actor);
    if |after| == 0 {
      assert before + after == before;
    } else {
      var n := |after| - 1;
      assert (before + after)[..|before| + n] == before + after[..n];
      RefusedForEver(env, before, after[..n], actor);
      RunInv(env, EMPTY, before + after[..n]);
      OutdatedStep(env, Run(env, EMPTY, before + after[..n]), after[n], actor);
      RunInv(env, EMPTY, before + after);
      RefusedIffOutdated(env, Run(env, EMPTY, before + after), actor);
    }
  }
}
