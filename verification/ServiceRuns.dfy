/**
 Service operations over the compare-and-swap store: whatever way their loads and saves interleave, the stored
 session is what the accepted operations give one after another.
 */
module ServiceRuns {
  import opened Common
  import opened Interview
  import opened Service
  import Plans

  /** A stored session under its version. */
  datatype Saved = Saved(version: nat, session: Session)

  /** A working copy: the version it was loaded at or last saved under, and the calls made on it since. */
  datatype Copy = Copy(id: string, version: nat, session: Session, calls: seq<Call>)

  /** `accepted` records, for each session, the calls behind each of its versions; no step reads it. */
  datatype World = World(
    store: map<string, Saved>,
    copies: map<nat, Copy>,
    created: set<string>,
    accepted: map<string, seq<seq<Call>>>)

  const EMPTY := World(map[], map[], {}, map[])

  datatype Action =
    | Create(actor: nat, id: string)
    | Load(actor: nat, id: string)
    | Operate(actor: nat, call: Call)
    | Save(actor: nat)
    | Delete(id: string)

  predicate Enabled(w: World, a: Action) {
    match a
    case Create(_, id) => id !in w.created
    case Load(_, id) => id in w.store
    case Operate(actor, _) => actor in w.copies
    case Save(actor) => actor in w.copies
    case Delete(_) => true
  }

  /** The version the store would give the copy, unless the store has moved past it. */
  function NextVersion(w: World, c: Copy): Option<nat> {
    if c.id !in w.store then (if c.version == 0 then Some(1) else None)
    else if w.store[c.id].version == c.version then Some(c.version + 1)
    else None
  }

  /** The calls behind each version of a session so far. */
  function Versions(w: World, id: string): seq<seq<Call>> {
    if id in w.accepted then w.accepted[id] else []
  }

  /** The calls behind version v of a session. */
  function CallsAt(w: World, id: string, v: nat): seq<Call>
    requires v <= |Versions(w, id)|
  {
    if v == 0 then [] else Versions(w, id)[v - 1]
  }

  function OnSave(w: World, actor: nat): World
    requires actor in w.copies
  {
    var c := w.copies[actor];
    match NextVersion(w, c)
    case None => w
    case Some(next) =>
      var before := Versions(w, c.id);
      w.(store := w.store[c.id := Saved(next, c.session)],
         copies := w.copies[actor := c.(version := next, calls := [])],
         accepted := w.accepted[c.id := before + [(if |before| == 0 then [] else before[|before| - 1]) + c.calls]])
  }

  function Next(envs: string -> Env, w: World, a: Action): World {
    if !Enabled(w, a) then w
    else
      match a
      case Create(actor, id) =>
        w.(copies := w.copies[actor := Copy(id, 0, NewSession(envs(id), 0), [])], created := w.created + {id})
      case Load(actor, id) => w.(copies := w.copies[actor := Copy(id, w.store[id].version, w.store[id].session, [])])
      case Operate(actor, call) =>
        var c := w.copies[actor];
        w.(copies := w.copies[actor := c.(session := Perform(envs(c.id), c.session, call.op, call.now), calls := c.calls + [call])])
      case Save(actor) => OnSave(w, actor)
      case Delete(id) => w.(store := w.store - {id})
  }

  function Run(envs: string -> Env, actions: seq<Action>): World {
    if |actions| == 0 then EMPTY
    else Next(envs, Run(envs, actions[..|actions| - 1]), actions[|actions| - 1])
  }

  // ---- what every step keeps ----

  /** A copy is what its calls make of the version it carries; a copy that was never saved is its session's only one. */
  ghost predicate CopyOk(envs: string -> Env, w: World, c: Copy) {
    && c.id in w.created
    && c.version <= |Versions(w, c.id)|
    && c.session == Reach(envs(c.id), CallsAt(w, c.id, c.version) + c.calls)
    && (c.version == 0 ==> Versions(w, c.id) == [] && c.id !in w.store)
  }

  ghost predicate StoreOk(envs: string -> Env, w: World) {
    forall id <- w.store ::
      && 0 < w.store[id].version == |Versions(w, id)|
      && w.store[id].session == Reach(envs(id), CallsAt(w, id, w.store[id].version))
  }

  /** Every version extends the one before it. */
  ghost predicate Chain(versions: seq<seq<Call>>) {
    forall i, j :: 0 <= i <= j < |versions| ==> versions[i] <= versions[j]
  }

  ghost predicate CopiesOk(envs: string -> Env, w: World) {
    forall a <- w.copies :: CopyOk(envs, w, w.copies[a])
  }

  /** At most one copy of a session was never saved. */
  ghost predicate NewAreDistinct(w: World) {
    forall a, b :: a in w.copies && b in w.copies && a != b && w.copies[a].version == 0 && w.copies[b].version == 0
                   ==> w.copies[a].id != w.copies[b].id
  }

  ghost predicate Known(w: World) {
    && (forall id <- w.accepted :: id in w.created && Chain(w.accepted[id]))
    && (forall id <- w.store :: id in w.created)
  }

  ghost predicate Inv(envs: string -> Env, w: World) {
    StoreOk(envs, w) && CopiesOk(envs, w) && NewAreDistinct(w) && Known(w)
  }

  lemma ReachSnoc(env: Env, calls: seq<Call>, call: Call)
    ensures Reach(env, calls + [call]) == Perform(env, Reach(env, calls), call.op, call.now)
  {
    assert (calls + [call])[..|calls|] == calls;
  }

  lemma ReachNothing(env: Env)
    ensures Reach(env, []) == NewSession(env, 0)
  {
  }

  lemma CreateInv(envs: string -> Env, w: World, a: Action)
    requires Inv(envs, w) && a.Create? && Enabled(w, a)
    ensures Inv(envs, Next(envs, w, a))
  {
    hide Reach, NewSession, Perform;
    ReachNothing(envs(a.id));
    var none: seq<Call> := [];
    assert none + none == none;
    var t := Next(envs, w, a);
    forall b | b in t.copies
      ensures CopyOk(envs, t, t.copies[b])
    {
      assert b != a.actor ==> CopyOk(envs, w, w.copies[b]);
    }
  }

  lemma CopyIgnoresCopies(envs: string -> Env, w: World, v: World, c: Copy)
    requires CopyOk(envs, w, c) && v.store == w.store && v.created == w.created && v.accepted == w.accepted
    ensures CopyOk(envs, v, c)
  {
    hide Reach;
  }

  /** Replacing one copy by another, with the store untouched. */
  lemma ReplaceInv(envs: string -> Env, w: World, actor: nat, c: Copy)
    requires Inv(envs, w) && CopyOk(envs, w, c)
    requires c.version == 0 ==> actor in w.copies && w.copies[actor].version == 0 && w.copies[actor].id == c.id
    ensures Inv(envs, w.(copies := w.copies[actor := c]))
  {
    var t := w.(copies := w.copies[actor := c]);
    assert StoreOk(envs, t) by {
      hide Reach;
    }
    hide CopyOk, StoreOk, Chain, Reach;
    forall b | b in t.copies
      ensures CopyOk(envs, t, t.copies[b])
    {
      CopyIgnoresCopies(envs, w, t, t.copies[b]);
    }
  }

  lemma LoadInv(envs: string -> Env, w: World, a: Action)
    requires Inv(envs, w) && a.Load? && Enabled(w, a)
    ensures Inv(envs, Next(envs, w, a))
  {
    hide Reach, NewSession, Perform;
    var calls := CallsAt(w, a.id, w.store[a.id].version);
    assert calls + [] == calls;
    ReplaceInv(envs, w, a.actor, Copy(a.id, w.store[a.id].version, w.store[a.id].session, []));
  }

  lemma OperateInv(envs: string -> Env, w: World, a: Action)
    requires Inv(envs, w) && a.Operate? && Enabled(w, a)
    ensures Inv(envs, Next(envs, w, a))
  {
    hide Reach, NewSession, Perform, Chain;
    var c := w.copies[a.actor];
    assert CopyOk(envs, w, c);
    var calls := CallsAt(w, c.id, c.version);
    ReachSnoc(envs(c.id), calls + c.calls, a.call);
    assert calls + (c.calls + [a.call]) == (calls + c.calls) + [a.call];
    ReplaceInv(envs, w, a.actor,
               c.(session := Perform(envs(c.id), c.session, a.call.op, a.call.now), calls := c.calls + [a.call]));
  }

  lemma ChainSnoc(versions: seq<seq<Call>>, calls: seq<Call>)
    requires Chain(versions)
    ensures Chain(versions + [(if |versions| == 0 then [] else versions[|versions| - 1]) + calls])
  {
  }

  /** A copy of a session that a save has not touched, or that a save of another actor has moved past. */
  lemma OtherCopyStays(envs: string -> Env, w: World, c: Copy, o: Copy, t: World, calls: seq<Call>)
    requires CopyOk(envs, w, o) && t.created == w.created
    requires t.accepted == w.accepted[c.id := Versions(w, c.id) + [calls]] && t.store.Keys == w.store.Keys + {c.id}
    requires o.version == 0 ==> o.id != c.id
    ensures CopyOk(envs, t, o)
  {
    hide Reach;
    assert Versions(t, o.id) == if o.id == c.id then Versions(w, c.id) + [calls] else Versions(w, o.id);
  }

  /** Only the latest version of a session, or its first copy, can be saved. */
  lemma SavedFollowsLatest(envs: string -> Env, w: World, c: Copy)
    requires StoreOk(envs, w) && CopyOk(envs, w, c) && NextVersion(w, c).Some?
    ensures c.version == |Versions(w, c.id)| && NextVersion(w, c) == Some(c.version + 1)
  {
    hide Reach;
  }

  lemma SaveKeepsStore(envs: string -> Env, w: World, actor: nat)
    requires StoreOk(envs, w) && actor in w.copies && CopyOk(envs, w, w.copies[actor])
    ensures StoreOk(envs, OnSave(w, actor))
  {
    hide Reach;
    var t, c := OnSave(w, actor), w.copies[actor];
    if NextVersion(w, c).Some? {
      SavedFollowsLatest(envs, w, c);
      forall id | id in t.store
        ensures 0 < t.store[id].version == |Versions(t, id)|
        ensures t.store[id].session == Reach(envs(id), CallsAt(t, id, t.store[id].version))
      {
        if id != c.id {
          assert Versions(t, id) == Versions(w, id);
        }
      }
    }
  }

  /** An accepted save adds the copy's calls to those behind the version it replaces. */
  lemma SaveKeepsCopies(envs: string -> Env, w: World, actor: nat)
    requires Inv(envs, w) && actor in w.copies && NextVersion(w, w.copies[actor]).Some?
    ensures CopiesOk(envs, OnSave(w, actor))
  {
    hide Reach, Chain;
    var t, c := OnSave(w, actor), w.copies[actor];
    assert CopyOk(envs, w, c);
    SavedFollowsLatest(envs, w, c);
    var calls := CallsAt(w, c.id, c.version) + c.calls;
    assert t.accepted == w.accepted[c.id := Versions(w, c.id) + [calls]];
    assert calls + [] == calls;
    forall b | b in t.copies
      ensures CopyOk(envs, t, t.copies[b])
    {
      if b != actor {
        OtherCopyStays(envs, w, c, w.copies[b], t, calls);
      }
    }
  }

  lemma SaveKeepsChains(envs: string -> Env, w: World, actor: nat)
    requires Known(w) && actor in w.copies && w.copies[actor].id in w.created && NextVersion(w, w.copies[actor]).Some?
    ensures Known(OnSave(w, actor))
  {
    hide Chain;
    var c := w.copies[actor];
    assert Chain(Versions(w, c.id)) by {
      EmptyChain();
    }
    ChainSnoc(Versions(w, c.id), c.calls);
  }

  lemma SaveKeepsDistinct(w: World, actor: nat)
    requires NewAreDistinct(w) && actor in w.copies && NextVersion(w, w.copies[actor]).Some?
    ensures NewAreDistinct(OnSave(w, actor))
  {
  }

  lemma EmptyChain()
    ensures Chain([])
  {
  }

  lemma SaveInv(envs: string -> Env, w: World, actor: nat)
    requires Inv(envs, w) && actor in w.copies
    ensures Inv(envs, OnSave(w, actor))
  {
    if NextVersion(w, w.copies[actor]).Some? {
      assert CopyOk(envs, w, w.copies[actor]);
      SaveKeepsStore(envs, w, actor);
      SaveKeepsCopies(envs, w, actor);
      SaveKeepsChains(envs, w, actor);
      SaveKeepsDistinct(w, actor);
      hide *;
    }
  }

  lemma DeletedCopyStays(envs: string -> Env, w: World, c: Copy, id: string)
    requires CopyOk(envs, w, c)
    ensures CopyOk(envs, w.(store := w.store - {id}), c)
  {
    hide Reach;
  }

  lemma DeleteKeepsStore(envs: string -> Env, w: World, id: string)
    requires StoreOk(envs, w)
    ensures StoreOk(envs, w.(store := w.store - {id}))
  {
    hide Reach;
  }

  lemma DeleteInv(envs: string -> Env, w: World, a: Action)
    requires Inv(envs, w) && a.Delete?
    ensures Inv(envs, Next(envs, w, a))
  {
    DeleteKeepsStore(envs, w, a.id);
    forall b | b in w.copies
      ensures CopyOk(envs, w.(store := w.store - {a.id}), w.copies[b])
    {
      DeletedCopyStays(envs, w, w.copies[b], a.id);
    }
    hide Reach, Chain, CopyOk, StoreOk, OnSave, Perform, NewSession;
  }

  lemma StepInv(envs: string -> Env, w: World, a: Action)
    requires Inv(envs, w)
    ensures Inv(envs, Next(envs, w, a))
  {
    hide Inv, Reach, NewSession, Perform, OnSave;
    if Enabled(w, a) {
      match a
      case Create(_, _) => CreateInv(envs, w, a);
      case Load(_, _) => LoadInv(envs, w, a);
      case Operate(_, _) => OperateInv(envs, w, a);
      case Save(actor) => SaveInv(envs, w, actor);
      case Delete(_) => DeleteInv(envs, w, a);
    }
  }

  lemma {:induction false} RunInv(envs: string -> Env, actions: seq<Action>)
    ensures Inv(envs, Run(envs, actions))
  {
    hide Next;
    if |actions| > 0 {
      RunInv(envs, actions[..|actions| - 1]);
      StepInv(envs, Run(envs, actions[..|actions| - 1]), actions[|actions| - 1]);
    }
  }

  /**
   Under every interleaving of loads, operations, saves and deletions, the stored session is the one the accepted
   calls reach one after another, each version's calls extend those of every earlier version, and the version counts
   the accepted saves.
   */
  lemma StoredIsReached(envs: string -> Env, actions: seq<Action>, id: string)
    requires id in Run(envs, actions).store
    ensures var w := Run(envs, actions);
            && w.store[id].version == |Versions(w, id)| > 0
            && w.store[id].session == Reach(envs(id), Versions(w, id)[|Versions(w, id)| - 1])
            && Chain(Versions(w, id))
  {
    hide Reach, Next, Run;
    RunInv(envs, actions);
  }

  /** An answer to an interview that has not begun, saved twice by the service, is a start and then that answer. */
  lemma AnswerIsStartThenAnswer(env: Env, s: Session, op: Op, now: nat)
    requires op.Answer? && s.status == Created
    ensures var begun := Perform(env, s, Start(op.opening, op.openingBuilt), now);
            if StartPlan(env, s, op.opening, op.openingBuilt).error.Some? then Perform(env, s, op, now) == begun == s
            else Perform(env, s, op, now) == Perform(env, begun, op, now)
  {
    hide StartPlan, ReplyPlan, ApplyAll;
    var first := StartPlan(env, s, op.opening, op.openingBuilt);
    StartRefusesWhole(env, s, op.opening, op.openingBuilt, now);
    if first.error.None? {
      Plans.StartFine(Plans.NO_CONTRACT, env, s, op, op.opening, op.openingBuilt, now);
      var begun := ApplyAll(env, s, first.steps, now);
      ApplyAllConcat(env, s, first.steps, ReplyPlan(env, begun, op.text, op.judge, op.brain, op.built).steps, now);
    }
  }

  lemma StartRefusesWhole(env: Env, s: Session, opening: Option<BrainReply>, built: Option<Tool>, now: nat)
    ensures StartPlan(env, s, opening, built).error.Some? ==>
              ApplyAll(env, s, StartPlan(env, s, opening, built).steps, now) == s
  {
    hide Requested, NextAnchor;
  }
}
