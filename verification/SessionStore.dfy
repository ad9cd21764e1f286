/** The compare-and-swap session store, and the decorator that turns commits into webhook deliveries. */
module SessionStore {
  import opened Common
  import opened Events
  import opened AuditChain

  /** A stored session: its version, its organization and its event log. */
  datatype Saved = Saved(version: nat, organization: Option<string>, log: seq<Event>)

  datatype Conflict = MustStartAtZero | Stale(expected: nat, got: nat)

  type Table = map<string, Saved>

  /** Version written by a save, or the reason it is refused. */
  function NextVersion(sessions: Table, id: string, version: nat): Result<nat, Conflict> {
    if id !in sessions then
      if version != 0 then Err(MustStartAtZero) else Ok(1)
    else if sessions[id].version != version then Err(Stale(sessions[id].version, version))
    else Ok(version + 1)
  }

  function Put(sessions: Table, id: string, saved: Saved): Table {
    match NextVersion(sessions, id, saved.version)
    case Ok(next) => sessions[id := saved.(version := next)]
    case Err(_) => sessions
  }

  /** A session object held by one operation. */
  class SessionObject {
    const id: string
    const organization: Option<string>
    var version: nat
    var log: EventLog

    ghost function View(): Saved
      reads this, log
    {
      Saved(version, organization, log.events)
    }

    constructor (id: string, organization: Option<string>, version: nat, log: EventLog)
      ensures this.id == id && this.organization == organization && this.version == version && this.log == log
    {
      this.id := id;
      this.organization := organization;
      this.version := version;
      this.log := log;
    }
  }

  class InMemoryStore {
    var sessions: Table

    constructor ()
      ensures sessions == map[]
    {
      sessions := map[];
    }

    method PutSession(session: SessionObject) returns (r: Result<(), Conflict>)
      modifies this, session`version
      ensures var next := NextVersion(old(sessions), session.id, old(session.version));
              && (next.Ok? ==> r == Ok(()) && session.version == next.value)
              && (next.Err? ==> r == Err(next.error) && session.version == old(session.version))
      ensures sessions == Put(old(sessions), session.id, old(session.View()))
    {
      var expected := session.version;
      var nextVersion := 1;
      if session.id !in sessions {
        if expected != 0 {
          return Err(MustStartAtZero);
        }
      } else {
        if sessions[session.id].version != expected {
          return Err(Stale(sessions[session.id].version, expected));
        }
        nextVersion := expected + 1;
      }
      sessions := sessions[session.id := Saved(nextVersion, session.organization, session.log.events)];
      session.version := nextVersion;
      return Ok(());
    }

    method GetSession(id: string) returns (r: Option<Saved>)
      ensures r == if id in sessions then Some(sessions[id]) else None
    {
      return if id in sessions then Some(sessions[id]) else None;
    }

    method DeleteSession(id: string) returns (existed: bool)
      modifies this
      ensures existed <==> id in old(sessions)
      ensures sessions == old(sessions) - {id}
    {
      existed := id in sessions;
      sessions := sessions - {id};
    }
  }

  // ---- webhooks ----

  const SAFE_KINDS: set<EventType> := {
    SessionCreated, InterviewStarted, AppealSubmitted, AppealReviewed, ReviewAssigned, ReviewStarted,
    ReviewCompleted, ReviewAssignmentCancelled, ToolOpened, ToolSubmitted, ToolEvaluated, ToolCancelled,
    ArtifactCreated, ArtifactDeleted, SessionCompleted, SessionCancelled}

  datatype Subscription = Subscription(organization: Option<string>, kinds: set<EventType>)

  /** One call to a subscriber; `subscription` is its index in the dispatcher's tuple. */
  datatype Delivery = Delivery(session: string, event: nat, subscription: nat)

  predicate Wants(sub: Subscription, organization: Option<string>, kind: EventType) {
    && kind in SAFE_KINDS
    && (sub.organization.None? || sub.organization == organization)
    && kind in sub.kinds
  }

  /** The deliveries of one event to the first n subscriptions. */
  function ForEvent(subs: seq<Subscription>, n: nat, session: string, organization: Option<string>, e: Event): seq<Delivery>
    requires n <= |subs|
  {
    if n == 0 then []
    else
      ForEvent(subs, n - 1, session, organization, e)
      + if Wants(subs[n - 1], organization, e.kind) then [Delivery(session, e.seqNo, n - 1)] else []
  }

  function ForEvents(subs: seq<Subscription>, session: string, organization: Option<string>, events: seq<Event>): seq<Delivery> {
    if |events| == 0 then []
    else
      var n := |events| - 1;
      ForEvents(subs, session, organization, events[..n]) + ForEvent(subs, |subs|, session, organization, events[n])
  }

  function LastSeq(previous: Option<Saved>): nat {
    if previous.Some? && |previous.value.log| > 0 then previous.value.log[|previous.value.log| - 1].seqNo else 0
  }

  /** The events of a log newer than a sequence number, delivery records excepted. */
  function Fresh(log: seq<Event>, after: nat): seq<Event> {
    if |log| == 0 then []
    else
      var n := |log| - 1;
      Fresh(log[..n], after)
      + if log[n].seqNo > after && log[n].kind != WebhookDelivery then [log[n]] else []
  }

  function DeliveryRecord(d: Delivery, delivered: bool): Payload {
    ForDelivery(d.subscription, d.event, delivered)
  }

  /** The log after one delivery record per result has been appended. */
  function Recorded(h: HashFn, log: seq<Event>, results: seq<(Delivery, bool)>, now: nat): seq<Event> {
    if |results| == 0 then log
    else
      var n := |results| - 1;
      var before := Recorded(h, log, results[..n], now);
      Extend(h, before, WebhookDelivery, None, DeliveryRecord(results[n].0, results[n].1), now)
  }

  lemma {:induction false} RecordedKeepsGood(h: HashFn, log: seq<Event>, results: seq<(Delivery, bool)>, now: nat)
    requires GoodLog(h, log)
    ensures GoodLog(h, Recorded(h, log, results, now))
    ensures log <= Recorded(h, log, results, now)
    ensures forall i :: |log| <= i < |Recorded(h, log, results, now)| ==> Recorded(h, log, results, now)[i].kind == WebhookDelivery
  {
    if |results| > 0 {
      var n := |results| - 1;
      RecordedKeepsGood(h, log, results[..n], now);
      ExtendKeepsGood(h, Recorded(h, log, results[..n], now), WebhookDelivery, None,
                      DeliveryRecord(results[n].0, results[n].1), now);
    }
  }

  lemma {:induction false} ForEventHas(subs: seq<Subscription>, n: nat, session: string, organization: Option<string>,
                                       e: Event, d: Delivery)
    requires n <= |subs|
    ensures d in ForEvent(subs, n, session, organization, e)
       <==> d.session == session && d.event == e.seqNo && d.subscription < n && Wants(subs[d.subscription], organization, e.kind)
  {
    if n > 0 {
      ForEventHas(subs, n - 1, session, organization, e, d);
    }
  }

  lemma {:induction false} ForEventsHas(subs: seq<Subscription>, session: string, organization: Option<string>,
                                        events: seq<Event>, d: Delivery)
    ensures d in ForEvents(subs, session, organization, events)
       <==> d.session == session && d.subscription < |subs|
            && exists i :: 0 <= i < |events| && events[i].seqNo == d.event && Wants(subs[d.subscription], organization, events[i].kind)
  {
    if |events| > 0 {
      var n := |events| - 1;
      ForEventsHas(subs, session, organization, events[..n], d);
      ForEventHas(subs, |subs|, session, organization, events[n], d);
      assert forall i :: 0 <= i < n ==> events[..n][i] == events[i];
    }
  }

  /** The delivery is of one of the events, safe to announce, to a subscriber who lists its kind and may see the tenant's. */
  ghost predicate Destined(subs: seq<Subscription>, session: string, organization: Option<string>, events: seq<Event>, d: Delivery) {
    && d.session == session && d.subscription < |subs|
    && (subs[d.subscription].organization == None || subs[d.subscription].organization == organization)
    && exists i :: 0 <= i < |events| && events[i].seqNo == d.event && events[i].kind in SAFE_KINDS
                   && events[i].kind in subs[d.subscription].kinds
  }

  lemma DeliveriesAreDestined(subs: seq<Subscription>, session: string, organization: Option<string>, events: seq<Event>, d: Delivery)
    ensures d in ForEvents(subs, session, organization, events) <==> Destined(subs, session, organization, events, d)
  {
    ForEventsHas(subs, session, organization, events, d);
    hide ForEvents;
  }

  ghost predicate NoRepeats<T>(xs: seq<T>) {
    forall i, j :: 0 <= i < j < |xs| ==> xs[i] != xs[j]
  }

  lemma {:induction false} ForEventNoRepeats(subs: seq<Subscription>, n: nat, session: string, organization: Option<string>, e: Event)
    requires n <= |subs|
    ensures NoRepeats(ForEvent(subs, n, session, organization, e))
    ensures forall d | d in ForEvent(subs, n, session, organization, e) :: d.event == e.seqNo && d.subscription < n
  {
    if n > 0 {
      ForEventNoRepeats(subs, n - 1, session, organization, e);
    }
  }

  lemma {:induction false} ForEventsNoRepeats(subs: seq<Subscription>, session: string, organization: Option<string>, events: seq<Event>)
    requires forall i, j :: 0 <= i < j < |events| ==> events[i].seqNo != events[j].seqNo
    ensures NoRepeats(ForEvents(subs, session, organization, events))
  {
    if |events| > 0 {
      var n := |events| - 1;
      var before := ForEvents(subs, session, organization, events[..n]);
      var last := ForEvent(subs, |subs|, session, organization, events[n]);
      ForEventsNoRepeats(subs, session, organization, events[..n]);
      ForEventNoRepeats(subs, |subs|, session, organization, events[n]);
      forall d | d in before
        ensures d.event != events[n].seqNo
      {
        ForEventsHas(subs, session, organization, events[..n], d);
      }
      NoRepeatsConcat(before, last);
    }
  }

  lemma NoRepeatsConcat<T>(left: seq<T>, right: seq<T>)
    requires NoRepeats(left) && NoRepeats(right)
    requires forall x | x in left :: x !in right
    ensures NoRepeats(left + right)
  {
    var all := left + right;
    forall i, j | 0 <= i < j < |all|
      ensures all[i] != all[j]
    {
      if i < |left| <= j {
        assert all[i] in left && all[j] in right;
      }
    }
  }

  /** In a numbered log, what is fresh after n are the events past position n that are not delivery records. */
  lemma {:induction false} FreshHas(log: seq<Event>, n: nat, e: Event)
    requires Numbered(log)
    ensures e in Fresh(log, n)
       <==> n < e.seqNo <= |log| && e == log[e.seqNo - 1] && e.kind != WebhookDelivery
  {
    if |log| > 0 {
      var m := |log| - 1;
      FreshHas(log[..m], n, e);
      assert log[m].seqNo == m + 1;
    }
  }

  lemma {:induction false} FreshAscending(log: seq<Event>, n: nat)
    requires Numbered(log)
    ensures forall i, j :: 0 <= i < j < |Fresh(log, n)| ==> Fresh(log, n)[i].seqNo < Fresh(log, n)[j].seqNo
  {
    if |log| > 0 {
      var m := |log| - 1;
      var before := Fresh(log[..m], n);
      FreshAscending(log[..m], n);
      forall i | 0 <= i < |before|
        ensures before[i].seqNo <= m
      {
        FreshHas(log[..m], n, before[i]);
      }
    }
  }

  /** The decorator, one method per stretch between two suspension points of `put_session`. */
  class WebhookDispatchingStore {
    const inner: InMemoryStore
    const subscriptions: seq<Subscription>

    constructor (inner: InMemoryStore, subscriptions: seq<Subscription>)
      ensures this.inner == inner && this.subscriptions == subscriptions
    {
      this.inner := inner;
      this.subscriptions := subscriptions;
    }

    method ReadPrevious(id: string) returns (previousSeq: nat)
      ensures previousSeq == LastSeq(if id in inner.sessions then Some(inner.sessions[id]) else None)
    {
      var previous := inner.GetSession(id);
      if previous.Some? && |previous.value.log| > 0 {
        return previous.value.log[|previous.value.log| - 1].seqNo;
      }
      return 0;
    }

    /** The first save, and the deliveries it makes due. */
    method Commit(session: SessionObject, previousSeq: nat) returns (r: Result<seq<Delivery>, Conflict>)
      modifies inner, session`version
      ensures inner.sessions == Put(old(inner.sessions), session.id, old(session.View()))
      ensures var next := NextVersion(old(inner.sessions), session.id, old(session.version));
              && (next.Err? ==> r == Err(next.error) && session.version == old(session.version))
              && (next.Ok? ==>
                  && session.version == next.value
                  && r == Ok(ForEvents(subscriptions, session.id, session.organization,
                                       Fresh(old(session.log.events), previousSeq))))
    {
      var saved := inner.PutSession(session);
      if saved.Err? {
        return Err(saved.error);
      }
      var events := session.log.events;
      var newEvents: seq<Event> := [];
      for i := 0 to |events|
        invariant newEvents == Fresh(events[..i], previousSeq)
      {
        assert events[..i + 1][..i] == events[..i];
        if events[i].seqNo > previousSeq && events[i].kind != WebhookDelivery {
          newEvents := newEvents + [events[i]];
        }
      }
      assert events[..|events|] == events;
      var deliveries := Dispatch(session.id, session.organization, newEvents);
      return Ok(deliveries);
    }

    /** The dispatch loop, with the calls themselves left out. */
    method Dispatch(session: string, organization: Option<string>, events: seq<Event>) returns (deliveries: seq<Delivery>)
      ensures deliveries == ForEvents(subscriptions, session, organization, events)
      ensures forall d :: d in deliveries <==> Destined(subscriptions, session, organization, events, d)
    {
      forall d
        ensures d in ForEvents(subscriptions, session, organization, events)
           <==> Destined(subscriptions, session, organization, events, d)
      {
        DeliveriesAreDestined(subscriptions, session, organization, events, d);
      }
      hide Destined;
      deliveries := [];
      for i := 0 to |events|
        invariant deliveries == ForEvents(subscriptions, session, organization, events[..i])
      {
        assert events[..i + 1][..i] == events[..i];
        var event := events[i];
        if event.kind !in SAFE_KINDS {
          NothingUnsafe(session, organization, event, |subscriptions|);
          continue;
        }
        ghost var before := deliveries;
        for k := 0 to |subscriptions|
          invariant deliveries == before + ForEvent(subscriptions, k, session, organization, event)
        {
          var subscription := subscriptions[k];
          if subscription.organization.Some? && subscription.organization != organization {
            continue;
          }
          if event.kind !in subscription.kinds {
            continue;
          }
          deliveries := deliveries + [Delivery(session, event.seqNo, k)];
        }
      }
      assert events[..|events|] == events;
    }

    lemma {:induction false} NothingUnsafe(session: string, organization: Option<string>, e: Event, n: nat)
      requires e.kind !in SAFE_KINDS && n <= |subscriptions|
      ensures ForEvent(subscriptions, n, session, organization, e) == []
    {
      if n > 0 {
        NothingUnsafe(session, organization, e, n - 1);
      }
    }

    /**
     Appends one record per delivery and saves again, if there was any; a refused second save is swallowed. The first
     record seals a legacy log, and a broken chain raises before anything is appended.
     */
    method SecondSave(session: SessionObject, results: seq<(Delivery, bool)>, now: nat) returns (r: Result<bool, ChainError>)
      modifies inner, session`version, session.log
      ensures session.log == old(session.log)
      ensures var sealed := Seal(session.log.hash, old(session.log.events));
              if results == [] then
                r == Ok(false) && Untouched(session.log, inner, old(session.log.events), old(inner.sessions))
              else if sealed.Err? then
                r == Err(sealed.error) && Untouched(session.log, inner, old(session.log.events), old(inner.sessions))
              else
                && r == Ok(NextVersion(old(inner.sessions), session.id, old(session.version)).Ok?)
                && session.log.events == Recorded(session.log.hash, sealed.value, results, now)
                && inner.sessions == Put(old(inner.sessions), session.id,
                                         Saved(old(session.version), session.organization, session.log.events))
      ensures GoodLog(session.log.hash, old(session.log.events)) ==>
                r.Ok? && session.log.events == Recorded(session.log.hash, old(session.log.events), results, now)
    {
      var log := session.log;
      if results == [] {
        return Ok(false);
      }
      SealIsIdempotent(log.hash, log.events);
      GoodIsSealed(log.hash, log.events);
      ghost var first := Seal(log.hash, log.events);
      hide Seal, GoodLog;
      for i := 0 to |results|
        invariant session.log == log && session.version == old(session.version) && inner.sessions == old(inner.sessions)
        invariant i == 0 ==> log.events == old(log.events)
        invariant i > 0 ==> first.Ok? && Chained(log.hash, log.events)
                            && log.events == Recorded(log.hash, first.value, results[..i], now)
      {
        assert results[..i + 1][..i] == results[..i];
        var payload := DeliveryRecord(results[i].0, results[i].1);
        if i > 0 {
          AppendVerifies(log.hash, log.events, WebhookDelivery, None, payload, now);
        } else if first.Ok? {
          AppendVerifies(log.hash, first.value, WebhookDelivery, None, payload, now);
        }
        var appended := log.AppendEvent(WebhookDelivery, None, payload, now);
        if appended.Err? {
          return Err(appended.error);
        }
      }
      assert results[..|results|] == results;
      var saved := inner.PutSession(session);
      return Ok(saved.Ok?);
    }

    ghost predicate Untouched(log: EventLog, store: InMemoryStore, events: seq<Event>, sessions: Table)
      reads log, store
    {
      log.events == events && store.sessions == sessions
    }
  }

  lemma GoodIsSealed(h: HashFn, events: seq<Event>)
    ensures GoodLog(h, events) ==> Seal(h, events) == Ok(events)
  {
    if GoodLog(h, events) {
      VerifyIffChained(h, events);
      if |events| > 0 {
        assert LinkedAt(h, events, 0, None);
        assert Hashed(events[0]);
      }
    }
  }
}
