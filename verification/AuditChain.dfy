/** The hash chain over a session's events. */
module AuditChain {
  import opened Common
  import opened Events

  const HASH_VERSION := 1

  /** What is hashed: every content field of the event and the previous event's hash. */
  datatype Material = Material(
    seqNo: nat, kind: EventType, turnId: Option<Id>, payload: Payload, createdAt: nat, prevHash: Option<string>)

  type HashFn = Material -> string

  ghost predicate CollisionFree(h: HashFn) {
    forall m, n :: h(m) == h(n) ==> m == n
  }

  datatype ChainError = Mixed | Version(seqNo: nat) | Previous(seqNo: nat) | Hash(seqNo: nat)

  function MaterialOf(e: Event, prev: Option<string>): Material {
    Material(e.seqNo, e.kind, e.turnId, e.payload, e.createdAt, prev)
  }

  predicate Hashed(e: Event) {
    e.hashVersion.Some? || e.prevHash.Some? || e.eventHash.Some?
  }

  predicate AnyHashed(events: seq<Event>) {
    exists i :: 0 <= i < |events| && Hashed(events[i])
  }

  predicate AllHashed(events: seq<Event>) {
    forall i :: 0 <= i < |events| ==> Hashed(events[i])
  }

  /** The verification loop from a given running hash. */
  function Check(h: HashFn, events: seq<Event>, prev: Option<string>): Result<Option<string>, ChainError> {
    if |events| == 0 then Ok(prev)
    else
      var e := events[0];
      if e.hashVersion != Some(HASH_VERSION) then Err(Version(e.seqNo))
      else if e.prevHash != prev then Err(Previous(e.seqNo))
      else if e.eventHash != Some(h(MaterialOf(e, prev))) then Err(Hash(e.seqNo))
      else Check(h, events[1..], e.eventHash)
  }

  function Verify(h: HashFn, events: seq<Event>): Result<Option<string>, ChainError> {
    if !AnyHashed(events) then Ok(None)
    else if !AllHashed(events) then Err(Mixed)
    else Check(h, events, None)
  }

  function HashBefore(events: seq<Event>, i: nat, prev: Option<string>): Option<string>
    requires i <= |events|
  {
    if i == 0 then prev else events[i - 1].eventHash
  }

  /** Every event is hashed over its own content and its predecessor's hash. */
  ghost predicate Linked(h: HashFn, events: seq<Event>, prev: Option<string>) {
    forall i :: 0 <= i < |events| ==> LinkedAt(h, events, i, prev)
  }

  ghost predicate LinkedAt(h: HashFn, events: seq<Event>, i: nat, prev: Option<string>)
    requires i < |events|
  {
    && events[i].hashVersion == Some(HASH_VERSION)
    && events[i].prevHash == HashBefore(events, i, prev)
    && events[i].eventHash == Some(h(MaterialOf(events[i], events[i].prevHash)))
  }

  ghost predicate Chained(h: HashFn, events: seq<Event>) {
    Linked(h, events, None)
  }

  function Head(events: seq<Event>): Option<string> {
    HashBefore(events, |events|, None)
  }

  lemma LinkedTail(h: HashFn, events: seq<Event>, prev: Option<string>)
    requires |events| > 0
    ensures Linked(h, events, prev) <==>
              LinkedAt(h, events, 0, prev) && Linked(h, events[1..], events[0].eventHash)
    ensures HashBefore(events, |events|, prev) == HashBefore(events[1..], |events| - 1, events[0].eventHash)
  {
    var rest := events[1..];
    forall i | 0 < i < |events|
      ensures LinkedAt(h, events, i, prev) == LinkedAt(h, rest, i - 1, events[0].eventHash)
    {
      assert rest[i - 1] == events[i];
    }
    if Linked(h, events, prev) {
      forall i | 0 <= i < |rest|
        ensures LinkedAt(h, rest, i, events[0].eventHash)
      {
        assert LinkedAt(h, events, i + 1, prev);
      }
    }
  }

  lemma {:induction false} CheckIffLinked(h: HashFn, events: seq<Event>, prev: Option<string>)
    ensures Check(h, events, prev).Ok? <==> Linked(h, events, prev)
    ensures Linked(h, events, prev) ==> Check(h, events, prev) == Ok(HashBefore(events, |events|, prev))
  {
    if |events| > 0 {
      LinkedTail(h, events, prev);
      CheckIffLinked(h, events[1..], events[0].eventHash);
    }
  }

  /** Verification succeeds on exactly the legacy lists and the properly chained ones. */
  lemma VerifyIffChained(h: HashFn, events: seq<Event>)
    ensures Verify(h, events).Ok? <==> !AnyHashed(events) || Chained(h, events)
    ensures AnyHashed(events) && Chained(h, events) ==> Verify(h, events) == Ok(Head(events))
    ensures Chained(h, events) ==> Verify(h, events) == Ok(Head(events))
  {
    CheckIffLinked(h, events, None);
    if Chained(h, events) {
      assert forall i :: 0 <= i < |events| && LinkedAt(h, events, i, None) ==> Hashed(events[i]);
      assert AllHashed(events);
      if |events| > 0 {
        assert LinkedAt(h, events, 0, None);
        assert Hashed(events[0]);
      }
    }
  }

  /** The event bears one of the three marks of the chain. */
  predicate Marked(e: Event) {
    e.hashVersion != None || e.prevHash != None || e.eventHash != None
  }

  /** Nothing to verify is what a list without any mark gives, and no other. */
  lemma LegacyIff(h: HashFn, events: seq<Event>)
    ensures Verify(h, events) == Ok(None) <==> forall i :: 0 <= i < |events| ==> !Marked(events[i])
  {
    VerifyIffChained(h, events);
    if AnyHashed(events) && Chained(h, events) {
      assert |events| > 0 && LinkedAt(h, events, |events| - 1, None);
    }
  }

  /** What is wrong with event i of a list: its version, its link to the event before, or its own hash, in this order. */
  ghost predicate Defect(h: HashFn, events: seq<Event>, i: int, prev: Option<string>, error: ChainError) {
    && 0 <= i < |events|
    && var e, before := events[i], if i == 0 then prev else events[i - 1].eventHash;
       if e.hashVersion != Some(1) then error == Version(e.seqNo)
       else if e.prevHash != before then error == Previous(e.seqNo)
       else e.eventHash != Some(h(MaterialOf(e, before))) && error == Hash(e.seqNo)
  }

  lemma {:induction false} CheckFindsFirst(h: HashFn, events: seq<Event>, prev: Option<string>)
    ensures Check(h, events, prev).Err? ==>
              exists i :: Defect(h, events, i, prev, Check(h, events, prev).error)
                && forall j :: 0 <= j < i ==> LinkedAt(h, events, j, prev)
  {
    if |events| > 0 && Check(h, events, prev).Err? {
      var rest, e := events[1..], events[0];
      if e.hashVersion != Some(HASH_VERSION) || e.prevHash != prev || e.eventHash != Some(h(MaterialOf(e, prev))) {
        assert Defect(h, events, 0, prev, Check(h, events, prev).error);
      } else {
        CheckFindsFirst(h, rest, e.eventHash);
        var i :| Defect(h, rest, i, e.eventHash, Check(h, rest, e.eventHash).error)
          && forall j :: 0 <= j < i ==> LinkedAt(h, rest, j, e.eventHash);
        assert Defect(h, events, i + 1, prev, Check(h, events, prev).error);
        forall j | 0 <= j < i + 1
          ensures LinkedAt(h, events, j, prev)
        {
          assert j > 0 ==> LinkedAt(h, rest, j - 1, e.eventHash) && rest[j - 1] == events[j];
        }
      }
    }
  }

  /** A list that does not verify is reported as mixed, or by its first defect. */
  lemma FirstDefectIsReported(h: HashFn, events: seq<Event>)
    requires Verify(h, events).Err?
    ensures if (exists i :: 0 <= i < |events| && Marked(events[i])) && (exists i :: 0 <= i < |events| && !Marked(events[i]))
            then Verify(h, events).error == Mixed
            else exists i :: Defect(h, events, i, None, Verify(h, events).error) && Chained(h, events[..i])
  {
    assert forall i :: 0 <= i < |events| ==> (Marked(events[i]) <==> Hashed(events[i]));
    if AllHashed(events) {
      CheckFindsFirst(h, events, None);
      var i :| Defect(h, events, i, None, Check(h, events, None).error)
        && forall j :: 0 <= j < i ==> LinkedAt(h, events, j, None);
      forall j | 0 <= j < i
        ensures LinkedAt(h, events[..i], j, None)
      {
        assert LinkedAt(h, events, j, None);
      }
      assert Chained(h, events[..i]);
    }
  }

  // ---- one head, one history ----

  lemma ChainedPrefix(h: HashFn, events: seq<Event>, n: nat)
    requires Chained(h, events) && n <= |events|
    ensures Chained(h, events[..n]) && Head(events[..n]) == HashBefore(events, n, None)
  {
    forall i | 0 <= i < n
      ensures LinkedAt(h, events[..n], i, None)
    {
      assert LinkedAt(h, events, i, None);
    }
  }

  /** Equal heads force equal last events and equal heads before them. */
  lemma SameHeadSameLast(h: HashFn, a: seq<Event>, b: seq<Event>)
    requires CollisionFree(h) && |a| > 0 && |b| > 0
    requires Chained(h, a) && Chained(h, b) && Head(a) == Head(b)
    ensures a[|a| - 1] == b[|b| - 1]
    ensures HashBefore(a, |a| - 1, None) == HashBefore(b, |b| - 1, None)
  {
    var d, e := a[|a| - 1], b[|b| - 1];
    assert LinkedAt(h, a, |a| - 1, None) && LinkedAt(h, b, |b| - 1, None);
    assert h(MaterialOf(d, d.prevHash)) == h(MaterialOf(e, e.prevHash));
  }

  lemma HeadOfChain(h: HashFn, events: seq<Event>)
    requires Chained(h, events)
    ensures Head(events).Some? <==> |events| > 0
  {
    if |events| > 0 {
      assert LinkedAt(h, events, |events| - 1, None);
    }
  }

  lemma {:induction false} SameHeadSameChain(h: HashFn, a: seq<Event>, b: seq<Event>)
    requires CollisionFree(h)
    requires Chained(h, a) && Chained(h, b) && Head(a) == Head(b)
    ensures a == b
    decreases |a|
  {
    hide *;
    HeadOfChain(h, a);
    HeadOfChain(h, b);
    if |a| > 0 {
      var m, n := |a| - 1, |b| - 1;
      SameHeadSameLast(h, a, b);
      ChainedPrefix(h, a, m);
      ChainedPrefix(h, b, n);
      SameHeadSameChain(h, a[..m], b[..n]);
      assert a == a[..m] + [a[m]] && b == b[..n] + [b[n]];
    }
  }

  /** With a collision-free hash, two hashed lists that verify with the same head are the same list. */
  lemma SameHeadSameHistory(h: HashFn, a: seq<Event>, b: seq<Event>)
    requires CollisionFree(h)
    requires AnyHashed(a) && AnyHashed(b)
    requires Verify(h, a).Ok? && Verify(h, a) == Verify(h, b)
    ensures a == b
  {
    VerifyIffChained(h, a);
    VerifyIffChained(h, b);
    SameHeadSameChain(h, a, b);
  }

  // ---- sealing ----

  function SealOne(h: HashFn, e: Event, prev: Option<string>): Event {
    e.(hashVersion := Some(HASH_VERSION), prevHash := prev, eventHash := Some(h(MaterialOf(e, prev))))
  }

  function SealAll(h: HashFn, events: seq<Event>): (sealed: seq<Event>)
    ensures |sealed| == |events|
  {
    if |events| == 0 then []
    else
      var n := |events| - 1;
      var before := SealAll(h, events[..n]);
      before + [SealOne(h, events[n], Head(before))]
  }

  lemma SealAllStep(h: HashFn, events: seq<Event>, i: nat)
    requires i < |events|
    ensures SealAll(h, events[..0]) == []
    ensures SealAll(h, events[..i + 1])
         == SealAll(h, events[..i]) + [SealOne(h, events[i], Head(SealAll(h, events[..i])))]
  {
    assert events[..i + 1][..i] == events[..i];
  }

  lemma HeadSnoc(events: seq<Event>, e: Event)
    ensures Head(events + [e]) == e.eventHash
  {
  }

  lemma SealNothing(h: HashFn)
    ensures SealAll(h, []) == [] && Head([]) == None
  {
  }

  /** Seals a legacy list, or verifies a hashed one. */
  function Seal(h: HashFn, events: seq<Event>): Result<seq<Event>, ChainError> {
    if AnyHashed(events) then
      match Verify(h, events)
      case Ok(_) => Ok(events)
      case Err(e) => Err(e)
    else Ok(SealAll(h, events))
  }

  predicate SameContent(a: Event, b: Event) {
    MaterialOf(a, None) == MaterialOf(b, None)
  }

  lemma ChainedSnoc(h: HashFn, events: seq<Event>, e: Event)
    requires Chained(h, events)
    requires e.hashVersion == Some(HASH_VERSION) && e.prevHash == Head(events)
    requires e.eventHash == Some(h(MaterialOf(e, e.prevHash)))
    ensures Chained(h, events + [e])
    ensures Head(events + [e]) == e.eventHash
  {
    var all := events + [e];
    forall i | 0 <= i < |all|
      ensures LinkedAt(h, all, i, None)
    {
      if i < |events| {
        assert LinkedAt(h, events, i, None);
        assert all[i] == events[i];
      }
    }
  }

  lemma {:induction false} SealAllChains(h: HashFn, events: seq<Event>)
    ensures Chained(h, SealAll(h, events))
  {
    if |events| > 0 {
      var n := |events| - 1;
      var before := SealAll(h, events[..n]);
      SealAllChains(h, events[..n]);
      ChainedSnoc(h, before, SealOne(h, events[n], Head(before)));
    }
  }

  lemma {:induction false} SealAllKeepsContent(h: HashFn, events: seq<Event>, i: nat)
    requires i < |events|
    ensures SameContent(SealAll(h, events)[i], events[i])
  {
    var n := |events| - 1;
    if i < n {
      SealAllKeepsContent(h, events[..n], i);
    }
  }

  /** Sealing keeps every event's content, makes the list verify, and is idempotent; it fails only where verifying fails. */
  lemma SealIsIdempotent(h: HashFn, events: seq<Event>)
    ensures Seal(h, events).Err? <==> Verify(h, events).Err?
    ensures Seal(h, events).Ok? ==>
              var sealed := Seal(h, events).value;
              && |sealed| == |events|
              && (forall i :: 0 <= i < |events| ==> SameContent(sealed[i], events[i]))
              && Chained(h, sealed)
              && Verify(h, sealed) == Ok(Head(sealed))
              && Seal(h, sealed) == Ok(sealed)
              && (AnyHashed(events) ==> sealed == events)
  {
    VerifyIffChained(h, events);
    if Seal(h, events).Ok? {
      var sealed := Seal(h, events).value;
      SealAllChains(h, events);
      if !AnyHashed(events) {
        forall i | 0 <= i < |events|
          ensures SameContent(sealed[i], events[i])
        {
          SealAllKeepsContent(h, events, i);
        }
      }
      VerifyIffChained(h, sealed);
      if |sealed| > 0 {
        assert LinkedAt(h, sealed, 0, None);
        assert Hashed(sealed[0]);
      }
    }
  }

  // ---- appending ----

  function NewEvent(h: HashFn, sealed: seq<Event>, kind: EventType, turnId: Option<Id>, payload: Payload, now: nat): Event {
    SealOne(h, Event(|sealed| + 1, kind, turnId, payload, now, None, None, None), Head(sealed))
  }

  function Append(h: HashFn, events: seq<Event>, kind: EventType, turnId: Option<Id>, payload: Payload, now: nat)
    : Result<seq<Event>, ChainError>
  {
    match Seal(h, events)
    case Err(e) => Err(e)
    case Ok(sealed) => Ok(sealed + [NewEvent(h, sealed, kind, turnId, payload, now)])
  }

  /** Appending to a chained log, where sealing has nothing to do. */
  function Extend(h: HashFn, log: seq<Event>, kind: EventType, turnId: Option<Id>, payload: Payload, now: nat): seq<Event> {
    log + [NewEvent(h, log, kind, turnId, payload, now)]
  }

  /** Appending to a sealed or legacy list gives a list that verifies with the new event at its head. */
  lemma AppendVerifies(h: HashFn, events: seq<Event>, kind: EventType, turnId: Option<Id>, payload: Payload, now: nat)
    requires !AnyHashed(events) || Chained(h, events)
    ensures var r := Append(h, events, kind, turnId, payload, now);
            && r.Ok?
            && |r.value| == |events| + 1
            && (forall i :: 0 <= i < |events| ==> SameContent(r.value[i], events[i]))
            && r.value[|events|].seqNo == |events| + 1 && r.value[|events|].kind == kind
            && r.value[|events|].eventHash.Some?
            && Verify(h, r.value) == Ok(r.value[|events|].eventHash)
            && Chained(h, r.value)
    ensures Chained(h, events) ==>
              Append(h, events, kind, turnId, payload, now) == Ok(Extend(h, events, kind, turnId, payload, now))
  {
    VerifyIffChained(h, events);
    SealIsIdempotent(h, events);
    var sealed := Seal(h, events).value;
    ChainedSnoc(h, sealed, NewEvent(h, sealed, kind, turnId, payload, now));
    VerifyIffChained(h, sealed + [NewEvent(h, sealed, kind, turnId, payload, now)]);
    if Chained(h, events) && |events| > 0 {
      assert LinkedAt(h, events, 0, None);
      assert Hashed(events[0]);
    }
  }

  predicate Numbered(log: seq<Event>) {
    forall i :: 0 <= i < |log| ==> log[i].seqNo == i + 1
  }

  /** A log as every session keeps it: chained, and numbered from one without gaps. */
  ghost predicate GoodLog(h: HashFn, log: seq<Event>) {
    Chained(h, log) && Numbered(log)
  }

  lemma ExtendKeepsGood(h: HashFn, log: seq<Event>, kind: EventType, turnId: Option<Id>, payload: Payload, now: nat)
    requires GoodLog(h, log)
    ensures GoodLog(h, Extend(h, log, kind, turnId, payload, now))
  {
    ChainedSnoc(h, log, NewEvent(h, log, kind, turnId, payload, now));
  }

  /** The event list of one session object. */
  class EventLog {
    const hash: HashFn
    var events: seq<Event>

    constructor (hash: HashFn, events: seq<Event>)
      ensures this.hash == hash && this.events == events
    {
      this.hash := hash;
      this.events := events;
    }

    method VerifyEventChain() returns (r: Result<Option<string>, ChainError>)
      ensures r == Verify(hash, events)
    {
      var any, all := false, true;
      for i := 0 to |events|
        invariant any <==> exists j :: 0 <= j < i && Hashed(events[j])
        invariant all <==> forall j :: 0 <= j < i ==> Hashed(events[j])
      {
        if Hashed(events[i]) {
          any := true;
        } else {
          all := false;
        }
      }
      if !any {
        return Ok(None);
      }
      if !all {
        return Err(Mixed);
      }
      var expectedPrev: Option<string> := None;
      var i := 0;
      while i < |events|
        invariant 0 <= i <= |events|
        invariant Check(hash, events, None) == Check(hash, events[i..], expectedPrev)
      {
        var event := events[i];
        assert events[i..][0] == event && events[i..][1..] == events[i + 1..];
        if event.hashVersion != Some(HASH_VERSION) {
          return Err(Version(event.seqNo));
        }
        if event.prevHash != expectedPrev {
          return Err(Previous(event.seqNo));
        }
        if event.eventHash != Some(hash(MaterialOf(event, expectedPrev))) {
          return Err(Hash(event.seqNo));
        }
        expectedPrev := event.eventHash;
        i := i + 1;
      }
      return Ok(expectedPrev);
    }

    /** Seals every event of the list in place, whatever it carried before. */
    method SealLegacy() returns (r: Result<Option<string>, ChainError>)
      modifies this
      ensures events == SealAll(hash, old(events)) && r == Ok(Head(events))
    {
      hide SealAll, Check, Verify, Head, HashBefore;
      ghost var before := events;
      ghost var sealed: seq<Event> := [];
      var prevHash: Option<string> := None;
      var i := 0;
      assert before[..0] == [];
      SealNothing(hash);
      while i < |events|
        invariant 0 <= i <= |events| == |before|
        invariant sealed == SealAll(hash, before[..i])
        invariant events == sealed + before[i..]
        invariant prevHash == Head(sealed)
      {
        SealAllStep(hash, before, i);
        var event := events[i];
        event := event.(hashVersion := Some(HASH_VERSION), prevHash := prevHash);
        event := event.(eventHash := Some(hash(MaterialOf(event, prevHash))));
        events := events[i := event];
        HeadSnoc(sealed, event);
        sealed := sealed + [event];
        prevHash := event.eventHash;
        i := i + 1;
      }
      assert before[..i] == before;
      return Ok(prevHash);
    }

    method SealEventChain() returns (r: Result<Option<string>, ChainError>)
      modifies this
      ensures Seal(hash, old(events)).Ok? ==> events == Seal(hash, old(events)).value && r == Ok(Head(events))
      ensures Seal(hash, old(events)).Err? ==> events == old(events) && r == Err(Seal(hash, old(events)).error)
    {
      var any := exists i :: 0 <= i < |events| && Hashed(events[i]);
      if any {
        r := VerifyEventChain();
        VerifyIffChained(hash, events);
        return;
      }
      r := SealLegacy();
    }

    method AppendEvent(kind: EventType, turnId: Option<Id>, payload: Payload, now: nat) returns (r: Result<Event, ChainError>)
      modifies this
      ensures var appended := Append(hash, old(events), kind, turnId, payload, now);
              && (appended.Ok? ==> events == appended.value && r == Ok(events[|events| - 1]))
              && (appended.Err? ==> events == old(events) && r == Err(appended.error))
    {
      var sealed := SealEventChain();
      if sealed.Err? {
        return Err(sealed.error);
      }
      var prevHash := sealed.value;
      var event := Event(|events| + 1, kind, turnId, payload, now, Some(HASH_VERSION), prevHash, None);
      event := event.(eventHash := Some(hash(MaterialOf(event, prevHash))));
      events := events + [event];
      return Ok(event);
    }
  }
}
