/** The two circuit breakers, and why either may stand for the other. */
module Breakers {
  import opened Common

  datatype Config = Config(threshold: nat, cooldown: real)
  {
    predicate Valid() {
      threshold >= 1 && cooldown > 0.0
    }
  }

  datatype Op = Call | Success | Failure

  /** One use of a provider, and the clock reading at that moment. */
  datatype Use = Use(op: Op, at: real)

  ghost predicate Ordered(trace: seq<Use>) {
    forall i, j :: 0 <= i < j < |trace| ==> trace[i].at <= trace[j].at
  }

  function Max(x: real, y: real): real {
    if x >= y then x else y
  }

  // ---- the breaker with explicit states ----

  datatype CircuitState = CLOSED | OPEN | HALF_OPEN

  datatype Circuit = Circuit(state: CircuitState, consecutive: nat, failures: nat, successes: nat, openedAt: Option<real>)

  const NEW_CIRCUIT := Circuit(CLOSED, 0, 0, 0, None)

  function CircuitStep(c: Config, s: Circuit, u: Use): Circuit {
    match u.op
    case Call =>
      if s.state == OPEN && s.openedAt.Some? && u.at - s.openedAt.value >= c.cooldown then s.(state := HALF_OPEN) else s
    case Success => Circuit(CLOSED, 0, s.failures, s.successes + 1, None)
    case Failure =>
      var t := s.(failures := s.failures + 1, consecutive := s.consecutive + 1);
      if s.state == HALF_OPEN || t.consecutive >= c.threshold then t.(state := OPEN, openedAt := Some(u.at)) else t
  }

  /** A call is refused exactly when it leaves the circuit open. */
  predicate CircuitRefuses(c: Config, s: Circuit, u: Use) {
    u.op.Call? && CircuitStep(c, s, u).state == OPEN
  }

  function CircuitRemaining(c: Config, s: Circuit, now: real): real {
    if s.state == OPEN && s.openedAt.Some? then Max(0.0, c.cooldown - (now - s.openedAt.value)) else 0.0
  }

  function CircuitAfter(c: Config, trace: seq<Use>): Circuit {
    if |trace| == 0 then NEW_CIRCUIT
    else CircuitStep(c, CircuitAfter(c, trace[..|trace| - 1]), trace[|trace| - 1])
  }

  // ---- the registry's record, which keeps only a deadline ----

  datatype Health = Health(disabled: bool, consecutive: nat, failures: nat, successes: nat, openUntil: real)

  function NewHealth(disabled: bool): Health {
    Health(disabled, 0, 0, 0, 0.0)
  }

  function HealthStep(c: Config, s: Health, u: Use): Health {
    match u.op
    case Call => if !s.disabled && s.openUntil <= u.at then s.(openUntil := 0.0) else s
    case Success => s.(successes := s.successes + 1, consecutive := 0, openUntil := 0.0)
    case Failure =>
      if s.disabled then s
      else
        var t := s.(failures := s.failures + 1, consecutive := s.consecutive + 1);
        if t.consecutive >= c.threshold then t.(openUntil := u.at + c.cooldown) else t
  }

  predicate HealthRefuses(s: Health, u: Use) {
    u.op.Call? && !s.disabled && s.openUntil > u.at
  }

  function HealthRemaining(s: Health, now: real): real {
    Max(0.0, s.openUntil - now)
  }

  function HealthAfter(c: Config, disabled: bool, trace: seq<Use>): Health {
    if |trace| == 0 then NewHealth(disabled)
    else HealthStep(c, HealthAfter(c, disabled, trace[..|trace| - 1]), trace[|trace| - 1])
  }

  // ---- equivalence ----

  /** A deadline of zero means not open; otherwise the deadline is the opening time plus the cooldown. */
  ghost predicate Related(c: Config, s: Circuit, t: Health) {
    && !t.disabled
    && s.consecutive == t.consecutive && s.failures == t.failures && s.successes == t.successes
    && match s.state
       case CLOSED => t.openUntil == 0.0 && s.consecutive < c.threshold
       case HALF_OPEN => t.openUntil == 0.0 && s.consecutive >= c.threshold
       case OPEN => s.openedAt.Some? && t.openUntil == s.openedAt.value + c.cooldown && s.consecutive >= c.threshold
  }

  lemma StepsStayRelated(c: Config, s: Circuit, t: Health, u: Use)
    requires c.Valid() && Related(c, s, t) && u.at >= 0.0
    ensures Related(c, CircuitStep(c, s, u), HealthStep(c, t, u))
    ensures CircuitRefuses(c, s, u) <==> HealthRefuses(t, u)
  {
  }

  ghost predicate NeverNegative(trace: seq<Use>) {
    forall i :: 0 <= i < |trace| ==> trace[i].at >= 0.0
  }

  lemma {:induction false} RunsStayRelated(c: Config, trace: seq<Use>)
    requires c.Valid() && NeverNegative(trace)
    ensures Related(c, CircuitAfter(c, trace), HealthAfter(c, false, trace))
  {
    if |trace| > 0 {
      var n := |trace| - 1;
      RunsStayRelated(c, trace[..n]);
      StepsStayRelated(c, CircuitAfter(c, trace[..n]), HealthAfter(c, false, trace[..n]), trace[n]);
    }
  }

  /** After this trace both breakers answer the next use alike and report the same counts. */
  ghost predicate Agree(c: Config, trace: seq<Use>, next: Use) {
    var s, t := CircuitAfter(c, trace), HealthAfter(c, false, trace);
    && (CircuitRefuses(c, s, next) <==> HealthRefuses(t, next))
    && s.consecutive == t.consecutive && s.failures == t.failures && s.successes == t.successes
    && CircuitRemaining(c, s, next.at) == HealthRemaining(t, next.at)
  }

  /**
   Trace equivalence for an enabled provider, late outcomes included: on every trace of uses from a clock that
   starts at or above zero, both breakers refuse the same calls, keep the same counts and report the same wait.
   With a clock that starts below zero they differ, so the condition on the clock is exact.
   */
  lemma EquivalentIffClockNotNegative(c: Config, start: real)
    requires c.Valid()
    ensures (forall trace: seq<Use>, next: Use ::
              Ordered(trace + [next]) && (trace + [next])[0].at >= start ==> Agree(c, trace, next))
        <==> start >= 0.0
  {
    if start >= 0.0 {
      forall trace: seq<Use>, next: Use | Ordered(trace + [next]) && (trace + [next])[0].at >= start
        ensures Agree(c, trace, next)
      {
        EquivalentFromZero(c, trace, next);
      }
    } else {
      NegativeClockDiffers(c, start);
      assert Ordered([] + [Use(Call, start)]) && ([] + [Use(Call, start)])[0].at >= start;
    }
  }

  lemma EquivalentFromZero(c: Config, trace: seq<Use>, next: Use)
    requires c.Valid() && Ordered(trace + [next]) && (trace + [next])[0].at >= 0.0
    ensures Agree(c, trace, next)
  {
    var all := trace + [next];
    assert all[|trace|] == next;
    forall i | 0 <= i < |trace|
      ensures trace[i].at >= 0.0
    {
      assert all[i] == trace[i];
    }
    RunsStayRelated(c, trace);
    StepsStayRelated(c, CircuitAfter(c, trace), HealthAfter(c, false, trace), next);
  }

  /** A fresh registry record refuses a call on a negative clock; a fresh breaker admits it. */
  lemma NegativeClockDiffers(c: Config, start: real)
    requires start < 0.0
    ensures !Agree(c, [], Use(Call, start))
    ensures HealthRefuses(HealthAfter(c, false, []), Use(Call, start))
    ensures !CircuitRefuses(c, CircuitAfter(c, []), Use(Call, start))
  {
  }

  // ---- the cooldown ----

  lemma {:induction false} StaysOpen(c: Config, trace: seq<Use>, i: nat, j: nat)
    requires c.Valid() && Ordered(trace) && i < j <= |trace|
    requires trace[i].op.Failure? && CircuitAfter(c, trace[..i + 1]).consecutive >= c.threshold
    requires forall k :: i < k < j ==> !trace[k].op.Success? && trace[k].at < trace[i].at + c.cooldown
    ensures var s := CircuitAfter(c, trace[..j]);
            s.state == OPEN && s.openedAt.Some? && s.openedAt.value >= trace[i].at && s.consecutive >= c.threshold
    decreases j
  {
    assert trace[..j][..j - 1] == trace[..j - 1];
    if i + 1 < j {
      StaysOpen(c, trace, i, j - 1);
      assert trace[i].at <= trace[j - 1].at;
    }
  }

  /**
   Once a failure has reached the threshold, no call passes either breaker before that failure's cooldown
   ends unless a success is recorded in between; failures that arrive meanwhile only prolong the wait.
   */
  lemma NoCallBeforeCooldown(c: Config, trace: seq<Use>, i: nat, j: nat)
    requires c.Valid() && Ordered(trace) && NeverNegative(trace) && i < j < |trace|
    requires trace[i].op.Failure? && HealthAfter(c, false, trace[..i + 1]).consecutive >= c.threshold
    requires forall k :: i < k < j ==> !trace[k].op.Success?
    requires trace[j].op.Call? && trace[j].at < trace[i].at + c.cooldown
    ensures CircuitRefuses(c, CircuitAfter(c, trace[..j]), trace[j])
    ensures HealthRefuses(HealthAfter(c, false, trace[..j]), trace[j])
  {
    RunsStayRelated(c, trace[..i + 1]);
    StaysOpen(c, trace, i, j);
    RunsStayRelated(c, trace[..j]);
  }

  /** And the first call at or after the end of the wait is admitted as a trial, whatever came before. */
  lemma TrialAfterCooldown(c: Config, trace: seq<Use>, next: Use)
    requires c.Valid() && NeverNegative(trace + [next]) && next.op.Call?
    ensures !CircuitRefuses(c, CircuitAfter(c, trace), next)
       <==> CircuitRemaining(c, CircuitAfter(c, trace), next.at) == 0.0
  {
    forall i | 0 <= i < |trace|
      ensures trace[i].at >= 0.0
    {
      assert (trace + [next])[i] == trace[i];
    }
    RunsStayRelated(c, trace);
  }

  /** Failures since the last success. */
  function FailuresSince(trace: seq<Use>): nat {
    if |trace| == 0 || trace[|trace| - 1].op.Success? then 0
    else FailuresSince(trace[..|trace| - 1]) + if trace[|trace| - 1].op.Failure? then 1 else 0
  }

  function LastFailure(trace: seq<Use>): Option<real> {
    if |trace| == 0 then None
    else if trace[|trace| - 1].op.Failure? then Some(trace[|trace| - 1].at)
    else LastFailure(trace[..|trace| - 1])
  }

  /** What the record remembers of the history: below the threshold nothing, and from it on the last failure's deadline. */
  lemma {:induction false} RecordByHistory(c: Config, trace: seq<Use>)
    requires c.Valid() && Ordered(trace) && NeverNegative(trace)
    ensures var s := HealthAfter(c, false, trace);
            && s.consecutive == FailuresSince(trace) && !s.disabled
            && (FailuresSince(trace) > 0 ==> LastFailure(trace).Some?)
            && if FailuresSince(trace) < c.threshold then s.openUntil == 0.0
               else || s.openUntil == LastFailure(trace).value + c.cooldown
                    || (s.openUntil == 0.0 && trace[|trace| - 1].at >= LastFailure(trace).value + c.cooldown)
  {
    if |trace| > 0 {
      RecordByHistory(c, trace[..|trace| - 1]);
    }
  }

  /**
   Both breakers refuse a call exactly when the failures since the last success have reached the threshold and the
   cooldown after the latest failure is not over.
   */
  lemma RefusedIff(c: Config, trace: seq<Use>, next: Use)
    requires c.Valid() && Ordered(trace + [next]) && NeverNegative(trace + [next]) && next.op.Call?
    ensures HealthRefuses(HealthAfter(c, false, trace), next) <==>
              FailuresSince(trace) >= c.threshold && LastFailure(trace).Some?
              && next.at < LastFailure(trace).value + c.cooldown
    ensures CircuitRefuses(c, CircuitAfter(c, trace), next) <==> HealthRefuses(HealthAfter(c, false, trace), next)
  {
    var all := trace + [next];
    assert all[|trace|] == next;
    forall i | 0 <= i < |trace|
      ensures trace[i].at >= 0.0 && trace[i].at <= next.at
    {
      assert all[i] == trace[i];
    }
    assert Ordered(trace) by {
      assert forall i :: 0 <= i < |trace| ==> all[i] == trace[i];
    }
    RecordByHistory(c, trace);
    RunsStayRelated(c, trace);
    StepsStayRelated(c, CircuitAfter(c, trace), HealthAfter(c, false, trace), next);
    LastFailureWas(trace);
  }

  lemma {:induction false} LastFailureWas(trace: seq<Use>)
    requires NeverNegative(trace)
    ensures LastFailure(trace).Some? ==> LastFailure(trace).value >= 0.0
  {
    if |trace| > 0 {
      LastFailureWas(trace[..|trace| - 1]);
    }
  }

  /** A disabled provider is never refused and counts no failure. */
  lemma {:induction false} DisabledNeverRefuses(c: Config, trace: seq<Use>, next: Use)
    ensures !HealthRefuses(HealthAfter(c, true, trace), next)
    ensures HealthAfter(c, true, trace).failures == 0 && HealthAfter(c, true, trace).consecutive == 0
    ensures HealthAfter(c, true, trace).openUntil == 0.0 && HealthAfter(c, true, trace).disabled
  {
    if |trace| > 0 {
      DisabledNeverRefuses(c, trace[..|trace| - 1], next);
    }
  }

  // ---- the registry keeps one record a key ----

  datatype RegistryOp = Register(key: string, disabled: bool) | ForKey(key: string, use: Use)

  function RegistryStep(c: Config, records: map<string, Health>, op: RegistryOp): map<string, Health> {
    match op
    case Register(key, disabled) => if key in records then records else records[key := NewHealth(disabled)]
    case ForKey(key, use) => if key in records then records[key := HealthStep(c, records[key], use)] else records
  }

  function RegistryAfter(c: Config, ops: seq<RegistryOp>): map<string, Health> {
    if |ops| == 0 then map[]
    else RegistryStep(c, RegistryAfter(c, ops[..|ops| - 1]), ops[|ops| - 1])
  }

  /** The first registration of a key decides whether it is disabled. */
  function FirstRegistration(ops: seq<RegistryOp>, key: string): Option<bool> {
    if |ops| == 0 then None
    else
      var n := |ops| - 1;
      match FirstRegistration(ops[..n], key)
      case Some(disabled) => Some(disabled)
      case None => if ops[n].Register? && ops[n].key == key then Some(ops[n].disabled) else None
  }

  /** The uses of one key since it was registered, in order. */
  function UsesOf(ops: seq<RegistryOp>, key: string): seq<Use> {
    if |ops| == 0 then []
    else
      var n := |ops| - 1;
      var before := UsesOf(ops[..n], key);
      if ops[n].ForKey? && ops[n].key == key && FirstRegistration(ops[..n], key).Some?
      then before + [ops[n].use] else before
  }

  /** Keys do not disturb each other: each record is what its own uses alone would have made it. */
  lemma {:induction false} RecordsAreIndependent(c: Config, ops: seq<RegistryOp>, key: string)
    ensures key in RegistryAfter(c, ops) <==> FirstRegistration(ops, key).Some?
    ensures key in RegistryAfter(c, ops) ==>
              RegistryAfter(c, ops)[key] == HealthAfter(c, FirstRegistration(ops, key).value, UsesOf(ops, key))
    ensures FirstRegistration(ops, key).None? ==> UsesOf(ops, key) == []
  {
    if |ops| > 0 {
      var n := |ops| - 1;
      RecordsAreIndependent(c, ops[..n], key);
      if ops[n].ForKey? && ops[n].key == key && FirstRegistration(ops[..n], key).Some? {
        var before := UsesOf(ops[..n], key);
        assert (before + [ops[n].use])[..|before|] == before;
      }
    }
  }

  // ---- the objects ----

  datatype CallError = CircuitOpen | UnknownKey

  class CircuitBreaker {
    const config: Config
    var state: CircuitState
    var consecutive: nat
    var failures: nat
    var successes: nat
    var openedAt: Option<real>

    ghost function View(): Circuit
      reads this
    {
      Circuit(state, consecutive, failures, successes, openedAt)
    }

    /** The source asserts that an open circuit remembers when it opened. */
    ghost predicate Valid()
      reads this
    {
      state == OPEN ==> openedAt.Some?
    }

    constructor (config: Config)
      ensures Valid() && this.config == config && View() == NEW_CIRCUIT
    {
      this.config := config;
      state, consecutive, failures, successes, openedAt := CLOSED, 0, 0, 0, None;
    }

    method BeforeCall(now: real) returns (r: Result<(), CallError>)
      requires Valid()
      modifies this
      ensures Valid()
      ensures View() == CircuitStep(config, old(View()), Use(Call, now))
      ensures r == if CircuitRefuses(config, old(View()), Use(Call, now)) then Err(CircuitOpen) else Ok(())
    {
      if state != OPEN {
        return Ok(());
      }
      var elapsed := now - openedAt.value;
      if elapsed >= config.cooldown {
        state := HALF_OPEN;
        return Ok(());
      }
      return Err(CircuitOpen);
    }

    method RecordSuccess()
      modifies this
      ensures Valid() && forall now :: View() == CircuitStep(config, old(View()), Use(Success, now))
    {
      successes := successes + 1;
      consecutive := 0;
      state := CLOSED;
      openedAt := None;
    }

    method RecordFailure(now: real)
      requires Valid()
      modifies this
      ensures Valid() && View() == CircuitStep(config, old(View()), Use(Failure, now))
    {
      failures := failures + 1;
      consecutive := consecutive + 1;
      if state == HALF_OPEN || consecutive >= config.threshold {
        state := OPEN;
        openedAt := Some(now);
      }
    }
  }

  class ProviderHealthRegistry {
    const config: Config
    var records: map<string, Health>

    constructor (config: Config)
      ensures this.config == config && records == map[]
    {
      this.config := config;
      records := map[];
    }

    method RegisterProvider(key: string, disabled: bool)
      modifies this
      ensures records == RegistryStep(config, old(records), Register(key, disabled))
    {
      if key !in records {
        records := records[key := Health(disabled, 0, 0, 0, 0.0)];
      }
    }

    method BeforeCall(key: string, now: real) returns (r: Result<(), CallError>)
      modifies this
      ensures records == RegistryStep(config, old(records), ForKey(key, Use(Call, now)))
      ensures r == if key !in old(records) then Err(UnknownKey)
                   else if HealthRefuses(old(records)[key], Use(Call, now)) then Err(CircuitOpen)
                   else Ok(())
    {
      if key !in records {
        return Err(UnknownKey);
      }
      var record := records[key];
      if record.disabled {
        return Ok(());
      }
      if record.openUntil <= now {
        records := records[key := record.(openUntil := 0.0)];
        return Ok(());
      }
      return Err(CircuitOpen);
    }

    method RecordSuccess(key: string) returns (r: Result<(), CallError>)
      modifies this
      ensures forall now :: records == RegistryStep(config, old(records), ForKey(key, Use(Success, now)))
      ensures r == if key in old(records) then Ok(()) else Err(UnknownKey)
    {
      if key !in records {
        return Err(UnknownKey);
      }
      var record := records[key];
      record := record.(successes := record.successes + 1, consecutive := 0);
      records := records[key := record.(openUntil := 0.0)];
      return Ok(());
    }

    method RecordFailure(key: string, now: real) returns (r: Result<(), CallError>)
      modifies this
      ensures records == RegistryStep(config, old(records), ForKey(key, Use(Failure, now)))
      ensures r == if key in old(records) then Ok(()) else Err(UnknownKey)
    {
      if key !in records {
        return Err(UnknownKey);
      }
      var record := records[key];
      if record.disabled {
        return Ok(());
      }
      record := record.(failures := record.failures + 1, consecutive := record.consecutive + 1);
      if record.consecutive >= config.threshold {
        record := record.(openUntil := now + config.cooldown);
      }
      records := records[key := record];
      return Ok(());
    }
  }
}
