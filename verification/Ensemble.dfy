/** The quorum of semantic judges. */
module Ensemble {
  import opened Common
  import opened Evidence
  import opened JudgeGate

  /** What one judge did when asked: it raised, or it returned findings. */
  datatype Reply = Raised | Replied(findings: seq<Finding>)

  datatype Judge = Judge(id: string, reply: Reply)

  type Panel = seq<Judge>

  /** Every judge hands back findings that their own constructor accepted. */
  predicate Honest(panel: Panel) {
    forall j, i :: 0 <= j < |panel| && panel[j].reply.Replied? && 0 <= i < |panel[j].reply.findings| ==>
      Constructible(panel[j].reply.findings[i])
  }

  predicate NoDuplicates(findings: seq<Finding>) {
    forall i, j :: 0 <= i < j < |findings| ==> findings[i].competency != findings[j].competency
  }

  /** A judge whose reply fails the gate or repeats a competency counts as failed, like one that raised. */
  predicate Usable(j: Judge, text: string) {
    j.reply.Replied? && Passes(j.reply.findings, text, j.id) && NoDuplicates(j.reply.findings)
  }

  function FindingFor(findings: seq<Finding>, c: string): Option<Finding> {
    if |findings| == 0 then None
    else if findings[|findings| - 1].competency == c then Some(findings[|findings| - 1])
    else FindingFor(findings[..|findings| - 1], c)
  }

  function VoteOf(j: Judge, text: string, c: string): Option<Finding> {
    if Usable(j, text) then FindingFor(j.reply.findings, c) else None
  }

  predicate VotesFor(j: Judge, text: string, c: string, state: EvidenceState) {
    VoteOf(j, text, c).Some? && VoteOf(j, text, c).value.state == state
  }

  /** The findings that vote for a state, in the order of the judges. */
  function Agreeing(panel: Panel, text: string, c: string, state: EvidenceState): seq<Finding> {
    if |panel| == 0 then []
    else
      var n := |panel| - 1;
      Agreeing(panel[..n], text, c, state)
      + if VotesFor(panel[n], text, c, state) then [VoteOf(panel[n], text, c).value] else []
  }

  function Count(panel: Panel, text: string, c: string, state: EvidenceState): nat {
    |Agreeing(panel, text, c, state)|
  }

  /** Threshold times the number of judges, rounded up. */
  function Required(n: nat, threshold: real): int {
    Ceiling(Multiple(n, threshold))
  }

  /** States in the order in which the source breaks ties: the later of two equal counts wins. */
  const TIE_ORDER := [Claimed, Contradicted, Demonstrated, Insufficient, Unknown, Verified]

  /** The fullest state of an order of states, later ones winning ties. */
  function Leader(panel: Panel, text: string, c: string, order: seq<EvidenceState>): EvidenceState
    requires |order| > 0
  {
    var last := order[|order| - 1];
    if |order| == 1 then last
    else
      var before := Leader(panel, text, c, order[..|order| - 1]);
      if Count(panel, text, c, last) >= Count(panel, text, c, before) then last else before
  }

  predicate Quorum(panel: Panel, text: string, c: string, threshold: real, state: EvidenceState) {
    Count(panel, text, c, state) > 0 && Count(panel, text, c, state) >= Required(|panel|, threshold)
  }

  // ---- the combined finding ----

  function Sum(findings: seq<Finding>): real {
    if |findings| == 0 then 0.0 else Sum(findings[..|findings| - 1]) + findings[|findings| - 1].confidence
  }

  /** The first finding of greatest confidence. */
  function Firmest(findings: seq<Finding>): Finding
    requires |findings| > 0
  {
    if |findings| == 1 then findings[0]
    else
      var before, last := Firmest(findings[..|findings| - 1]), findings[|findings| - 1];
      if last.confidence > before.confidence then last else before
  }

  function Decimal(n: nat): (s: string)
    ensures s != ""
  {
    var digit := ['0' + (n % 10) as char];
    if n < 10 then digit else Decimal(n / 10) + digit
  }

  function AgreedText(count: nat, judges: nat): string {
    "Consensus from " + Decimal(count) + "/" + Decimal(judges) + " semantic judges. "
  }

  function SplitText(required: int, judges: nat): string {
    "No semantic evidence state reached the ensemble threshold of "
    + Decimal(if required < 0 then 0 else required) + "/" + Decimal(judges) + " judges."
  }

  function Agreed(panel: Panel, text: string, c: string, state: EvidenceState): Finding
    requires Count(panel, text, c, state) > 0
  {
    var agreeing := Agreeing(panel, text, c, state);
    var source := Firmest(agreeing);
    Finding(c, state, Sum(agreeing) / |agreeing| as real,
            if NeedsQuote(state) then source.quote else None,
            AgreedText(|agreeing|, |panel|) + source.rationale)
  }

  function Combined(panel: Panel, text: string, threshold: real, c: string, order: seq<EvidenceState>): Finding
    requires |panel| > 0 && |order| > 0
  {
    var leader := Leader(panel, text, c, order);
    if Quorum(panel, text, c, threshold, leader) then Agreed(panel, text, c, leader)
    else Finding(c, Insufficient, Count(panel, text, c, leader) as real / |panel| as real, None,
                 SplitText(Required(|panel|, threshold), |panel|))
  }

  // ---- at most one quorum ----

  lemma {:induction false} MultipleBounds(n: nat, x: real)
    requires 0.5 < x <= 1.0
    ensures n as real * 0.5 <= Multiple(n, x) <= n as real
    ensures n > 0 ==> n as real * 0.5 < Multiple(n, x)
  {
    if n > 0 {
      MultipleBounds(n - 1, x);
    }
  }

  /** The required votes are more than half of the judges, and no more than all of them. */
  lemma RequiredIsMajority(n: nat, threshold: real)
    requires n > 0 && 0.5 < threshold <= 1.0
    ensures 2 * Required(n, threshold) > n && Required(n, threshold) <= n
  {
    MultipleBounds(n, threshold);
  }

  lemma {:induction false} CountsAreDisjoint(panel: Panel, text: string, c: string, s: EvidenceState, t: EvidenceState)
    requires s != t
    ensures Count(panel, text, c, s) + Count(panel, text, c, t) <= |panel|
  {
    if |panel| > 0 {
      CountsAreDisjoint(panel[..|panel| - 1], text, c, s, t);
    }
  }

  /** At most one state can reach the threshold. */
  lemma QuorumIsUnique(panel: Panel, text: string, c: string, threshold: real, s: EvidenceState, t: EvidenceState)
    requires |panel| > 0 && 0.5 < threshold <= 1.0
    requires Quorum(panel, text, c, threshold, s) && Quorum(panel, text, c, threshold, t)
    ensures s == t
  {
    RequiredIsMajority(|panel|, threshold);
    if s != t {
      CountsAreDisjoint(panel, text, c, s, t);
    }
  }

  lemma {:induction false} LeaderIsFullest(panel: Panel, text: string, c: string, order: seq<EvidenceState>, s: EvidenceState)
    requires |order| > 0 && s in order
    ensures Leader(panel, text, c, order) in order
    ensures Count(panel, text, c, s) <= Count(panel, text, c, Leader(panel, text, c, order))
  {
    hide Count;
    var n := |order| - 1;
    assert order == order[..n] + [order[n]];
    if n > 0 {
      LeaderIsFullest(panel, text, c, order[..n], if s in order[..n] then s else order[0]);
    }
  }

  predicate Complete(order: seq<EvidenceState>) {
    && Unknown in order && Insufficient in order && Claimed in order
    && Demonstrated in order && Verified in order && Contradicted in order
  }

  lemma CompleteHasAll(order: seq<EvidenceState>, s: EvidenceState)
    requires Complete(order)
    ensures s in order
  {
  }

  /** Whatever breaks ties, the leader has a quorum exactly when some state has one, and then it is that state. */
  lemma LeaderFindsQuorum(panel: Panel, text: string, c: string, threshold: real, order: seq<EvidenceState>, s: EvidenceState)
    requires |panel| > 0 && 0.5 < threshold <= 1.0 && |order| > 0 && Complete(order)
    ensures Quorum(panel, text, c, threshold, s) ==> Leader(panel, text, c, order) == s
  {
    hide Count;
    CompleteHasAll(order, s);
    LeaderIsFullest(panel, text, c, order, s);
    if Quorum(panel, text, c, threshold, s) {
      QuorumIsUnique(panel, text, c, threshold, s, Leader(panel, text, c, order));
    }
  }

  // ---- reordering ----

  lemma {:induction false} AgreeingConcat(p: Panel, q: Panel, text: string, c: string, s: EvidenceState)
    ensures Agreeing(p + q, text, c, s) == Agreeing(p, text, c, s) + Agreeing(q, text, c, s)
  {
    if |q| == 0 {
      assert p + q == p;
    } else {
      var n := |q| - 1;
      assert (p + q)[..|p| + n] == p + q[..n];
      AgreeingConcat(p, q[..n], text, c, s);
    }
  }

  lemma {:induction false} SumConcat(a: seq<Finding>, b: seq<Finding>)
    ensures Sum(a + b) == Sum(a) + Sum(b)
  {
    if |b| == 0 {
      assert a + b == a;
    } else {
      var n := |b| - 1;
      assert (a + b)[..|a| + n] == a + b[..n];
      SumConcat(a, b[..n]);
    }
  }

  lemma VotesWithout(q: Panel, k: nat, text: string, c: string, s: EvidenceState)
    requires k < |q|
    ensures var rest, one := Agreeing(q[..k] + q[k + 1..], text, c, s), Agreeing([q[k]], text, c, s);
            && Count(q, text, c, s) == |rest| + |one|
            && Sum(Agreeing(q, text, c, s)) == Sum(rest) + Sum(one)
  {
    hide Sum, Agreeing;
    assert q == (q[..k] + [q[k]]) + q[k + 1..];
    AgreeingConcat(q[..k] + [q[k]], q[k + 1..], text, c, s);
    AgreeingConcat(q[..k], [q[k]], text, c, s);
    AgreeingConcat(q[..k], q[k + 1..], text, c, s);
    var a, b, m := Agreeing(q[..k], text, c, s), Agreeing(q[k + 1..], text, c, s), Agreeing([q[k]], text, c, s);
    SumConcat(a + m, b);
    SumConcat(a, m);
    SumConcat(a, b);
  }

  lemma MultisetWithout(q: Panel, k: nat)
    requires k < |q|
    ensures multiset(q[..k] + q[k + 1..]) == multiset(q) - multiset{q[k]}
  {
    assert q == q[..k] + [q[k]] + q[k + 1..];
  }

  /** Number of votes and sum of confidences do not depend on the order of the judges. */
  lemma {:induction false} VotesIgnoreOrder(p: Panel, q: Panel, text: string, c: string, s: EvidenceState)
    requires multiset(p) == multiset(q)
    ensures Count(p, text, c, s) == Count(q, text, c, s)
    ensures Sum(Agreeing(p, text, c, s)) == Sum(Agreeing(q, text, c, s))
  {
    hide Sum, Agreeing;
    SameMultisetSameLength(p, q);
    if |p| == 0 {
      assert p == q;
    } else {
      var n := |p| - 1;
      assert p[n] in multiset(p);
      assert p[n] in multiset(q);
      var k :| 0 <= k < |q| && q[k] == p[n];
      var fewer, rest := p[..n] + p[n + 1..], q[..k] + q[k + 1..];
      MultisetWithout(p, n);
      MultisetWithout(q, k);
      VotesIgnoreOrder(fewer, rest, text, c, s);
      VotesWithout(p, n, text, c, s);
      VotesWithout(q, k, text, c, s);
    }
  }

  lemma SameMultisetSameLength(p: Panel, q: Panel)
    requires multiset(p) == multiset(q)
    ensures |p| == |q|
  {
    assert |multiset(p)| == |p| && |multiset(q)| == |q|;
  }

  lemma FullestCountIgnoresOrder(p: Panel, q: Panel, text: string, c: string,
                                 order: seq<EvidenceState>, other: seq<EvidenceState>)
    requires multiset(p) == multiset(q)
    requires |order| > 0 && |other| > 0 && Complete(order) && Complete(other)
    ensures Count(p, text, c, Leader(p, text, c, order)) == Count(q, text, c, Leader(q, text, c, other))
  {
    hide Count;
    var s, t := Leader(p, text, c, order), Leader(q, text, c, other);
    CompleteHasAll(other, s);
    CompleteHasAll(order, t);
    LeaderIsFullest(p, text, c, order, t);
    LeaderIsFullest(q, text, c, other, s);
    VotesIgnoreOrder(p, q, text, c, s);
    VotesIgnoreOrder(p, q, text, c, t);
  }

  /**
   The consensus does not depend on the order of the judges nor on how ties are broken: any two orders
   of judges and of states give the same state and the same confidence.
   */
  lemma ConsensusIgnoresOrder(p: Panel, q: Panel, text: string, threshold: real, c: string,
                              order: seq<EvidenceState>, other: seq<EvidenceState>)
    requires |p| > 0 && multiset(p) == multiset(q) && 0.5 < threshold <= 1.0
    requires |order| > 0 && |other| > 0 && Complete(order) && Complete(other)
    ensures |q| > 0
    ensures Combined(p, text, threshold, c, order).state == Combined(q, text, threshold, c, other).state
    ensures Combined(p, text, threshold, c, order).confidence == Combined(q, text, threshold, c, other).confidence
  {
    hide Leader, Agreeing, Complete, AgreedText, SplitText, Required, Sum, Firmest;
    SameMultisetSameLength(p, q);
    FullestCountIgnoresOrder(p, q, text, c, order, other);
    var s, t := Leader(p, text, c, order), Leader(q, text, c, other);
    VotesIgnoreOrder(p, q, text, c, s);
    VotesIgnoreOrder(p, q, text, c, t);
    if Quorum(p, text, c, threshold, s) {
      LeaderFindsQuorum(q, text, c, threshold, other, s);
    } else if Quorum(q, text, c, threshold, t) {
      LeaderFindsQuorum(p, text, c, threshold, order, t);
    }
  }

  // ---- the response ----

  function Response(panel: Panel, text: string, threshold: real, ids: seq<string>): (r: seq<Finding>)
    requires |panel| > 0
    ensures |r| == |ids|
  {
    seq(|ids|, i requires 0 <= i < |ids| => Combined(panel, text, threshold, ids[i], TIE_ORDER))
  }

  function EnsembleId(panel: Panel): string {
    "ensemble:" + Joined(panel)
  }

  function Joined(panel: Panel): string {
    if |panel| == 0 then "" else if |panel| == 1 then panel[0].id
    else Joined(panel[..|panel| - 1]) + "+" + panel[|panel| - 1].id
  }

  ghost predicate Grounded(f: Finding, text: string, c: string, s: EvidenceState) {
    Constructible(f) && Literal(f, text) && f.competency == c && f.state == s
  }

  lemma {:induction false} FindingForIsMember(findings: seq<Finding>, c: string)
    ensures FindingFor(findings, c).Some? ==>
              exists i :: 0 <= i < |findings| && findings[i] == FindingFor(findings, c).value && findings[i].competency == c
    ensures FindingFor(findings, c).None? ==> forall i :: 0 <= i < |findings| ==> findings[i].competency != c
  {
    if |findings| > 0 && findings[|findings| - 1].competency != c {
      var init := findings[..|findings| - 1];
      FindingForIsMember(init, c);
      if FindingFor(init, c).Some? {
        var i :| 0 <= i < |init| && init[i] == FindingFor(init, c).value;
        assert findings[i] == init[i];
      }
    }
  }

  lemma VoteIsGrounded(panel: Panel, k: nat, text: string, c: string, s: EvidenceState)
    requires Honest(panel) && k < |panel| && VotesFor(panel[k], text, c, s)
    ensures Grounded(VoteOf(panel[k], text, c).value, text, c, s)
  {
    hide Constructible, NoDuplicates, Literal;
    var findings := panel[k].reply.findings;
    FindingForIsMember(findings, c);
    var i :| 0 <= i < |findings| && findings[i] == FindingFor(findings, c).value;
    assert Constructible(findings[i]);
    assert GateOne(findings[i], text, panel[k].id).None?;
  }

  lemma {:induction false} AgreeingIsGrounded(panel: Panel, text: string, c: string, s: EvidenceState)
    requires Honest(panel)
    ensures forall f <- Agreeing(panel, text, c, s) :: Grounded(f, text, c, s)
  {
    hide Grounded, VoteOf, VotesFor;
    if |panel| > 0 {
      var n := |panel| - 1;
      HonestPrefix(panel);
      AgreeingIsGrounded(panel[..n], text, c, s);
      if VotesFor(panel[n], text, c, s) {
        VoteIsGrounded(panel, n, text, c, s);
      }
    }
  }

  lemma HonestPrefix(panel: Panel)
    requires Honest(panel) && |panel| > 0
    ensures Honest(panel[..|panel| - 1])
  {
    hide Constructible;
  }

  lemma {:induction false} FirmestIsMember(findings: seq<Finding>)
    requires |findings| > 0
    ensures Firmest(findings) in findings
    ensures forall f <- findings :: f.confidence <= Firmest(findings).confidence
  {
    if |findings| > 1 {
      FirmestIsMember(findings[..|findings| - 1]);
      assert findings == findings[..|findings| - 1] + [findings[|findings| - 1]];
    }
  }

  lemma {:induction false} SumBounds(findings: seq<Finding>)
    requires forall f <- findings :: 0.0 <= f.confidence <= 1.0
    ensures 0.0 <= Sum(findings) <= |findings| as real
  {
    if |findings| > 0 {
      SumBounds(findings[..|findings| - 1]);
      assert findings[|findings| - 1] in findings;
    }
  }

  lemma RatioBounds(x: real, n: real)
    requires 0.0 <= x <= n && n > 0.0
    ensures 0.0 <= x / n <= 1.0
  {
  }

  lemma AgreedIsSafe(panel: Panel, text: string, c: string, s: EvidenceState)
    requires Honest(panel) && Count(panel, text, c, s) > 0
    ensures Safe(Agreed(panel, text, c, s), text, c)
  {
    hide Honest, Agreeing, Sum, Firmest, AgreedText;
    var agreeing := Agreeing(panel, text, c, s);
    AgreeingIsGrounded(panel, text, c, s);
    FirmestIsMember(agreeing);
    SumBounds(agreeing);
    RatioBounds(Sum(agreeing), |agreeing| as real);
    AgreedTextIsLong(|agreeing|, |panel|);
    assert Grounded(Firmest(agreeing), text, c, s);
  }

  lemma AgreedTextIsLong(count: nat, judges: nat)
    ensures |AgreedText(count, judges)| >= 2
  {
  }

  /** Everything the constructor and the gate ask of a finding, except a named competency and a short rationale. */
  ghost predicate Safe(f: Finding, text: string, c: string) {
    && f.competency == c && f.state != Verified && 0.0 <= f.confidence <= 1.0
    && (f.quote.Some? ==> |f.quote.value| <= MAX_QUOTE)
    && Literal(f, text) && (NeedsQuote(f.state) ==> HasQuote(f))
    && |f.rationale| >= 2
  }

  lemma CombinedIsSafe(panel: Panel, text: string, threshold: real, c: string)
    requires Honest(panel) && |panel| > 0
    ensures Safe(Combined(panel, text, threshold, c, TIE_ORDER), text, c)
  {
    hide Honest, Agreeing, Leader, AgreedText, Quorum, Required;
    var leader := Leader(panel, text, c, TIE_ORDER);
    if Quorum(panel, text, c, threshold, leader) {
      QuorumHasVotes(panel, text, c, threshold, leader);
      AgreedIsSafe(panel, text, c, leader);
    } else {
      CountWithin(panel, text, c, leader);
      RatioBounds(Count(panel, text, c, leader) as real, |panel| as real);
    }
  }

  lemma QuorumHasVotes(panel: Panel, text: string, c: string, threshold: real, s: EvidenceState)
    requires Quorum(panel, text, c, threshold, s)
    ensures Count(panel, text, c, s) > 0
  {
  }

  lemma {:induction false} CountWithin(panel: Panel, text: string, c: string, s: EvidenceState)
    ensures Count(panel, text, c, s) <= |panel|
  {
    if |panel| > 0 {
      CountWithin(panel[..|panel| - 1], text, c, s);
    }
  }

  /**
   The votes leave room for the ensemble's own words about one competency: before the rationale of the firmest
   finding for the state that has a quorum, or alone where no state has one.
   */
  ghost predicate LeavesRoom(panel: Panel, text: string, threshold: real, c: string) {
    && (forall s :: Quorum(panel, text, c, threshold, s) ==>
          |AgreedText(Count(panel, text, c, s), |panel|)| + |Firmest(Agreeing(panel, text, c, s)).rationale| <= MAX_RATIONALE)
    && ((forall s :: !Quorum(panel, text, c, threshold, s)) ==>
          |SplitText(Required(|panel|, threshold), |panel|)| <= MAX_RATIONALE)
  }

  /** Every requested competency is named, and the votes on each leave room. */
  ghost predicate Fits(panel: Panel, text: string, threshold: real, ids: seq<string>) {
    forall i :: 0 <= i < |ids| ==> ids[i] != "" && LeavesRoom(panel, text, threshold, ids[i])
  }

  lemma CombinedFitsIff(panel: Panel, text: string, threshold: real, c: string)
    requires |panel| > 0 && 0.5 < threshold <= 1.0
    ensures |Combined(panel, text, threshold, c, TIE_ORDER).rationale| <= MAX_RATIONALE
       <==> LeavesRoom(panel, text, threshold, c)
  {
    hide Leader, Agreeing, AgreedText, SplitText, Required, Firmest, Sum;
    var leader := Leader(panel, text, c, TIE_ORDER);
    forall s | Quorum(panel, text, c, threshold, s)
      ensures s == leader
    {
      LeaderFindsQuorum(panel, text, c, threshold, TIE_ORDER, s);
    }
    if Quorum(panel, text, c, threshold, leader) {
      assert Combined(panel, text, threshold, c, TIE_ORDER) == Agreed(panel, text, c, leader);
    }
  }

  /**
   Whatever the judges return or raise, the combined response has one finding for each requested competency, in
   order and never verified. It passes the grounding gate exactly when the ensemble's own name fits into a source,
   and can be constructed at all exactly when every requested competency is named and the votes leave room.
   */
  lemma ResponseIsSafe(panel: Panel, text: string, threshold: real, ids: seq<string>)
    requires Honest(panel) && |panel| > 0 && 0.5 < threshold <= 1.0
    ensures var r := Response(panel, text, threshold, ids);
            && (forall i :: 0 <= i < |ids| ==> r[i].competency == ids[i] && r[i].state != Verified)
            && (Passes(r, text, EnsembleId(panel)) <==> ids == [] || |Source(EnsembleId(panel))| <= MAX_SOURCE)
            && ((forall i :: 0 <= i < |ids| ==> Constructible(r[i])) <==> Fits(panel, text, threshold, ids))
  {
    hide Honest, Combined, EnsembleId, Source, LeavesRoom;
    var r := Response(panel, text, threshold, ids);
    forall i | 0 <= i < |ids|
      ensures Safe(r[i], text, ids[i])
      ensures Constructible(r[i]) <==> ids[i] != "" && LeavesRoom(panel, text, threshold, ids[i])
    {
      CombinedIsSafe(panel, text, threshold, ids[i]);
      CombinedFitsIff(panel, text, threshold, ids[i]);
    }
    if ids != [] && |Source(EnsembleId(panel))| > MAX_SOURCE {
      assert GateOne(r[0], text, EnsembleId(panel)).Some?;
    }
  }

  lemma BuiltIffFits(panel: Panel, text: string, threshold: real, ids: seq<string>)
    requires |panel| > 0 && 0.5 < threshold <= 1.0
    ensures Honest(panel) ==>
              ((forall i :: 0 <= i < |ids| ==> Constructible(Response(panel, text, threshold, ids)[i]))
               <==> Fits(panel, text, threshold, ids))
  {
    hide Honest, Fits, Constructible, Combined, Passes;
    if Honest(panel) {
      ResponseIsSafe(panel, text, threshold, ids);
    }
  }

  // ---- a bound a caller can check ----

  function PowerOfTen(k: nat): nat {
    if k == 0 then 1 else 10 * PowerOfTen(k - 1)
  }

  lemma {:induction false} DecimalIsShort(n: nat, digits: nat)
    requires digits > 0 && n < PowerOfTen(digits)
    ensures |Decimal(n)| <= digits
  {
    if n >= 10 {
      assert digits > 1;
      DecimalIsShort(n / 10, digits - 1);
    }
  }

  /** Characters of the ensemble's own words in front of an agreed rationale, numbers aside. */
  const PREFIX_WORDS := 34

  lemma TextsAreShort(count: nat, judges: nat, required: int, digits: nat)
    requires digits > 0 && count <= judges < PowerOfTen(digits) && required <= judges
    ensures |AgreedText(count, judges)| <= PREFIX_WORDS + 2 * digits
    ensures |SplitText(required, judges)| <= 100 + 2 * digits
  {
    hide Decimal;
    DecimalIsShort(count, digits);
    DecimalIsShort(judges, digits);
    DecimalIsShort(if required < 0 then 0 else required, digits);
  }

  /** Every rationale is short enough to stand behind the ensemble's own words. */
  predicate Brief(panel: Panel, limit: nat) {
    forall j, i :: 0 <= j < |panel| && panel[j].reply.Replied? && 0 <= i < |panel[j].reply.findings| ==>
      |panel[j].reply.findings[i].rationale| <= limit
  }

  lemma {:induction false} AgreeingIsBrief(panel: Panel, text: string, c: string, s: EvidenceState, limit: nat)
    requires Brief(panel, limit)
    ensures forall f <- Agreeing(panel, text, c, s) :: |f.rationale| <= limit
  {
    hide Passes, NoDuplicates;
    if |panel| > 0 {
      var n := |panel| - 1;
      AgreeingIsBrief(panel[..n], text, c, s, limit);
      if VotesFor(panel[n], text, c, s) {
        FindingForIsMember(panel[n].reply.findings, c);
      }
    }
  }

  /**
   A panel whose size has so many decimal digits, and whose judges leave room for them and for the ensemble's own
   words in every rationale, never makes the ensemble raise over a named competency.
   */
  lemma BriefJudgesNeverRaise(panel: Panel, text: string, threshold: real, ids: seq<string>, digits: nat)
    requires Honest(panel) && 0.5 < threshold <= 1.0 && "" !in ids
    requires 0 < |panel| < PowerOfTen(digits) && 0 < digits <= 900
    requires Brief(panel, MAX_RATIONALE - PREFIX_WORDS - 2 * digits)
    ensures forall f <- Response(panel, text, threshold, ids) :: Constructible(f)
  {
    RequiredIsMajority(|panel|, threshold);
    ResponseIsSafe(panel, text, threshold, ids);
    hide Honest, Combined, AgreedText, SplitText, Required, Brief, Agreeing, Quorum, PowerOfTen, Passes;
    forall i | 0 <= i < |ids|
      ensures LeavesRoom(panel, text, threshold, ids[i])
    {
      TextsAreShort(0, |panel|, Required(|panel|, threshold), digits);
      forall s | Quorum(panel, text, ids[i], threshold, s)
        ensures |AgreedText(Count(panel, text, ids[i], s), |panel|)|
                + |Firmest(Agreeing(panel, text, ids[i], s)).rationale| <= MAX_RATIONALE
      {
        QuorumHasVotes(panel, text, ids[i], threshold, s);
        CountWithin(panel, text, ids[i], s);
        TextsAreShort(Count(panel, text, ids[i], s), |panel|, Required(|panel|, threshold), digits);
        AgreeingIsBrief(panel, text, ids[i], s, MAX_RATIONALE - PREFIX_WORDS - 2 * digits);
        FirmestIsMember(Agreeing(panel, text, ids[i], s));
      }
    }
  }

  /** The state the judges agree on decides the finding: if any state has a quorum, it is the consensus. */
  lemma QuorumDecides(panel: Panel, text: string, threshold: real, c: string, s: EvidenceState)
    requires |panel| > 0 && 0.5 < threshold <= 1.0
    ensures Quorum(panel, text, c, threshold, s) ==> Combined(panel, text, threshold, c, TIE_ORDER).state == s
    ensures (forall t :: !Quorum(panel, text, c, threshold, t)) ==>
              Combined(panel, text, threshold, c, TIE_ORDER).state == Insufficient
              && Combined(panel, text, threshold, c, TIE_ORDER).quote.None?
  {
    hide Quorum, Leader, Agreeing, SplitText, AgreedText;
    LeaderFindsQuorum(panel, text, c, threshold, TIE_ORDER, s);
    if Quorum(panel, text, c, threshold, s) {
      QuorumHasVotes(panel, text, c, threshold, s);
    }
  }

  // ---- the consensus, read off the votes ----

  /** The judges whose usable reply has a finding for the competency in the given state. */
  function Voters(panel: Panel, text: string, c: string, s: EvidenceState): set<int> {
    set j | 0 <= j < |panel| && VotesFor(panel[j], text, c, s)
  }

  /** The share of the judges that vote for a state reaches the threshold. */
  predicate Reaches(panel: Panel, text: string, c: string, threshold: real, s: EvidenceState) {
    |Voters(panel, text, c, s)| > 0 && |Voters(panel, text, c, s)| as real >= threshold * |panel| as real
  }

  /** The judge replied, every finding is grounded, no competency comes twice, and finding i is about c and in state s. */
  ghost predicate Casts(j: Judge, text: string, c: string, s: EvidenceState, i: int) {
    && j.reply.Replied? && 0 <= i < |j.reply.findings|
    && (forall k :: 0 <= k < |j.reply.findings| ==> JudgeGate.Grounded(j.reply.findings[k], text, j.id))
    && (forall k, m :: 0 <= k < m < |j.reply.findings| ==> j.reply.findings[k].competency != j.reply.findings[m].competency)
    && j.reply.findings[i].competency == c && j.reply.findings[i].state == s
  }

  lemma {:induction false} FindingForIs(findings: seq<Finding>, i: nat)
    requires NoDuplicates(findings) && i < |findings|
    ensures FindingFor(findings, findings[i].competency) == Some(findings[i])
    decreases |findings|
  {
    if i < |findings| - 1 {
      FindingForIs(findings[..|findings| - 1], i);
    }
  }

  /** A judge votes exactly with a finding of a reply that is grounded throughout and names no competency twice. */
  lemma VoteIsCast(j: Judge, text: string, c: string, s: EvidenceState)
    ensures VotesFor(j, text, c, s) <==> exists i :: Casts(j, text, c, s, i)
    ensures forall i :: Casts(j, text, c, s, i) ==> VoteOf(j, text, c) == Some(j.reply.findings[i])
  {
    if j.reply.Replied? {
      var findings := j.reply.findings;
      PassesIffGrounded(findings, text, j.id);
      FindingForIsMember(findings, c);
      forall i | Casts(j, text, c, s, i)
        ensures VoteOf(j, text, c) == Some(findings[i])
      {
        FindingForIs(findings, i);
      }
      hide Passes, JudgeGate.Grounded, FindingFor;
      if VotesFor(j, text, c, s) {
        var i :| 0 <= i < |findings| && findings[i] == VoteOf(j, text, c).value;
        assert Casts(j, text, c, s, i);
      }
    }
  }

  lemma NoVoters(text: string, c: string, s: EvidenceState)
    ensures Voters([], text, c, s) == {}
  {
  }

  lemma VotersSnoc(panel: Panel, text: string, c: string, s: EvidenceState)
    requires |panel| > 0
    ensures var n := |panel| - 1;
            |Voters(panel, text, c, s)| == |Voters(panel[..n], text, c, s)| + if VotesFor(panel[n], text, c, s) then 1 else 0
  {
    hide VotesFor;
    var n := |panel| - 1;
    var before := Voters(panel[..n], text, c, s);
    assert Voters(panel, text, c, s) == before + if VotesFor(panel[n], text, c, s) then {n} else {};
    assert n !in before;
  }

  lemma {:induction false} AgreeingAreVotes(panel: Panel, text: string, c: string, s: EvidenceState)
    ensures |Agreeing(panel, text, c, s)| == |Voters(panel, text, c, s)|
    ensures forall f :: f in Agreeing(panel, text, c, s) <==>
              exists j :: 0 <= j < |panel| && VotesFor(panel[j], text, c, s) && VoteOf(panel[j], text, c).value == f
  {
    hide VoteOf, Usable, Voters;
    if |panel| == 0 {
      assert Voters(panel, text, c, s) == {} by { NoVoters(text, c, s); }
    } else {
      var n := |panel| - 1;
      AgreeingAreVotes(panel[..n], text, c, s);
      VotersSnoc(panel, text, c, s);
      assert forall j :: 0 <= j < n ==> panel[..n][j] == panel[j];
    }
  }

  lemma QuorumIsReached(panel: Panel, text: string, c: string, threshold: real, s: EvidenceState)
    ensures Quorum(panel, text, c, threshold, s) <==> Reaches(panel, text, c, threshold, s)
  {
    hide Agreeing, Voters;
    AgreeingAreVotes(panel, text, c, s);
    MultipleIsProduct(|panel|, threshold);
    hide Multiple;
  }

  /** The findings' confidences, one by one. */
  lemma SumOfOne(f: Finding)
    ensures Sum([f]) == f.confidence && Sum([]) == 0.0
  {
    assert [f][..0] == [];
  }

  lemma {:induction false} SumWithin(findings: seq<Finding>, low: real, high: real)
    requires forall f <- findings :: low <= f.confidence <= high
    ensures low * |findings| as real <= Sum(findings) <= high * |findings| as real
  {
    if |findings| > 0 {
      var n := |findings| - 1;
      SumWithin(findings[..n], low, high);
      assert findings[n] in findings;
      assert low * |findings| as real == low * n as real + low;
      assert high * |findings| as real == high * n as real + high;
    }
  }

  lemma MeanWithin(sum: real, n: nat, low: real, high: real)
    requires n > 0 && low * n as real <= sum <= high * n as real
    ensures low <= sum / n as real <= high
  {
  }

  /** The state is the one whose votes reach the threshold, and insufficient without a quote if there is none. */
  ghost predicate StateOfVotes(panel: Panel, text: string, threshold: real, c: string, f: Finding) {
    && (forall s :: Reaches(panel, text, c, threshold, s) ==> f.state == s)
    && ((forall s :: !Reaches(panel, text, c, threshold, s)) ==> f.state == Insufficient && f.quote == None)
  }

  /** The consensus on a competency is read off the votes and the threshold alone. */
  lemma ConsensusIsOfTheVotes(panel: Panel, text: string, threshold: real, c: string)
    requires |panel| > 0 && 0.5 < threshold <= 1.0
    ensures StateOfVotes(panel, text, threshold, c, Combined(panel, text, threshold, c, TIE_ORDER))
  {
    hide Reaches, Quorum, Combined;
    forall s
      ensures Quorum(panel, text, c, threshold, s) <==> Reaches(panel, text, c, threshold, s)
      ensures Reaches(panel, text, c, threshold, s) ==> Combined(panel, text, threshold, c, TIE_ORDER).state == s
    {
      QuorumIsReached(panel, text, c, threshold, s);
      QuorumDecides(panel, text, threshold, c, s);
    }
    QuorumDecides(panel, text, threshold, c, Insufficient);
  }

  lemma ResponseOfVotes(panel: Panel, text: string, threshold: real, ids: seq<string>)
    requires |panel| > 0 && 0.5 < threshold <= 1.0
    ensures forall i :: 0 <= i < |ids| ==>
              StateOfVotes(panel, text, threshold, ids[i], Response(panel, text, threshold, ids)[i])
  {
    hide StateOfVotes, Combined;
    forall i | 0 <= i < |ids|
      ensures StateOfVotes(panel, text, threshold, ids[i], Response(panel, text, threshold, ids)[i])
    {
      ConsensusIsOfTheVotes(panel, text, threshold, ids[i]);
    }
  }

  lemma CombinedIsAgreed(panel: Panel, text: string, threshold: real, c: string, s: EvidenceState)
    requires |panel| > 0 && 0.5 < threshold <= 1.0 && Reaches(panel, text, c, threshold, s)
    ensures Count(panel, text, c, s) > 0
    ensures Combined(panel, text, threshold, c, TIE_ORDER) == Agreed(panel, text, c, s)
  {
    QuorumIsReached(panel, text, c, threshold, s);
    LeaderFindsQuorum(panel, text, c, threshold, TIE_ORDER, s);
    hide Reaches, Leader, Agreeing, Agreed;
  }

  lemma AgreedConfidence(panel: Panel, text: string, c: string, s: EvidenceState)
    requires Count(panel, text, c, s) > 0
    ensures |Agreeing(panel, text, c, s)| > 0
    ensures Agreed(panel, text, c, s).confidence
         == Sum(Agreeing(panel, text, c, s)) / |Agreeing(panel, text, c, s)| as real
  {
    hide Agreeing, Sum, Firmest, AgreedText;
  }

  lemma DivideTimes(x: real, n: nat)
    requires n > 0
    ensures x / n as real * n as real == x
  {
  }

  /** The confidence of an agreed finding is the mean of its voters': their number times it is the sum of theirs. */
  lemma ConfidenceIsMean(panel: Panel, text: string, threshold: real, c: string, s: EvidenceState)
    requires |panel| > 0 && 0.5 < threshold <= 1.0 && Reaches(panel, text, c, threshold, s)
    ensures Combined(panel, text, threshold, c, TIE_ORDER).confidence * |Voters(panel, text, c, s)| as real
         == Sum(Agreeing(panel, text, c, s))
  {
    hide *;
    CombinedIsAgreed(panel, text, threshold, c, s);
    AgreeingAreVotes(panel, text, c, s);
    AgreedConfidence(panel, text, c, s);
    DivideTimes(Sum(Agreeing(panel, text, c, s)), |Agreeing(panel, text, c, s)|);
  }

  lemma AgreeingAreWithin(panel: Panel, text: string, c: string, s: EvidenceState, low: real, high: real)
    requires forall j :: j in Voters(panel, text, c, s) ==> low <= VoteOf(panel[j], text, c).value.confidence <= high
    ensures forall f <- Agreeing(panel, text, c, s) :: low <= f.confidence <= high
  {
    hide Agreeing, VoteOf;
    AgreeingAreVotes(panel, text, c, s);
    forall f | f in Agreeing(panel, text, c, s)
      ensures low <= f.confidence <= high
    {
      var j :| 0 <= j < |panel| && VotesFor(panel[j], text, c, s) && VoteOf(panel[j], text, c).value == f;
      assert j in Voters(panel, text, c, s);
    }
  }

  /** And it lies between any bounds that all of theirs keep. */
  lemma ConfidenceIsBetween(panel: Panel, text: string, threshold: real, c: string, s: EvidenceState, low: real, high: real)
    requires |panel| > 0 && 0.5 < threshold <= 1.0 && Reaches(panel, text, c, threshold, s)
    requires forall j :: j in Voters(panel, text, c, s) ==> low <= VoteOf(panel[j], text, c).value.confidence <= high
    ensures low <= Combined(panel, text, threshold, c, TIE_ORDER).confidence <= high
  {
    hide *;
    CombinedIsAgreed(panel, text, threshold, c, s);
    AgreedConfidence(panel, text, c, s);
    AgreeingAreWithin(panel, text, c, s, low, high);
    SumWithin(Agreeing(panel, text, c, s), low, high);
    MeanWithin(Sum(Agreeing(panel, text, c, s)), |Agreeing(panel, text, c, s)|, low, high);
  }

  /** Without agreement the confidence is the greatest share of the judges that any state has. */
  lemma SplitConfidenceIsShare(panel: Panel, text: string, threshold: real, c: string)
    requires |panel| > 0 && 0.5 < threshold <= 1.0 && forall s :: !Reaches(panel, text, c, threshold, s)
    ensures exists s :: Combined(panel, text, threshold, c, TIE_ORDER).confidence
                        == |Voters(panel, text, c, s)| as real / |panel| as real
                      && forall t :: |Voters(panel, text, c, t)| <= |Voters(panel, text, c, s)|
  {
    var s := Leader(panel, text, c, TIE_ORDER);
    QuorumIsReached(panel, text, c, threshold, s);
    AgreeingAreVotes(panel, text, c, s);
    forall t
      ensures |Voters(panel, text, c, t)| <= |Voters(panel, text, c, s)|
    {
      AgreeingAreVotes(panel, text, c, t);
      CompleteHasAll(TIE_ORDER, t);
      LeaderIsFullest(panel, text, c, TIE_ORDER, t);
    }
    hide Leader, Agreeing, Voters, Quorum, Reaches, SplitText;
  }

  /** An agreed finding quotes a voter no other voter is surer than, where its state asks for a quote, and nothing else. */
  lemma QuoteIsOfTheSurest(panel: Panel, text: string, threshold: real, c: string, s: EvidenceState)
    requires |panel| > 0 && 0.5 < threshold <= 1.0 && Reaches(panel, text, c, threshold, s)
    ensures var r := Combined(panel, text, threshold, c, TIE_ORDER);
            exists j :: j in Voters(panel, text, c, s)
              && r.quote == (if s == Demonstrated || s == Contradicted then VoteOf(panel[j], text, c).value.quote else None)
              && forall k :: k in Voters(panel, text, c, s) ==>
                   VoteOf(panel[k], text, c).value.confidence <= VoteOf(panel[j], text, c).value.confidence
  {
    CombinedIsAgreed(panel, text, threshold, c, s);
    hide Agreeing, Sum, Firmest, AgreedText, VoteOf, Combined, Reaches;
    var agreeing := Agreeing(panel, text, c, s);
    AgreeingAreVotes(panel, text, c, s);
    FirmestIsMember(agreeing);
    var j :| 0 <= j < |panel| && VotesFor(panel[j], text, c, s) && VoteOf(panel[j], text, c).value == Firmest(agreeing);
    assert j in Voters(panel, text, c, s);
    forall k | k in Voters(panel, text, c, s)
      ensures VoteOf(panel[k], text, c).value in agreeing
    {
    }
  }

  /** Two agreeing judges whose rationales are at the limit of what a finding allows: no response can be built. */
  lemma LongRationaleRaises()
    ensures var f := Finding("c", Claimed, 1.0, None, seq(MAX_RATIONALE, i => 'x'));
            var panel := [Judge("a", Replied([f])), Judge("b", Replied([f]))];
            && Honest(panel)
            && !Fits(panel, "answer", 1.0, ["c"])
  {
    hide AgreedText, SplitText;
    var f := Finding("c", Claimed, 1.0, None, seq(MAX_RATIONALE, i => 'x'));
    var a, b := Judge("a", Replied([f])), Judge("b", Replied([f]));
    var panel := [a, b];
    TwoAgree(a, b, f);
    assert Multiple(2, 1.0) == Multiple(1, 1.0) + 1.0 == 2.0;
    assert Quorum(panel, "answer", "c", 1.0, Claimed);
    AgreedTextIsLong(2, 2);
    assert !LeavesRoom(panel, "answer", 1.0, "c");
    assert ["c"][0] == "c";
  }

  lemma TwoAgree(a: Judge, b: Judge, f: Finding)
    requires f.state == Claimed && f.quote.None? && |a.id| == 1 && |b.id| == 1
    requires a.reply == Replied([f]) && b.reply == Replied([f])
    ensures Agreeing([a, b], "answer", f.competency, Claimed) == [f, f] && Firmest([f, f]) == f
  {
    SoleVote(a, f);
    SoleVote(b, f);
    hide VoteOf;
    assert [a, b][..1] == [a];
    assert Agreeing([a][..0], "answer", f.competency, Claimed) == [];
    assert Agreeing([a], "answer", f.competency, Claimed) == [f];
    assert [f, f][..1] == [f];
  }

  lemma SoleVote(j: Judge, f: Finding)
    requires f.state == Claimed && f.quote.None? && |j.id| == 1 && j.reply == Replied([f])
    ensures VoteOf(j, "answer", f.competency) == Some(f)
  {
    assert GateOne(f, "answer", j.id).None?;
    assert [f][|[f]| - 1] == f;
  }

  // ---- the object ----

  datatype PanelError = TooFewJudges | RepeatedJudge | BadThreshold | BadFinding(competency: string)

  predicate Distinct(ids: seq<string>) {
    forall i, j :: 0 <= i < j < |ids| ==> ids[i] != ids[j]
  }

  function CheckPanel(ids: seq<string>, threshold: real): Option<PanelError> {
    if |ids| < 2 then Some(TooFewJudges)
    else if !Distinct(ids) then Some(RepeatedJudge)
    else if !(0.5 < threshold <= 1.0) then Some(BadThreshold)
    else None
  }

  class EvidenceJudgeEnsemble {
    const ids: seq<string>
    const threshold: real

    predicate Valid() {
      CheckPanel(ids, threshold).None?
    }

    /** The replies are those of the judges of this ensemble, in their order. */
    predicate Answers(panel: Panel) {
      |panel| == |ids| && forall k :: 0 <= k < |ids| ==> panel[k].id == ids[k]
    }

    constructor (ids: seq<string>, threshold: real)
      requires CheckPanel(ids, threshold).None?
      ensures Valid()
      ensures this.ids == ids && this.threshold == threshold
    {
      this.ids := ids;
      this.threshold := threshold;
    }

    /** The findings of one judge by competency, or nothing if one repeats. */
    static method ByCompetency(findings: seq<Finding>) returns (mapped: Option<map<string, Finding>>)
      ensures mapped.Some? <==> NoDuplicates(findings)
      ensures mapped.Some? ==> forall c :: FindingFor(findings, c)
                                        == if c in mapped.value then Some(mapped.value[c]) else None
    {
      var table: map<string, Finding> := map[];
      for i := 0 to |findings|
        invariant NoDuplicates(findings[..i])
        invariant forall c :: FindingFor(findings[..i], c) == if c in table then Some(table[c]) else None
      {
        assert findings[..i + 1][..i] == findings[..i];
        var finding := findings[i];
        FindingForIsMember(findings[..i], finding.competency);
        if finding.competency in table {
          return None;
        }
        table := table[finding.competency := finding];
      }
      assert findings[..|findings|] == findings;
      return Some(table);
    }

    /** First pass: what each judge may vote, an empty table for every judge that failed. */
    static method Collect(panel: Panel, text: string) returns (tables: seq<map<string, Finding>>, failures: nat)
      ensures |tables| == |panel|
      ensures forall k, c :: 0 <= k < |panel| ==>
                VoteOf(panel[k], text, c) == if c in tables[k] then Some(tables[k][c]) else None
      ensures failures == |set k | 0 <= k < |panel| && !Usable(panel[k], text)|
    {
      hide FindingFor, NoDuplicates, Passes;
      tables, failures := [], 0;
      ghost var failed: set<int> := {};
      for k := 0 to |panel|
        invariant |tables| == k
        invariant forall j, c :: 0 <= j < k ==>
                    VoteOf(panel[j], text, c) == if c in tables[j] then Some(tables[j][c]) else None
        invariant failed == set j | 0 <= j < k && !Usable(panel[j], text)
        invariant failures == |failed|
      {
        var table: Option<map<string, Finding>> := None;
        if panel[k].reply.Replied? {
          var gated := Validate(0, text, panel[k].reply.findings, panel[k].id);
          if gated.Ok? {
            table := ByCompetency(panel[k].reply.findings);
          }
        }
        assert table.Some? <==> Usable(panel[k], text);
        if table.None? {
          failures := failures + 1;
          failed := failed + {k};
        }
        tables := tables + [if table.Some? then table.value else map[]];
      }
    }

    /** The findings for one competency, grouped by the state they vote for. */
    static method Tally(panel: Panel, text: string, tables: seq<map<string, Finding>>, c: string)
      returns (votes: map<EvidenceState, seq<Finding>>)
      requires |tables| == |panel|
      requires forall k :: 0 <= k < |panel| ==>
                 VoteOf(panel[k], text, c) == if c in tables[k] then Some(tables[k][c]) else None
      ensures forall s :: Agreeing(panel, text, c, s) == if s in votes then votes[s] else []
    {
      hide VoteOf;
      votes := map[];
      for k := 0 to |panel|
        invariant forall s :: Agreeing(panel[..k], text, c, s) == if s in votes then votes[s] else []
      {
        assert panel[..k + 1][..k] == panel[..k];
        if c in tables[k] {
          var finding := tables[k][c];
          var before := if finding.state in votes then votes[finding.state] else [];
          votes := votes[finding.state := before + [finding]];
        }
      }
      assert panel[..|panel|] == panel;
    }

    static method Fullest(ghost panel: Panel, ghost text: string, ghost c: string, votes: map<EvidenceState, seq<Finding>>)
      returns (leader: EvidenceState, agreeing: seq<Finding>)
      requires forall s :: Agreeing(panel, text, c, s) == if s in votes then votes[s] else []
      ensures leader == Leader(panel, text, c, TIE_ORDER) && agreeing == Agreeing(panel, text, c, leader)
    {
      hide Agreeing;
      leader := TIE_ORDER[0];
      agreeing := if leader in votes then votes[leader] else [];
      assert TIE_ORDER[..1][0] == leader;
      for i := 1 to |TIE_ORDER|
        invariant leader == Leader(panel, text, c, TIE_ORDER[..i])
        invariant agreeing == Agreeing(panel, text, c, leader)
      {
        assert TIE_ORDER[..i + 1][..i] == TIE_ORDER[..i];
        var state := TIE_ORDER[i];
        var found := if state in votes then votes[state] else [];
        if |found| >= |agreeing| {
          leader, agreeing := state, found;
        }
      }
      assert TIE_ORDER[..|TIE_ORDER|] == TIE_ORDER;
    }

    /** Second pass for one competency: the votes, the fullest state, and the combined finding. */
    method Combine(panel: Panel, text: string, tables: seq<map<string, Finding>>, c: string) returns (f: Finding)
      requires Valid() && Answers(panel) && |tables| == |panel|
      requires forall k :: 0 <= k < |panel| ==>
                 VoteOf(panel[k], text, c) == if c in tables[k] then Some(tables[k][c]) else None
      ensures f == Combined(panel, text, threshold, c, TIE_ORDER)
    {
      hide VoteOf, Sum, Firmest, AgreedText, SplitText, Agreeing, Leader, Required;
      var votes := Tally(panel, text, tables, c);
      var leader, agreeing := Fullest(panel, text, c, votes);
      if |agreeing| > 0 && |agreeing| >= Required(|panel|, threshold) {
        var source := Firmest(agreeing);
        f := Finding(c, leader, Sum(agreeing) / |agreeing| as real,
                     if NeedsQuote(leader) then source.quote else None,
                     AgreedText(|agreeing|, |panel|) + source.rationale);
      } else {
        f := Finding(c, Insufficient, |agreeing| as real / |panel| as real, None,
                     SplitText(Required(|panel|, threshold), |panel|));
      }
    }

    /** One finding after the other, until one cannot be constructed. */
    method CombineAll(panel: Panel, text: string, tables: seq<map<string, Finding>>, competencies: seq<string>)
      returns (r: Result<seq<Finding>, PanelError>)
      requires Valid() && Answers(panel) && |tables| == |panel|
      requires forall k, c :: 0 <= k < |panel| ==>
                 VoteOf(panel[k], text, c) == if c in tables[k] then Some(tables[k][c]) else None
      ensures |panel| > 0
      ensures r.Ok? ==> r.value == Response(panel, text, threshold, competencies)
      ensures r.Ok? <==> forall i :: 0 <= i < |competencies| ==>
                           Constructible(Response(panel, text, threshold, competencies)[i])
    {
      hide Combined, Constructible, VoteOf;
      var findings: seq<Finding> := [];
      for i := 0 to |competencies|
        invariant |findings| == i
        invariant forall j :: 0 <= j < i ==> findings[j] == Response(panel, text, threshold, competencies)[j]
        invariant forall j :: 0 <= j < i ==> Constructible(findings[j])
      {
        var finding := Combine(panel, text, tables, competencies[i]);
        if !Constructible(finding) {
          assert !Constructible(Response(panel, text, threshold, competencies)[i]);
          return Err(BadFinding(competencies[i]));
        }
        findings := findings + [finding];
      }
      return Ok(findings);
    }

    method Evaluate(panel: Panel, text: string, competencies: seq<string>) returns (r: Result<seq<Finding>, PanelError>)
      requires Valid() && Answers(panel)
      ensures |panel| > 0
      ensures r.Ok? ==> r.value == Response(panel, text, threshold, competencies)
      ensures r.Ok? <==> forall i :: 0 <= i < |competencies| ==>
                           Constructible(Response(panel, text, threshold, competencies)[i])
      ensures Honest(panel) ==> (r.Ok? <==> Fits(panel, text, threshold, competencies))
      ensures r.Ok? ==> forall i :: 0 <= i < |competencies| ==>
                          StateOfVotes(panel, text, threshold, competencies[i], r.value[i])
    {
      var tables, failures := Collect(panel, text);
      hide Combined, Constructible, Honest, Fits, VoteOf, StateOfVotes, Response;
      r := CombineAll(panel, text, tables, competencies);
      BuiltIffFits(panel, text, threshold, competencies);
      ResponseOfVotes(panel, text, threshold, competencies);
    }
  }
}
