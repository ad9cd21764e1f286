/** Findings of semantic judges, and the gate that turns grounded ones into observations. */
module JudgeGate {
  import opened Common
  import opened Events
  import opened Evidence

  datatype Finding = Finding(competency: string, state: EvidenceState, confidence: real, quote: Option<string>, rationale: string)

  datatype Observation = Observation(competency: string, turnId: Id, state: EvidenceState, confidence: real,
                                     quote: Option<string>, note: string, source: string, runId: Option<Id>)

  datatype GateError = VerifiedFinding | QuoteNotLiteral | QuoteMissing | SourceTooLong

  const MAX_QUOTE := 4000
  const MAX_RATIONALE := 2000
  const MAX_SOURCE := 160

  predicate NeedsQuote(state: EvidenceState) {
    state == Demonstrated || state == Contradicted
  }

  predicate HasQuote(f: Finding) {
    f.quote.Some? && f.quote.value != ""
  }

  /** What the constructor of a finding accepts. */
  predicate Constructible(f: Finding) {
    && f.competency != ""
    && 0.0 <= f.confidence <= 1.0
    && (f.quote.Some? ==> |f.quote.value| <= MAX_QUOTE)
    && 2 <= |f.rationale| <= MAX_RATIONALE
    && f.state != Verified
    && (NeedsQuote(f.state) ==> HasQuote(f))
  }

  function Source(judgeId: string): string {
    SEMANTIC + judgeId
  }

  predicate Literal(f: Finding, text: string) {
    f.quote.Some? ==> Occurs(f.quote.value, text)
  }

  function GateOne(f: Finding, text: string, judgeId: string): Option<GateError> {
    if f.state == Verified then Some(VerifiedFinding)
    else if !Literal(f, text) then Some(QuoteNotLiteral)
    else if NeedsQuote(f.state) && !HasQuote(f) then Some(QuoteMissing)
    else if |Source(judgeId)| > MAX_SOURCE then Some(SourceTooLong)
    else None
  }

  function ToObservation(f: Finding, answer: Id, judgeId: string): (o: Observation)
    ensures Semantic(o.source)
  {
    Observation(f.competency, answer, f.state, f.confidence, f.quote, f.rationale, Source(judgeId), None)
  }

  /** The gate passes a response exactly when it passes each finding. */
  predicate Passes(findings: seq<Finding>, text: string, judgeId: string) {
    forall i :: 0 <= i < |findings| ==> GateOne(findings[i], text, judgeId).None?
  }

  /**
   A finding the gate lets through: not verified, quoted literally from the answer, quoted at all where it demonstrates
   or contradicts, and with a source that fits.
   */
  ghost predicate Grounded(f: Finding, text: string, judgeId: string) {
    && f.state != Verified
    && (f.quote.Some? ==> Occurs(f.quote.value, text))
    && (f.state == Demonstrated || f.state == Contradicted ==> f.quote.Some? && f.quote.value != "")
    && |"semantic_judge:" + judgeId| <= 160
  }

  /** The observation says of the answer what the finding says, in the judge's name. */
  ghost predicate Reports(o: Observation, f: Finding, answer: Id, judgeId: string) {
    && o.competency == f.competency && o.turnId == answer && o.state == f.state && o.confidence == f.confidence
    && o.quote == f.quote && o.note == f.rationale && o.source == "semantic_judge:" + judgeId
  }

  lemma PassesIffGrounded(findings: seq<Finding>, text: string, judgeId: string)
    ensures Passes(findings, text, judgeId) <==> forall i :: 0 <= i < |findings| ==> Grounded(findings[i], text, judgeId)
  {
    forall i | 0 <= i < |findings|
      ensures GateOne(findings[i], text, judgeId).None? <==> Grounded(findings[i], text, judgeId)
    {
    }
  }

  method Validate(answer: Id, text: string, findings: seq<Finding>, judgeId: string)
    returns (r: Result<seq<Observation>, GateError>)
    ensures r.Ok? <==> Passes(findings, text, judgeId)
    ensures r.Ok? <==> forall i :: 0 <= i < |findings| ==> Grounded(findings[i], text, judgeId)
    ensures r.Ok? ==> |r.value| == |findings|
                      && forall i :: 0 <= i < |findings| ==> Reports(r.value[i], findings[i], answer, judgeId)
    ensures r.Ok? ==> |r.value| == |findings|
                      && forall i :: 0 <= i < |findings| ==> r.value[i] == ToObservation(findings[i], answer, judgeId)
    ensures r.Err? ==> exists i :: 0 <= i < |findings| && GateOne(findings[i], text, judgeId) == Some(r.error)
                                   && Passes(findings[..i], text, judgeId)
  {
    PassesIffGrounded(findings, text, judgeId);
    hide Grounded;
    var observations: seq<Observation> := [];
    for i := 0 to |findings|
      invariant |observations| == i
      invariant Passes(findings[..i], text, judgeId)
      invariant forall j :: 0 <= j < i ==> observations[j] == ToObservation(findings[j], answer, judgeId)
    {
      var finding := findings[i];
      assert findings[..i + 1] == findings[..i] + [finding];
      if finding.state == Verified {
        return Err(VerifiedFinding);
      }
      if finding.quote.Some? && !Occurs(finding.quote.value, text) {
        return Err(QuoteNotLiteral);
      }
      if NeedsQuote(finding.state) && !HasQuote(finding) {
        return Err(QuoteMissing);
      }
      if |Source(judgeId)| > MAX_SOURCE {
        return Err(SourceTooLong);
      }
      observations := observations + [ToObservation(finding, answer, judgeId)];
    }
    assert findings[..|findings|] == findings;
    return Ok(observations);
  }
}
