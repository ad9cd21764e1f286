/** What the two brains decide, branch by branch, and that the service grants the tools they ask for. */
module Brains {
  import opened Common
  import opened Events
  import opened Interview
  import opened Service
  import opened Outcomes
  import opened Policy

  // ---- the rule-based brain ----

  /** The competency an answer is about: the first one of the question it follows, or else of the job. */
  ghost predicate Active(job: Job, turns: seq<Turn>, c: string)
    requires |job.competencies| > 0 && |turns| > 0
  {
    var before := turns[..|turns| - 1];
    || (exists k :: LatestQuestion(before, k) && before[k].tags != [] && c == before[k].tags[0])
    || ((forall k :: LatestQuestion(before, k) ==> before[k].tags == []) && c == job.competencies[0].id)
  }

  lemma HeadTagIsActive(job: Job, turns: seq<Turn>)
    requires |job.competencies| > 0 && |turns| > 0
    ensures Active(job, turns, HeadTag(LastQuestion(turns[..|turns| - 1]), job))
  {
    var before := turns[..|turns| - 1];
    LastQuestionIsLatest(before);
    hide LastQuestion;
    if LastQuestion(before).Some? {
      var k :| LatestQuestion(before, k) && before[k] == LastQuestion(before).value;
      forall j | LatestQuestion(before, j)
        ensures j == k
      {
        LatestQuestionIsUnique(before, j, k);
      }
    }
  }

  /** Entry i is the first of the job's templates that no tool was made from and that the competency may use. */
  ghost predicate FirstFree(templates: seq<Template>, tools: seq<Tool>, c: string, i: int) {
    && 0 <= i < |templates| && Free(templates[i], tools, c)
    && forall j :: 0 <= j < i ==> !Free(templates[j], tools, c)
  }

  predicate Free(t: Template, tools: seq<Tool>, c: string) {
    (forall tool <- tools :: tool.template != Some(t.id)) && (t.competencies == [] || c in t.competencies)
  }

  lemma {:induction false} FreeIsFirst(templates: seq<Template>, tools: seq<Tool>, c: string)
    ensures FreeTemplate(templates, tools, c).None? ==> forall j :: 0 <= j < |templates| ==> !Free(templates[j], tools, c)
    ensures FreeTemplate(templates, tools, c).Some? ==>
              exists i :: FirstFree(templates, tools, c, i) && templates[i] == FreeTemplate(templates, tools, c).value
  {
    if |templates| > 0 {
      var t, rest := templates[0], templates[1..];
      assert UsedTemplate(tools, t.id) <==> exists tool <- tools :: tool.template == Some(t.id);
      FreeIsFirst(rest, tools, c);
      assert forall j :: 1 <= j < |templates| ==> templates[j] == rest[j - 1];
      if Free(t, tools, c) {
        assert FirstFree(templates, tools, c, 0);
      } else if FreeTemplate(rest, tools, c).Some? {
        var i :| FirstFree(rest, tools, c, i) && rest[i] == FreeTemplate(rest, tools, c).value;
        assert FirstFree(templates, tools, c, i + 1);
      }
    }
  }

  lemma FreeIff(templates: seq<Template>, tools: seq<Tool>, c: string)
    ensures FreeTemplate(templates, tools, c).Some? <==> exists i :: FirstFree(templates, tools, c, i)
    ensures FreeTemplate(templates, tools, c).Some? ==>
              exists i :: FirstFree(templates, tools, c, i) && templates[i] == FreeTemplate(templates, tools, c).value
  {
    FreeIsFirst(templates, tools, c);
    hide Free, FreeTemplate;
  }

  /** Competency i is the first one of the job that is not covered. */
  predicate NextUncovered(competencies: seq<Competency>, covered: seq<string>, i: int) {
    && 0 <= i < |competencies| && competencies[i].id !in covered
    && forall j :: 0 <= j < i ==> competencies[j].id in covered
  }

  lemma {:induction false} UncoveredIsFirst(competencies: seq<Competency>, covered: seq<string>)
    ensures FirstUncovered(competencies, covered).None? ==> forall j :: 0 <= j < |competencies| ==> competencies[j].id in covered
    ensures FirstUncovered(competencies, covered).Some? ==>
              exists i :: NextUncovered(competencies, covered, i) && competencies[i] == FirstUncovered(competencies, covered).value
  {
    if |competencies| > 0 {
      var rest := competencies[1..];
      UncoveredIsFirst(rest, covered);
      assert forall j :: 1 <= j < |competencies| ==> competencies[j] == rest[j - 1];
      if competencies[0].id !in covered {
        assert NextUncovered(competencies, covered, 0);
      } else if FirstUncovered(rest, covered).Some? {
        var i :| NextUncovered(rest, covered, i) && rest[i] == FirstUncovered(rest, covered).value;
        assert NextUncovered(competencies, covered, i + 1);
      }
    }
  }

  lemma UncoveredIff(competencies: seq<Competency>, covered: seq<string>)
    ensures FirstUncovered(competencies, covered).Some? <==> exists i :: NextUncovered(competencies, covered, i)
    ensures FirstUncovered(competencies, covered).Some? ==>
              exists i :: NextUncovered(competencies, covered, i) && competencies[i] == FirstUncovered(competencies, covered).value
  {
    UncoveredIsFirst(competencies, covered);
    hide FirstUncovered;
  }

  predicate Closes(d: Decision) {
    d.completes && d.tags == [] && d.parent.None? && d.template.None?
  }

  /** A question about one competency, linked to a turn or not, with or without a tool. */
  predicate AsksAbout(d: Decision, c: string, parent: Option<Id>, template: Option<string>) {
    !d.completes && d.tags == [c] && d.parent == parent && d.template == template
  }

  ghost predicate MoreCovered(before: seq<string>, after: seq<string>, c: string) {
    after == if c in before then before else before + [c]
  }

  /** After a full answer: a free template's tool, else the next uncovered competency, else the end. */
  ghost predicate MovesOn(job: Job, s: Session, c: string, answer: Id, r: BrainReply) {
    && MoreCovered(s.covered, r.covered, c)
    && if |s.tools| < job.maxTools && exists i :: FirstFree(job.templates, s.tools, c, i)
       then exists i :: FirstFree(job.templates, s.tools, c, i)
              && AsksAbout(r.decision, c, Some(answer), Some(job.templates[i].id))
       else if exists i :: NextUncovered(job.competencies, r.covered, i)
       then exists i :: NextUncovered(job.competencies, r.covered, i)
              && AsksAbout(r.decision, job.competencies[i].id, None, None)
       else Closes(r.decision)
  }

  /** What the brain makes of the candidate's latest turn k about competency c. */
  ghost predicate DecidesAfter(job: Job, s: Session, words: string -> nat, k: int, c: string, r: BrainReply)
    requires 0 <= k < |s.turns|
  {
    if s.asked >= job.maxQuestions then Closes(r.decision) && r.covered == s.covered
    else if words(s.turns[k].text) < 18 && (c in s.followups ==> s.followups[c] == 0)
    then AsksAbout(r.decision, c, Some(s.turns[k].id), None) && r.covered == s.covered
    else MovesOn(job, s, c, s.turns[k].id, r)
  }

  lemma AdvanceMovesOn(job: Job, s: Session, c: string, answer: Id)
    ensures MovesOn(job, s, c, answer, RuleBasedAdvance(job, s, c, answer))
  {
    FreeIff(job.templates, s.tools, c);
    UncoveredIff(job.competencies, if c in s.covered then s.covered else s.covered + [c]);
    hide FreeTemplate, FirstUncovered, FirstFree, NextUncovered, CloseReason, ToolReason, AdvanceReason;
  }

  lemma RuleBasedDecidesAt(job: Job, s: Session, words: string -> nat, k: nat, c: string)
    requires |job.competencies| > 0 && k < |s.turns| && LastBy(s.turns, Candidate) == Some(s.turns[k])
    requires c == HeadTag(LastQuestion(s.turns[..|s.turns| - 1]), job)
    ensures RuleBasedAfterAnswer(job, s, words).Some?
    ensures DecidesAfter(job, s, words, k, c, RuleBasedAfterAnswer(job, s, words).value)
  {
    AdvanceMovesOn(job, s, c, s.turns[k].id);
    hide LastBy, LastQuestion, HeadTag, RuleBasedAdvance, MovesOn, CloseReason, VagueReason;
  }

  lemma RuleBasedNeedsAnswer(job: Job, s: Session, words: string -> nat)
    requires |job.competencies| > 0
    ensures RuleBasedAfterAnswer(job, s, words).None? <==> LastBy(s.turns, Candidate).None?
  {
    hide LastBy, LastQuestion, HeadTag, RuleBasedAdvance;
  }

  /** The rule-based brain, branch by branch; it needs a candidate's turn to look at. */
  lemma RuleBasedDecides(job: Job, s: Session, words: string -> nat)
    requires |job.competencies| > 0
    ensures RuleBasedAfterAnswer(job, s, words).None? <==> forall j :: 0 <= j < |s.turns| ==> s.turns[j].speaker == Interviewer
    ensures RuleBasedAfterAnswer(job, s, words).Some? ==>
              exists k, c :: LatestBy(s.turns, Candidate, k) && Active(job, s.turns, c)
                && DecidesAfter(job, s, words, k, c, RuleBasedAfterAnswer(job, s, words).value)
  {
    LastByIsLatest(s.turns, Candidate);
    RuleBasedNeedsAnswer(job, s, words);
    if LastBy(s.turns, Candidate).Some? {
      var k :| LatestBy(s.turns, Candidate, k) && s.turns[k] == LastBy(s.turns, Candidate).value;
      HeadTagIsActive(job, s.turns);
      var c := HeadTag(LastQuestion(s.turns[..|s.turns| - 1]), job);
      RuleBasedDecidesAt(job, s, words, k, c);
      hide LastBy, LastQuestion, HeadTag, DecidesAfter, Active, LatestBy, RuleBasedAfterAnswer;
      assert DecidesAfter(job, s, words, k, c, RuleBasedAfterAnswer(job, s, words).value);
    }
  }

  /** Distinct entries, as the job's own validation demands. */
  predicate DistinctTemplates(job: Job) {
    forall i, j :: 0 <= i < j < |job.templates| ==> job.templates[i].id != job.templates[j].id
  }

  /** A tool the rule-based brain asks for is granted, if one that fits is made. */
  lemma RuleBasedToolIsGranted(job: Job, s: Session, words: string -> nat, built: Option<Tool>)
    requires |job.competencies| > 0 && DistinctTemplates(job) && RuleBasedAfterAnswer(job, s, words).Some?
    requires built.Some? && Fits(job, s, built.value)
    ensures Granted(job, s, RuleBasedAfterAnswer(job, s, words).value.decision, built)
  {
    RuleBasedDecides(job, s, words);
    hide RuleBasedAfterAnswer, Fits, LatestBy, Active, Unspent, Allows, DistinctTemplates, MovesOn;
    var r := RuleBasedAfterAnswer(job, s, words).value;
    var k, c :| LatestBy(s.turns, Candidate, k) && Active(job, s.turns, c) && DecidesAfter(job, s, words, k, c, r);
    if r.decision.template.Some? {
      ToolOfMoveIsAllowed(job, s, c, s.turns[k].id, r);
    }
  }

  lemma ToolOfMoveIsAllowed(job: Job, s: Session, c: string, answer: Id, r: BrainReply)
    requires DistinctTemplates(job) && MovesOn(job, s, c, answer, r) && r.decision.template.Some?
    ensures Unspent(job, s.tools, r.decision.template.value)
    ensures Allows(job.templates, r.decision.template.value, r.decision.tags)
  {
    hide NextUncovered, MoreCovered;
    var i :| FirstFree(job.templates, s.tools, c, i) && AsksAbout(r.decision, c, Some(answer), Some(job.templates[i].id));
  }

  /** It opens with the first competency, and follows a submission up on the artifact, about the tool's competencies. */
  lemma RuleBasedOpensAndProbes(job: Job, tool: Tool, artifact: Option<Id>, covered: seq<string>)
    requires |job.competencies| > 0
    ensures var r := RuleBasedOpening(job, covered);
            AsksAbout(r.decision, job.competencies[0].id, None, None) && r.covered == covered
    ensures var r := RuleBasedAfterTool(job, tool, artifact, covered);
            && r.covered == covered && !r.decision.completes && r.decision.parent == artifact && r.decision.template.None?
            && (tool.tags != [] ==> r.decision.tags == tool.tags)
            && (tool.tags == [] ==> r.decision.tags == [job.competencies[0].id])
  {
  }

  // ---- the language-model brain ----

  /** An output is turned into a decision that follows up on the candidate's latest turn, opens a tool, or moves on. */
  ghost predicate Converts(o: Output, s: Session, job: Job, d: Decision) {
    && d.text == o.text && d.reason == o.reason
    && if o.action == Finish || s.asked >= job.maxQuestions then Closes(d)
       else
         && !d.completes && d.tags == o.competencies
         && (if o.action == Advance then d.parent.None?
             else exists k :: LatestBy(s.turns, Candidate, k) && d.parent == Some(s.turns[k].id))
         && d.template == (if o.action == OpenATool then o.template else None)
  }

  /** The output cannot be turned into a decision: nothing to follow up on, or no template to open. */
  ghost predicate Fails(o: Output, s: Session, job: Job) {
    && s.asked < job.maxQuestions
    && (o.action == FollowUp || o.action == OpenATool)
    && ((forall j :: 0 <= j < |s.turns| ==> s.turns[j].speaker == Interviewer) || (o.action == OpenATool && o.template.None?))
  }

  lemma ModelDecides(o: Output, s: Session, job: Job)
    ensures ToDecision(o, s, job, true).None? <==> Fails(o, s, job)
    ensures ToDecision(o, s, job, true).Some? ==> Converts(o, s, job, ToDecision(o, s, job, true).value)
  {
    LastByIsLatest(s.turns, Candidate);
    hide LastBy;
  }

  /** An opening moves on whatever the model says, except that a follow-up fails and a used-up limit closes. */
  lemma ModelOpens(o: Output, s: Session, job: Job)
    ensures ModelOpening(o, s, job).None? <==> o.action == FollowUp && s.asked < job.maxQuestions
    ensures ModelOpening(o, s, job).Some? ==>
              var d := ModelOpening(o, s, job).value;
              && d.text == o.text && d.reason == o.reason && d.parent.None? && d.template.None?
              && (if s.asked >= job.maxQuestions then Closes(d) else !d.completes && d.tags == o.competencies)
  {
    hide LastBy;
  }

  /** The checks on a model's output before it is used; None stands for a ValueError. */
  function Checked(o: Output, s: Session, job: Job): Option<Output> {
    if !AllKnown(job, o.competencies) then None
    else if o.action != Finish && o.competencies == [] then None
    else if o.action == OpenATool then
      if o.template.None? || o.template.value == "" then None
      else
        match PolicyFor(job.templates, o.template.value)
        case None => None
        case Some(policy) =>
          if |s.tools| >= job.maxTools || UsedTemplate(s.tools, o.template.value) then None
          else if policy.competencies != [] && !AllIn(o.competencies, policy.competencies) then None
          else Some(o)
    else if o.template.Some? then None
    else Some(o)
  }

  /** The checks pass exactly an output whose competencies are the job's and whose tool the job's policy allows. */
  lemma CheckedIff(o: Output, s: Session, job: Job)
    ensures Checked(o, s, job) == None || Checked(o, s, job) == Some(o)
    ensures Checked(o, s, job).Some? <==>
              && TagsOfJob(job, o.competencies) && (o.action == Finish || o.competencies != [])
              && (o.action != OpenATool ==> o.template.None?)
              && (o.action == OpenATool ==> o.template.Some? && o.template.value != ""
                                            && Unspent(job, s.tools, o.template.value)
                                            && Allows(job.templates, o.template.value, o.competencies))
  {
    TagsAreKnown(job, o.competencies);
    if o.template.Some? {
      UnspentIs(job, s.tools, o.template.value);
      PolicyAllows(job.templates, o.template.value, o.competencies);
    }
    hide AllKnown, TagsOfJob, UsedTemplate, PolicyFor, AllIn, Unspent, Allows;
  }

  /** A checked output always becomes a decision after an answer, and the tool it asks for is granted if one that fits is made. */
  lemma CheckedToolIsGranted(o: Output, s: Session, job: Job, built: Option<Tool>)
    requires Checked(o, s, job).Some? && exists j :: 0 <= j < |s.turns| && s.turns[j].speaker == Candidate
    requires built.Some? && Fits(job, s, built.value)
    ensures ToDecision(o, s, job, true).Some? && Granted(job, s, ToDecision(o, s, job, true).value, built)
  {
    CheckedIff(o, s, job);
    ModelDecides(o, s, job);
    hide Checked, ToDecision, Unspent, Allows, Fits, TagsOfJob, LatestBy;
  }
}
