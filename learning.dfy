/**
 * The outreach attempt log and the insight filter (services/learningService.ts).
 * The store holds the two stored lists; the clock is passed in.
 */
module Learning {
  import opened Wrappers
  import opened Text
  import opened Domain

  /** `outcomes`; `opened` is a keyword here, so the members carry an `is` prefix. */
  datatype Outcomes = Outcomes(isOpened: bool, isReplied: bool, isBooked: bool)

  datatype AttemptVariables = AttemptVariables(
    subjectLength: nat,
    wordCount: nat,
    tone: string,
    personalizationHook: string,
    sendHour: nat)

  datatype ProspectAttributes = ProspectAttributes(title: string, industry: string, companySize: string)

  datatype OutreachAttempt = OutreachAttempt(
    id: string,
    prospectId: string,
    timestamp: string,
    content: string,
    variables: AttemptVariables,
    prospectAttributes: ProspectAttributes,
    outcomes: Outcomes)

  /** `LearningInsight`: only the optional target segment is read. */
  datatype LearningInsight = LearningInsight(targetSegment: Option<string>)

  datatype OutcomeType = Opened | Replied | BookedMeeting

  /** `outcomes[outcomeType] = value`, then `opened = true` for a reply or a booking. */
  function SetOutcome(o: Outcomes, kind: OutcomeType, value: bool): (r: Outcomes)
    ensures kind != Opened ==> r.isOpened
    ensures kind == Opened ==> r == o.(isOpened := value)
    ensures kind == Replied ==> r == Outcomes(true, value, o.isBooked)
    ensures kind == BookedMeeting ==> r == Outcomes(true, o.isReplied, value)
  {
    match kind
    case Opened => o.(isOpened := value)
    case Replied => o.(isReplied := value, isOpened := true)
    case BookedMeeting => o.(isBooked := value, isOpened := true)
  }

  /** `attempts.map(a => a.prospectId).lastIndexOf(prospectId)`. */
  function LastIndexOf(attempts: seq<OutreachAttempt>, prospectId: string): (r: Option<nat>)
    ensures r.Some? ==> r.value < |attempts| && attempts[r.value].prospectId == prospectId
    ensures r.Some? ==> forall j :: r.value < j < |attempts| ==> attempts[j].prospectId != prospectId
    ensures r.None? ==> forall j :: 0 <= j < |attempts| ==> attempts[j].prospectId != prospectId
  {
    if attempts == [] then None
    else if attempts[|attempts| - 1].prospectId == prospectId then Some(|attempts| - 1)
    else LastIndexOf(attempts[..|attempts| - 1], prospectId)
  }

  /** The attempt `recordAttempt` builds; `nowMs`, `now` and `hour` stand for the clock. */
  function NewAttempt(p: Prospect, content: string, subject: string, nowMs: nat, now: string, hour: nat): (a: OutreachAttempt)
    ensures a.prospectId == p.id && a.content == content
    ensures a.outcomes == Outcomes(false, false, false)
    ensures a.variables.subjectLength == |CodeUnits(subject)|
    ensures a.variables.wordCount == CountChar(content, ' ') + 1
  {
    SplitPieces(content, ' ');
    OutreachAttempt(
      "att_" + NatToString(nowMs),
      p.id,
      now,
      content,
      AttemptVariables(|CodeUnits(subject)|, |Split(content, ' ')|, "professional", "unknown", hour),
      ProspectAttributes(p.title, p.industry,
        if p.companySize.Some? && p.companySize.value != "" then p.companySize.value else "Unknown"),
      Outcomes(false, false, false))
  }

  /**
   * `subject.length` counts UTF-16 code units: a character outside the Basic
   * Multilingual Plane counts twice, so "\U{1F680} Launch" has length 9, not 8.
   */
  lemma AstralSubjectCountsTwice(p: Prospect, content: string, nowMs: nat, now: string, hour: nat)
    ensures NewAttempt(p, content, "\U{1F680} Launch", nowMs, now, hour).variables.subjectLength == 9
    ensures |"\U{1F680} Launch"| == 8
  {
    var subject := "\U{1F680} Launch";
    assert subject[1..] == " Launch";
    assert forall k :: 0 <= k < |subject[1..]| ==> subject[1..][k] as int <= 0xFFFF;
  }

  /** An insight is kept when it has no segment, or its segment occurs in the title or industry, ignoring case. */
  predicate Relevant(insight: LearningInsight, p: Prospect) {
    if insight.targetSegment.None? || insight.targetSegment.value == "" then true
    else
      var target := Lower(insight.targetSegment.value);
      Contains(Lower(p.title), target) || Contains(Lower(p.industry), target)
  }

  /** `allInsights.filter(...)` with `Relevant`. */
  function RelevantOnly(insights: seq<LearningInsight>, p: Prospect): (r: seq<LearningInsight>)
    ensures |r| <= |insights|
    ensures forall x :: x in r <==> x in insights && Relevant(x, p)
    decreases |insights|
  {
    if insights == [] then []
    else (if Relevant(insights[0], p) then [insights[0]] else []) + RelevantOnly(insights[1..], p)
  }

  /** Filtering keeps stored order: filtering a concatenation concatenates the filtered parts. */
  lemma {:induction false} RelevantOnlyAppend(a: seq<LearningInsight>, b: seq<LearningInsight>, p: Prospect)
    ensures RelevantOnly(a + b, p) == RelevantOnly(a, p) + RelevantOnly(b, p)
    decreases |a|
  {
    if a != [] {
      assert (a + b)[1..] == a[1..] + b;
      RelevantOnlyAppend(a[1..], b, p);
    } else {
      assert a + b == b;
    }
  }

  /** A single element is kept exactly when it passes the filter. */
  lemma RelevantOnlySingle(x: LearningInsight, p: Prospect)
    ensures RelevantOnly([x], p) == if Relevant(x, p) then [x] else []
  {
    assert [x][1..] == [];
  }

  /** An insight without a segment is relevant to every prospect. */
  lemma UnsegmentedAlwaysRelevant(insights: seq<LearningInsight>, p: Prospect)
    ensures forall x :: x in insights && x.targetSegment.None? ==> x in RelevantOnly(insights, p)
  {
  }

  class LearningStore {
    /** The stored attempt list; `None` when missing or unparsable. */
    var savedAttempts: Option<seq<OutreachAttempt>>
    /** The stored insight list; `None` when missing or unparsable. */
    var savedInsights: Option<seq<LearningInsight>>

    constructor(attempts: Option<seq<OutreachAttempt>>, insights: Option<seq<LearningInsight>>)
      ensures savedAttempts == attempts && savedInsights == insights
    {
      savedAttempts := attempts;
      savedInsights := insights;
    }

    /** `getAttempts`. */
    function Attempts(): seq<OutreachAttempt>
      reads this
    {
      savedAttempts.GetOr([])
    }

    /** `getInsights`. */
    function Insights(): seq<LearningInsight>
      reads this
    {
      savedInsights.GetOr([])
    }

    /** `recordAttempt`: one attempt with no outcome yet is appended and returned. */
    method RecordAttempt(p: Prospect, content: string, subject: string, nowMs: nat, now: string, hour: nat)
      returns (attempt: OutreachAttempt)
      modifies this
      ensures attempt == NewAttempt(p, content, subject, nowMs, now, hour)
      ensures savedAttempts == Some(old(Attempts()) + [attempt]) && savedInsights == old(savedInsights)
    {
      var attempts := Attempts();
      attempt := NewAttempt(p, content, subject, nowMs, now, hour);
      attempts := attempts + [attempt];
      savedAttempts := Some(attempts);
    }

    /**
     * `updateOutcome`: the outcome of the most recent attempt for the prospect is set;
     * nothing is written when the prospect has no attempt.
     */
    method UpdateOutcome(prospectId: string, kind: OutcomeType, value: bool)
      modifies this
      ensures savedInsights == old(savedInsights)
      ensures LastIndexOf(old(Attempts()), prospectId).None? ==> savedAttempts == old(savedAttempts)
      ensures LastIndexOf(old(Attempts()), prospectId).Some? ==>
        var i := LastIndexOf(old(Attempts()), prospectId).value;
        savedAttempts == Some(old(Attempts())[i := old(Attempts())[i].(outcomes := SetOutcome(old(Attempts())[i].outcomes, kind, value))])
    {
      var attempts := Attempts();
      var index := LastIndexOf(attempts, prospectId);
      if index.Some? {
        var i := index.value;
        attempts := attempts[i := attempts[i].(outcomes := SetOutcome(attempts[i].outcomes, kind, value))];
        savedAttempts := Some(attempts);
      }
    }

    /** `getRelevantInsights`. */
    function GetRelevantInsights(p: Prospect): (r: seq<LearningInsight>)
      reads this
      ensures r == RelevantOnly(Insights(), p)
      ensures forall x :: x in r <==> x in Insights() && Relevant(x, p)
    {
      RelevantOnly(Insights(), p)
    }
  }

  /**
   * An outcome update touches only the latest attempt for the prospect: every other
   * attempt, and every field but the outcomes, stay as they were.
   */
  lemma OutcomeUpdateIsLocal(attempts: seq<OutreachAttempt>, prospectId: string, kind: OutcomeType, value: bool)
    requires LastIndexOf(attempts, prospectId).Some?
    ensures var i := LastIndexOf(attempts, prospectId).value;
      var after := attempts[i := attempts[i].(outcomes := SetOutcome(attempts[i].outcomes, kind, value))];
      && |after| == |attempts|
      && (forall j :: 0 <= j < |attempts| && j != i ==> after[j] == attempts[j])
      && (forall j :: i < j < |attempts| ==> attempts[j].prospectId != prospectId)
      && after[i].prospectId == prospectId && after[i].content == attempts[i].content
      && (kind != Opened ==> after[i].outcomes.isOpened)
  {
  }
}
