/**
 * The approval gate and the approval request store (services/approvalService.ts).
 * The deterministic checks are functions; the AI sensitivity check is a parameter.
 * The store holds the stored request list, the subscribed listeners and the
 * notifications they have received.
 */
module Approval {
  import opened Wrappers
  import opened Text
  import opened Listeners

  datatype RequestStatus = Pending | Approved | Rejected
  datatype RiskLevel = Low | Medium | High

  datatype ProposedMessage = ProposedMessage(subject: string, body: string)

  datatype ApprovalRequest = ApprovalRequest(
    id: string,
    action: string,
    reasonForApproval: string,
    prospectName: string,
    prospectTitle: string,
    prospectCompany: string,
    proposedMessage: ProposedMessage,
    riskLevel: RiskLevel,
    status: RequestStatus,
    timestamp: string,
    recommendedAction: string,
    alternativeSuggestions: seq<string>)

  /** `ProposedAction`; `subject` is `meta?.subject`. */
  datatype ProposedAction = ProposedAction(
    kind: string,
    prospectId: string,
    prospectName: string,
    prospectTitle: string,
    prospectCompany: string,
    content: string,
    subject: Option<string>)

  datatype ApprovalConfig = ApprovalConfig(sensitiveKeywords: seq<string>, restrictedRoles: seq<string>)

  const DefaultConfig := ApprovalConfig(
    ["contract", "discount", "free", "guarantee", "legal", "lawyer", "sue"],
    ["ceo", "cfo", "president", "founder"])

  /** The AI sensitivity check: it failed (threw), or it answered. */
  datatype AiCheck = AiFailed | AiVerdict(requiresApproval: bool, reason: Option<string>)

  datatype ApprovalResult = ApprovalResult(
    approved: bool,
    autoApproved: bool,
    requestId: Option<string>,
    status: RequestStatus,
    reason: string,
    timestamp: string)

  // ---------------------------------------------------------------------------
  // The gate
  // ---------------------------------------------------------------------------

  /** `terms.find(t => s.includes(t))`. */
  function Find(terms: seq<string>, s: string): (r: Option<string>)
    ensures r.Some? ==> exists k :: 0 <= k < |terms| && terms[k] == r.value && Contains(s, r.value)
                                   && (forall j :: 0 <= j < k ==> !Contains(s, terms[j]))
    ensures r.None? <==> forall k :: 0 <= k < |terms| ==> !Contains(s, terms[k])
  {
    if terms == [] then None
    else if Contains(s, terms[0]) then Some(terms[0])
    else
      var r := Find(terms[1..], s);
      assert forall k :: 1 <= k < |terms| ==> terms[k] == terms[1..][k - 1];
      r
  }

  /** A found term is truthy unless it is the empty string. */
  predicate Found(r: Option<string>) {
    r.Some? && r.value != ""
  }

  function SensitiveMatch(a: ProposedAction, config: ApprovalConfig): Option<string> {
    Find(config.sensitiveKeywords, Lower(a.content))
  }

  function RoleMatch(a: ProposedAction, config: ApprovalConfig): Option<string> {
    Find(config.restrictedRoles, Lower(a.prospectTitle))
  }

  /** Why an action needs approval. */
  datatype Flag = Keyword(term: string) | Role(term: string) | AiFlag(text: string)

  function FlagText(f: Flag): string {
    match f
    case Keyword(t) => "Sensitive keyword detected: \"" + t + "\""
    case Role(t) => "Restricted role outreach: \"" + t + "\""
    case AiFlag(t) => t
  }

  /**
   * The decision of `approvalWorkflowManager`: a keyword, else a restricted role, else
   * (only then) the AI check; `None` when the action is safe.
   */
  function Assess(a: ProposedAction, config: ApprovalConfig, ai: AiCheck): Option<Flag> {
    var kw := SensitiveMatch(a, config);
    var role := RoleMatch(a, config);
    if Found(kw) then Some(Keyword(kw.value))
    else if Found(role) then Some(Role(role.value))
    else if ai.AiVerdict? && ai.requiresApproval then
      Some(AiFlag(if ai.reason.Some? && ai.reason.value != "" then ai.reason.value else "AI Risk Assessment Flag"))
    else None
  }

  /** A sensitive keyword decides the reason, whatever the title and the AI say. */
  lemma KeywordTakesPrecedence(a: ProposedAction, config: ApprovalConfig, ai: AiCheck)
    requires Found(SensitiveMatch(a, config))
    ensures Assess(a, config, ai) == Some(Keyword(SensitiveMatch(a, config).value))
  {
  }

  /** The AI check matters only when neither deterministic check matched. */
  lemma AiOnlyWhenNoRule(a: ProposedAction, config: ApprovalConfig, ai1: AiCheck, ai2: AiCheck)
    requires Found(SensitiveMatch(a, config)) || Found(RoleMatch(a, config))
    ensures Assess(a, config, ai1) == Assess(a, config, ai2)
  {
  }

  /** A failed AI check leaves the decision as the deterministic checks made it. */
  lemma AiFailureKeepsDecision(a: ProposedAction, config: ApprovalConfig)
    ensures Assess(a, config, AiFailed) == Assess(a, config, AiVerdict(false, None))
    ensures Assess(a, config, AiFailed).None? <==> !Found(SensitiveMatch(a, config)) && !Found(RoleMatch(a, config))
  {
  }

  /** The restricted-role check is a case-insensitive substring search on the title. */
  lemma {:induction false} RoleFoundIgnoringCase(a: ProposedAction, config: ApprovalConfig, k: nat, at: nat)
    requires k < |config.restrictedRoles| && config.restrictedRoles[k] != ""
    requires at + |config.restrictedRoles[k]| <= |a.prospectTitle|
    requires Lower(a.prospectTitle[at..at + |config.restrictedRoles[k]|]) == config.restrictedRoles[k]
    requires !Found(SensitiveMatch(a, config))
    requires forall j :: 0 <= j < |config.restrictedRoles| ==> config.restrictedRoles[j] != ""
    ensures Assess(a, config, AiFailed).Some? && Assess(a, config, AiFailed).value.Role?
  {
    var t := config.restrictedRoles[k];
    var lt := Lower(a.prospectTitle);
    assert lt[at..at + |t|] == t by {
      forall j | 0 <= j < |t| ensures lt[at + j] == t[j] {
        assert Lower(a.prospectTitle[at..at + |t|])[j] == LowerChar(a.prospectTitle[at + j]);
      }
    }
    assert t <= lt[at..];
    assert Contains(lt, t);
  }

  /** The request stored for a flagged action; `nowMs` stands for `Date.now()`. */
  function NewRequest(a: ProposedAction, f: Flag, nowMs: nat, now: string): (r: ApprovalRequest)
    ensures r.status == Pending && r.riskLevel == (if f.Keyword? then High else Medium)
    ensures r.proposedMessage.body == a.content
    ensures r.proposedMessage.subject == (if a.subject.Some? && a.subject.value != "" then a.subject.value else "Pending Review")
    ensures r.reasonForApproval == FlagText(f) && r.action == a.kind
  {
    ApprovalRequest(
      "apr_" + NatToString(nowMs),
      a.kind,
      FlagText(f),
      a.prospectName,
      a.prospectTitle,
      a.prospectCompany,
      ProposedMessage(if a.subject.Some? && a.subject.value != "" then a.subject.value else "Pending Review", a.content),
      if f.Keyword? then High else Medium,
      Pending,
      now,
      "review",
      [])
  }

  // ---------------------------------------------------------------------------
  // The request list
  // ---------------------------------------------------------------------------

  /** `requests.filter(r => r.status === 'pending')`. */
  function PendingOnly(reqs: seq<ApprovalRequest>): (r: seq<ApprovalRequest>)
    ensures |r| <= |reqs|
    ensures forall x :: x in r <==> x in reqs && x.status == Pending
    decreases |reqs|
  {
    if reqs == [] then []
    else (if reqs[0].status == Pending then [reqs[0]] else []) + PendingOnly(reqs[1..])
  }

  /** Filtering keeps stored order: filtering a concatenation concatenates the filtered parts. */
  lemma {:induction false} PendingOnlyAppend(a: seq<ApprovalRequest>, b: seq<ApprovalRequest>)
    ensures PendingOnly(a + b) == PendingOnly(a) + PendingOnly(b)
    decreases |a|
  {
    if a != [] {
      assert (a + b)[1..] == a[1..] + b;
      PendingOnlyAppend(a[1..], b);
    } else {
      assert a + b == b;
    }
  }

  /** A single element is kept exactly when it passes the filter. */
  lemma PendingOnlySingle(x: ApprovalRequest)
    ensures PendingOnly([x]) == if x.status == Pending then [x] else []
  {
    assert [x][1..] == [];
  }

  /** `requests.map(req => req.id === id ? { ...req, status } : req)`. */
  function StatusUpdated(reqs: seq<ApprovalRequest>, id: string, status: RequestStatus): (r: seq<ApprovalRequest>)
    ensures |r| == |reqs|
    ensures forall i :: 0 <= i < |reqs| ==> r[i] == if reqs[i].id == id then reqs[i].(status := status) else reqs[i]
  {
    seq(|reqs|, i requires 0 <= i < |reqs| => if reqs[i].id == id then reqs[i].(status := status) else reqs[i])
  }

  /** After an update, no request with the id is still pending, and the others keep their status. */
  lemma UpdateStatusSettles(reqs: seq<ApprovalRequest>, id: string, status: RequestStatus)
    requires status != Pending
    ensures forall x :: x in PendingOnly(StatusUpdated(reqs, id, status)) ==> x.id != id
    ensures forall x :: x in reqs && x.id != id && x.status == Pending ==> x in PendingOnly(StatusUpdated(reqs, id, status))
  {
    var after := StatusUpdated(reqs, id, status);
    forall x | x in reqs && x.id != id && x.status == Pending
      ensures x in after
    {
      var i :| 0 <= i < |reqs| && reqs[i] == x;
      assert after[i] == x;
    }
  }

  /** One call of a subscribed listener, with the request list it receives. */
  type RequestDelivery = Delivery<seq<ApprovalRequest>>

  // ---------------------------------------------------------------------------
  // The store (localStorage key 'sdr_approval_requests' and the listener list)
  // ---------------------------------------------------------------------------

  class ApprovalStore {
    /** The stored list; `None` when the key is missing or does not parse. */
    var saved: Option<seq<ApprovalRequest>>
    var listeners: seq<nat>
    var delivered: seq<RequestDelivery>

    constructor(saved: Option<seq<ApprovalRequest>>)
      ensures this.saved == saved && listeners == [] && delivered == []
    {
      this.saved := saved;
      listeners := [];
      delivered := [];
    }

    /** `getRequests`. */
    function Requests(): seq<ApprovalRequest>
      reads this
    {
      saved.GetOr([])
    }

    /** `getPendingRequests`: exactly the pending requests. */
    function GetPendingRequests(): (r: seq<ApprovalRequest>)
      reads this
      ensures r == PendingOnly(Requests())
      ensures forall x :: x in r <==> x in Requests() && x.status == Pending
    {
      PendingOnly(Requests())
    }

    /** `saveRequests`: store the list and hand it to every listener. */
    method SaveRequests(reqs: seq<ApprovalRequest>)
      modifies this
      ensures saved == Some(reqs) && listeners == old(listeners)
      ensures delivered == old(delivered) + Notifications(listeners, reqs)
    {
      saved := Some(reqs);
      delivered := delivered + Notifications(listeners, reqs);
    }

    /** `addRequest`: the request goes to the front. */
    method AddRequest(request: ApprovalRequest)
      modifies this
      ensures saved == Some([request] + old(Requests())) && listeners == old(listeners)
      ensures delivered == old(delivered) + Notifications(listeners, [request] + old(Requests()))
    {
      SaveRequests([request] + Requests());
    }

    /** `updateStatus`: only the status of the requests with the id changes. */
    method UpdateStatus(id: string, status: RequestStatus)
      requires status != Pending
      modifies this
      ensures saved == Some(StatusUpdated(old(Requests()), id, status)) && listeners == old(listeners)
      ensures delivered == old(delivered) + Notifications(listeners, StatusUpdated(old(Requests()), id, status))
    {
      SaveRequests(StatusUpdated(Requests(), id, status));
    }

    /** `subscribe`: the listener is added and called at once with the current list. */
    method Subscribe(listener: nat)
      modifies this
      ensures listeners == old(listeners) + [listener] && saved == old(saved)
      ensures delivered == old(delivered) + [Delivery(listener, Requests())]
    {
      listeners := listeners + [listener];
      delivered := delivered + [Delivery(listener, Requests())];
    }

    /** The unsubscribe function `subscribe` returns. */
    method Unsubscribe(listener: nat)
      modifies this
      ensures listeners == Without(old(listeners), listener)
      ensures saved == old(saved) && delivered == old(delivered)
    {
      listeners := Without(listeners, listener);
    }

    /**
     * `approvalWorkflowManager(action, config)`. `ai` is the AI check's outcome, `nowMs`
     * stands for `Date.now()` and `now` for the ISO timestamp.
     */
    method ApprovalWorkflowManager(action: ProposedAction, config: ApprovalConfig, ai: AiCheck, nowMs: nat, now: string)
      returns (result: ApprovalResult)
      modifies this
      ensures Assess(action, config, ai).None? ==>
        && result == ApprovalResult(true, true, None, Approved, "Safe for autonomous execution", now)
        && saved == old(saved) && listeners == old(listeners) && delivered == old(delivered)
      ensures Assess(action, config, ai).Some? ==>
        var flag := Assess(action, config, ai).value;
        var request := NewRequest(action, flag, nowMs, now);
        && result == ApprovalResult(false, false, Some(request.id), Pending, FlagText(flag), now)
        && saved == Some([request] + old(Requests())) && listeners == old(listeners)
        && delivered == old(delivered) + Notifications(listeners, [request] + old(Requests()))
    {
      var flag := Assess(action, config, ai);
      if flag.None? {
        return ApprovalResult(true, true, None, Approved, "Safe for autonomous execution", now);
      }
      var request := NewRequest(action, flag.value, nowMs, now);
      AddRequest(request);
      result := ApprovalResult(false, false, Some(request.id), Pending, FlagText(flag.value), now);
    }
  }

  /** A flagged action leaves one more pending request, at the front, with high risk iff a keyword matched. */
  lemma FlaggedRequestIsPending(action: ProposedAction, config: ApprovalConfig, ai: AiCheck, nowMs: nat, now: string, before: seq<ApprovalRequest>)
    requires Assess(action, config, ai).Some?
    ensures var request := NewRequest(action, Assess(action, config, ai).value, nowMs, now);
      && request in PendingOnly([request] + before)
      && (request.riskLevel == High <==> Found(SensitiveMatch(action, config)))
  {
  }
}
