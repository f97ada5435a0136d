/**
 * Account-level grouping and signal aggregation (services/accountService.ts):
 * prospects are grouped by their normalised company name, and an account's
 * signals are gathered from the memories of its prospects. The two AI calls
 * are parameters.
 */
module Account {
  import opened Wrappers
  import opened Text
  import opened Domain
  import opened Memory

  /** The grouping key: the company name lower-cased, then trimmed. */
  function AccountKey(company: string): string {
    Trim(Lower(company))
  }

  /**
   * Keys are already normal: normalising a key again gives the key, so a group's
   * key used as the account name yields that key as the account id.
   */
  lemma KeyIsNormal(company: string)
    ensures AccountKey(AccountKey(company)) == AccountKey(company)
  {
    var lc := Lower(company);
    var t := Trim(lc);
    var k := TrimIsSlice(lc);
    assert Lower(t) == t by {
      forall i | 0 <= i < |t| ensures Lower(t)[i] == t[i] {
        assert t[i] == lc[k + i];
      }
    }
    assert TrimStart(t) == t;
    assert TrimEnd(t) == t;
  }

  /** The prospects whose company has the key `k`, in input order. */
  function Members(ps: seq<Prospect>, k: string): (r: seq<Prospect>)
    ensures |r| <= |ps|
    ensures forall p :: p in r <==> p in ps && AccountKey(p.company) == k
  {
    if ps == [] then []
    else
      var last := ps[|ps| - 1];
      Members(ps[..|ps| - 1], k) + (if AccountKey(last.company) == k then [last] else [])
  }

  /** The reduction of `groupProspectsByAccount`, one prospect at a time. */
  function Grouped(ps: seq<Prospect>): map<string, seq<Prospect>> {
    if ps == [] then map[]
    else
      var acc := Grouped(ps[..|ps| - 1]);
      var p := ps[|ps| - 1];
      var k := AccountKey(p.company);
      acc[k := (if k in acc then acc[k] else []) + [p]]
  }

  /**
   * The groups are exactly the non-empty key filters: a key is present iff some
   * prospect has it, and its group lists those prospects in input order.
   */
  lemma {:induction false} GroupedIsFilter(ps: seq<Prospect>)
    ensures forall k :: k in Grouped(ps) <==> Members(ps, k) != []
    ensures forall k :: k in Grouped(ps) ==> Grouped(ps)[k] == Members(ps, k)
  {
    if ps != [] {
      GroupedIsFilter(ps[..|ps| - 1]);
    }
  }

  /** One more prospect extends its own key's group and leaves the other groups alone. */
  lemma GroupedSnoc(ps: seq<Prospect>, i: nat)
    requires i < |ps|
    ensures var acc := Grouped(ps[..i]);
      var k := AccountKey(ps[i].company);
      Grouped(ps[..i + 1]) == acc[k := (if k in acc then acc[k] else []) + [ps[i]]]
  {
    assert ps[..i + 1][..i] == ps[..i];
  }

  /** The distinct keys, in order of first appearance. */
  function Keys(ps: seq<Prospect>): seq<string> {
    if ps == [] then []
    else
      var ks := Keys(ps[..|ps| - 1]);
      var k := AccountKey(ps[|ps| - 1].company);
      if k in ks then ks else ks + [k]
  }

  predicate Distinct(ks: seq<string>) {
    forall i, j :: 0 <= i < j < |ks| ==> ks[i] != ks[j]
  }

  /** The sum of the sizes of the groups named in `ks`. */
  function TotalSize(groups: map<string, seq<Prospect>>, ks: seq<string>): nat {
    if ks == [] then 0
    else
      var k := ks[|ks| - 1];
      TotalSize(groups, ks[..|ks| - 1]) + (if k in groups then |groups[k]| else 0)
  }

  /** Replacing one group changes the total by the change in that group's size. */
  lemma {:induction false} TotalSizeUpdate(groups: map<string, seq<Prospect>>, ks: seq<string>, k: string, v: seq<Prospect>)
    requires Distinct(ks) && k in groups
    ensures k !in ks ==> TotalSize(groups[k := v], ks) == TotalSize(groups, ks)
    ensures k in ks ==> TotalSize(groups[k := v], ks) == TotalSize(groups, ks) - |groups[k]| + |v|
  {
    if ks != [] {
      var front := ks[..|ks| - 1];
      assert Distinct(front);
      TotalSizeUpdate(groups, front, k, v);
      if ks[|ks| - 1] == k {
        assert k !in front;
      } else if k in ks {
        var j :| 0 <= j < |ks| && ks[j] == k;
        assert front[j] == k;
      }
    }
  }

  /** A key absent from the groups adds nothing to the total. */
  lemma {:induction false} TotalSizeNew(groups: map<string, seq<Prospect>>, ks: seq<string>, k: string, v: seq<Prospect>)
    requires k !in groups && k !in ks
    ensures TotalSize(groups[k := v], ks) == TotalSize(groups, ks)
  {
    if ks != [] {
      TotalSizeNew(groups, ks[..|ks| - 1], k, v);
    }
  }

  /** The keys list names every group exactly once. */
  lemma {:induction false} KeysNameGroups(ps: seq<Prospect>)
    ensures Distinct(Keys(ps))
    ensures forall k :: k in Keys(ps) <==> k in Grouped(ps)
  {
    if ps != [] {
      KeysNameGroups(ps[..|ps| - 1]);
    }
  }

  /** The last prospect either joins an existing group or opens a new one, and its key with it. */
  lemma ExtendGroups(ps: seq<Prospect>)
    requires ps != []
    ensures var front, p := ps[..|ps| - 1], ps[|ps| - 1];
      var k := AccountKey(p.company);
      if k in Grouped(front) then Keys(ps) == Keys(front) && Grouped(ps) == Grouped(front)[k := Grouped(front)[k] + [p]]
      else Keys(ps) == Keys(front) + [k] && Grouped(ps) == Grouped(front)[k := [p]]
  {
    KeysNameGroups(ps[..|ps| - 1]);
    assert [] + [ps[|ps| - 1]] == [ps[|ps| - 1]];
  }

  /** The group sizes sum to the number of prospects: every prospect lands in exactly one group. */
  lemma {:induction false} GroupSizesSum(ps: seq<Prospect>)
    ensures TotalSize(Grouped(ps), Keys(ps)) == |ps|
  {
    if ps != [] {
      var front := ps[..|ps| - 1];
      var p := ps[|ps| - 1];
      GroupSizesSum(front);
      KeysNameGroups(front);
      var g, ks := Grouped(front), Keys(front);
      var k := AccountKey(p.company);
      ExtendGroups(ps);
      if k in ks {
        TotalSizeUpdate(g, ks, k, g[k] + [p]);
      } else {
        TotalSizeNew(g, ks, k, [p]);
        assert (ks + [k])[..|ks|] == ks;
      }
    }
  }

  /** `groupProspectsByAccount`. */
  method GroupProspectsByAccount(prospects: seq<Prospect>) returns (groups: map<string, seq<Prospect>>)
    ensures forall k :: k in groups <==> Members(prospects, k) != []
    ensures forall k :: k in groups ==> groups[k] == Members(prospects, k)
    ensures forall k :: k in groups <==> k in Keys(prospects)
    ensures TotalSize(groups, Keys(prospects)) == |prospects|
  {
    groups := map[];
    var i := 0;
    while i < |prospects|
      invariant 0 <= i <= |prospects|
      invariant groups == Grouped(prospects[..i])
    {
      var p := prospects[i];
      var key := AccountKey(p.company);
      if key !in groups {
        groups := groups[key := []];
      }
      groups := groups[key := groups[key] + [p]];
      GroupedSnoc(prospects, i);
      i := i + 1;
    }
    assert prospects[..i] == prospects;
    GroupedFacts(prospects);
  }

  /** What the reduction's result satisfies, gathered for the method above. */
  lemma GroupedFacts(ps: seq<Prospect>)
    ensures forall k :: k in Grouped(ps) <==> Members(ps, k) != []
    ensures forall k :: k in Grouped(ps) ==> Grouped(ps)[k] == Members(ps, k)
    ensures forall k :: k in Grouped(ps) <==> k in Keys(ps)
    ensures TotalSize(Grouped(ps), Keys(ps)) == |ps|
  {
    GroupedIsFilter(ps);
    KeysNameGroups(ps);
    GroupSizesSum(ps);
  }

  /** Every prospect lands in the group of its own key, and only there. */
  lemma GroupsPartition(ps: seq<Prospect>, i: nat, k: string)
    requires i < |ps|
    ensures AccountKey(ps[i].company) in Grouped(ps)
    ensures k in Grouped(ps) ==> (ps[i] in Grouped(ps)[k] <==> AccountKey(ps[i].company) == k)
  {
    GroupedIsFilter(ps);
    assert ps[i] in Members(ps, AccountKey(ps[i].company));
  }

  datatype ContactSummary = ContactSummary(id: string, name: string, title: string, status: LeadStatus)

  datatype AccountSignals = AccountSignals(
    activeEvaluation: bool,
    multipleStakeholders: bool,
    budgetConfirmed: bool,
    timeline: Option<string>)

  /** What the strategy generator returns. */
  datatype Strategy = Strategy(strategy: string, nextActions: seq<string>)

  datatype EngagementStep = EngagementStep(step: int, targetRole: string, objective: string, messageAngle: string)

  /** `BuyingCommitteeIntelligence`; the five untyped committee roles are held as text. */
  datatype BuyingCommitteeIntelligence = BuyingCommitteeIntelligence(
    likelyPowerCenter: string,
    dealComplexity: string,
    whoInfluencesWhom: seq<string>,
    economicBuyer: string,
    champion: string,
    technicalDecisionMaker: string,
    endUsers: string,
    blockersOrRiskOwners: string,
    recommendedEngagementSequence: seq<EngagementStep>)

  datatype AccountIntelligence = AccountIntelligence(
    accountId: string,
    company: string,
    contactsEngaged: seq<ContactSummary>,
    accountSignals: AccountSignals,
    recommendedStrategy: string,
    nextActions: seq<string>,
    generatedAt: string,
    buyingCommittee: BuyingCommitteeIntelligence)

  function Summary(p: Prospect): ContactSummary {
    ContactSummary(p.id, p.name, p.title, p.status)
  }

  /** The memory stored for a prospect, if any. */
  function Lookup(memories: Memories, p: Prospect): Option<ProspectMemory> {
    if p.id in memories then Some(memories[p.id]) else None
  }

  predicate HasBudget(memories: Memories, p: Prospect) {
    p.id in memories && |memories[p.id].extractedIntelligence.budgetIndicators| > 0
  }

  predicate HasTimeline(memories: Memories, p: Prospect) {
    p.id in memories && |memories[p.id].extractedIntelligence.timelineIndicators| > 0
  }

  /** The evaluation heuristic: an engaged or booked lead, or an engagement score above 5. */
  predicate Evaluating(memories: Memories, p: Prospect) {
    && p.id in memories
    && var m := memories[p.id];
       m.leadStatus == "engaged" || m.leadStatus == "booked" || m.engagementScore > 5
  }

  /** Some prospect's memory names a budget. */
  predicate AnyBudget(memories: Memories, ps: seq<Prospect>) {
    exists i :: 0 <= i < |ps| && HasBudget(memories, ps[i])
  }

  /** Some prospect's memory shows an active evaluation. */
  predicate AnyEvaluating(memories: Memories, ps: seq<Prospect>) {
    exists i :: 0 <= i < |ps| && Evaluating(memories, ps[i])
  }

  /** The index of the last prospect whose memory names a timeline. */
  function LastTimelineIndex(memories: Memories, ps: seq<Prospect>): (r: Option<nat>)
    ensures r.Some? ==> r.value < |ps| && HasTimeline(memories, ps[r.value])
    ensures r.Some? ==> forall j :: r.value < j < |ps| ==> !HasTimeline(memories, ps[j])
    ensures r.None? ==> forall j :: 0 <= j < |ps| ==> !HasTimeline(memories, ps[j])
  {
    if ps == [] then None
    else if HasTimeline(memories, ps[|ps| - 1]) then Some(|ps| - 1)
    else LastTimelineIndex(memories, ps[..|ps| - 1])
  }

  /** The aggregated timeline: the first timeline indicator of the last prospect that has one. */
  function Timeline(memories: Memories, ps: seq<Prospect>): (r: Option<string>)
    ensures r.None? <==> forall j :: 0 <= j < |ps| ==> !HasTimeline(memories, ps[j])
    ensures r.Some? ==> exists j :: (0 <= j < |ps| && HasTimeline(memories, ps[j]) &&
      r.value == memories[ps[j].id].extractedIntelligence.timelineIndicators[0] &&
      (forall l :: j < l < |ps| ==> !HasTimeline(memories, ps[l])))
  {
    var k := LastTimelineIndex(memories, ps);
    if k.None? then None
    else Some(memories[ps[k.value].id].extractedIntelligence.timelineIndicators[0])
  }

  /** `prospects[0]?.company || accountName`. */
  function CompanyName(accountName: string, ps: seq<Prospect>): (r: string)
    ensures r == accountName || (|ps| > 0 && r == ps[0].company && r != "")
    ensures |ps| > 0 && ps[0].company != "" ==> r == ps[0].company
  {
    if |ps| > 0 && ps[0].company != "" then ps[0].company else accountName
  }

  /** One step of the signal loop: the flags after looking at one prospect's memory. */
  method Observe(mem: Option<ProspectMemory>, budget: bool, timeline: Option<string>, active: bool)
    returns (budget': bool, timeline': Option<string>, active': bool)
    ensures budget' == (budget || (mem.Some? && |mem.value.extractedIntelligence.budgetIndicators| > 0))
    ensures timeline' == if mem.Some? && |mem.value.extractedIntelligence.timelineIndicators| > 0
      then Some(mem.value.extractedIntelligence.timelineIndicators[0]) else timeline
    ensures active' == (active || (mem.Some? &&
      (mem.value.leadStatus == "engaged" || mem.value.leadStatus == "booked" || mem.value.engagementScore > 5)))
  {
    budget', timeline', active' := budget, timeline, active;
    if mem.Some? {
      var m := mem.value;
      if |m.extractedIntelligence.budgetIndicators| > 0 {
        budget' := true;
      }
      if |m.extractedIntelligence.timelineIndicators| > 0 {
        timeline' := Some(m.extractedIntelligence.timelineIndicators[0]);
      }
      if m.leadStatus == "engaged" || m.leadStatus == "booked" || m.engagementScore > 5 {
        active' := true;
      }
    }
  }

  /** How each aggregated signal over a prefix grows by one prospect. */
  lemma SignalsSnoc(memories: Memories, ps: seq<Prospect>, i: nat)
    requires i < |ps|
    ensures AnyBudget(memories, ps[..i + 1]) <==> AnyBudget(memories, ps[..i]) || HasBudget(memories, ps[i])
    ensures AnyEvaluating(memories, ps[..i + 1]) <==> AnyEvaluating(memories, ps[..i]) || Evaluating(memories, ps[i])
    ensures Timeline(memories, ps[..i + 1]) ==
      if HasTimeline(memories, ps[i]) then Some(memories[ps[i].id].extractedIntelligence.timelineIndicators[0])
      else Timeline(memories, ps[..i])
  {
    assert ps[..i + 1][..i] == ps[..i];
    if AnyBudget(memories, ps[..i + 1]) && !HasBudget(memories, ps[i]) {
      var j :| 0 <= j < i + 1 && HasBudget(memories, ps[..i + 1][j]);
      assert ps[..i][j] == ps[j];
    }
    if AnyEvaluating(memories, ps[..i + 1]) && !Evaluating(memories, ps[i]) {
      var j :| 0 <= j < i + 1 && Evaluating(memories, ps[..i + 1][j]);
      assert ps[..i][j] == ps[j];
    }
    if HasBudget(memories, ps[i]) {
      assert ps[..i + 1][i] == ps[i];
    }
    if Evaluating(memories, ps[i]) {
      assert ps[..i + 1][i] == ps[i];
    }
  }

  /** The `forEach` over the prospects: each memory found raises the flags it supports. */
  method AggregateSignals(store: MemoryStore, prospects: seq<Prospect>)
    returns (budgetConfirmed: bool, timeline: Option<string>, activeEvaluation: bool)
    ensures budgetConfirmed == AnyBudget(store.Memories(), prospects)
    ensures activeEvaluation == AnyEvaluating(store.Memories(), prospects)
    ensures timeline == Timeline(store.Memories(), prospects)
  {
    ghost var memories := store.Memories();
    activeEvaluation := false;
    budgetConfirmed := false;
    timeline := None;
    var i := 0;
    while i < |prospects|
      invariant 0 <= i <= |prospects|
      invariant budgetConfirmed == AnyBudget(memories, prospects[..i])
      invariant activeEvaluation == AnyEvaluating(memories, prospects[..i])
      invariant timeline == Timeline(memories, prospects[..i])
    {
      var mem := store.GetMemory(prospects[i].id);
      assert mem == Lookup(memories, prospects[i]);
      budgetConfirmed, timeline, activeEvaluation := Observe(mem, budgetConfirmed, timeline, activeEvaluation);
      SignalsSnoc(memories, prospects, i);
      i := i + 1;
    }
    assert prospects[..i] == prospects;
  }

  /**
   * `analyzeAccount`: the account id is the normalised name, one contact summary per
   * prospect, and the signals aggregate the memories of all the prospects.
   * `strategize` and `mapCommittee` stand for the two AI calls, `now` for the clock.
   */
  method AnalyzeAccount(
    store: MemoryStore,
    accountName: string,
    prospects: seq<Prospect>,
    strategize: (string, seq<ContactSummary>, AccountSignals) -> Strategy,
    mapCommittee: (string, seq<Prospect>, AccountSignals) -> BuyingCommitteeIntelligence,
    now: string)
    returns (r: AccountIntelligence)
    ensures r.accountId == AccountKey(accountName)
    ensures r.company == CompanyName(accountName, prospects)
    ensures |r.contactsEngaged| == |prospects|
    ensures forall i :: 0 <= i < |prospects| ==> r.contactsEngaged[i] == Summary(prospects[i])
    ensures r.accountSignals.multipleStakeholders <==> |prospects| > 1
    ensures r.accountSignals.budgetConfirmed == AnyBudget(store.Memories(), prospects)
    ensures r.accountSignals.activeEvaluation == AnyEvaluating(store.Memories(), prospects)
    ensures r.accountSignals.timeline == Timeline(store.Memories(), prospects)
    ensures r.recommendedStrategy == strategize(accountName, r.contactsEngaged, r.accountSignals).strategy
    ensures r.nextActions == strategize(accountName, r.contactsEngaged, r.accountSignals).nextActions
    ensures r.buyingCommittee == mapCommittee(accountName, prospects, r.accountSignals)
    ensures r.generatedAt == now
  {
    var accountId := AccountKey(accountName);
    var contacts := seq(|prospects|, i requires 0 <= i < |prospects| => Summary(prospects[i]));

    var budgetConfirmed, timeline, activeEvaluation := AggregateSignals(store, prospects);

    var signals := AccountSignals(activeEvaluation, |prospects| > 1, budgetConfirmed, timeline);
    var strategyResult := strategize(accountName, contacts, signals);
    var committee := mapCommittee(accountName, prospects, signals);
    r := AccountIntelligence(
      accountId,
      CompanyName(accountName, prospects),
      contacts,
      signals,
      strategyResult.strategy,
      strategyResult.nextActions,
      now,
      committee);
  }
}
