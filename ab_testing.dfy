/**
 * A/B experiment counters and their significance (services/abTestingService.ts).
 *
 * Counts are natural numbers and rates are exact reals. The z-statistic is never
 * computed: each comparison `z > t` is decided as `d * d > t * t * v`, where `d` is
 * the rate difference and `v` the pooled variance. The floor of the lowest tier is
 * found the same way. A NaN significance is stored as `null`, which is what
 * `JSON.stringify` writes for it.
 */
module ABTesting {
  import opened Wrappers

  datatype Stats = Stats(sent: nat, replied: nat)

  datatype Variant = Variant(id: string, name: string, allocation: real, stats: Stats)

  datatype ExperimentStatus = Running | Completed

  /** The `significance` member as storage holds it: absent, `null`, or a number. */
  datatype StoredSignificance = Unset | Null | Percent(value: int)

  datatype Experiment = Experiment(
    id: string,
    status: ExperimentStatus,
    variants: seq<Variant>,
    winner: Option<string>,
    significance: StoredSignificance)

  /** What `calculateSignificance` returns. */
  datatype SigResult = Number(n: int) | NaN

  const MinSample: nat := 30
  const HighZ: real := 2.58
  const LowZ: real := 1.96

  // ---------------------------------------------------------------------------
  // calculateSignificance
  // ---------------------------------------------------------------------------

  /** `replied / (sent || 1)`. */
  function Rate(s: Stats): real {
    s.replied as real / (if s.sent == 0 then 1 else s.sent) as real
  }

  /** `|p1 - p2|`. */
  function Diff(control: Stats, variation: Stats): (d: real)
    ensures d >= 0.0
  {
    var p1, p2 := Rate(control), Rate(variation);
    if p1 >= p2 then p1 - p2 else p2 - p1
  }

  /** `p * (1 - p) * (1 / n1 + 1 / n2)` with the pooled reply rate `p`; both samples are non-empty. */
  function Variance(control: Stats, variation: Stats): real
    requires control.sent > 0 && variation.sent > 0
  {
    var p := (control.replied + variation.replied) as real / (control.sent + variation.sent) as real;
    p * (1.0 - p) * (1.0 / control.sent as real + 1.0 / variation.sent as real)
  }

  /** The step of the lowest tier at which `z / 1.96 * 95` reaches `k`. */
  function TierPoint(k: nat): real {
    k as real * 1.96 / 95.0
  }

  /** `TierPoint(k) <= z` says `k <= z / 1.96 * 95`. */
  lemma TierPointScale(k: nat, z: real)
    ensures TierPoint(k) <= z <==> k as real <= z / LowZ * 95.0
    ensures TierPoint(k) > z <==> z / LowZ * 95.0 < k as real
  {
  }

  /** The largest `j <= k` with `TierPoint(j) <= z`, given `d2 = z * z * v` and `v > 0`. */
  function LowTier(d2: real, v: real, k: nat): (j: nat)
    ensures j <= k
    ensures j == 0 || Mul(Mul(TierPoint(j), TierPoint(j)), v) <= d2
    ensures forall i :: j < i <= k ==> Mul(Mul(TierPoint(i), TierPoint(i)), v) > d2
    decreases k
  {
    if k == 0 || Mul(Mul(TierPoint(k), TierPoint(k)), v) <= d2 then k else LowTier(d2, v, k - 1)
  }

  /**
   * `calculateSignificance(control, variation)`: 0 below 30 sends on either side; then
   * 99 above z = 2.58, 95 above z = 1.96, else `floor(min(z / 1.96 * 95, 80))`. A zero
   * variance gives Infinity (so 99) or, with no difference, NaN; a negative one, which
   * only more replies than sends can produce, gives NaN.
   */
  function Significance(control: Stats, variation: Stats): (r: SigResult)
    ensures control.sent < MinSample || variation.sent < MinSample ==> r == Number(0)
    ensures r.Number? ==> r.n == 99 || r.n == 95 || 0 <= r.n <= 80
  {
    if control.sent < MinSample || variation.sent < MinSample then Number(0)
    else Tier(Diff(control, variation), Variance(control, variation))
  }

  /** The tiers, from the rate difference `d >= 0` and the pooled variance `v`. */
  function Tier(d: real, v: real): (r: SigResult)
    ensures r.Number? ==> r.n == 99 || r.n == 95 || 0 <= r.n <= 80
  {
    if v < 0.0 then NaN
    else if v == 0.0 then (if d == 0.0 then NaN else Number(99))
    else if Mul(d, d) > Mul(Mul(HighZ, HighZ), v) then Number(99)
    else if Mul(d, d) > Mul(Mul(LowZ, LowZ), v) then Number(95)
    else Number(LowTier(Mul(d, d), v, 80))
  }

  /**
   * Products in the tier comparisons go through `Mul`, so that the solver reasons
   * about them with the monotonicity lemmas below.
   */
  function Mul(x: real, y: real): real {
    x * y
  }

  lemma MulMono(a: real, b: real, c: real)
    requires 0.0 <= a && b <= c
    ensures Mul(a, b) <= Mul(a, c)
  {
    assert a * c - a * b == a * (c - b);
  }
  lemma MulMonoRight(a: real, b: real, c: real)
    requires 0.0 <= c && a <= b
    ensures Mul(a, c) <= Mul(b, c)
  {
    assert b * c - a * c == (b - a) * c;
  }
  lemma MulStrictRight(a: real, b: real, c: real)
    requires 0.0 < c && a < b
    ensures Mul(a, c) < Mul(b, c)
  {
    assert b * c - a * c == (b - a) * c;
  }
  lemma SquareLess(a: real, b: real)
    requires 0.0 <= a && 0.0 <= b
    ensures a < b <==> Mul(a, a) < Mul(b, b)
  {
    if a < b {
      MulMono(a, a, b);
      MulStrictRight(a, b, b);
    } else {
      MulMono(b, b, a);
      MulMonoRight(b, a, a);
    }
  }

  /** For a positive variance, `z > t` is decided on squares scaled by the variance. */
  lemma ScaledAbove(z: real, t: real, v: real, d2: real)
    requires 0.0 <= z && 0.0 <= t && 0.0 < v && d2 == Mul(Mul(z, z), v)
    ensures z > t <==> d2 > Mul(Mul(t, t), v)
  {
    SquareLess(t, z);
    if Mul(t, t) < Mul(z, z) {
      MulStrictRight(Mul(t, t), Mul(z, z), v);
    } else {
      MulMonoRight(Mul(z, z), Mul(t, t), v);
    }
  }

  /**
   * The three tiers, stated with the z-statistic itself: `z` is the non-negative number
   * whose square times the variance is the squared rate difference.
   */
  lemma SignificanceTiers(control: Stats, variation: Stats, z: real)
    requires control.sent >= MinSample && variation.sent >= MinSample
    requires Variance(control, variation) > 0.0
    requires z >= 0.0 && Mul(Mul(z, z), Variance(control, variation)) == Mul(Diff(control, variation), Diff(control, variation))
    ensures z > HighZ ==> Significance(control, variation) == Number(99)
    ensures LowZ < z <= HighZ ==> Significance(control, variation) == Number(95)
    ensures z <= LowZ ==>
      && Significance(control, variation).Number?
      && var n := Significance(control, variation).n;
      && 0 <= n <= 80
      && n as real <= z / LowZ * 95.0
      && (n == 80 || z / LowZ * 95.0 < n as real + 1.0)
  {
    TierByZ(Diff(control, variation), Variance(control, variation), z);
  }

  lemma TierByZ(d: real, v: real, z: real)
    requires 0.0 < v && 0.0 <= z && Mul(Mul(z, z), v) == Mul(d, d)
    ensures z > HighZ ==> Tier(d, v) == Number(99)
    ensures LowZ < z <= HighZ ==> Tier(d, v) == Number(95)
    ensures z <= LowZ ==>
      && Tier(d, v).Number?
      && 0 <= Tier(d, v).n <= 80
      && Tier(d, v).n as real <= z / LowZ * 95.0
      && (Tier(d, v).n == 80 || z / LowZ * 95.0 < Tier(d, v).n as real + 1.0)
  {
    ScaledAbove(z, HighZ, v, Mul(d, d));
    ScaledAbove(z, LowZ, v, Mul(d, d));
    if z <= LowZ {
      LowTierFloor(z, v, Mul(d, d), LowTier(Mul(d, d), v, 80));
    }
  }

  /** A larger z-statistic never gives a lower tier: the significance grows with the evidence. */
  lemma TierMonotone(d1: real, d2: real, v: real, z1: real, z2: real)
    requires 0.0 < v && 0.0 <= z1 <= z2
    requires Mul(Mul(z1, z1), v) == Mul(d1, d1) && Mul(Mul(z2, z2), v) == Mul(d2, d2)
    ensures Tier(d1, v).Number? && Tier(d2, v).Number?
    ensures Tier(d1, v).n <= Tier(d2, v).n
  {
    TierByZ(d1, v, z1);
    TierByZ(d2, v, z2);
    if z2 <= LowZ {
      var n1, n2 := Tier(d1, v).n, Tier(d2, v).n;
      assert z1 / LowZ * 95.0 <= z2 / LowZ * 95.0;
      assert n1 as real <= z2 / LowZ * 95.0;
      if n2 != 80 {
        assert (n1 as real) < n2 as real + 1.0;
      }
    }
  }

  /** For a positive variance, `t > z` is decided the same way. */
  lemma ScaledBelow(z: real, t: real, v: real, d2: real)
    requires 0.0 <= z && 0.0 <= t && 0.0 < v && d2 == Mul(Mul(z, z), v)
    ensures t > z <==> Mul(Mul(t, t), v) > d2
  {
    SquareLess(z, t);
    if Mul(z, z) < Mul(t, t) {
      MulStrictRight(Mul(z, z), Mul(t, t), v);
    } else {
      MulMonoRight(Mul(t, t), Mul(z, z), v);
    }
  }

  /** `LowTier` is `floor(min(z / 1.96 * 95, 80))`. */
  lemma LowTierFloor(z: real, v: real, d2: real, n: nat)
    requires 0.0 <= z && 0.0 < v && d2 == Mul(Mul(z, z), v)
    requires n == LowTier(d2, v, 80)
    ensures n as real <= z / LowZ * 95.0
    ensures n == 80 || z / LowZ * 95.0 < n as real + 1.0
  {
    ScaledBelow(z, TierPoint(n), v, d2);
    TierPointScale(n, z);
    if n < 80 {
      ScaledBelow(z, TierPoint(n + 1), v, d2);
      TierPointScale(n + 1, z);
    }
  }

  // ---------------------------------------------------------------------------
  // Looking things up
  // ---------------------------------------------------------------------------

  /** `experiments.findIndex(e => e.id === id)`. */
  function ExperimentIndex(exps: seq<Experiment>, id: string): (r: Option<nat>)
    ensures r.Some? ==> r.value < |exps| && exps[r.value].id == id
    ensures r.Some? ==> forall j :: 0 <= j < r.value ==> exps[j].id != id
    ensures r.None? ==> forall j :: 0 <= j < |exps| ==> exps[j].id != id
    decreases |exps|
  {
    if exps == [] then None
    else if exps[0].id == id then Some(0)
    else match ExperimentIndex(exps[1..], id)
      case None => None
      case Some(k) => Some(k + 1)
  }

  /** `variants.findIndex(v => v.id === id)`. */
  function VariantIndex(vs: seq<Variant>, id: string): (r: Option<nat>)
    ensures r.Some? ==> r.value < |vs| && vs[r.value].id == id
    ensures r.Some? ==> forall j :: 0 <= j < r.value ==> vs[j].id != id
    ensures r.None? ==> forall j :: 0 <= j < |vs| ==> vs[j].id != id
    decreases |vs|
  {
    if vs == [] then None
    else if vs[0].id == id then Some(0)
    else match VariantIndex(vs[1..], id)
      case None => None
      case Some(k) => Some(k + 1)
  }

  /** `getActiveExperiments`: the running experiments, in stored order. */
  function RunningOnly(exps: seq<Experiment>): (r: seq<Experiment>)
    ensures |r| <= |exps|
    ensures forall e :: e in r <==> e in exps && e.status == Running
    decreases |exps|
  {
    if exps == [] then []
    else (if exps[0].status == Running then [exps[0]] else []) + RunningOnly(exps[1..])
  }

  /** Filtering keeps stored order: filtering a concatenation concatenates the filtered parts. */
  lemma {:induction false} RunningOnlyAppend(a: seq<Experiment>, b: seq<Experiment>)
    ensures RunningOnly(a + b) == RunningOnly(a) + RunningOnly(b)
    decreases |a|
  {
    if a != [] {
      assert (a + b)[1..] == a[1..] + b;
      RunningOnlyAppend(a[1..], b);
    } else {
      assert a + b == b;
    }
  }

  /** A single element is kept exactly when it passes the filter. */
  lemma RunningOnlySingle(x: Experiment)
    ensures RunningOnly([x]) == if x.status == Running then [x] else []
  {
    assert [x][1..] == [];
  }

  // ---------------------------------------------------------------------------
  // assignVariant
  // ---------------------------------------------------------------------------

  /**
   * The outcome of `assignVariant`: `null` for an unknown experiment, a variant,
   * `undefined` when the index read is past the end, or the TypeError thrown by
   * reading `allocation` of a missing first variant.
   */
  datatype Pick = NoExperiment | Picked(variant: Variant) | NoVariant | TypeError

  /** `variants[i]`, which is `undefined` past the end. */
  function At(vs: seq<Variant>, i: nat): Pick {
    if i < |vs| then Picked(vs[i]) else NoVariant
  }

  /** A JavaScript string is truthy when non-empty. */
  predicate HasWinner(e: Experiment) {
    e.winner.Some? && e.winner.value != ""
  }

  /**
   * `assignVariant(experimentId)` with `draw` standing for `Math.random() * 100`: a
   * completed experiment with a winner gives the winner (or the first variant when no
   * variant has the winner's id); otherwise the first variant iff the draw is at most
   * its allocation, else the second.
   */
  function Assign(exps: seq<Experiment>, experimentId: string, draw: real): (p: Pick)
    ensures p == NoExperiment <==> forall e :: e in exps ==> e.id != experimentId
    ensures p.Picked? ==> p.variant in ExperimentWith(exps, experimentId).variants
  {
    match ExperimentIndex(exps, experimentId)
    case None => NoExperiment
    case Some(i) =>
      var e := exps[i];
      if e.status == Completed && HasWinner(e) then
        match VariantIndex(e.variants, e.winner.value)
        case Some(k) => Picked(e.variants[k])
        case None => At(e.variants, 0)
      else if |e.variants| == 0 then TypeError
      else if draw <= e.variants[0].allocation then Picked(e.variants[0])
      else At(e.variants, 1)
  }

  /** The first experiment with the id, or a blank one when there is none. */
  function ExperimentWith(exps: seq<Experiment>, id: string): Experiment {
    match ExperimentIndex(exps, id)
    case Some(i) => exps[i]
    case None => Experiment(id, Running, [], None, Unset)
  }

  /** A decided experiment always yields its winner when some variant carries the winner's id. */
  lemma AssignWinner(exps: seq<Experiment>, experimentId: string, draw: real, k: nat)
    requires ExperimentIndex(exps, experimentId).Some?
    requires var e := ExperimentWith(exps, experimentId);
      e.status == Completed && HasWinner(e) && k < |e.variants| && e.variants[k].id == e.winner.value
      && forall j :: 0 <= j < k ==> e.variants[j].id != e.winner.value
    ensures Assign(exps, experimentId, draw) == Picked(ExperimentWith(exps, experimentId).variants[k])
  {
    var e := ExperimentWith(exps, experimentId);
    var found := VariantIndex(e.variants, e.winner.value);
    assert found == Some(k);
  }

  /**
   * A decided experiment whose winner names no variant falls back to `variants[0]`,
   * which is `undefined` when there are no variants.
   */
  lemma AssignWinnerMissing(exps: seq<Experiment>, experimentId: string, draw: real)
    requires ExperimentIndex(exps, experimentId).Some?
    requires var e := ExperimentWith(exps, experimentId);
      e.status == Completed && HasWinner(e) && forall j :: 0 <= j < |e.variants| ==> e.variants[j].id != e.winner.value
    ensures var e := ExperimentWith(exps, experimentId);
      Assign(exps, experimentId, draw) == if |e.variants| > 0 then Picked(e.variants[0]) else NoVariant
  {
    var e := ExperimentWith(exps, experimentId);
    assert VariantIndex(e.variants, e.winner.value).None?;
  }

  /**
   * Any experiment that is not decided draws: no variants throws, a draw at most the
   * first variant's allocation gives the first variant, any other the second (which
   * is `undefined` when there is none).
   */
  lemma AssignByDraw(exps: seq<Experiment>, experimentId: string, draw: real)
    requires ExperimentIndex(exps, experimentId).Some?
    requires var e := ExperimentWith(exps, experimentId); !(e.status == Completed && HasWinner(e))
    ensures var e := ExperimentWith(exps, experimentId);
      Assign(exps, experimentId, draw) ==
        if |e.variants| == 0 then TypeError
        else if draw <= e.variants[0].allocation then Picked(e.variants[0])
        else if |e.variants| >= 2 then Picked(e.variants[1])
        else NoVariant
  {
  }

  // ---------------------------------------------------------------------------
  // trackSend and trackReply
  // ---------------------------------------------------------------------------

  datatype Counter = SentCounter | RepliedCounter

  function Bump(v: Variant, c: Counter): Variant {
    match c
    case SentCounter => v.(stats := v.stats.(sent := v.stats.sent + 1))
    case RepliedCounter => v.(stats := v.stats.(replied := v.stats.replied + 1))
  }

  /** What storage keeps of a significance: `JSON.stringify` writes NaN as `null`. */
  function Stored(r: SigResult): StoredSignificance {
    if r.NaN? then Null else Percent(r.n)
  }

  /** What a tracking call does: nothing (unknown id), throw (no second variant), or save. */
  datatype TrackResult = Ignored | Thrown | Updated(exps: seq<Experiment>)

  /**
   * `trackSend` / `trackReply` on the parsed list: bump the counter of the first
   * variant with the id in the first experiment with the id, recompute the
   * significance from the first two variants, and save. Reading the missing second
   * variant throws before the save.
   */
  function Track(exps: seq<Experiment>, experimentId: string, variantId: string, c: Counter): TrackResult {
    match ExperimentIndex(exps, experimentId)
    case None => Ignored
    case Some(i) =>
      match VariantIndex(exps[i].variants, variantId)
      case None => Ignored
      case Some(k) =>
        var vs := exps[i].variants[k := Bump(exps[i].variants[k], c)];
        if |vs| < 2 then Thrown
        else Updated(exps[i := exps[i].(variants := vs, significance := Stored(Significance(vs[0].stats, vs[1].stats)))])
  }

  /** A tracking call does nothing exactly when the experiment or the variant is unknown. */
  lemma TrackIgnored(exps: seq<Experiment>, experimentId: string, variantId: string, c: Counter)
    ensures Track(exps, experimentId, variantId, c) == Ignored <==>
      (forall e :: e in exps ==> e.id != experimentId)
      || (forall v :: v in ExperimentWith(exps, experimentId).variants ==> v.id != variantId)
  {
    var r := ExperimentIndex(exps, experimentId);
    if r.Some? {
      var vs := exps[r.value].variants;
      var k := VariantIndex(vs, variantId);
      if k.Some? {
        assert vs[k.value] in vs;
      }
    } else {
      forall e | e in exps ensures e.id != experimentId {
        var j :| 0 <= j < |exps| && exps[j] == e;
      }
    }
  }

  /**
   * A saved update bumps exactly one counter of exactly one variant by one, recomputes
   * that experiment's significance from its first two variants, and changes nothing else.
   */
  lemma TrackBumpsOne(exps: seq<Experiment>, experimentId: string, variantId: string, c: Counter)
    requires Track(exps, experimentId, variantId, c).Updated?
    ensures var after := Track(exps, experimentId, variantId, c).exps;
      var i := ExperimentIndex(exps, experimentId).value;
      var k := VariantIndex(exps[i].variants, variantId).value;
      && |after| == |exps|
      && (forall j :: 0 <= j < |exps| && j != i ==> after[j] == exps[j])
      && after[i].id == exps[i].id && after[i].status == exps[i].status && after[i].winner == exps[i].winner
      && |after[i].variants| == |exps[i].variants|
      && (forall j :: 0 <= j < |exps[i].variants| && j != k ==> after[i].variants[j] == exps[i].variants[j])
      && after[i].variants[k].id == variantId
      && (c == SentCounter ==> after[i].variants[k].stats == Stats(exps[i].variants[k].stats.sent + 1, exps[i].variants[k].stats.replied))
      && (c == RepliedCounter ==> after[i].variants[k].stats == Stats(exps[i].variants[k].stats.sent, exps[i].variants[k].stats.replied + 1))
      && after[i].significance == Stored(Significance(after[i].variants[0].stats, after[i].variants[1].stats))
  {
  }

  // ---------------------------------------------------------------------------
  // The store (localStorage key 'sdr_experiments')
  // ---------------------------------------------------------------------------

  class ExperimentStore {
    /** The stored list; `None` when the key is missing or does not parse. */
    var saved: Option<seq<Experiment>>

    constructor(saved: Option<seq<Experiment>>)
      ensures this.saved == saved
    {
      this.saved := saved;
    }

    /** `getExperiments`: a missing or unparsable list reads as empty. */
    function Experiments(): seq<Experiment>
      reads this
    {
      saved.GetOr([])
    }

    /** `getActiveExperiments`. */
    function ActiveExperiments(): (r: seq<Experiment>)
      reads this
      ensures r == RunningOnly(Experiments())
      ensures forall e :: e in r <==> e in Experiments() && e.status == Running
    {
      RunningOnly(Experiments())
    }

    /** `assignVariant`, with the random draw passed in. */
    function AssignVariant(experimentId: string, draw: real): (p: Pick)
      reads this
      ensures p == Assign(Experiments(), experimentId, draw)
      ensures p == NoExperiment <==> forall e :: e in Experiments() ==> e.id != experimentId
    {
      Assign(Experiments(), experimentId, draw)
    }

    /** The shared body of `trackSend` and `trackReply`. */
    method TrackCounter(experimentId: string, variantId: string, c: Counter) returns (result: TrackResult)
      modifies this
      ensures result == Track(old(Experiments()), experimentId, variantId, c)
      ensures result.Updated? ==> saved == Some(result.exps)
      ensures !result.Updated? ==> saved == old(saved)
    {
      var experiments := Experiments();
      var expIndex := ExperimentIndex(experiments, experimentId);
      if expIndex.None? {
        return Ignored;
      }
      var i := expIndex.value;
      var vIndex := VariantIndex(experiments[i].variants, variantId);
      if vIndex.None? {
        return Ignored;
      }
      var k := vIndex.value;
      var variants := experiments[i].variants[k := Bump(experiments[i].variants[k], c)];
      if |variants| < 2 {
        return Thrown;
      }
      var significance := Stored(Significance(variants[0].stats, variants[1].stats));
      experiments := experiments[i := experiments[i].(variants := variants, significance := significance)];
      saved := Some(experiments);
      return Updated(experiments);
    }

    /** `trackSend`. */
    method TrackSend(experimentId: string, variantId: string) returns (result: TrackResult)
      modifies this
      ensures result == Track(old(Experiments()), experimentId, variantId, SentCounter)
      ensures saved == if result.Updated? then Some(result.exps) else old(saved)
    {
      result := TrackCounter(experimentId, variantId, SentCounter);
    }

    /** `trackReply`. */
    method TrackReply(experimentId: string, variantId: string) returns (result: TrackResult)
      modifies this
      ensures result == Track(old(Experiments()), experimentId, variantId, RepliedCounter)
      ensures saved == if result.Updated? then Some(result.exps) else old(saved)
    {
      result := TrackCounter(experimentId, variantId, RepliedCounter);
    }
  }
}
