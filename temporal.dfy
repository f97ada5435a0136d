/**
 * The greedy send scheduler and the send-timing heuristic (services/temporalService.ts).
 *
 * Time is an integer count of UTC hours since the Unix epoch (a Thursday); the
 * weekday and hour of day are derived from it. Each scheduling call starts one
 * hour after the truncated start instant and walks forward hour by hour, at most
 * 168 steps, keeping per-hour usage counts and each prospect's latest slot.
 */
module Temporal {
  import opened Wrappers
  import opened Text
  import opened Domain

  // ---------------------------------------------------------------------------
  // Time
  // ---------------------------------------------------------------------------

  const MaxAttempts: nat := 168

  /** Day of the week of an hour (0 = Sunday); 1 January 1970 was a Thursday. */
  function Weekday(h: int): (d: int)
    ensures 0 <= d < 7
  {
    (h / 24 + 4) % 7
  }

  function HourOfDay(h: int): (d: int)
    ensures 0 <= d < 24
  {
    h % 24
  }

  /** The first candidate hour: the start instant (in minutes) truncated to its hour, plus one. */
  function StartHour(startMinute: int): (h: int)
    ensures (h - 1) * 60 <= startMinute < h * 60
  {
    startMinute / 60 + 1
  }

  // ---------------------------------------------------------------------------
  // One slot search: calculateOptimalSlot
  // ---------------------------------------------------------------------------

  /** `SchedulingConstraints`; `startMinute` is `start_date` already parsed. */
  datatype Constraints = Constraints(
    startMinute: Option<int>,
    avoidDays: seq<int>,
    businessHoursOnly: bool,
    maxPerHour: int,
    minGapMinutes: int,
    respectTimezone: bool)

  type Usage = map<int, nat>

  /** `usageMap[hourKey] || 0`. */
  function UsageAt(usage: Usage, h: int): nat {
    if h in usage then usage[h] else 0
  }

  /** Check 1: the weekday is not avoided. */
  predicate DayAllowed(c: Constraints, h: int) {
    Weekday(h) !in c.avoidDays
  }

  /** Check 2: with `business_hours_only`, the hour lies within 9am-5pm. */
  predicate HourAllowed(c: Constraints, h: int) {
    c.businessHoursOnly ==> 9 <= HourOfDay(h) < 17
  }

  /** Check 3: the hour's bucket is below `max_emails_per_hour`. */
  predicate HasRoom(c: Constraints, usage: Usage, h: int) {
    UsageAt(usage, h) < c.maxPerHour
  }

  /** Check 4: at least `min_gap_minutes` since the prospect's latest slot, if it has one. */
  predicate Spaced(c: Constraints, last: map<string, int>, pid: string, h: int) {
    pid in last ==> (h - last[pid]) * 60 >= c.minGapMinutes
  }

  predicate CalendarAllows(c: Constraints, h: int) {
    DayAllowed(c, h) && HourAllowed(c, h)
  }

  /** The four checks of one step of the slot search. */
  predicate Acceptable(c: Constraints, usage: Usage, last: map<string, int>, pid: string, h: int) {
    CalendarAllows(c, h) && HasRoom(c, usage, h) && Spaced(c, last, pid, h)
  }

  /** The first acceptable hour among `fuel` consecutive hours from `h`. */
  function Search(c: Constraints, usage: Usage, last: map<string, int>, pid: string, h: int, fuel: nat): Option<int>
    decreases fuel
  {
    if fuel == 0 then None
    else if Acceptable(c, usage, last, pid, h) then Some(h)
    else Search(c, usage, last, pid, h + 1, fuel - 1)
  }

  /** `r` is the first acceptable hour of the window `[h, h + fuel)`, or `None` when it has none. */
  predicate FirstAcceptable(c: Constraints, usage: Usage, last: map<string, int>, pid: string, h: int, fuel: nat, r: Option<int>) {
    && (r.Some? ==> h <= r.value < h + fuel && Acceptable(c, usage, last, pid, r.value))
    && (r.Some? ==> forall k :: h <= k < r.value ==> !Acceptable(c, usage, last, pid, k))
    && (r.None? ==> forall k :: h <= k < h + fuel ==> !Acceptable(c, usage, last, pid, k))
  }

  /** The search finds the first acceptable hour of its window, and fails only when there is none. */
  lemma {:induction false} SearchFinds(c: Constraints, usage: Usage, last: map<string, int>, pid: string, h: int, fuel: nat)
    ensures FirstAcceptable(c, usage, last, pid, h, fuel, Search(c, usage, last, pid, h, fuel))
    decreases fuel
  {
    if fuel > 0 && !Acceptable(c, usage, last, pid, h) {
      SearchFinds(c, usage, last, pid, h + 1, fuel - 1);
    }
  }

  /** A rejected hour passes the search on to the next one. */
  lemma SearchSkip(c: Constraints, usage: Usage, last: map<string, int>, pid: string, h: int, fuel: nat)
    requires fuel > 0 && !Acceptable(c, usage, last, pid, h)
    ensures Search(c, usage, last, pid, h, fuel) == Search(c, usage, last, pid, h + 1, fuel - 1)
  {
  }

  /**
   * `calculateOptimalSlot`: the cursor loop. The result is the first acceptable hour of
   * the 168-hour window, or `None` when the window has none.
   */
  method CalculateOptimalSlot(pid: string, c: Constraints, usage: Usage, last: map<string, int>, nowMinute: int)
    returns (slot: Option<int>)
    ensures slot == Search(c, usage, last, pid, StartHour(c.startMinute.GetOr(nowMinute)), MaxAttempts)
    ensures FirstAcceptable(c, usage, last, pid, StartHour(c.startMinute.GetOr(nowMinute)), MaxAttempts, slot)
  {
    var start := StartHour(c.startMinute.GetOr(nowMinute));
    SearchFinds(c, usage, last, pid, start, MaxAttempts);
    var cursor := start;
    var i := 0;
    while i < MaxAttempts
      invariant 0 <= i <= MaxAttempts && cursor == start + i
      invariant Search(c, usage, last, pid, start, MaxAttempts) == Search(c, usage, last, pid, cursor, MaxAttempts - i)
    {
      // The four checks in source order; any failure moves the cursor one hour on.
      if !DayAllowed(c, cursor) || !HourAllowed(c, cursor) || !HasRoom(c, usage, cursor) || !Spaced(c, last, pid, cursor) {
        SearchSkip(c, usage, last, pid, cursor, MaxAttempts - i);
        cursor := cursor + 1;
        i := i + 1;
        continue;
      }
      return Some(cursor);
    }
    return None;
  }

  // ---------------------------------------------------------------------------
  // The greedy run as a fold over the queue
  // ---------------------------------------------------------------------------

  /** The trackers and the slot chosen for each activity so far (`None` = failed). */
  datatype Plan = Plan(usage: Usage, last: map<string, int>, slots: seq<Option<int>>)

  /** The scheduler's decisions for a queue of prospect ids, all searches starting at `start`. */
  function Run(c: Constraints, start: int, pids: seq<string>): (p: Plan)
    ensures |p.slots| == |pids|
    decreases |pids|
  {
    if pids == [] then Plan(map[], map[], [])
    else Step(c, start, Run(c, start, pids[..|pids| - 1]), pids[|pids| - 1])
  }

  /** One activity of the loop: search a slot for `pid`, then record it in both trackers. */
  function Step(c: Constraints, start: int, prev: Plan, pid: string): (p: Plan)
    ensures |p.slots| == |prev.slots| + 1
  {
    match Search(c, prev.usage, prev.last, pid, start, MaxAttempts)
    case None => prev.(slots := prev.slots + [None])
    case Some(h) => Plan(prev.usage[h := UsageAt(prev.usage, h) + 1], prev.last[pid := h], prev.slots + [Some(h)])
  }

  /** `Step` once the search's answer is known. */
  lemma StepWith(c: Constraints, start: int, prev: Plan, pid: string, slot: Option<int>)
    requires slot == Search(c, prev.usage, prev.last, pid, start, MaxAttempts)
    ensures slot.None? ==> Step(c, start, prev, pid) == prev.(slots := prev.slots + [None])
    ensures slot.Some? ==>
      Step(c, start, prev, pid) ==
        Plan(prev.usage[slot.value := UsageAt(prev.usage, slot.value) + 1], prev.last[pid := slot.value], prev.slots + [slot])
  {
  }

  lemma RunSnoc(c: Constraints, start: int, pids: seq<string>, i: nat)
    requires i < |pids|
    ensures Run(c, start, pids[..i + 1]) == Step(c, start, Run(c, start, pids[..i]), pids[i])
  {
    assert pids[..i + 1][..i] == pids[..i];
  }

  predicate SlotsAllowed(c: Constraints, start: int, slots: seq<Option<int>>) {
    forall i :: 0 <= i < |slots| && slots[i].Some? ==>
      start <= slots[i].value < start + MaxAttempts && CalendarAllows(c, slots[i].value)
  }

  /** Every slot lies in the week-long window, on an allowed day and (when asked for) in business hours. */
  lemma {:induction false} RunSlotsAllowed(c: Constraints, start: int, pids: seq<string>)
    ensures SlotsAllowed(c, start, Run(c, start, pids).slots)
    decreases |pids|
  {
    if pids != [] {
      var init := pids[..|pids| - 1];
      RunSlotsAllowed(c, start, init);
      var prev := Run(c, start, init);
      var slots := Run(c, start, pids).slots;
      assert slots[..|slots| - 1] == prev.slots;
      SearchFinds(c, prev.usage, prev.last, pids[|pids| - 1], start, MaxAttempts);
      forall i | 0 <= i < |slots| - 1 ensures slots[i] == prev.slots[i] {}
    }
  }

  /** How many activities were given hour `h`. */
  function CountAt(slots: seq<Option<int>>, h: int): nat
    decreases |slots|
  {
    if slots == [] then 0
    else CountAt(slots[..|slots| - 1], h) + (if slots[|slots| - 1] == Some(h) then 1 else 0)
  }

  /** The latest slot given to prospect `pid`, looking at the decisions in order. */
  function LastSlot(pids: seq<string>, slots: seq<Option<int>>, pid: string): Option<int>
    requires |pids| == |slots|
    decreases |pids|
  {
    if pids == [] then None
    else if pids[|pids| - 1] == pid && slots[|slots| - 1].Some? then slots[|slots| - 1]
    else LastSlot(pids[..|pids| - 1], slots[..|slots| - 1], pid)
  }

  /** The trackers always summarise the decisions: usage counts per hour, latest slot per prospect. */
  ghost predicate TrackersAgree(pids: seq<string>, p: Plan)
    requires |pids| == |p.slots|
  {
    && (forall h :: UsageAt(p.usage, h) == CountAt(p.slots, h))
    && (forall pid :: LastSlot(pids, p.slots, pid) == (if pid in p.last then Some(p.last[pid]) else None))
  }

  lemma {:induction false} RunTrackers(c: Constraints, start: int, pids: seq<string>)
    ensures TrackersAgree(pids, Run(c, start, pids))
    decreases |pids|
  {
    if pids != [] {
      var init := pids[..|pids| - 1];
      RunTrackers(c, start, init);
      var p := Run(c, start, pids);
      var prev := Run(c, start, init);
      var pid := pids[|pids| - 1];
      assert p.slots[..|p.slots| - 1] == prev.slots;
      assert pids[..|pids| - 1] == init;
      var found := Search(c, prev.usage, prev.last, pid, start, MaxAttempts);
      assert p.slots[|pids| - 1] == found;
      if found.Some? {
        assert p.usage == prev.usage[found.value := UsageAt(prev.usage, found.value) + 1];
        assert p.last == prev.last[pid := found.value];
      } else {
        assert p.usage == prev.usage && p.last == prev.last;
      }
      forall h ensures UsageAt(p.usage, h) == CountAt(p.slots, h) {
        assert UsageAt(prev.usage, h) == CountAt(prev.slots, h);
        assert CountAt(p.slots, h) == CountAt(p.slots[..|p.slots| - 1], h) + (if p.slots[|p.slots| - 1] == Some(h) then 1 else 0);
        if found.Some? && found.value == h {
          assert UsageAt(p.usage, h) == UsageAt(prev.usage, h) + 1;
        } else {
          assert UsageAt(p.usage, h) == UsageAt(prev.usage, h);
        }
      }
      forall q ensures LastSlot(pids, p.slots, q) == (if q in p.last then Some(p.last[q]) else None) {
        if pid != q || found.None? {
          assert LastSlot(pids, p.slots, q) == LastSlot(init, prev.slots, q);
        }
      }
    }
  }

  /** Greedy decisions are final: scheduling a longer queue does not revisit earlier activities. */
  lemma {:induction false} RunPrefix(c: Constraints, start: int, pids: seq<string>, k: nat)
    requires k <= |pids|
    ensures Run(c, start, pids[..k]).slots == Run(c, start, pids).slots[..k]
    decreases |pids|
  {
    if k < |pids| {
      var init := pids[..|pids| - 1];
      RunPrefix(c, start, init, k);
      assert init[..k] == pids[..k];
      assert Run(c, start, pids).slots[..|pids| - 1] == Run(c, start, init).slots;
    } else {
      assert pids[..k] == pids;
    }
  }

  /** No hour receives more than `max_emails_per_hour` activities within one call. */
  lemma {:induction false} RunCapacity(c: Constraints, start: int, pids: seq<string>, h: int)
    ensures CountAt(Run(c, start, pids).slots, h) <= if c.maxPerHour < 0 then 0 else c.maxPerHour
    decreases |pids|
  {
    if pids != [] {
      var init := pids[..|pids| - 1];
      RunCapacity(c, start, init, h);
      RunTrackers(c, start, init);
      var p := Run(c, start, pids);
      var prev := Run(c, start, init);
      SearchFinds(c, prev.usage, prev.last, pids[|pids| - 1], start, MaxAttempts);
      assert p.slots[..|p.slots| - 1] == prev.slots;
    }
  }

  /** Each slot is at least `min_gap_minutes` after the same prospect's previous slot in the call. */
  lemma RunSpacing(c: Constraints, start: int, pids: seq<string>, j: nat)
    requires j < |pids|
    ensures var slots := Run(c, start, pids).slots;
      var previous := LastSlot(pids[..j], slots[..j], pids[j]);
      slots[j].Some? && previous.Some? ==> (slots[j].value - previous.value) * 60 >= c.minGapMinutes
  {
    var slots := Run(c, start, pids).slots;
    var prefix := pids[..j + 1];
    RunPrefix(c, start, pids, j + 1);
    RunPrefix(c, start, pids, j);
    var p := Run(c, start, prefix);
    var prev := Run(c, start, pids[..j]);
    assert prefix[..j] == pids[..j];
    RunTrackers(c, start, pids[..j]);
    SearchFinds(c, prev.usage, prev.last, pids[j], start, MaxAttempts);
    assert prefix[j] == pids[j];
    assert p.slots == slots[..j + 1];
    assert slots[..j + 1][j] == slots[j];
    assert slots[..j + 1][..j] == slots[..j];
  }

  /** The number of activities that got a slot. */
  function CountScheduled(slots: seq<Option<int>>): (n: nat)
    ensures n <= |slots|
    decreases |slots|
  {
    if slots == [] then 0
    else CountScheduled(slots[..|slots| - 1]) + (if slots[|slots| - 1].Some? then 1 else 0)
  }

  /** Nothing was scheduled exactly when every decision is a failure. */
  lemma {:induction false} NoneScheduled(slots: seq<Option<int>>)
    ensures CountScheduled(slots) == 0 <==> forall i :: 0 <= i < |slots| ==> slots[i].None?
    decreases |slots|
  {
    if slots != [] {
      var init := slots[..|slots| - 1];
      NoneScheduled(init);
      forall i | 0 <= i < |slots| - 1 ensures slots[i] == init[i] {}
    }
  }

  /** The earliest slot given, if any. */
  function Earliest(slots: seq<Option<int>>): (r: Option<int>)
    ensures r.None? <==> CountScheduled(slots) == 0
    decreases |slots|
  {
    if slots == [] then None
    else
      var before := Earliest(slots[..|slots| - 1]);
      var s := slots[|slots| - 1];
      if s.Some? && (before.None? || s.value < before.value) then s else before
  }

  predicate IsMinSlot(slots: seq<Option<int>>, r: Option<int>) {
    r.Some? ==> r in slots && forall i :: 0 <= i < |slots| && slots[i].Some? ==> r.value <= slots[i].value
  }

  predicate IsMaxSlot(slots: seq<Option<int>>, r: Option<int>) {
    r.Some? ==> r in slots && forall i :: 0 <= i < |slots| && slots[i].Some? ==> slots[i].value <= r.value
  }

  /** `schedule_span.start` is the smallest slot given. */
  lemma {:induction false} EarliestIsMin(slots: seq<Option<int>>)
    ensures IsMinSlot(slots, Earliest(slots))
    decreases |slots|
  {
    if slots != [] {
      var init := slots[..|slots| - 1];
      EarliestIsMin(init);
      forall i | 0 <= i < |slots| - 1 ensures slots[i] == init[i] {}
      NoneScheduled(init);
      var before := Earliest(init);
      if before.Some? {
        assert before in slots by {
          var k :| 0 <= k < |init| && init[k] == before;
          assert slots[k] == before;
        }
      }
    }
  }

  /** The latest slot given, if any. */
  function Latest(slots: seq<Option<int>>): (r: Option<int>)
    ensures r.None? <==> CountScheduled(slots) == 0
    decreases |slots|
  {
    if slots == [] then None
    else
      var before := Latest(slots[..|slots| - 1]);
      var s := slots[|slots| - 1];
      if s.Some? && (before.None? || s.value > before.value) then s else before
  }

  /** `schedule_span.end` is the largest slot given. */
  lemma {:induction false} LatestIsMax(slots: seq<Option<int>>)
    ensures IsMaxSlot(slots, Latest(slots))
    decreases |slots|
  {
    if slots != [] {
      var init := slots[..|slots| - 1];
      LatestIsMax(init);
      forall i | 0 <= i < |slots| - 1 ensures slots[i] == init[i] {}
      NoneScheduled(init);
      var before := Latest(init);
      if before.Some? {
        assert before in slots by {
          var k :| 0 <= k < |init| && init[k] == before;
          assert slots[k] == before;
        }
      }
    }
  }

  // ---------------------------------------------------------------------------
  // Activities and the priority order
  // ---------------------------------------------------------------------------

  /** A `ScheduledActivity`; the scheduler updates `status` and `scheduledTime` in place. */
  class Activity {
    const id: string
    const prospectId: string
    const kind: string
    const priority: int
    var status: string
    var scheduledTime: Option<int>

    constructor(id: string, prospectId: string, kind: string, priority: int, status: string)
      ensures this.id == id && this.prospectId == prospectId && this.kind == kind
      ensures this.priority == priority && this.status == status && scheduledTime.None?
    {
      this.id := id;
      this.prospectId := prospectId;
      this.kind := kind;
      this.priority := priority;
      this.status := status;
      scheduledTime := None;
    }
  }

  predicate SortedByPriority(s: seq<Activity>) {
    forall i, j :: 0 <= i < j < |s| ==> s[i].priority >= s[j].priority
  }

  predicate Distinct<T(==)>(s: seq<T>) {
    forall i, j :: 0 <= i < j < |s| ==> s[i] != s[j]
  }

  /** Puts `x` before the first element whose priority does not exceed its own. */
  function Insert(x: Activity, s: seq<Activity>): (r: seq<Activity>)
    ensures |r| == |s| + 1 && multiset(r) == multiset(s) + multiset{x}
    decreases |s|
  {
    if s == [] || x.priority >= s[0].priority then [x] + s
    else
      assert s == [s[0]] + s[1..];
      [s[0]] + Insert(x, s[1..])
  }

  /** `[...activities].sort((a, b) => b.priority - a.priority)`: a stable sort, highest priority first. */
  function SortByPriority(s: seq<Activity>): (r: seq<Activity>)
    ensures |r| == |s| && multiset(r) == multiset(s)
    decreases |s|
  {
    if s == [] then []
    else
      assert s == [s[0]] + s[1..];
      Insert(s[0], SortByPriority(s[1..]))
  }

  lemma {:induction false} InsertSorted(x: Activity, s: seq<Activity>)
    requires SortedByPriority(s)
    ensures SortedByPriority(Insert(x, s))
    decreases |s|
  {
    if s != [] && x.priority < s[0].priority {
      InsertSorted(x, s[1..]);
      var r := Insert(x, s);
      var t := Insert(x, s[1..]);
      assert r == [s[0]] + t;
      assert multiset(t) == multiset(s[1..]) + multiset{x};
      forall j | 0 < j < |r| ensures r[0].priority >= r[j].priority {
        assert r[j] == t[j - 1];
        assert t[j - 1] in multiset(t);
        if t[j - 1] != x {
          assert t[j - 1] in multiset(s[1..]);
          var k :| 0 <= k < |s[1..]| && s[1..][k] == t[j - 1];
          assert s[k + 1] == t[j - 1];
        }
      }
    }
  }

  /** The queue is in descending priority order. */
  lemma {:induction false} SortSorted(s: seq<Activity>)
    ensures SortedByPriority(SortByPriority(s))
    decreases |s|
  {
    if s != [] {
      SortSorted(s[1..]);
      InsertSorted(s[0], SortByPriority(s[1..]));
    }
  }

  /** The activities of one priority, in order. */
  function WithPriority(s: seq<Activity>, p: int): seq<Activity>
    decreases |s|
  {
    if s == [] then [] else (if s[0].priority == p then [s[0]] else []) + WithPriority(s[1..], p)
  }

  lemma WithPriorityCons(x: Activity, s: seq<Activity>, p: int)
    ensures WithPriority([x] + s, p) == (if x.priority == p then [x] else []) + WithPriority(s, p)
  {
    assert ([x] + s)[1..] == s;
  }

  lemma {:induction false} WithPriorityInsert(x: Activity, s: seq<Activity>, p: int)
    ensures WithPriority(Insert(x, s), p) == (if x.priority == p then [x] else []) + WithPriority(s, p)
    decreases |s|
  {
    var r := Insert(x, s);
    if s != [] && x.priority < s[0].priority {
      WithPriorityInsert(x, s[1..], p);
      assert r == [s[0]] + Insert(x, s[1..]);
      assert r[0] == s[0] && r[1..] == Insert(x, s[1..]);
      assert s[1..] == s[1..];
      WithPriorityCons(s[0], Insert(x, s[1..]), p);
      WithPriorityCons(s[0], s[1..], p);
      assert [s[0]] + s[1..] == s;
    } else {
      assert r == [x] + s;
      WithPriorityCons(x, s, p);
    }
  }

  /** The sort is stable: activities of equal priority keep their input order. */
  lemma {:induction false} SortStable(s: seq<Activity>, p: int)
    ensures WithPriority(SortByPriority(s), p) == WithPriority(s, p)
    decreases |s|
  {
    if s != [] {
      SortStable(s[1..], p);
      WithPriorityInsert(s[0], SortByPriority(s[1..]), p);
    }
  }

  lemma DistinctByMultiset<T>(s: seq<T>, t: seq<T>)
    requires multiset(s) == multiset(t) && Distinct(s)
    ensures Distinct(t)
  {
    forall i, j | 0 <= i < j < |t| ensures t[i] != t[j] {
      if t[i] == t[j] {
        assert t == t[..i] + [t[i]] + t[i + 1..j] + [t[j]] + t[j + 1..];
        assert multiset(t)[t[i]] >= 2;
        DistinctCount(s, t[i]);
        assert false;
      }
    }
  }

  lemma {:induction false} DistinctCount<T>(s: seq<T>, x: T)
    requires Distinct(s)
    ensures multiset(s)[x] <= 1
    decreases |s|
  {
    if s != [] {
      assert s == [s[0]] + s[1..];
      assert Distinct(s[1..]) by {
        forall i, j | 0 <= i < j < |s[1..]| ensures s[1..][i] != s[1..][j] {
          assert s[1..][i] == s[i + 1] && s[1..][j] == s[j + 1];
        }
      }
      DistinctCount(s[1..], x);
      if s[0] == x {
        assert x !in s[1..] by {
          forall k | 0 <= k < |s[1..]| ensures s[1..][k] != x {
            assert s[1..][k] == s[k + 1];
          }
        }
      }
    }
  }

  function ProspectIds(s: seq<Activity>): (r: seq<string>)
    ensures |r| == |s| && forall i :: 0 <= i < |s| ==> r[i] == s[i].prospectId
  {
    seq(|s|, i requires 0 <= i < |s| => s[i].prospectId)
  }

  /** One note per failed activity, in queue order. */
  function FailureNotes(queue: seq<Activity>, slots: seq<Option<int>>): seq<string>
    requires |queue| == |slots|
    decreases |queue|
  {
    if queue == [] then []
    else
      FailureNotes(queue[..|queue| - 1], slots[..|slots| - 1])
      + (if slots[|slots| - 1].None? then ["Failed to schedule activity " + queue[|queue| - 1].id + " within limits."] else [])
  }

  /** An end of `schedule_span`: the current time, or a slot hour. */
  datatype SpanPoint = AtNow | AtHour(hour: int)

  /** `OptimizedSchedule`. */
  datatype Schedule = Schedule(
    activities: seq<Activity>,
    totalScheduled: nat,
    spanStart: SpanPoint,
    spanEnd: SpanPoint,
    expectedPerformance: string,
    notes: seq<string>)

  function SummaryNotes(c: Constraints, scheduled: nat, total: nat): seq<string> {
    (if c.businessHoursOnly then ["Restricted to 9am-5pm."] else [])
    + (if c.respectTimezone then ["Timezones respected."] else [])
    + ["Scheduled " + NatToString(scheduled) + " / " + NatToString(total) + " tasks."]
  }

  function SpanOf(slot: Option<int>): SpanPoint {
    if slot.Some? then AtHour(slot.value) else AtNow
  }

  /** The activity shows the outcome of its search; `before` is its time before the call. */
  ghost predicate Recorded(a: Activity, slot: Option<int>, before: Option<int>)
    reads a
  {
    if slot.Some? then a.status == "scheduled" && a.scheduledTime == slot
    else a.status == "failed" && a.scheduledTime == before
  }

  /** The loop's running results agree with the decisions so far. */
  ghost predicate Summarises(q: seq<Activity>, slots: seq<Option<int>>, notes: seq<string>,
                             earliest: Option<int>, latest: Option<int>, scheduled: nat)
    requires |q| == |slots|
  {
    && notes == FailureNotes(q, slots)
    && earliest == Earliest(slots) && latest == Latest(slots)
    && scheduled == CountScheduled(slots)
  }

  /** One iteration of the loop: search, record the outcome on the activity, update the trackers. */
  method ScheduleOne(activity: Activity, c: Constraints, start: int, nowMinute: int,
                     usage: Usage, last: map<string, int>,
                     notes: seq<string>, earliest: Option<int>, latest: Option<int>, scheduled: nat,
                     ghost done: seq<Activity>, ghost prev: Plan)
    returns (slot: Option<int>, usage': Usage, last': map<string, int>,
             notes': seq<string>, earliest': Option<int>, latest': Option<int>, scheduled': nat)
    requires start == StartHour(c.startMinute.GetOr(nowMinute))
    requires usage == prev.usage && last == prev.last && |done| == |prev.slots|
    requires Summarises(done, prev.slots, notes, earliest, latest, scheduled)
    modifies activity
    ensures Step(c, start, prev, activity.prospectId) == Plan(usage', last', prev.slots + [slot])
    ensures Recorded(activity, slot, old(activity.scheduledTime))
    ensures Summarises(done + [activity], prev.slots + [slot], notes', earliest', latest', scheduled')
  {
    slot := CalculateOptimalSlot(activity.prospectId, c, usage, last, nowMinute);
    StepWith(c, start, prev, activity.prospectId, slot);
    usage', last', notes', earliest', latest', scheduled' := usage, last, notes, earliest, latest, scheduled;
    if slot.Some? {
      var h := slot.value;
      activity.scheduledTime := slot;
      activity.status := "scheduled";
      usage' := usage[h := UsageAt(usage, h) + 1];
      last' := last[activity.prospectId := h];
      if earliest.None? || h < earliest.value {
        earliest' := Some(h);
      }
      if latest.None? || h > latest.value {
        latest' := Some(h);
      }
      scheduled' := scheduled + 1;
    } else {
      activity.status := "failed";
      notes' := notes + ["Failed to schedule activity " + activity.id + " within limits."];
    }
    BookkeepingSnoc(done, prev.slots, activity, slot);
  }

  lemma BookkeepingSnoc(queue: seq<Activity>, slots: seq<Option<int>>, x: Activity, slot: Option<int>)
    requires |queue| == |slots|
    ensures FailureNotes(queue + [x], slots + [slot]) ==
      FailureNotes(queue, slots) + (if slot.None? then ["Failed to schedule activity " + x.id + " within limits."] else [])
    ensures CountScheduled(slots + [slot]) == CountScheduled(slots) + (if slot.Some? then 1 else 0)
    ensures Earliest(slots + [slot]) ==
      (if slot.Some? && (Earliest(slots).None? || slot.value < Earliest(slots).value) then slot else Earliest(slots))
    ensures Latest(slots + [slot]) ==
      (if slot.Some? && (Latest(slots).None? || slot.value > Latest(slots).value) then slot else Latest(slots))
  {
    assert (queue + [x])[..|queue|] == queue;
    assert (slots + [slot])[..|slots|] == slots;
  }

  /** The scheduled times of the activities in a queue. */
  ghost function Times(q: seq<Activity>): (r: seq<Option<int>>)
    reads set a | a in q
    ensures |r| == |q| && forall k :: 0 <= k < |q| ==> r[k] == q[k].scheduledTime
  {
    seq(|q|, k requires 0 <= k < |q| reads set a | a in q => q[k].scheduledTime)
  }

  /** Iteration `i` of the loop, with what it leaves unchanged in the rest of the queue. */
  method ScheduleAt(queue: seq<Activity>, i: nat, c: Constraints, start: int, nowMinute: int,
                    usage: Usage, last: map<string, int>,
                    notes: seq<string>, earliest: Option<int>, latest: Option<int>, scheduled: nat,
                    ghost prev: Plan, ghost before: seq<Option<int>>)
    returns (slot: Option<int>, usage': Usage, last': map<string, int>,
             notes': seq<string>, earliest': Option<int>, latest': Option<int>, scheduled': nat)
    requires i < |queue| && Distinct(queue) && |before| == |queue| && |prev.slots| == i
    requires start == StartHour(c.startMinute.GetOr(nowMinute))
    requires usage == prev.usage && last == prev.last
    requires Summarises(queue[..i], prev.slots, notes, earliest, latest, scheduled)
    requires forall k :: 0 <= k < i ==> Recorded(queue[k], prev.slots[k], before[k])
    requires forall k :: i <= k < |queue| ==> queue[k].scheduledTime == before[k]
    modifies queue[i]
    ensures Step(c, start, prev, queue[i].prospectId) == Plan(usage', last', prev.slots + [slot])
    ensures forall k :: 0 <= k <= i ==> Recorded(queue[k], (prev.slots + [slot])[k], before[k])
    ensures forall k :: i < k < |queue| ==> queue[k].scheduledTime == before[k]
    ensures Summarises(queue[..i + 1], prev.slots + [slot], notes', earliest', latest', scheduled')
  {
    assert queue[..i + 1] == queue[..i] + [queue[i]];
    slot, usage', last', notes', earliest', latest', scheduled' :=
      ScheduleOne(queue[i], c, start, nowMinute, usage, last, notes, earliest, latest, scheduled, queue[..i], prev);
    forall k | 0 <= k < i ensures Recorded(queue[k], (prev.slots + [slot])[k], before[k]) {
      assert queue[k] != queue[i];
    }
    forall k | i < k < |queue| ensures queue[k].scheduledTime == before[k] {
      assert queue[k] != queue[i];
    }
  }

  /**
   * The loop of `smartScheduler` over the sorted queue: each activity gets the slot the
   * greedy run gives it, and the trackers, notes and span bounds follow the run.
   */
  method ScheduleQueue(queue: seq<Activity>, c: Constraints, nowMinute: int)
    returns (notes: seq<string>, earliest: Option<int>, latest: Option<int>, scheduled: nat)
    requires Distinct(queue)
    modifies set a | a in queue
    ensures var slots := Run(c, StartHour(c.startMinute.GetOr(nowMinute)), ProspectIds(queue)).slots;
      && (forall k :: 0 <= k < |queue| ==> Recorded(queue[k], slots[k], old(queue[k].scheduledTime)))
      && Summarises(queue, slots, notes, earliest, latest, scheduled)
  {
    var start := StartHour(c.startMinute.GetOr(nowMinute));
    ghost var pids := ProspectIds(queue);
    ghost var before := Times(queue);
    ghost var plan := Plan(map[], map[], []);
    var usage: Usage := map[];
    var last: map<string, int> := map[];
    notes := [];
    earliest := None;
    latest := None;
    scheduled := 0;
    var i := 0;
    while i < |queue|
      invariant 0 <= i <= |queue| && |plan.slots| == i
      invariant plan == Run(c, start, pids[..i])
      invariant usage == plan.usage && last == plan.last
      invariant forall k :: 0 <= k < i ==> Recorded(queue[k], plan.slots[k], before[k])
      invariant forall k :: i <= k < |queue| ==> queue[k].scheduledTime == before[k]
      invariant Summarises(queue[..i], plan.slots, notes, earliest, latest, scheduled)
    {
      RunSnoc(c, start, pids, i);
      var slot;
      slot, usage, last, notes, earliest, latest, scheduled :=
        ScheduleAt(queue, i, c, start, nowMinute, usage, last, notes, earliest, latest, scheduled, plan, before);
      plan := Plan(usage, last, plan.slots + [slot]);
      i := i + 1;
    }
    assert pids[..i] == pids && queue[..i] == queue;
  }

  /**
   * `smartScheduler`: sorts a copy of the list by priority, then slots each activity in
   * turn, updating the activity records themselves.
   */
  method SmartScheduler(activities: seq<Activity>, c: Constraints, nowMinute: int) returns (r: Schedule)
    requires Distinct(activities)
    modifies set a | a in activities
    ensures r.activities == SortByPriority(activities)
    ensures multiset(r.activities) == multiset(activities)
    ensures var plan := Run(c, StartHour(c.startMinute.GetOr(nowMinute)), ProspectIds(r.activities));
      && (forall i :: 0 <= i < |r.activities| ==> Recorded(r.activities[i], plan.slots[i], old(r.activities[i].scheduledTime)))
      && r.totalScheduled == CountScheduled(plan.slots)
      && r.spanStart == SpanOf(Earliest(plan.slots)) && r.spanEnd == SpanOf(Latest(plan.slots))
      && r.expectedPerformance == "High"
      && r.notes == FailureNotes(r.activities, plan.slots) + SummaryNotes(c, r.totalScheduled, |activities|)
  {
    var queue := SortByPriority(activities);
    DistinctByMultiset(activities, queue);
    forall k | 0 <= k < |queue| ensures queue[k] in activities {
      assert queue[k] in multiset(queue);
    }
    var notes, earliest, latest, scheduled := ScheduleQueue(queue, c, nowMinute);
    notes := notes + SummaryNotes(c, scheduled, |activities|);
    r := Schedule(queue, scheduled, SpanOf(earliest), SpanOf(latest), "High", notes);
  }

  // ---------------------------------------------------------------------------
  // The send-timing heuristic: analyzeTiming
  // ---------------------------------------------------------------------------

  /** The local calendar fields of `new Date()` and its `getTime()` in milliseconds. */
  datatype Clock = Clock(weekday: int, hour: int, month: int, date: int, nowMs: int)

  datatype SendAction = SendNow | ScheduleLater | Hold

  /** `SendRecommendation`. */
  datatype SendRecommendation = SendRecommendation(
    action: SendAction,
    reason: string,
    bestTime: Option<string>,
    priorityScore: int,
    contextFactors: seq<string>)

  const MsPerDay: nat := 86400000

  /** `Math.ceil(ms / (1000 * 60 * 60 * 24))` for a non-negative number of milliseconds. */
  function CeilDays(ms: nat): (d: nat)
    ensures d * MsPerDay >= ms && (d == 0 || (d - 1) * MsPerDay < ms)
  {
    (ms + MsPerDay - 1) / MsPerDay
  }

  function Abs(x: int): nat {
    if x < 0 then -x else x
  }

  /** `[...history].reverse().find(i => i.direction === 'outbound')`. */
  function LastOutbound(history: seq<InteractionEvent>): Option<InteractionEvent>
    decreases |history|
  {
    if history == [] then None
    else if history[|history| - 1].direction == Outbound then Some(history[|history| - 1])
    else LastOutbound(history[..|history| - 1])
  }

  /** The search finds the latest outbound event, and finds none only when there is none. */
  lemma {:induction false} LastOutboundIsLatest(history: seq<InteractionEvent>)
    ensures LastOutbound(history).None? <==> forall i :: 0 <= i < |history| ==> history[i].direction != Outbound
    ensures LastOutbound(history).Some? ==>
      exists i :: 0 <= i < |history| && history[i] == LastOutbound(history).value && history[i].direction == Outbound
        && forall j :: i < j < |history| ==> history[j].direction != Outbound
    decreases |history|
  {
    if history != [] && history[|history| - 1].direction != Outbound {
      var init := history[..|history| - 1];
      LastOutboundIsLatest(init);
      forall i | 0 <= i < |init| ensures history[i] == init[i] {}
      if LastOutbound(init).Some? {
        var i :| 0 <= i < |init| && init[i] == LastOutbound(init).value && init[i].direction == Outbound
          && forall j :: i < j < |init| ==> init[j].direction != Outbound;
        assert history[i] == init[i];
      }
    }
  }

  /**
   * What the spacing check found: nothing to check (no memory, no history or no
   * outbound event), or the whole days since the latest outbound event (`None` when
   * its date does not parse, which JavaScript carries through as NaN) and its outcome.
   */
  datatype SpacingCheck = NotChecked | Spacing(days: Option<nat>, outcome: string)

  function SpacingOf(memory: Option<ProspectMemory>, nowMs: int, parseDate: string -> Option<int>): SpacingCheck {
    if memory.None? || |memory.value.interactionHistory| == 0 then NotChecked
    else
      match LastOutbound(memory.value.interactionHistory)
      case None => NotChecked
      case Some(e) =>
        match parseDate(e.date)
        case None => Spacing(None, e.outcome)
        case Some(ms) => Spacing(Some(CeilDays(Abs(nowMs - ms))), e.outcome)
  }

  /** What the day rule sees, in its order of precedence. */
  datatype DayKind = WeekendDay | MondayDay | FridayLate | OrdinaryDay

  /** The facts each rule of the heuristic tests. */
  datatype Signals = Signals(
    day: DayKind, offHours: bool, holiday: bool,
    spacing: SpacingCheck, funding: bool, growth: bool, freshLead: bool)

  /** The lower-cased `recentNews`, when present and non-empty. */
  function NewsOf(p: Prospect): Option<string> {
    if p.recentNews.Some? && |p.recentNews.value| > 0 then Some(Lower(p.recentNews.value)) else None
  }

  function SignalsOf(clock: Clock, p: Prospect, memory: Option<ProspectMemory>, parseDate: string -> Option<int>): Signals {
    var news := NewsOf(p);
    Signals(
      day :=
        if clock.weekday == 0 || clock.weekday == 6 then WeekendDay
        else if clock.weekday == 1 then MondayDay
        else if clock.weekday == 5 && clock.hour > 14 then FridayLate
        else OrdinaryDay,
      offHours := clock.hour < 8 || clock.hour > 18,
      holiday := clock.month == 11 && clock.date > 20,
      spacing := SpacingOf(memory, clock.nowMs, parseDate),
      funding := news.Some? && (Contains(news.value, "funding") || Contains(news.value, "raised")),
      growth := news.Some? && (Contains(news.value, "hiring") || Contains(news.value, "growth")),
      freshLead := p.lastActivity == "New Lead")
  }

  /** The latest outbound event is under three days old and was not a positive reply (a NaN age is never too soon). */
  predicate TooSoon(s: Signals) {
    s.spacing.Spacing? && s.spacing.days.Some? && s.spacing.days.value < 3 && s.spacing.outcome != "replied_positive"
  }

  /** The action the rules settle on, read as a decision table. */
  function ActionOf(s: Signals): SendAction {
    if s.holiday && !TooSoon(s) then Hold                  // the holiday hold keeps its reason, so funding cannot lift it
    else if TooSoon(s) then (if s.funding then SendNow else Hold)
    else if s.day in {WeekendDay, FridayLate} || s.offHours then ScheduleLater
    else SendNow
  }

  /** The score adjustments of the rules that change it: weekend, Monday and late Friday first. */
  function DayDelta(s: Signals): int {
    match s.day
    case WeekendDay => -20
    case MondayDay => -5
    case FridayLate => -15
    case OrdinaryDay => 0
  }

  function HolidayDelta(s: Signals): int {
    if s.holiday then -30 else 0
  }

  /** A NaN age counts as appropriate spacing. */
  function SpacingDelta(s: Signals): int {
    if s.spacing.NotChecked? then 0 else if TooSoon(s) then -40 else 10
  }

  function NewsDelta(s: Signals): int {
    (if s.funding then 30 else 0) + (if s.growth then 15 else 0)
  }

  function FreshDelta(s: Signals): int {
    if s.freshLead then 5 else 0
  }

  /** What the rules add to the base score of 50. */
  function ScoreDelta(s: Signals): int {
    DayDelta(s) + HolidayDelta(s) + SpacingDelta(s) + NewsDelta(s) + FreshDelta(s)
  }

  function Clamp(x: int): (r: int)
    ensures 0 <= r <= 100
    ensures 0 <= x <= 100 ==> r == x
  {
    if x < 0 then 0 else if x > 100 then 100 else x
  }

  /**
   * The reasons the rules give; `ReasonText` is the string the source assigns. Each
   * text is written in short pieces so that `MentionsHoliday` can check the pieces
   * character by character: the verifier cannot decide that a long literal lacks a letter.
   */
  datatype Reason = ConditionsAcceptable | WeekendLow | LateFridayCheckout | OutsideHours | HolidayDefer | TooSoonAgo(days: nat) | FundingUrgency

  function ReasonText(r: Reason): string {
    match r
    case ConditionsAcceptable => "Conditions are " + "acceptable " + "for outreach."
    case WeekendLow => "It's the weekend. " + "Professional outreach " + "has low open rates."
    case LateFridayCheckout => "Late Friday afternoon. " + "Prospect likely " + "checking out."
    case OutsideHours => "Outside typical " + "business " + "hours."
    case HolidayDefer => "End of Year / " + "Holiday" + " Season. Defer to Jan 2nd."
    case TooSoonAgo(n) => "Too soon. Last outreach was " + NatToString(n) + " days ago."
    case FundingUrgency => "Funding news " + "signals high urgency " + "to connect."
  }

  datatype BestTime = MondayNine | MondayTen | TomorrowNineThirty | JanuarySecond | InDays(n: nat)

  function BestTimeText(b: BestTime): string {
    match b
    case MondayNine => "Monday 9:00 AM"
    case MondayTen => "Monday 10:00 AM"
    case TomorrowNineThirty => "Tomorrow 9:30 AM"
    case JanuarySecond => "January 2nd"
    case InDays(n) => "In " + NatToString(n) + " days"
  }

  /** The context factors; `days` is `None` when the age of the latest outbound event is NaN. */
  datatype Factor =
    | WeekendDetected | MondayCrowded | LateFriday | OutsideBusinessHours | HolidaySeason
    | RapidFollowUp | AppropriateSpacing(days: Option<nat>) | RecentFunding | GrowthSignals | FreshLead

  function FactorText(f: Factor): string {
    match f
    case WeekendDetected => "Weekend detected"
    case MondayCrowded => "Monday - crowded inbox risk"
    case LateFriday => "Late Friday"
    case OutsideBusinessHours => "Outside business hours"
    case HolidaySeason => "Holiday Season"
    case RapidFollowUp => "Rapid follow-up prevention"
    case AppropriateSpacing(days) =>
      "Appropriate spacing (" + (if days.Some? then NatToString(days.value) else "NaN") + " days)"
    case RecentFunding => "Recent Funding detected (High Priority)"
    case GrowthSignals => "Growth signals detected"
    case FreshLead => "Fresh Lead"
  }

  /** The locals `action`, `reason`, `bestTime`, `score` and `factors` between two rules. */
  datatype Draft = Draft(action: SendAction, reason: Reason, bestTime: Option<BestTime>, score: int, factors: seq<Factor>)

  const Initial := Draft(SendNow, ConditionsAcceptable, None, 50, [])

  /** Rule 1, the day of the week. */
  function DayRule(d: Draft, s: Signals): Draft {
    match s.day
    case WeekendDay => Draft(ScheduleLater, WeekendLow, Some(MondayNine), d.score - 20, d.factors + [WeekendDetected])
    case MondayDay => d.(score := d.score - 5, factors := d.factors + [MondayCrowded])
    case FridayLate => Draft(ScheduleLater, LateFridayCheckout, Some(MondayTen), d.score - 15, d.factors + [LateFriday])
    case OrdinaryDay => d
  }

  /** Rule 2, the hour of the day: only a `send_now` is deferred. */
  function HourRule(d: Draft, s: Signals): Draft {
    if !s.offHours then d
    else if d.action == SendNow then
      d.(action := ScheduleLater, reason := OutsideHours, bestTime := Some(TomorrowNineThirty),
         factors := d.factors + [OutsideBusinessHours])
    else d.(factors := d.factors + [OutsideBusinessHours])
  }

  /** Rule 3, the end-of-year season. */
  function HolidayRule(d: Draft, s: Signals): Draft {
    if s.holiday then Draft(Hold, HolidayDefer, Some(JanuarySecond), d.score - 30, d.factors + [HolidaySeason])
    else d
  }

  /** Rule 4, spacing since the latest outbound interaction. */
  function SpacingRule(d: Draft, s: Signals): Draft {
    match s.spacing
    case NotChecked => d
    case Spacing(days, _) =>
      if TooSoon(s) then
        Draft(Hold, TooSoonAgo(days.value), Some(InDays(3 - days.value)), d.score - 40, d.factors + [RapidFollowUp])
      else d.(score := d.score + 10, factors := d.factors + [AppropriateSpacing(days)])
  }

  /** The news rule, given the test that decides whether funding news lifts a hold. */
  function NewsWith(d: Draft, s: Signals, lifts: bool): Draft {
    var afterFunding :=
      if !s.funding then d
      else if lifts then d.(action := SendNow, reason := FundingUrgency, score := d.score + 30, factors := d.factors + [RecentFunding])
      else d.(score := d.score + 30, factors := d.factors + [RecentFunding]);
    if s.growth then afterFunding.(score := afterFunding.score + 15, factors := afterFunding.factors + [GrowthSignals])
    else afterFunding
  }

  /** Rule 5, funding and growth news; funding lifts a hold whose reason does not mention the holidays. */
  function NewsRule(d: Draft, s: Signals): Draft {
    NewsWith(d, s, d.action == Hold && !Contains(ReasonText(d.reason), "Holiday"))
  }

  /** Rule 6, a fresh lead. */
  function FreshRule(d: Draft, s: Signals): Draft {
    if s.freshLead then d.(score := d.score + 5, factors := d.factors + [FreshLead]) else d
  }

  /** Rules 1 to 4. */
  function EarlyRules(s: Signals): Draft {
    SpacingRule(HolidayRule(HourRule(DayRule(Initial, s), s), s), s)
  }

  /** The six rules in source order. */
  function Rules(s: Signals): Draft {
    FreshRule(NewsRule(EarlyRules(s), s), s)
  }

  function Render(d: Draft): (r: SendRecommendation)
    ensures r.action == d.action && r.reason == ReasonText(d.reason) && r.priorityScore == Clamp(d.score)
    ensures |r.contextFactors| == |d.factors|
    ensures forall i :: 0 <= i < |d.factors| ==> r.contextFactors[i] == FactorText(d.factors[i])
  {
    SendRecommendation(
      d.action,
      ReasonText(d.reason),
      if d.bestTime.Some? then Some(BestTimeText(d.bestTime.value)) else None,
      Clamp(d.score),
      seq(|d.factors|, i requires 0 <= i < |d.factors| => FactorText(d.factors[i])))
  }

  /** `analyzeTiming`: the rules applied to what the clock, the prospect and its memory show. */
  function AnalyzeTiming(p: Prospect, memory: Option<ProspectMemory>, clock: Clock, parseDate: string -> Option<int>)
    : (r: SendRecommendation)
    ensures 0 <= r.priorityScore <= 100
  {
    Render(Rules(SignalsOf(clock, p, memory, parseDate)))
  }

  /** The factor each rule contributes, when it fires. */
  function DayFactors(s: Signals): seq<Factor> {
    match s.day
    case WeekendDay => [WeekendDetected]
    case MondayDay => [MondayCrowded]
    case FridayLate => [LateFriday]
    case OrdinaryDay => []
  }

  function HourFactors(s: Signals): seq<Factor> {
    if s.offHours then [OutsideBusinessHours] else []
  }

  function HolidayFactors(s: Signals): seq<Factor> {
    if s.holiday then [HolidaySeason] else []
  }

  function SpacingFactors(s: Signals): seq<Factor> {
    if s.spacing.NotChecked? then [] else if TooSoon(s) then [RapidFollowUp] else [AppropriateSpacing(s.spacing.days)]
  }

  function NewsFactors(s: Signals): seq<Factor> {
    (if s.funding then [RecentFunding] else []) + (if s.growth then [GrowthSignals] else [])
  }

  function FreshFactors(s: Signals): seq<Factor> {
    if s.freshLead then [FreshLead] else []
  }

  // Each rule's effect on the score and the factors, one rule at a time.
  lemma DayEffect(s: Signals)
    ensures DayRule(Initial, s).score == 50 + DayDelta(s) && DayRule(Initial, s).factors == DayFactors(s)
  {}
  lemma HourEffect(d: Draft, s: Signals)
    ensures HourRule(d, s).score == d.score && HourRule(d, s).factors == d.factors + HourFactors(s)
  {}
  lemma HolidayEffect(d: Draft, s: Signals)
    ensures HolidayRule(d, s).score == d.score + HolidayDelta(s)
    ensures HolidayRule(d, s).factors == d.factors + HolidayFactors(s)
  {}
  lemma SpacingEffect(d: Draft, s: Signals)
    ensures SpacingRule(d, s).score == d.score + SpacingDelta(s)
    ensures SpacingRule(d, s).factors == d.factors + SpacingFactors(s)
  {}
  lemma NewsEffect(d: Draft, s: Signals, lifts: bool)
    ensures NewsWith(d, s, lifts).score == d.score + NewsDelta(s)
    ensures NewsWith(d, s, lifts).factors == d.factors + NewsFactors(s)
  {}
  lemma FreshEffect(d: Draft, s: Signals)
    ensures FreshRule(d, s).score == d.score + FreshDelta(s) && FreshRule(d, s).factors == d.factors + FreshFactors(s)
  {}

  /**
   * Before clamping, the score is the base of 50 plus every rule's adjustment, and the
   * factors are one entry per rule that fired, in rule order.
   */
  lemma TimingScore(s: Signals)
    ensures Rules(s).score == 50 + ScoreDelta(s)
    ensures Rules(s).factors ==
      DayFactors(s) + HourFactors(s) + HolidayFactors(s) + SpacingFactors(s) + NewsFactors(s) + FreshFactors(s)
  {
    var d1 := DayRule(Initial, s);
    DayEffect(s);
    var d2 := HourRule(d1, s);
    HourEffect(d1, s);
    var d3 := HolidayRule(d2, s);
    HolidayEffect(d2, s);
    var d4 := SpacingRule(d3, s);
    SpacingEffect(d3, s);
    var d5 := NewsRule(d4, s);
    NewsEffect(d4, s, d4.action == Hold && !Contains(ReasonText(d4.reason), "Holiday"));
    FreshEffect(d5, s);
  }

  /** Which rules fired can be read off the factors. */
  lemma TimingFactors(s: Signals)
    ensures WeekendDetected in Rules(s).factors <==> s.day == WeekendDay
    ensures HolidaySeason in Rules(s).factors <==> s.holiday
    ensures RapidFollowUp in Rules(s).factors <==> TooSoon(s)
    ensures RecentFunding in Rules(s).factors <==> s.funding
    ensures FreshLead in Rules(s).factors <==> s.freshLead
  {
    TimingScore(s);
    FactorsFired(s);
  }

  lemma FactorsFired(s: Signals)
    ensures var f := DayFactors(s) + HourFactors(s) + HolidayFactors(s) + SpacingFactors(s) + NewsFactors(s) + FreshFactors(s);
      && (WeekendDetected in f <==> s.day == WeekendDay)
      && (HolidaySeason in f <==> s.holiday)
      && (RapidFollowUp in f <==> TooSoon(s))
      && (RecentFunding in f <==> s.funding)
      && (FreshLead in f <==> s.freshLead)
  {
    var early := DayFactors(s) + HourFactors(s) + HolidayFactors(s);
    var late := SpacingFactors(s) + NewsFactors(s) + FreshFactors(s);
    assert DayFactors(s) + HourFactors(s) + HolidayFactors(s) + SpacingFactors(s) + NewsFactors(s) + FreshFactors(s) == early + late;
  }

  predicate Lacks(s: string, c: char) {
    forall k :: 0 <= k < |s| ==> s[k] != c
  }

  lemma LacksJoin(a: string, b: string, c: char)
    requires Lacks(a, c) && Lacks(b, c)
    ensures Lacks(a + b, c)
  {
    forall k | 0 <= k < |a + b| ensures (a + b)[k] != c {
      if k >= |a| {
        assert (a + b)[k] == b[k - |a|];
      }
    }
  }

  /** A text built from pieces without a capital H cannot mention the holidays. */
  lemma OmitsHoliday(a: string, b: string, c: string)
    requires Lacks(a, 'H') && Lacks(b, 'H') && Lacks(c, 'H')
    ensures !Contains(a + b + c, "Holiday")
  {
    LacksJoin(a, b, 'H');
    LacksJoin(a + b, c, 'H');
    NotContainsWithoutFirstChar(a + b + c, "Holiday");
  }

  lemma CalendarReasonsOmitHoliday()
    ensures !Contains(ReasonText(ConditionsAcceptable), "Holiday") && !Contains(ReasonText(WeekendLow), "Holiday")
    ensures !Contains(ReasonText(LateFridayCheckout), "Holiday") && !Contains(ReasonText(OutsideHours), "Holiday")
  {
    OmitsHoliday("Conditions are ", "acceptable ", "for outreach.");
    OmitsHoliday("It's the weekend. ", "Professional outreach ", "has low open rates.");
    OmitsHoliday("Late Friday afternoon. ", "Prospect likely ", "checking out.");
    OmitsHoliday("Outside typical ", "business ", "hours.");
  }

  lemma TooSoonReasonOmitsHoliday(n: nat)
    ensures !Contains(ReasonText(TooSoonAgo(n)), "Holiday")
  {
    var digits := NatToString(n);
    assert Lacks(digits, 'H');
    OmitsHoliday("Too soon. Last outreach was ", digits, " days ago.");
  }

  /** Of all the reasons, only the holiday one mentions the holidays. */
  lemma MentionsHoliday(r: Reason)
    ensures Contains(ReasonText(r), "Holiday") <==> r == HolidayDefer
  {
    match r
    case HolidayDefer =>
      assert "Holiday" <= ReasonText(r)[|"End of Year / "|..];
    case TooSoonAgo(n) => TooSoonReasonOmitsHoliday(n);
    case FundingUrgency => OmitsHoliday("Funding news ", "signals high urgency ", "to connect.");
    case _ => CalendarReasonsOmitHoliday();
  }

  /** After rules 1 to 4: a hold from the holidays or from spacing, else the calendar decides. */
  lemma EarlyAction(s: Signals)
    ensures EarlyRules(s).action ==
      if TooSoon(s) || s.holiday then Hold
      else if s.day in {WeekendDay, FridayLate} || s.offHours then ScheduleLater
      else SendNow
    ensures EarlyRules(s).reason == HolidayDefer <==> s.holiday && !TooSoon(s)
  {
    var d2 := HourRule(DayRule(Initial, s), s);
    assert d2.action == if s.day in {WeekendDay, FridayLate} || s.offHours then ScheduleLater else SendNow;
    assert d2.reason != HolidayDefer;
  }

  /** Funding news lifts exactly the holds whose reason is not the holiday one. */
  lemma NewsAction(d: Draft, s: Signals)
    ensures NewsRule(d, s).action ==
      if s.funding && d.action == Hold && d.reason != HolidayDefer then SendNow else d.action
  {
    MentionsHoliday(d.reason);
  }

  /**
   * The action of `analyzeTiming`: a holiday hold stands unless the spacing rule also
   * fired; a too-soon hold is lifted by funding news; otherwise a weekend, late Friday
   * or off-hours time defers the send.
   */
  lemma TimingAction(s: Signals)
    ensures Rules(s).action == ActionOf(s)
  {
    EarlyAction(s);
    NewsAction(EarlyRules(s), s);
  }

  /** `analyzeTiming` decides by the decision table and scores by the adjustment table. */
  lemma AnalyzeTimingDecides(p: Prospect, memory: Option<ProspectMemory>, clock: Clock, parseDate: string -> Option<int>)
    ensures AnalyzeTiming(p, memory, clock, parseDate).action == ActionOf(SignalsOf(clock, p, memory, parseDate))
    ensures AnalyzeTiming(p, memory, clock, parseDate).priorityScore
         == Clamp(50 + ScoreDelta(SignalsOf(clock, p, memory, parseDate)))
  {
    var s := SignalsOf(clock, p, memory, parseDate);
    TimingAction(s);
    TimingScore(s);
  }

  // ---------------------------------------------------------------------------
  // The funding override and the holiday hold
  // ---------------------------------------------------------------------------

  /**
   * As written, the override tests the reason text, and the spacing rule has already
   * replaced the holiday reason: in the holiday season, a too-soon follow-up with
   * funding news is sent at once.
   */
  lemma FundingLiftsHolidayHold(s: Signals)
    requires s.holiday && TooSoon(s) && s.funding
    ensures Rules(s).action == SendNow
    ensures HolidaySeason in Rules(s).factors
  {
    TimingAction(s);
    TimingFactors(s);
  }

  /** A concrete case: 24 December, an unanswered email sent a day ago, and news of a raise. */
  lemma HolidayHoldLiftedOnChristmasEve(p: Prospect, memory: Option<ProspectMemory>, clock: Clock,
                                        parseDate: string -> Option<int>, e: InteractionEvent)
    requires clock.month == 11 && clock.date == 24
    requires p.recentNews == Some("Raised a Series B")
    requires memory.Some? && memory.value.interactionHistory == [e]
    requires e.direction == Outbound && e.outcome == "no_reply" && parseDate(e.date) == Some(clock.nowMs - MsPerDay)
    ensures SignalsOf(clock, p, memory, parseDate).holiday
    ensures AnalyzeTiming(p, memory, clock, parseDate).action == SendNow
  {
    var s := SignalsOf(clock, p, memory, parseDate);
    assert LastOutbound([e]) == Some(e);
    assert CeilDays(Abs(clock.nowMs - (clock.nowMs - MsPerDay))) == 1;
    assert s.spacing == Spacing(Some(1), "no_reply");
    var news := Lower("Raised a Series B");
    assert news[..6] == "raised";
    assert "raised" <= news[0..];
    assert s.funding;
    AnalyzeTimingDecides(p, memory, clock, parseDate);
  }

  /** The rules with the override keyed to the season itself rather than to the reason text. */
  function RulesCorrected(s: Signals): Draft {
    var d := EarlyRules(s);
    FreshRule(NewsWith(d, s, d.action == Hold && !s.holiday), s)
  }

  function AnalyzeTimingCorrected(p: Prospect, memory: Option<ProspectMemory>, clock: Clock, parseDate: string -> Option<int>)
    : (r: SendRecommendation)
    ensures 0 <= r.priorityScore <= 100
  {
    Render(RulesCorrected(SignalsOf(clock, p, memory, parseDate)))
  }

  /** With the correction, the holiday season always holds the send. */
  lemma CorrectedHolidayHolds(s: Signals)
    requires s.holiday
    ensures RulesCorrected(s).action == Hold
  {
    EarlyAction(s);
  }

  /** Outside the holiday season the correction changes nothing. */
  lemma CorrectedAgreesOutsideHolidays(s: Signals)
    requires !s.holiday
    ensures RulesCorrected(s) == Rules(s)
  {
    EarlyAction(s);
    MentionsHoliday(EarlyRules(s).reason);
  }
}
