/** Bounded waiting of the ready ring (application/gpu_scheduler.py) and what it means for
    Jain's index (scripts/benchmark_edge_capacity.py). */
module SchedulerFairness {
  import opened Scheduler

  // ----- runs of the scheduler

  /** One critical section of the scheduler's lock. */
  datatype Action = DoSubmit(frame: Frame, now: real) | DoPop(now: real) | DoUnregister(camera: string)

  function Act(config: Config, s: State, action: Action): State
    requires config.Valid()
  {
    match action
    case DoSubmit(frame, now) => if HasRoom(config, s, frame.camera) then Submit(config, s, frame, now) else s
    case DoPop(now) => PopBatch(config, s, now, config.maximumBatchSize).0
    case DoUnregister(camera) => Unregister(s, camera)
  }

  function RunAll(config: Config, s: State, actions: seq<Action>): State
    requires config.Valid()
    decreases |actions|
  {
    if actions == [] then s else RunAll(config, Act(config, s, actions[0]), actions[1..])
  }

  lemma ActKeepsInv(config: Config, s: State, action: Action)
    requires config.Valid() && Inv(config, s)
    ensures Inv(config, Act(config, s, action))
  {
    match action
    case DoSubmit(frame, now) => if HasRoom(config, s, frame.camera) { SubmitKeepsInv(config, s, frame, now); }
    case DoPop(now) => BatchKeepsInv(config, s, now, config.maximumBatchSize);
    case DoUnregister(camera) => UnregisterKeepsInv(config, s, camera);
  }

  /** The invariant, with its conservation law, holds after any run. */
  lemma {:induction false} RunKeepsInv(config: Config, s: State, actions: seq<Action>)
    requires config.Valid() && Inv(config, s)
    ensures Inv(config, RunAll(config, s, actions))
    decreases |actions|
  {
    if actions != [] {
      ActKeepsInv(config, s, actions[0]);
      RunKeepsInv(config, Act(config, s, actions[0]), actions[1..]);
    }
  }

  /** `camera` has a frame waiting now and after every action of the stretch. */
  ghost predicate Backlogged(config: Config, s: State, actions: seq<Action>, camera: string)
    requires config.Valid()
    decreases |actions|
  {
    s.Queue(camera) != [] && (actions != [] ==> Backlogged(config, Act(config, s, actions[0]), actions[1..], camera))
  }

  // ----- bounded waiting

  /** `a` stands in the ring before `b` does. */
  predicate Before(ring: seq<string>, a: string, b: string) {
    ring != [] && ring[0] != b && (ring[0] == a || Before(ring[1..], a, b))
  }

  lemma {:induction false} BeforeAfterAppend(ring: seq<string>, x: string, a: string, b: string)
    requires b in ring
    ensures Before(ring + [x], a, b) == Before(ring, a, b)
  {
    assert ring == [ring[0]] + ring[1..];
    if ring[0] != b {
      assert (ring + [x])[1..] == ring[1..] + [x];
      BeforeAfterAppend(ring[1..], x, a, b);
    }
  }

  lemma {:induction false} AbsentIsNotBefore(ring: seq<string>, a: string, b: string)
    requires a !in ring
    ensures !Before(ring, a, b)
  {
    if ring != [] {
      assert ring == [ring[0]] + ring[1..];
      AbsentIsNotBefore(ring[1..], a, b);
    }
  }

  lemma {:induction false} BeforeAfterWithout(ring: seq<string>, gone: string, a: string, b: string)
    requires gone != b && Before(Without(ring, gone), a, b)
    ensures Before(ring, a, b)
  {
    if ring[0] == gone {
      BeforeAfterWithout(ring[1..], gone, a, b);
    } else {
      assert Without(ring, gone)[1..] == Without(ring[1..], gone);
      if ring[0] != a {
        BeforeAfterWithout(ring[1..], gone, a, b);
      }
    }
  }

  /** The loop invariant of bounded waiting: `ea` and `eb` count emissions of `a` and `b`;
      `a` may be one ahead only while it does not stand before `b`. */
  ghost predicate Lead(s: State, a: string, b: string, ea: int, eb: int) {
    ea <= eb + (if Before(s.ready, a, b) then 0 else 1)
  }

  lemma SubmitKeepsLead(config: Config, s: State, frame: Frame, now: real, a: string, b: string, ea: int, eb: int)
    requires config.Valid() && RingOk(s) && b in s.ready && Lead(s, a, b, ea, eb)
    ensures Lead(Submit(config, s, frame, now), a, b, ea, eb)
    ensures forall c :: Submit(config, s, frame, now).EmittedBy(c) == s.EmittedBy(c)
  {
    if frame.camera !in s.readySet {
      BeforeAfterAppend(s.ready, frame.camera, a, b);
    }
  }

  lemma UnregisterKeepsLead(s: State, camera: string, a: string, b: string, ea: int, eb: int)
    requires camera != b && Lead(s, a, b, ea, eb)
    ensures Lead(Unregister(s, camera), a, b, ea, eb)
    ensures forall c :: Unregister(s, camera).EmittedBy(c) == s.EmittedBy(c)
  {
    if Before(Unregister(s, camera).ready, a, b) {
      BeforeAfterWithout(s.ready, camera, a, b);
    }
  }

  lemma VisitKeepsLead(config: Config, s: State, now: real, a: string, b: string, ea: int, eb: int)
    requires RingOk(s) && s.ready != [] && a != b && b in s.ready && Lead(s, a, b, ea, eb)
    requires Visit(config, s, now).0.Queue(b) != []
    ensures var t := Visit(config, s, now).0;
      Lead(t, a, b, ea + t.EmittedBy(a) - s.EmittedBy(a), eb + t.EmittedBy(b) - s.EmittedBy(b))
  {
    HeadIsBacklogged(s);
    VisitLog(config, s, now);
    var t, head, rest := Visit(config, s, now).0, s.ready[0], s.ready[1..];
    assert t.ready == rest || t.ready == rest + [head];
    if head == b {
      assert t.ready == rest + [head];
      assert t.EmittedBy(b) == s.EmittedBy(b) + 1;
    } else {
      if t.ready == rest + [head] { BeforeAfterAppend(rest, head, a, b); }
      if head == a {
        AbsentIsNotBefore(rest, a, b);
      }
    }
  }

  lemma {:induction false} EmptyStaysEmpty(config: Config, s: State, now: real, room: nat, b: string)
    requires RingOk(s) && BoundsOk(config, s) && s.Queue(b) == []
    ensures PopBatch(config, s, now, room).0.Queue(b) == []
    decreases room, |s.ready|
  {
    if s.ready != [] && room > 0 {
      HeadIsBacklogged(s);
      VisitLog(config, s, now);
      VisitKeepsRing(config, s, now);
      var (next, batch) := Visit(config, s, now);
      EmptyStaysEmpty(config, next, now, room - |batch|, b);
    }
  }

  lemma FirstVisitKeepsLead(config: Config, s: State, now: real, room: nat, a: string, b: string, ea: int, eb: int)
    returns (t: State, left: nat)
    requires RingOk(s) && BoundsOk(config, s) && a != b && s.Queue(b) != [] && Lead(s, a, b, ea, eb)
    requires s.ready != [] && room > 0 && PopBatch(config, s, now, room).0.Queue(b) != []
    ensures RingOk(t) && BoundsOk(config, t) && t.Queue(b) != [] && (left < room || (left == room && |t.ready| < |s.ready|))
    ensures PopBatch(config, s, now, room).0 == PopBatch(config, t, now, left).0
    ensures Lead(t, a, b, ea + t.EmittedBy(a) - s.EmittedBy(a), eb + t.EmittedBy(b) - s.EmittedBy(b))
  {
    var popped;
    t, popped, left := FirstVisit(config, s, now, room);
    VisitKeepsRing(config, s, now);
    if t.Queue(b) == [] { EmptyStaysEmpty(config, t, now, left, b); }
    assert b in s.readySet;
    VisitKeepsLead(config, s, now, a, b, ea, eb);
  }

  lemma {:induction false} PopKeepsLead(config: Config, s: State, now: real, room: nat, a: string, b: string, ea: int, eb: int)
    requires RingOk(s) && BoundsOk(config, s) && a != b && s.Queue(b) != [] && Lead(s, a, b, ea, eb)
    requires PopBatch(config, s, now, room).0.Queue(b) != []
    ensures var t := PopBatch(config, s, now, room).0;
      Lead(t, a, b, ea + t.EmittedBy(a) - s.EmittedBy(a), eb + t.EmittedBy(b) - s.EmittedBy(b))
    decreases room, |s.ready|
  {
    if s.ready != [] && room > 0 {
      var t, left := FirstVisitKeepsLead(config, s, now, room, a, b, ea, eb);
      PopKeepsLead(config, t, now, left, a, b, ea + t.EmittedBy(a) - s.EmittedBy(a), eb + t.EmittedBy(b) - s.EmittedBy(b));
    }
  }

  lemma {:induction false} RunKeepsLead(config: Config, s: State, actions: seq<Action>, a: string, b: string, ea: int, eb: int)
    requires config.Valid() && Inv(config, s) && a != b && Backlogged(config, s, actions, b) && Lead(s, a, b, ea, eb)
    ensures var t := RunAll(config, s, actions);
      Lead(t, a, b, ea + t.EmittedBy(a) - s.EmittedBy(a), eb + t.EmittedBy(b) - s.EmittedBy(b))
    decreases |actions|
  {
    if actions != [] {
      var next := Act(config, s, actions[0]);
      assert b in s.readySet;
      assert next.Queue(b) != [];
      match actions[0] {
        case DoSubmit(frame, now) => SubmitKeepsLead(config, s, frame, now, a, b, ea, eb);
        case DoPop(now) => PopKeepsLead(config, s, now, config.maximumBatchSize, a, b, ea, eb);
        case DoUnregister(camera) => UnregisterKeepsLead(s, camera, a, b, ea, eb);
      }
      ActKeepsInv(config, s, actions[0]);
      RunKeepsLead(config, next, actions[1..], a, b,
        ea + next.EmittedBy(a) - s.EmittedBy(a), eb + next.EmittedBy(b) - s.EmittedBy(b));
    }
  }

  /** The number of frames of `camera` emitted over the stretch. */
  function Served(config: Config, s: State, actions: seq<Action>, camera: string): int
    requires config.Valid()
  {
    RunAll(config, s, actions).EmittedBy(camera) - s.EmittedBy(camera)
  }

  /** While `b` stays backlogged no camera is served more than once more often than `b`. */
  lemma BoundedWaiting(config: Config, s: State, actions: seq<Action>, a: string, b: string)
    requires config.Valid() && Inv(config, s) && Backlogged(config, s, actions, b)
    ensures Served(config, s, actions, a) <= Served(config, s, actions, b) + 1
  {
    if a != b {
      RunKeepsLead(config, s, actions, a, b, 0, 0);
    }
  }

  // ----- Jain's index

  function Sum(counts: seq<int>): int {
    if counts == [] then 0 else Sum(counts[..|counts| - 1]) + counts[|counts| - 1]
  }

  function SquareSum(counts: seq<int>): int {
    if counts == [] then 0
    else SquareSum(counts[..|counts| - 1]) + counts[|counts| - 1] * counts[|counts| - 1]
  }

  /** `_jain_fairness`. */
  function Jain(counts: seq<int>): real {
    if counts == [] || SquareSum(counts) == 0 then 0.0
    else (Sum(counts) * Sum(counts)) as real / (|counts| * SquareSum(counts)) as real
  }

  /** `|counts| * SquareSum - Sum^2`: zero exactly for equal counts. */
  function Gap(counts: seq<int>): int {
    |counts| * SquareSum(counts) - Sum(counts) * Sum(counts)
  }

  function DistanceTo(counts: seq<int>, x: int): int {
    if counts == [] then 0
    else DistanceTo(counts[..|counts| - 1], x) + (counts[|counts| - 1] - x) * (counts[|counts| - 1] - x)
  }

  lemma DistanceStep(n: int, s1: int, s2: int, x: int, y: int)
    ensures (s2 - 2 * x * s1 + n * x * x) + (y - x) * (y - x) == (s2 + y * y) - 2 * x * (s1 + y) + (n + 1) * x * x
  {
  }

  lemma GapStep(n: int, s1: int, s2: int, x: int)
    ensures (n + 1) * (s2 + x * x) - (s1 + x) * (s1 + x) == (n * s2 - s1 * s1) + (s2 - 2 * x * s1 + n * x * x)
  {
  }

  lemma SquareSign(d: int)
    ensures d * d >= 0 && (d * d == 0 <==> d == 0)
  {
  }

  lemma {:induction false} DistanceExpands(counts: seq<int>, x: int)
    ensures DistanceTo(counts, x) == SquareSum(counts) - 2 * x * Sum(counts) + |counts| * x * x
  {
    if counts != [] {
      var front, y := counts[..|counts| - 1], counts[|counts| - 1];
      DistanceExpands(front, x);
      DistanceStep(|front|, Sum(front), SquareSum(front), x, y);
    }
  }

  lemma {:induction false} DistanceSign(counts: seq<int>, x: int)
    ensures DistanceTo(counts, x) >= 0
    ensures DistanceTo(counts, x) == 0 <==> forall i :: 0 <= i < |counts| ==> counts[i] == x
  {
    if counts != [] {
      DistanceSign(counts[..|counts| - 1], x);
      SquareSign(counts[|counts| - 1] - x);
    }
  }

  lemma GapGrows(front: seq<int>, x: int)
    ensures Gap(front + [x]) == Gap(front) + DistanceTo(front, x)
  {
    assert (front + [x])[..|front|] == front;
    DistanceExpands(front, x);
    GapStep(|front|, Sum(front), SquareSum(front), x);
  }

  lemma {:induction false} GapIsZeroForEqualCounts(counts: seq<int>)
    ensures Gap(counts) >= 0
    ensures Gap(counts) == 0 <==> forall i, j :: 0 <= i < |counts| && 0 <= j < |counts| ==> counts[i] == counts[j]
  {
    if counts != [] {
      var front, x := counts[..|counts| - 1], counts[|counts| - 1];
      assert counts == front + [x];
      GapIsZeroForEqualCounts(front);
      GapGrows(front, x);
      DistanceSign(front, x);
      if Gap(counts) == 0 {
        assert forall i :: 0 <= i < |front| ==> counts[i] == front[i] == x;
      }
      if forall i, j :: 0 <= i < |counts| && 0 <= j < |counts| ==> counts[i] == counts[j] {
        assert forall i :: 0 <= i < |front| ==> front[i] == counts[i] == counts[|counts| - 1];
      }
    }
  }

  lemma {:induction false} SquareSumIsPositive(counts: seq<int>)
    ensures SquareSum(counts) >= 0
    ensures SquareSum(counts) == 0 ==> Sum(counts) == 0
    ensures SquareSum(counts) == 0 ==> forall i :: 0 <= i < |counts| ==> counts[i] == 0
  {
    if counts != [] {
      var x := counts[|counts| - 1];
      SquareSumIsPositive(counts[..|counts| - 1]);
      if x != 0 { assert x * x > 0; }
    }
  }

  /** Jain's index of counts with a non-zero sum: never above 1, and 1 only for equal counts. */
  lemma JainAtMostOne(counts: seq<int>)
    requires Sum(counts) != 0
    ensures 0.0 < Jain(counts) <= 1.0
    ensures Jain(counts) == 1.0 <==> forall i, j :: 0 <= i < |counts| && 0 <= j < |counts| ==> counts[i] == counts[j]
  {
    var top, bottom := Sum(counts) * Sum(counts), |counts| * SquareSum(counts);
    SquareSumIsPositive(counts);
    assert top > 0;
    assert bottom > 0;
    GapIsZeroForEqualCounts(counts);
    Quotient(top, bottom);
  }

  lemma Quotient(top: int, bottom: int)
    requires 0 < top <= bottom
    ensures 0.0 < top as real / bottom as real <= 1.0
    ensures top as real / bottom as real == 1.0 <==> top == bottom
  {
    var q := top as real / bottom as real;
    assert q * bottom as real == top as real;
  }

  function Above(counts: seq<int>, low: int): nat {
    if counts == [] then 0
    else Above(counts[..|counts| - 1], low) + (if counts[|counts| - 1] > low then 1 else 0)
  }

  lemma TwoValueStep(n: int, low: int, k: int)
    ensures n * low * low + (2 * low + 1) * k + low * low == (n + 1) * low * low + (2 * low + 1) * k
    ensures n * low * low + (2 * low + 1) * k + (low + 1) * (low + 1) == (n + 1) * low * low + (2 * low + 1) * (k + 1)
    ensures n * low + k + low == (n + 1) * low + k
  {
  }

  /** The sums of counts that only take the values `low` and `low + 1`. */
  lemma {:induction false} TwoValueSums(counts: seq<int>, low: int)
    requires forall i :: 0 <= i < |counts| ==> low <= counts[i] <= low + 1
    ensures Above(counts, low) <= |counts|
    ensures Sum(counts) == |counts| * low + Above(counts, low)
    ensures SquareSum(counts) == |counts| * low * low + (2 * low + 1) * Above(counts, low)
  {
    if counts != [] {
      var front := counts[..|counts| - 1];
      TwoValueSums(front, low);
      TwoValueStep(|front|, low, Above(front, low));
    }
  }

  lemma TwoValueGap(n: int, low: int, k: int)
    ensures n * (n * low * low + (2 * low + 1) * k) - (n * low + k) * (n * low + k) == k * (n - k)
  {
    var x := n * low;
    assert n * (n * low * low) == x * x;
    assert n * ((2 * low + 1) * k) == 2 * x * k + n * k;
    assert n * (n * low * low + (2 * low + 1) * k) == n * (n * low * low) + n * ((2 * low + 1) * k);
    assert (x + k) * (x + k) == x * x + 2 * x * k + k * k;
    assert k * (n - k) == n * k - k * k;
  }

  lemma ProductAtMostSquare(n: int, k: int)
    ensures 4 * (k * (n - k)) <= n * n
  {
    SquareSign(n - 2 * k);
    assert (n - 2 * k) * (n - 2 * k) == n * n - 4 * (k * (n - k));
  }

  lemma SquareMonotone(m: nat, low: nat, n: nat)
    requires m <= low
    ensures n * (m * m) <= n * (low * low)
  {
    Scale(m, low, m);
    Scale(m, low, low);
    Scale(m * m, low * low, n);
  }

  lemma NearlyEqualCounts(counts: seq<int>, low: int, m: nat)
    requires counts != [] && 1 <= m <= low
    requires forall i :: 0 <= i < |counts| ==> low <= counts[i] <= low + 1
    ensures SquareSum(counts) > 0
    ensures (4 * m * m) * Gap(counts) <= |counts| * SquareSum(counts)
  {
    var n, k, g, s2 := |counts|, Above(counts, low), Gap(counts), SquareSum(counts);
    TwoValueSums(counts, low);
    TwoValueGap(n, low, k);
    ProductAtMostSquare(n, k);
    SquareMonotone(m, low, n);
    Reassociate(n, low, 0);
    Scale(0, (2 * low + 1), k);
    assert n * (m * m) <= s2;
    Scale(4 * g, n * n, m * m);
    Scale(n * (m * m), s2, n);
    Reassociate(n, m, g);
    SquareSign(m);
    Scale(1, n, m * m);
  }

  lemma Reassociate(n: int, m: int, g: int)
    ensures n * m * m == n * (m * m)
    ensures n * (n * (m * m)) == (m * m) * (n * n)
    ensures (4 * m * m) * g == (m * m) * (4 * g)
  {
  }

  lemma Scale(a: int, b: int, f: nat)
    requires a <= b
    ensures f * a <= f * b && a * f <= b * f
  {
  }

  /** Counts that differ by at most one and are all at least `m` have an index of at least 1 - 1/(4m^2). */
  lemma JainLowerBound(counts: seq<int>, m: nat)
    requires counts != [] && 1 <= m
    requires forall i :: 0 <= i < |counts| ==> m <= counts[i]
    requires forall i, j :: 0 <= i < |counts| && 0 <= j < |counts| ==> counts[i] <= counts[j] + 1
    ensures Jain(counts) >= 1.0 - 1.0 / (4 * m * m) as real
  {
    var low := Least(counts);
    NearlyEqualCounts(counts, low, m);
    var n := |counts|;
    var bottom, q := n * SquareSum(counts), 4 * m * m;
    assert bottom > 0 && q > 0;
    Complement(Sum(counts) * Sum(counts), bottom, q);
  }

  lemma Complement(top: int, bottom: int, q: int)
    requires 0 < bottom && 0 < q && q * (bottom - top) <= bottom
    ensures top as real / bottom as real >= 1.0 - 1.0 / q as real
  {
    var b, t, r := bottom as real, top as real, q as real;
    assert r * (b - t) <= b by { assert (q * (bottom - top)) as real == r * (b - t); }
    var x := t / b;
    assert x * b == t;
    assert r * (b - x * b) == (r * (1.0 - x)) * b;
    assert r * (1.0 - x) <= 1.0;
    var y := 1.0 / r;
    assert y * r == 1.0;
    assert r * (1.0 - x) <= y * r;
  }

  lemma Least(counts: seq<int>) returns (low: int)
    requires counts != []
    ensures low in counts && forall i :: 0 <= i < |counts| ==> low <= counts[i]
  {
    low := counts[0];
    for k := 1 to |counts|
      invariant low in counts && forall i :: 0 <= i < k ==> low <= counts[i]
    {
      if counts[k] < low { low := counts[k]; }
    }
  }

  /** The emissions of each of the given cameras over the stretch. */
  function ServedCounts(config: Config, s: State, actions: seq<Action>, cameras: seq<string>): (counts: seq<int>)
    requires config.Valid()
    ensures |counts| == |cameras|
  {
    seq(|cameras|, i requires 0 <= i < |cameras| => Served(config, s, actions, cameras[i]))
  }

  /** If the cameras stay backlogged and each has been served at least `m` times, Jain's index
      over their emission counts is within 1/(4m^2) of perfect fairness. */
  lemma FairnessBound(config: Config, s: State, actions: seq<Action>, cameras: seq<string>, m: nat)
    requires config.Valid() && Inv(config, s) && cameras != [] && 1 <= m
    requires forall i :: 0 <= i < |cameras| ==> Backlogged(config, s, actions, cameras[i])
    requires forall i :: 0 <= i < |cameras| ==> Served(config, s, actions, cameras[i]) >= m
    ensures Jain(ServedCounts(config, s, actions, cameras)) >= 1.0 - 1.0 / (4 * m * m) as real
  {
    var counts := ServedCounts(config, s, actions, cameras);
    forall i, j | 0 <= i < |counts| && 0 <= j < |counts| ensures counts[i] <= counts[j] + 1 {
      BoundedWaiting(config, s, actions, cameras[i], cameras[j]);
    }
    JainLowerBound(counts, m);
  }
}
