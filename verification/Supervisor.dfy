/** Reconciling camera workers with the enabled cameras (application/supervisor.py). Handles,
    the launcher, the repositories and the clock answer through arguments. */
module Supervisor {
  import opened EntryNames
  import opened Options

  datatype Worker = Worker(revision: int, startedAt: real)

  /** The answers of one cycle, by camera. */
  datatype Environment = Environment(
    running: string -> bool,
    stopWorks: string -> bool,
    persisted: string -> Option<bool>,   // whether the camera still exists, and is enabled
    startWorks: string -> bool,
    statusWorks: string -> bool)

  /** The answers about the shared inference service in one cycle. */
  datatype Service = Service(running: bool, startWorks: bool, later: real)

  // ----- backoff

  function Doubled(x: real, times: nat): real {
    if times == 0 then x else 2.0 * Doubled(x, times - 1)
  }

  function Min(a: real, b: real): real {
    if a <= b then a else b
  }

  function Doublings(failures: nat): nat
    requires failures >= 1
  {
    if failures - 1 <= 20 then failures - 1 else 20
  }

  function Backoff(base: real, maximum: real, failures: nat): real
    requires failures >= 1
  {
    Min(Doubled(base, Doublings(failures)), maximum)
  }

  lemma {:induction false} DoubledGrows(x: real, n: nat, m: nat)
    requires n <= m && x > 0.0
    ensures x <= Doubled(x, n) <= Doubled(x, m)
  {
    if n > 0 {
      DoubledGrows(x, n - 1, m - 1);
      DoubledGrows(x, 0, n - 1);
    } else if m > 0 {
      DoubledGrows(x, 0, m - 1);
    }
  }

  /** Backoff never shrinks with more failures and stays between the base and the maximum. */
  lemma BackoffIsMonotone(base: real, maximum: real, failures: nat, more: nat)
    requires 0.0 < base <= maximum && 1 <= failures <= more
    ensures base <= Backoff(base, maximum, failures) <= Backoff(base, maximum, more) <= maximum
  {
    DoubledGrows(base, Doublings(failures), Doublings(more));
  }

  // ----- sorted camera ids

  predicate Ascending(ids: seq<string>) {
    forall i, j :: 0 <= i < j < |ids| ==> Less(ids[i], ids[j])
  }

  method Least(ids: set<string>) returns (first: string)
    requires ids != {}
    ensures first in ids && forall id :: id in ids ==> id == first || Less(first, id)
  {
    first :| first in ids;
    var rest := ids - {first};
    while rest != {}
      invariant first in ids && rest <= ids
      invariant forall id :: id in ids - rest ==> id == first || Less(first, id)
      decreases |rest|
    {
      var id :| id in rest;
      ghost var before := first;
      LessIsTotal(first, id);
      if Less(id, first) { first := id; }
      forall other | other in ids - (rest - {id}) ensures other == first || Less(first, other) {
        if Less(id, before) && other != id && other != before { LessIsTransitive(id, before, other); }
      }
      rest := rest - {id};
    }
  }

  method SortedIds(ids: set<string>) returns (sorted: seq<string>)
    ensures Ascending(sorted) && forall id :: id in sorted <==> id in ids
    ensures forall i, j :: 0 <= i < j < |sorted| ==> sorted[i] != sorted[j]
  {
    sorted := [];
    var rest := ids;
    while rest != {}
      invariant rest <= ids && Ascending(sorted)
      invariant forall id :: id in sorted <==> id in ids - rest
      invariant forall id, later :: id in sorted && later in rest ==> Less(id, later)
      decreases |rest|
    {
      var next := Least(rest);
      assert forall i :: 0 <= i < |sorted| ==> sorted[i] in sorted;
      sorted := sorted + [next];
      rest := rest - {next};
    }
    forall i, j | 0 <= i < j < |sorted| ensures sorted[i] != sorted[j] { LessIsStrict(sorted[i]); }
  }

  // ----- which cameras a cycle starts

  /** `chosen` are the `n` first candidates in id order, or all if there are fewer. */
  ghost predicate FirstOf(chosen: set<string>, candidates: set<string>, n: nat) {
    && chosen <= candidates
    && |chosen| == (if |candidates| <= n then |candidates| else n)
    && forall early, late :: early in candidates && late in chosen && Less(early, late) ==> early in chosen
  }

  /** One cycle without failures and timers over a fixed set of enabled cameras. */
  ghost predicate CleanCycle(desired: set<string>, before: set<string>, after: set<string>, limit: nat) {
    exists chosen :: FirstOf(chosen, desired - before, limit) && after == before + chosen
  }

  /** The sets of running cameras over consecutive such cycles. */
  ghost predicate Cycles(desired: set<string>, running: seq<set<string>>, limit: nat) {
    && |running| > 0 && running[0] <= desired
    && forall k :: 0 < k < |running| ==> CleanCycle(desired, running[k - 1], running[k], limit)
  }

  /** The running cameras are the first ones in id order. */
  ghost predicate IsPrefix(running: set<string>, desired: set<string>) {
    running <= desired && forall early, late :: early in desired && late in running && Less(early, late) ==> early in running
  }

  function AtMost(n: nat, bound: nat): nat {
    if n <= bound then n else bound
  }

  lemma ChosenExtends(desired: set<string>, between: set<string>, chosen: set<string>, limit: nat)
    requires IsPrefix(between, desired) && FirstOf(chosen, desired - between, limit)
    ensures IsPrefix(between + chosen, desired)
    ensures |between + chosen| == AtMost(|desired|, |between| + limit)
  {
    assert desired == between + (desired - between) && |desired - between| == |desired| - |between|;
    assert |between + chosen| == |between| + |chosen|;
  }

  lemma CleanCycleExtends(desired: set<string>, between: set<string>, after: set<string>, limit: nat, n: nat)
    requires IsPrefix(between, desired) && |between| == AtMost(|desired|, n) && CleanCycle(desired, between, after, limit)
    ensures IsPrefix(after, desired) && |after| == AtMost(|desired|, n + limit)
  {
    var chosen :| FirstOf(chosen, desired - between, limit) && after == between + chosen;
    ChosenExtends(desired, between, chosen, limit);
  }

  lemma OneMoreTime(k: nat, limit: nat)
    requires k > 0
    ensures (k - 1) * limit + limit == k * limit
  {
  }

  /** After k cycles from nothing exactly the first min(|desired|, k * limit) cameras run. */
  lemma {:induction false} Convergence(desired: set<string>, running: seq<set<string>>, limit: nat, k: nat)
    requires Cycles(desired, running, limit) && running[0] == {} && k < |running|
    ensures IsPrefix(running[k], desired) && |running[k]| == AtMost(|desired|, k * limit)
  {
    if k > 0 {
      Convergence(desired, running, limit, k - 1);
      CleanCycleExtends(desired, running[k - 1], running[k], limit, (k - 1) * limit);
      OneMoreTime(k, limit);
    }
  }

  lemma CycleCounts(desired: set<string>, before: set<string>, after: set<string>, limit: nat)
    requires before <= desired && CleanCycle(desired, before, after, limit)
    ensures after <= desired && |after| == AtMost(|desired|, |before| + limit)
  {
    var chosen :| FirstOf(chosen, desired - before, limit) && after == before + chosen;
    Rest(before, desired);
    assert |before + chosen| == |before| + |chosen|;
  }

  /** Each cycle starts as many cameras as it may, whichever ran before. */
  lemma {:induction false} CyclesCount(desired: set<string>, running: seq<set<string>>, limit: nat, k: nat)
    requires Cycles(desired, running, limit) && k < |running|
    ensures running[k] <= desired && |running[k]| == AtMost(|desired|, |running[0]| + k * limit)
  {
    if k > 0 {
      CyclesCount(desired, running, limit, k - 1);
      CycleCounts(desired, running[k - 1], running[k], limit);
      OneMoreTime(k, limit);
    } else {
      Rest(running[0], desired);
    }
  }

  lemma OneMoreCycle(desired: set<string>, running: seq<set<string>>, after: set<string>, limit: nat)
    requires Cycles(desired, running, limit) && CleanCycle(desired, running[|running| - 1], after, limit)
    ensures Cycles(desired, running + [after], limit)
  {
    var longer := running + [after];
    forall k | 0 < k < |longer| ensures CleanCycle(desired, longer[k - 1], longer[k], limit) {
      assert longer[k - 1] == running[k - 1];
    }
  }

  // ----- starting in order

  function Members(ids: seq<string>): set<string> {
    set id | id in ids
  }

  function NewWorkers(ids: seq<string>, desired: map<string, int>, now: real): map<string, Worker> {
    map id | id in ids && id in desired :: Worker(desired[id], now)
  }

  predicate Clean(desired: map<string, int>, env: Environment) {
    forall id :: id in desired ==> env.startWorks(id) && env.statusWorks(id)
  }

  /** `eligible` lists the candidates among `ids`, in order. */
  ghost predicate Listed(ids: seq<string>, candidates: set<string>, eligible: seq<string>) {
    && Ascending(eligible)
    && forall id :: id in eligible <==> id in ids && id in candidates
  }

  ghost predicate Chosen(started: seq<string>, eligible: seq<string>, candidates: set<string>, env: Environment) {
    && Ascending(started)
    && forall i :: 0 <= i < |started| ==> started[i] in eligible && started[i] in candidates && env.startWorks(started[i])
  }
  lemma ListedStep(sorted: seq<string>, k: nat, candidates: set<string>, eligible: seq<string>)
    requires Ascending(sorted) && k < |sorted| && Listed(sorted[..k], candidates, eligible)
    ensures Listed(sorted[..k + 1], candidates, if sorted[k] in candidates then eligible + [sorted[k]] else eligible)
  {
    assert sorted[..k + 1] == sorted[..k] + [sorted[k]];
    forall i | 0 <= i < |eligible| ensures Less(eligible[i], sorted[k]) {
      assert eligible[i] in sorted[..k];
    }
  }

  lemma ChosenStep(started: seq<string>, eligible: seq<string>, candidates: set<string>, env: Environment, id: string)
    requires Chosen(started, eligible, candidates, env) && Ascending(eligible + [id]) && id in candidates
    ensures Chosen(started, eligible + [id], candidates, env)
    ensures env.startWorks(id) ==> Chosen(started + [id], eligible + [id], candidates, env)
  {
    forall i | 0 <= i < |started| ensures Less(started[i], id) {
      var j :| 0 <= j < |eligible| && eligible[j] == started[i];
      assert (eligible + [id])[j] == eligible[j] && (eligible + [id])[|eligible|] == id;
    }
  }

  lemma NewWorkersStep(before: map<string, Worker>, started: seq<string>, desired: map<string, int>, now: real, id: string)
    requires id in desired
    ensures (before + NewWorkers(started, desired, now))[id := Worker(desired[id], now)] == before + NewWorkers(started + [id], desired, now)
  {
  }

  lemma SameOutside(m: map<string, real>, n: map<string, real>, id: string, ids: set<string>)
    requires m - {id} == n - {id} && id in ids
    ensures m - ids == n - ids
  {
    assert m - ids == m - {id} - ids && n - ids == n - {id} - ids;
  }

  lemma {:induction false} AscendingCount(ids: seq<string>)
    requires Ascending(ids)
    ensures |Members(ids)| == |ids|
  {
    if ids != [] {
      var rest, last := ids[..|ids| - 1], ids[|ids| - 1];
      AscendingCount(rest);
      if last in rest { LessIsStrict(last); }
      assert Members(ids) == Members(rest) + {last};
    }
  }

  lemma FirstOnes(sorted: seq<string>, candidates: set<string>, eligible: seq<string>, started: seq<string>, limit: nat)
    requires Listed(sorted, candidates, eligible) && candidates <= Members(sorted)
    requires started <= eligible && |started| <= limit && (started == eligible || |started| == limit)
    ensures FirstOf(Members(started), candidates, limit)
  {
    AscendingCount(eligible);
    AscendingCount(started);
    assert Members(eligible) == candidates;
    forall early, late | early in candidates && late in Members(started) && Less(early, late) ensures early in Members(started) {
      var i :| 0 <= i < |eligible| && eligible[i] == early;
      var j :| 0 <= j < |started| && started[j] == late;
      if j < i {
        assert Less(eligible[j], eligible[i]);
        LessIsTotal(early, late);
      } else if i == j {
        LessIsStrict(early);
      } else {
        assert started[i] == early;
      }
    }
  }

  /** The state of the start loop after the cameras `ids`. */
  ghost predicate Progress(ids: seq<string>, candidates: set<string>, eligible: seq<string>, started: seq<string>, remaining: nat, desired: map<string, int>, env: Environment) {
    && Listed(ids, candidates, eligible) && Chosen(started, eligible, candidates, env)
    && (Clean(desired, env) ==> started <= eligible && (started == eligible || remaining == 0))
  }

  lemma ProgressStep(sorted: seq<string>, k: nat, candidates: set<string>, eligible: seq<string>, started: seq<string>, remaining: nat, desired: map<string, int>, env: Environment)
    requires Ascending(sorted) && k < |sorted| && sorted[k] in desired
    requires Progress(sorted[..k], candidates, eligible, started, remaining, desired, env)
    ensures var id := sorted[k];
      && (id !in candidates ==> Progress(sorted[..k + 1], candidates, eligible, started, remaining, desired, env))
      && (id in candidates && remaining > 0 && env.startWorks(id) ==>
           Progress(sorted[..k + 1], candidates, eligible + [id], started + [id], remaining - 1, desired, env))
      && (id in candidates && (remaining == 0 || !env.startWorks(id)) ==>
           Progress(sorted[..k + 1], candidates, eligible + [id], started, remaining, desired, env))
  {
    ListedStep(sorted, k, candidates, eligible);
    if sorted[k] in candidates { ChosenStep(started, eligible, candidates, env, sorted[k]); }
  }

  // ----- sweeping

  lemma OneLess(workers: map<string, Worker>, id: string)
    ensures |workers - {id}| <= |workers|
  {
    assert workers.Keys == (workers - {id}).Keys + (workers.Keys * {id});
  }

  predicate Wanted(workers: map<string, Worker>, id: string, desired: map<string, int>) {
    id in workers && id in desired && desired[id] == workers[id].revision
  }

  /** Workers are only taken out; those not in `rest` are wanted and running. */
  ghost predicate Kept(before: map<string, Worker>, now: map<string, Worker>, desired: map<string, int>, env: Environment, rest: set<string>) {
    && (forall id :: id in now ==> id in before && now[id] == before[id])
    && (forall id :: id in now && id !in rest ==> Wanted(before, id, desired) && env.running(id))
  }

  /** Wanted workers that exited, outside `rest`, have a timer of at least `bound`. */
  ghost predicate Reaped(before: map<string, Worker>, timers: map<string, real>, desired: map<string, int>, env: Environment, rest: set<string>, bound: real) {
    forall id :: id !in rest && Wanted(before, id, desired) && !env.running(id) ==> id in timers && timers[id] >= bound
  }

  lemma ReapedStep(before: map<string, Worker>, timers: map<string, real>, next: map<string, real>, desired: map<string, int>, env: Environment, rest: set<string>, id: string, bound: real)
    requires Reaped(before, timers, desired, env, rest, bound) && next - {id} == timers - {id}
    requires Wanted(before, id, desired) && !env.running(id) ==> id in next && next[id] >= bound
    ensures Reaped(before, next, desired, env, rest - {id}, bound)
  {
    forall other | other !in rest - {id} && Wanted(before, other, desired) && !env.running(other) ensures other in next && next[other] >= bound {
      if other != id {
        assert other in timers - {id};
        assert other in next - {id} && (next - {id})[other] == (timers - {id})[other];
      }
    }
  }

  // ----- one cycle on values

  function TimerOf(timers: map<string, real>, id: string): real {
    if id in timers then timers[id] else 0.0
  }

  function CandidatesOf(workers: map<string, Worker>, timers: map<string, real>, desired: map<string, int>, now: real): set<string> {
    set id | id in desired && id !in workers && TimerOf(timers, id) <= now
  }

  function Pruned(timers: map<string, real>, desired: map<string, int>): map<string, real> {
    timers - (timers.Keys - desired.Keys)
  }

  /** No timers, and every worker is wanted and running. */
  ghost predicate Settled(workers: map<string, Worker>, timers: map<string, real>, desired: map<string, int>, env: Environment) {
    timers == map[] && Kept(workers, workers, desired, env, {})
  }

  /** However a cycle ends: workers are the earlier ones, as they were, or were started now; a
      start was wanted and past its timer. */
  ghost predicate OnlyDueStarts(before: map<string, Worker>, timers: map<string, real>, after: map<string, Worker>, started: seq<string>, desired: map<string, int>, now: real, env: Environment) {
    && (forall id :: id in after && id !in started ==> id in before && after[id] == before[id])
    && (forall id :: id in started ==>
          id in desired && id in after && after[id] == Worker(desired[id], now) && env.startWorks(id) && TimerOf(timers, id) <= now)
  }

  /** What one cycle guarantees: only due starts; after a complete cycle nothing unwanted or
      exited remains. */
  ghost predicate CycleOf(before: map<string, Worker>, timers: map<string, real>, after: map<string, Worker>, started: seq<string>, desired: map<string, int>, now: real, env: Environment, ok: bool) {
    && OnlyDueStarts(before, timers, after, started, desired, now, env)
    && (ok ==> after.Keys <= desired.Keys)
    && (ok || started != [] ==> forall id :: Wanted(before, id, desired) && !env.running(id) ==> id !in after)
  }

  lemma StartedWerePastTheirTimers(before: map<string, Worker>, timers: map<string, real>, waiting: map<string, real>, desired: map<string, int>, now: real, id: string)
    requires before.Keys !! timers.Keys && 0.0 <= now
    requires waiting - before.Keys == Pruned(timers, desired) - before.Keys
    requires id in desired && TimerOf(waiting, id) <= now
    ensures TimerOf(timers, id) <= now
  {
    if id in timers {
      assert id in Pruned(timers, desired) - before.Keys;
      assert id in waiting - before.Keys && (waiting - before.Keys)[id] == (Pruned(timers, desired) - before.Keys)[id];
    }
  }

  /** A complete sweep: wanted workers stay, the timers of the others stay, and those that exited wait. */
  ghost predicate Swept(before: map<string, Worker>, timers: map<string, real>, after: map<string, Worker>, waiting: map<string, real>, desired: map<string, int>, env: Environment, bound: real) {
    && Kept(before, after, desired, env, {}) && Reaped(before, waiting, desired, env, {}, bound)
    && waiting - before.Keys == Pruned(timers, desired) - before.Keys
  }

  /** Some candidates have been started. */
  ghost predicate DueStarted(before: map<string, Worker>, timers: map<string, real>, after: map<string, Worker>, started: seq<string>, desired: map<string, int>, now: real, env: Environment) {
    && after == before + NewWorkers(started, desired, now)
    && forall i :: 0 <= i < |started| ==> started[i] in CandidatesOf(before, timers, desired, now) && env.startWorks(started[i])
  }

  lemma CycleIs(before: map<string, Worker>, timers: map<string, real>, swept: map<string, Worker>, waiting: map<string, real>, after: map<string, Worker>,
                started: seq<string>, desired: map<string, int>, now: real, bound: real, env: Environment, ok: bool)
    requires before.Keys !! timers.Keys && 0.0 <= now < bound
    requires Swept(before, timers, swept, waiting, desired, env, bound)
    requires DueStarted(swept, waiting, after, started, desired, now, env)
    ensures CycleOf(before, timers, after, started, desired, now, env, ok)
  {
    forall id | id in started ensures TimerOf(timers, id) <= now {
      StartedWerePastTheirTimers(before, timers, waiting, desired, now, id);
    }
  }

  lemma NoStarts(before: map<string, Worker>, timers: map<string, real>, after: map<string, Worker>, desired: map<string, int>, now: real, env: Environment)
    requires Kept(before, after, desired, env, before.Keys)
    ensures OnlyDueStarts(before, timers, after, [], desired, now, env)
  {
  }

  /** No timers, and every worker is wanted in its revision. */
  ghost predicate Steady(workers: map<string, Worker>, timers: map<string, real>, desired: map<string, int>) {
    timers == map[] && forall id :: id in workers ==> Wanted(workers, id, desired)
  }

  lemma SettledCandidates(before: map<string, Worker>, desired: map<string, int>, now: real, env: Environment, active: nat)
    requires Settled(before, map[], desired, env) && |desired| <= active && 0.0 <= now
    ensures CandidatesOf(before, map[], desired, now) == desired.Keys - before.Keys
    ensures |desired.Keys - before.Keys| <= active - |before|
  {
    assert before.Keys <= desired.Keys;
    Rest(before.Keys, desired.Keys);
  }

  lemma Rest(a: set<string>, b: set<string>)
    requires a <= b
    ensures |b - a| == |b| - |a|
  {
    assert b == a + (b - a);
  }

  lemma SettledCycle(before: map<string, Worker>, after: map<string, Worker>, started: seq<string>, desired: map<string, int>, now: real, starts: nat, room: nat)
    requires |desired.Keys - before.Keys| <= room && after == before + NewWorkers(started, desired, now)
    requires FirstOf(Members(started), desired.Keys - before.Keys, AtMost(starts, room))
    ensures CleanCycle(desired.Keys, before.Keys, after.Keys, starts)
  {
    assert FirstOf(Members(started), desired.Keys - before.Keys, starts);
    assert after.Keys == before.Keys + Members(started);
  }

  /** One cycle's clock reading and answers. */
  datatype Cycle = Cycle(now: real, env: Environment, service: Service)

  /** Nothing fails in the cycle, and no enabled camera's worker has exited. */
  ghost predicate Undisturbed(c: Cycle, desired: map<string, int>) {
    && 0.0 <= c.now <= c.service.later && c.service.running && c.service.startWorks
    && Clean(desired, c.env) && forall id :: id in desired ==> c.env.running(id)
  }

  lemma SteadyFits(workers: map<string, Worker>, timers: map<string, real>, desired: map<string, int>)
    requires Steady(workers, timers, desired)
    ensures workers.Keys <= desired.Keys
  {
  }

  lemma SteadyIsSettled(workers: map<string, Worker>, timers: map<string, real>, desired: map<string, int>, env: Environment)
    requires Steady(workers, timers, desired) && forall id :: id in desired ==> env.running(id)
    ensures Settled(workers, timers, desired, env)
  {
  }

  lemma StartingStaysSteady(before: map<string, Worker>, after: map<string, Worker>, started: seq<string>, desired: map<string, int>, now: real)
    requires Steady(before, map[], desired) && after == before + NewWorkers(started, desired, now)
    ensures Steady(after, map[], desired)
  {
  }

  /** A cycle in calm starts as many cameras as it may and leaves calm behind. */
  lemma CalmCycle(before: map<string, Worker>, waiting: map<string, real>, after: map<string, Worker>, timers: map<string, real>, started: seq<string>, desired: map<string, int>,
                  now: real, env: Environment, starts: nat, active: nat)
    requires Settled(before, waiting, desired, env) && |desired| <= active && |before| <= active && 0.0 <= now
    requires DueStarted(before, waiting, after, started, desired, now, env) && timers.Keys <= waiting.Keys
    requires FirstOf(Members(started), CandidatesOf(before, waiting, desired, now), AtMost(starts, active - |before|))
    ensures CleanCycle(desired.Keys, before.Keys, after.Keys, starts) && Steady(after, timers, desired)
  {
    SettledCandidates(before, desired, now, env, active);
    SettledCycle(before, after, started, desired, now, starts, active - |before|);
    StartingStaysSteady(before, after, started, desired, now);
    assert timers == map[];
  }

  // ----- the object

  class CameraSupervisor {
    const base: real
    const maximumBackoff: real
    const stability: real
    const maximumActive: nat
    const maximumStarts: nat
    const sharedService: bool
    var active: map<string, Worker>
    var restartAfter: map<string, real>
    var failures: map<string, nat>
    var serviceUp: bool
    var serviceStartedAt: real
    var serviceRestartAfter: real
    var serviceFailures: nat
    var longestBackoff: real

    ghost predicate Configured()
      reads this
    {
      0.0 < base <= maximumBackoff && stability > 0.0 && maximumActive >= 1 && maximumStarts >= 1
    }

    /** Never more workers than allowed; a camera with a worker has no restart timer. */
    ghost predicate Consistent()
      reads this
    {
      && Configured() && |active| <= maximumActive && active.Keys !! restartAfter.Keys
      && (forall id :: id in failures ==> failures[id] >= 1) && 0.0 <= longestBackoff <= maximumBackoff
    }

    /** Between cycles, workers run only beside the shared inference service, if there is one. */
    ghost predicate Valid()
      reads this
    {
      Consistent() && (!sharedService || serviceUp || active == map[])
    }

    constructor (base: real, maximumBackoff: real, stability: real, maximumActive: nat, maximumStarts: nat, sharedService: bool)
      requires 0.0 < base <= maximumBackoff && stability > 0.0 && maximumActive >= 1 && maximumStarts >= 1
      ensures Valid() && active == map[] && restartAfter == map[] && failures == map[] && !serviceUp && serviceRestartAfter == 0.0
      ensures this.maximumActive == maximumActive && this.maximumStarts == maximumStarts && this.sharedService == sharedService
    {
      this.base, this.maximumBackoff, this.stability := base, maximumBackoff, stability;
      this.maximumActive, this.maximumStarts, this.sharedService := maximumActive, maximumStarts, sharedService;
      active, restartAfter, failures := map[], map[], map[];
      serviceUp, serviceStartedAt, serviceRestartAfter, serviceFailures, longestBackoff := false, 0.0, 0.0, 0, 0.0;
    }

    function FailureCount(id: string): nat
      reads this
    {
      if id in failures then failures[id] else 0
    }

    function Timer(id: string): real
      reads this
    {
      if id in restartAfter then restartAfter[id] else 0.0
    }

    /** Whether the camera is passed over in this cycle: it runs or waits. */
    predicate PassedOver(id: string, now: real)
      reads this
    {
      id in active || Timer(id) > now
    }

    /** A failed camera waits for a backoff that grows with its failures. */
    method ScheduleFailure(id: string, now: real)
      requires Consistent() && id !in active
      modifies this`failures, this`restartAfter, this`longestBackoff
      ensures Consistent()
      ensures failures == old(failures)[id := old(FailureCount(id)) + 1]
      ensures restartAfter == old(restartAfter)[id := now + Backoff(base, maximumBackoff, old(FailureCount(id)) + 1)]
      ensures now + base <= restartAfter[id] <= now + maximumBackoff
    {
      var count := FailureCount(id) + 1;
      failures := failures[id := count];
      var delay := Backoff(base, maximumBackoff, count);
      BackoffIsMonotone(base, maximumBackoff, count, count);
      restartAfter := restartAfter[id := now + delay];
      if delay > longestBackoff { longestBackoff := delay; }
    }

    /** Notes a started worker, whose camera needs no timer any more. */
    method Launched(id: string, revision: int, now: real)
      requires Consistent() && id !in active && |active| < maximumActive
      modifies this`active, this`restartAfter
      ensures Consistent() && active == old(active)[id := Worker(revision, now)] && restartAfter == old(restartAfter) - {id}
    {
      assert active[id := Worker(revision, now)].Keys == active.Keys + {id};
      active := active[id := Worker(revision, now)];
      restartAfter := restartAfter - {id};
    }

    /** Starts one camera; a failed start schedules a retry. */
    method StartOne(id: string, revision: int, now: real, env: Environment) returns (started: bool, ok: bool)
      requires Consistent() && id !in active && |active| < maximumActive && Timer(id) <= now
      modifies this`active, this`failures, this`restartAfter, this`longestBackoff
      ensures Consistent() && started == env.startWorks(id) && ok == env.statusWorks(id)
      ensures active == if started then old(active)[id := Worker(revision, now)] else old(active)
      ensures restartAfter - {id} == old(restartAfter) - {id}
      ensures forall other :: other != id ==> PassedOver(other, now) == old(PassedOver(other, now))
      ensures if started then restartAfter.Keys == old(restartAfter).Keys - {id} else id in restartAfter && restartAfter[id] >= now + base
    {
      started, ok := env.startWorks(id), env.statusWorks(id);
      if started {
        Launched(id, revision, now);
      } else {
        ScheduleFailure(id, now);
      }
    }

    /** Cameras without a worker whose timer has run out. */
    function Candidates(desired: map<string, int>, now: real): set<string>
      reads this
    {
      CandidatesOf(active, restartAfter, desired, now)
    }

    /** The body of the start loop for one camera. */
    method Consider(id: string, revision: int, now: real, env: Environment, remaining: nat) returns (up: bool, ok: bool)
      requires Consistent() && (remaining > 0 ==> |active| < maximumActive)
      modifies this`active, this`failures, this`restartAfter, this`longestBackoff
      ensures Consistent() && up == (!old(PassedOver(id, now)) && remaining > 0 && env.startWorks(id))
      ensures ok == (old(PassedOver(id, now)) || remaining == 0 || env.statusWorks(id))
      ensures active == if up then old(active)[id := Worker(revision, now)] else old(active)
      ensures |active| == old(|active|) + if up then 1 else 0
      ensures if old(PassedOver(id, now)) then restartAfter == old(restartAfter) else restartAfter - {id} == old(restartAfter) - {id}
      ensures env.startWorks(id) ==> restartAfter.Keys <= old(restartAfter).Keys
      ensures forall other :: other != id ==> PassedOver(other, now) == old(PassedOver(other, now))
    {
      if PassedOver(id, now) || remaining == 0 { return false, true; }
      assert active[id := Worker(revision, now)].Keys == active.Keys + {id};
      up, ok := StartOne(id, revision, now, env);
    }

    /** The start loop over the sorted ids. */
    method StartInOrder(sorted: seq<string>, desired: map<string, int>, now: real, env: Environment, ghost candidates: set<string>)
      returns (ok: bool, started: seq<string>, ghost eligible: seq<string>, remaining: nat)
      requires Consistent() && Ascending(sorted) && forall i :: 0 <= i < |sorted| ==> sorted[i] in desired
      requires forall i, j :: 0 <= i < j < |sorted| ==> sorted[i] != sorted[j]
      requires forall i :: 0 <= i < |sorted| ==> (PassedOver(sorted[i], now) <==> sorted[i] !in candidates)
      modifies this`active, this`failures, this`restartAfter, this`longestBackoff
      ensures Consistent() && Chosen(started, eligible, candidates, env)
      ensures |started| + remaining == AtMost(maximumStarts, maximumActive - old(|active|))
      ensures active == old(active) + NewWorkers(started, desired, now)
      ensures restartAfter - candidates == old(restartAfter) - candidates
      ensures ok ==> Progress(sorted, candidates, eligible, started, remaining, desired, env)
      ensures Clean(desired, env) ==> ok && restartAfter.Keys <= old(restartAfter).Keys
    {
      ghost var before := active;
      remaining := AtMost(maximumStarts, maximumActive - |active|);
      eligible, started := [], [];
      var k := 0;
      while k < |sorted|
        invariant k <= |sorted| && Consistent() && |active| + remaining <= maximumActive
        invariant |started| + remaining == AtMost(maximumStarts, maximumActive - |before|)
        invariant active == before + NewWorkers(started, desired, now)
        invariant restartAfter - candidates == old(restartAfter) - candidates
        invariant Clean(desired, env) ==> restartAfter.Keys <= old(restartAfter).Keys
        invariant Progress(sorted[..k], candidates, eligible, started, remaining, desired, env)
        invariant forall i :: k <= i < |sorted| ==> (PassedOver(sorted[i], now) <==> sorted[i] !in candidates)
      {
        var id := sorted[k];
        ProgressStep(sorted, k, candidates, eligible, started, remaining, desired, env);
        NewWorkersStep(before, started, desired, now, id);
        ghost var timers := restartAfter;
        var up;
        up, ok := Consider(id, desired[id], now, env, remaining);
        if id in candidates {
          SameOutside(restartAfter, timers, id, candidates);
          eligible := eligible + [id];
        }
        if up {
          started := started + [id];
          remaining := remaining - 1;
        }
        if !ok { return; }
        k := k + 1;
      }
      assert sorted[..k] == sorted;
      ok := true;
    }

    /** Starts candidates in id order while starts remain. A failed start uses none up. */
    method StartWorkers(desired: map<string, int>, now: real, env: Environment) returns (ok: bool, started: seq<string>)
      requires Consistent()
      modifies this`active, this`failures, this`restartAfter, this`longestBackoff
      ensures Consistent() && Ascending(started) && |started| <= maximumStarts
      ensures DueStarted(old(active), old(restartAfter), active, started, desired, now, env)
      ensures restartAfter - old(Candidates(desired, now)) == old(restartAfter) - old(Candidates(desired, now))
      ensures Clean(desired, env) ==>
        ok && FirstOf(Members(started), CandidatesOf(old(active), old(restartAfter), desired, now), AtMost(maximumStarts, maximumActive - old(|active|)))
      ensures Clean(desired, env) ==> restartAfter.Keys <= old(restartAfter).Keys
    {
      ghost var candidates, limit := Candidates(desired, now), AtMost(maximumStarts, maximumActive - |active|);
      var sorted := SortedIds(desired.Keys);
      ghost var eligible;
      var remaining;
      ok, started, eligible, remaining := StartInOrder(sorted, desired, now, env, candidates);
      if Clean(desired, env) { FirstOnes(sorted, candidates, eligible, started, limit); }
    }

    // ----- the sweep over running workers

    /** Stops a worker that is no longer wanted in this revision. If its camera is still enabled it
        may start again at once. */
    method StopOutdated(id: string, env: Environment) returns (ok: bool)
      requires Consistent() && id in active
      modifies this`active, this`failures, this`restartAfter
      ensures Consistent() && restartAfter - {id} == old(restartAfter) - {id}
      ensures active == if env.stopWorks(id) then old(active) - {id} else old(active)
      ensures ok == (env.stopWorks(id) && env.statusWorks(id))
      ensures restartAfter == if ok && env.persisted(id) == Some(true) then old(restartAfter)[id := 0.0] else old(restartAfter)
      ensures failures == if ok && env.persisted(id) != Some(false) then old(failures) - {id} else old(failures)
    {
      if !env.stopWorks(id) { return false; }
      OneLess(active, id);
      active := active - {id};
      if !env.statusWorks(id) { return false; }
      if env.persisted(id).None? {
        restartAfter, failures := restartAfter - {id}, failures - {id};
      } else if env.persisted(id).value {
        restartAfter, failures := restartAfter[id := 0.0], failures - {id};
      }
      ok := true;
    }

    /** Takes a worker that exited out and schedules its restart. */
    method Reap(id: string, now: real)
      requires Consistent() && id in active
      modifies this`active, this`failures, this`restartAfter, this`longestBackoff
      ensures Consistent() && restartAfter - {id} == old(restartAfter) - {id} && active == old(active) - {id}
      ensures id in restartAfter && restartAfter[id] >= now + base
    {
      OneLess(active, id);
      active := active - {id};
      ScheduleFailure(id, now);
    }

    /** The body of the sweep for one worker. */
    method SweepOne(id: string, desired: map<string, int>, now: real, env: Environment) returns (ok: bool)
      requires Consistent() && id in active
      modifies this`active, this`failures, this`restartAfter, this`longestBackoff
      ensures Consistent() && restartAfter - {id} == old(restartAfter) - {id}
      ensures if Wanted(old(active), id, desired) && env.running(id) then ok && active == old(active) && restartAfter == old(restartAfter)
              else active == old(active) - {id} || (!ok && active == old(active))
      ensures Wanted(old(active), id, desired) && !env.running(id) ==> id in restartAfter && restartAfter[id] >= now + base
    {
      if !Wanted(active, id, desired) {
        ok := StopOutdated(id, env);
      } else if !env.running(id) {
        Reap(id, now);
        ok := env.statusWorks(id);
      } else {
        if now - active[id].startedAt >= stability { failures := failures - {id}; }
        ok := true;
      }
    }

    /** Every worker that stays is wanted in its revision and running; every one that exited
        waits for its backoff. */
    method Sweep(desired: map<string, int>, now: real, env: Environment) returns (ok: bool)
      requires Consistent()
      modifies this`active, this`failures, this`restartAfter, this`longestBackoff
      ensures Consistent() && Kept(old(active), active, desired, env, if ok then {} else old(active).Keys)
      ensures restartAfter - old(active).Keys == old(restartAfter) - old(active).Keys
      ensures ok ==> Reaped(old(active), restartAfter, desired, env, {}, now + base)
      ensures Kept(old(active), old(active), desired, env, {}) ==> ok && active == old(active) && restartAfter == old(restartAfter)
    {
      var rest := active.Keys;
      ghost var before := active;
      while rest != {}
        invariant Consistent() && rest <= active.Keys && Kept(before, active, desired, env, rest)
        invariant restartAfter - before.Keys == old(restartAfter) - before.Keys
        invariant Reaped(before, restartAfter, desired, env, rest, now + base)
        invariant Kept(before, before, desired, env, {}) ==> active == before && restartAfter == old(restartAfter)
        decreases |rest|
      {
        var id :| id in rest;
        ghost var timers := restartAfter;
        ok := SweepOne(id, desired, now, env);
        SameOutside(restartAfter, timers, id, before.Keys);
        if !ok { return; }
        ReapedStep(before, timers, restartAfter, desired, env, rest, id, now + base);
        rest := rest - {id};
      }
      ok := true;
    }

    // ----- the shared inference service

    method ScheduleServiceFailure(now: real)
      requires Consistent()
      modifies this`serviceRestartAfter, this`serviceFailures, this`longestBackoff
      ensures Consistent() && serviceFailures == old(serviceFailures) + 1
      ensures serviceRestartAfter == now + Backoff(base, maximumBackoff, old(serviceFailures) + 1)
      ensures now + base <= serviceRestartAfter <= now + maximumBackoff
    {
      serviceFailures := serviceFailures + 1;
      var delay := Backoff(base, maximumBackoff, serviceFailures);
      BackoffIsMonotone(base, maximumBackoff, serviceFailures, serviceFailures);
      serviceRestartAfter := now + delay;
      if delay > longestBackoff { longestBackoff := delay; }
    }

    /** `stop_all` after the service exited: every worker goes and may restart at once. */
    method StopAllForService()
      requires Consistent()
      modifies this`active, this`restartAfter
      ensures Consistent() && active == map[]
      ensures restartAfter == old(restartAfter) + map id | id in old(active) :: 0.0
    {
      restartAfter := restartAfter + map id | id in active :: 0.0;
      active := map[];
    }

    /** Workers run only beside a running service: when it exited they are all stopped, and no
        start is tried before its backoff is over. `now` and `service.later` are clock readings. */
    method EnsureInferenceService(now: real, service: Service) returns (ok: bool)
      requires Valid() && now <= service.later
      modifies this
      ensures Valid() && (ok <==> !sharedService || serviceUp)
      ensures !sharedService || (old(serviceUp) && service.running) ==> ok && active == old(active) && restartAfter == old(restartAfter) && failures == old(failures)
      ensures sharedService && old(serviceUp) && !service.running ==> active == map[] && !ok && serviceRestartAfter > service.later
      ensures sharedService && !old(serviceUp) ==> active == old(active) && restartAfter == old(restartAfter)
      ensures sharedService && !old(serviceUp) && old(serviceRestartAfter) > now ==> !ok && serviceRestartAfter == old(serviceRestartAfter)
      ensures sharedService && !old(serviceUp) && old(serviceRestartAfter) <= now ==> ok == service.startWorks
    {
      if !sharedService { return true; }
      if serviceUp && service.running {
        if now - serviceStartedAt >= stability { serviceFailures := 0; }
        return true;
      }
      var current := now;
      if serviceUp {
        StopAllForService();
        serviceUp := false;
        current := service.later;
        ScheduleServiceFailure(current);
      }
      if serviceRestartAfter > current { return false; }
      if !service.startWorks {
        ScheduleServiceFailure(service.later);
        return false;
      }
      serviceUp, serviceStartedAt, serviceRestartAfter := true, service.later, 0.0;
      ok := true;
    }

    // ----- one cycle

    /** Timers and failure counts of cameras that are no longer enabled go. */
    method PruneTimers(desired: map<string, int>)
      requires Consistent()
      modifies this`restartAfter, this`failures
      ensures Consistent() && restartAfter == Pruned(old(restartAfter), desired)
      ensures failures == old(failures) - (old(restartAfter).Keys - desired.Keys)
    {
      var gone := restartAfter.Keys - desired.Keys;
      restartAfter, failures := restartAfter - gone, failures - gone;
    }

    /** No timers, every worker wanted and running, and room for all enabled cameras. */
    ghost predicate Calm(desired: map<string, int>, env: Environment)
      reads this
    {
      Settled(active, restartAfter, desired, env) && Clean(desired, env) && |desired| <= maximumActive
    }

    /** The cycle finds the shared service running, or can start it. */
    predicate ServiceReady(now: real, service: Service)
      reads this
    {
      !sharedService || (if serviceUp then service.running else serviceRestartAfter <= now && service.startWorks)
    }

    /** Timers of cameras that are no longer enabled go, then the running workers are swept. */
    method PruneAndSweep(desired: map<string, int>, now: real, env: Environment) returns (ok: bool)
      requires Consistent()
      modifies this`active, this`restartAfter, this`failures, this`longestBackoff
      ensures Consistent() && (ok ==> Swept(old(active), old(restartAfter), active, restartAfter, desired, env, now + base))
      ensures !ok ==> Kept(old(active), active, desired, env, old(active).Keys)
      ensures Settled(old(active), old(restartAfter), desired, env) ==> ok && active == old(active) && restartAfter == map[]
    {
      PruneTimers(desired);
      ok := Sweep(desired, now, env);
    }

    /** The starts after a complete sweep from the workers `before`. */
    method StartAfterSweep(desired: map<string, int>, now: real, env: Environment, ghost before: map<string, Worker>, ghost timers: map<string, real>)
      returns (ok: bool, started: seq<string>)
      requires Consistent() && 0.0 <= now && before.Keys !! timers.Keys
      requires Swept(before, timers, active, restartAfter, desired, env, now + base)
      modifies this`active, this`restartAfter, this`failures, this`longestBackoff
      ensures Consistent() && |started| <= maximumStarts && Ascending(started)
      ensures CycleOf(before, timers, active, started, desired, now, env, ok)
      ensures old(Calm(desired, env)) ==>
        ok && CleanCycle(desired.Keys, old(active).Keys, active.Keys, maximumStarts) && Steady(active, restartAfter, desired)
    {
      ghost var swept, waiting, calm := active, restartAfter, Calm(desired, env);
      ok, started := StartWorkers(desired, now, env);
      if calm { CalmCycle(swept, waiting, active, restartAfter, started, desired, now, env, maximumStarts, maximumActive); }
      CycleIs(before, timers, swept, waiting, active, started, desired, now, now + base, env, ok);
    }

    /** Pruning, sweeping and starting in one cycle. */
    method ReconcileWorkers(desired: map<string, int>, now: real, env: Environment) returns (ok: bool, started: seq<string>)
      requires Valid() && 0.0 <= now && (!sharedService || serviceUp)
      modifies this`active, this`restartAfter, this`failures, this`longestBackoff
      ensures Valid() && |started| <= maximumStarts && Ascending(started)
      ensures OnlyDueStarts(old(active), old(restartAfter), active, started, desired, now, env)
      ensures ok || started != [] ==> CycleOf(old(active), old(restartAfter), active, started, desired, now, env, ok)
      ensures old(Calm(desired, env)) ==> ok && CleanCycle(desired.Keys, old(active).Keys, active.Keys, maximumStarts)
      ensures old(Calm(desired, env)) ==> Steady(active, restartAfter, desired)
    {
      ghost var before, timers := active, restartAfter;
      ok := PruneAndSweep(desired, now, env);
      if !ok {
        NoStarts(before, timers, active, desired, now, env);
        return false, [];
      }
      ok, started := StartAfterSweep(desired, now, env, before, timers);
    }

    /** `reconcile_once`: at most `maximumStarts` cameras are started, each wanted and past its
        timer; in calm the cycle is one of those that converge. */
    method ReconcileOnce(desired: map<string, int>, now: real, env: Environment, service: Service) returns (ok: bool, started: seq<string>)
      requires Valid() && 0.0 <= now <= service.later
      modifies this
      ensures Valid() && |started| <= maximumStarts && Ascending(started)
      ensures OnlyDueStarts(old(active), old(restartAfter), active, started, desired, now, env)
      ensures ok ==> !sharedService || serviceUp
      ensures !old(ServiceReady(now, service)) ==> !ok && active == map[] && started == []
      ensures (!sharedService || !old(serviceUp) || service.running) && (ok || started != []) ==>
        CycleOf(old(active), old(restartAfter), active, started, desired, now, env, ok)
      ensures old(ServiceReady(now, service)) && old(Calm(desired, env)) ==>
        && ok && CleanCycle(desired.Keys, old(active).Keys, active.Keys, maximumStarts)
        && Steady(active, restartAfter, desired) && (!sharedService || serviceUp)
    {
      ok := EnsureInferenceService(now, service);
      if !ok { return false, []; }
      ok, started := ReconcileWorkers(desired, now, env);
    }

    /** Repeated cycles without failures over a fixed set of enabled cameras, from a steady state:
        every cycle starts as many cameras as it may, until all of them run. From nothing they are
        the first ones in id order. */
    method Converge(desired: map<string, int>, cycles: seq<Cycle>)
      requires Valid() && Steady(active, restartAfter, desired) && |desired| <= maximumActive
      requires forall k :: 0 <= k < |cycles| ==> Undisturbed(cycles[k], desired)
      requires sharedService && !serviceUp ==> serviceRestartAfter <= 0.0
      modifies this
      ensures Valid() && Steady(active, restartAfter, desired)
      ensures |active| == AtMost(|desired|, old(|active|) + |cycles| * maximumStarts)
      ensures old(active) == map[] ==> IsPrefix(active.Keys, desired.Keys)
    {
      ghost var running := [active.Keys];
      SteadyFits(active, restartAfter, desired);
      for k := 0 to |cycles|
        invariant Valid() && Steady(active, restartAfter, desired)
        invariant sharedService && !serviceUp ==> serviceRestartAfter <= 0.0
        invariant Cycles(desired.Keys, running, maximumStarts) && |running| == k + 1 && running[0] == old(active.Keys) && running[k] == active.Keys
      {
        SteadyIsSettled(active, restartAfter, desired, cycles[k].env);
        ghost var before := active.Keys;
        var ok, _ := ReconcileOnce(desired, cycles[k].now, cycles[k].env, cycles[k].service);
        OneMoreCycle(desired.Keys, running, active.Keys, maximumStarts);
        running := running + [active.Keys];
      }
      CyclesCount(desired.Keys, running, maximumStarts, |cycles|);
      assert |active.Keys| == |active|;
      if old(active) == map[] { Convergence(desired.Keys, running, maximumStarts, |cycles|); }
    }
  }

  /** A new supervisor with room for all enabled cameras: after k undisturbed cycles exactly the
      first min(|desired|, k * maximumStarts) of them run. */
  method ConvergeFromNothing(base: real, maximumBackoff: real, stability: real, maximumActive: nat, maximumStarts: nat, sharedService: bool,
                             desired: map<string, int>, cycles: seq<Cycle>) returns (s: CameraSupervisor)
    requires 0.0 < base <= maximumBackoff && stability > 0.0 && |desired| <= maximumActive && maximumActive >= 1 && maximumStarts >= 1
    requires forall k :: 0 <= k < |cycles| ==> Undisturbed(cycles[k], desired)
    ensures fresh(s) && |s.active| == AtMost(|desired|, |cycles| * maximumStarts) && IsPrefix(s.active.Keys, desired.Keys)
  {
    s := new CameraSupervisor(base, maximumBackoff, stability, maximumActive, maximumStarts, sharedService);
    s.Converge(desired, cycles);
  }
}
