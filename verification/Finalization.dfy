/** Turning a finished track into exactly one frozen event (application/finalization.py). The
    outbox is seen through `stage`, which may fail before or after the entry became durable. */
module Finalization {

  datatype Direction = Enter | Exit | Unknown

  datatype EventType = VehicleEnter | VehicleExit | VehicleDetected

  /** What a track has gathered so far. `rest` is everything that does not identify it. */
  datatype Evidence = Evidence(logicalId: string, firstSeen: string, trajectory: seq<(int, int)>, rest: string)

  datatype Event = Event(id: string, eventType: EventType, direction: Direction, createdAt: nat, body: string)

  /** What is handed to the outbox; equal units have equal bytes. */
  datatype Unit = Unit(event: Event, media: seq<string>)

  datatype Rules = Rules(
    estimate: seq<(int, int)> -> Direction,
    eventId: (string, EventType, string) -> string,
    body: Evidence -> string,
    media: (Evidence, string) -> seq<string>)

  function TypeOf(d: Direction): EventType {
    match d
    case Enter => VehicleEnter
    case Exit => VehicleExit
    case Unknown => VehicleDetected
  }

  function TypeNow(rules: Rules, e: Evidence): EventType {
    TypeOf(rules.estimate(e.trajectory))
  }

  function IdOf(rules: Rules, e: Evidence, t: EventType): string {
    rules.eventId(e.logicalId, t, e.firstSeen)
  }

  /** The event and media of a track as they would be built at time `now`. */
  function Build(rules: Rules, e: Evidence, now: nat): Unit {
    var id := IdOf(rules, e, TypeNow(rules, e));
    Unit(Event(id, TypeNow(rules, e), rules.estimate(e.trajectory), now, rules.body(e)), rules.media(e, id))
  }

  datatype Track = Track(evidence: Evidence, finalized: bool, direction: Direction)

  /** What may go wrong in `stage`: it may raise before it looks for an entry of the event, and
      before or after its own entry became durable. */
  datatype Fault = NoFault | BeforeLookup | BeforeCommit | AfterCommit

  /** How a call of `stage` ends for the finalizer. */
  datatype Ending = Returned | Mismatched | Raised

  datatype Attempt = Attempt(key: nat, unit: Unit, mismatch: bool, succeeded: bool)

  /** What the process holds in memory. */
  datatype State = State(
    tracks: map<nat, Track>,
    pending: map<string, Unit>,     // units frozen by a first attempt
    attempts: seq<Attempt>)         // every call of `stage` so far

  function Frozen(rules: Rules, track: Track, pending: map<string, Unit>, now: nat): (u: Unit)
  {
    var built := Build(rules, track.evidence, now);
    if built.event.id in pending then pending[built.event.id] else built
  }

  /** The finalizer's part of one call of `finalize`, when `stage` ends so. */
  function Conclude(rules: Rules, s: State, key: nat, now: nat, ending: Ending): State
    requires key in s.tracks
  {
    var track := s.tracks[key];
    if track.finalized then s
    else
      var unit := Frozen(rules, track, s.pending, now);
      var id := Build(rules, track.evidence, now).event.id;
      State(
        s.tracks[key := Track(track.evidence, ending.Returned?, rules.estimate(track.evidence.trajectory))],
        if ending.Returned? then s.pending - {id} else s.pending[id := unit],
        s.attempts + [Attempt(key, unit, ending.Mismatched?, ending.Returned?)])
  }

  /** The pipeline extended a live track. */
  function Extend(s: State, key: nat, trajectory: seq<(int, int)>, rest: string): State
    requires key in s.tracks
  {
    s.(tracks := s.tracks[key := s.tracks[key].(evidence := s.tracks[key].evidence.(trajectory := trajectory, rest := rest))])
  }

  /** One process over an outbox: the durable entries by event id. */
  datatype Process = Process(state: State, outbox: map<string, Unit>)

  /** The outbox holds a different entry under the unit's event id. */
  predicate Differs(outbox: map<string, Unit>, unit: Unit) {
    unit.event.id in outbox && outbox[unit.event.id] != unit
  }

  function EndingOf(outbox: map<string, Unit>, unit: Unit, fault: Fault): Ending {
    if fault != BeforeLookup && Differs(outbox, unit) then Mismatched
    else if fault == NoFault then Returned
    else Raised
  }

  predicate Commits(fault: Fault) {
    fault == NoFault || fault == AfterCommit
  }

  function Stored(outbox: map<string, Unit>, unit: Unit, fault: Fault): map<string, Unit> {
    if !Differs(outbox, unit) && Commits(fault) then outbox[unit.event.id := unit] else outbox
  }

  /** One call of `finalize` with an outbox. */
  function Finalize(rules: Rules, p: Process, key: nat, now: nat, fault: Fault): Process
    requires key in p.state.tracks
  {
    var track := p.state.tracks[key];
    if track.finalized then p
    else
      var unit := Frozen(rules, track, p.state.pending, now);
      Process(Conclude(rules, p.state, key, now, EndingOf(p.outbox, unit, fault)), Stored(p.outbox, unit, fault))
  }

  datatype Action =
    | Call(key: nat, now: nat, fault: Fault)
    | Deliver(id: string)                                        // the outbox delivered and removed an entry
    | Observe(key: nat, trajectory: seq<(int, int)>, rest: string)

  predicate Possible(p: Process, a: Action) {
    match a
    case Call(key, _, _) => key in p.state.tracks
    case Deliver(id) => id in p.outbox
    case Observe(key, _, _) => key in p.state.tracks && !p.state.tracks[key].finalized
  }

  function Act(rules: Rules, p: Process, a: Action): Process
    requires Possible(p, a)
  {
    match a
    case Call(key, now, fault) => Finalize(rules, p, key, now, fault)
    case Deliver(id) => p.(outbox := p.outbox - {id})
    case Observe(key, trajectory, rest) => p.(state := Extend(p.state, key, trajectory, rest))
  }

  /** Event ids are as good as their ingredients, and tracks have different identities. */
  ghost predicate Injective(rules: Rules) {
    forall l, t, f, l', t', f' :: rules.eventId(l, t, f) == rules.eventId(l', t', f') ==> (l, t, f) == (l', t', f')
  }

  ghost predicate DifferentTracks(tracks: map<nat, Track>) {
    forall k, m :: k in tracks && m in tracks && k != m ==>
      tracks[k].evidence.logicalId != tracks[m].evidence.logicalId || tracks[k].evidence.firstSeen != tracks[m].evidence.firstSeen
  }

  // ----- the invariant

  /** An attempt carries its track's id for some event type, and the unit stays frozen until
      the track is finalized. */
  ghost predicate AttemptOk(rules: Rules, s: State, a: Attempt) {
    && a.key in s.tracks
    && a.unit.event.id == IdOf(rules, s.tracks[a.key].evidence, a.unit.event.eventType)
    && (a.succeeded ==> s.tracks[a.key].finalized)
    && (s.tracks[a.key].finalized || (a.unit.event.id in s.pending && s.pending[a.unit.event.id] == a.unit))
  }

  ghost predicate Inv(rules: Rules, s: State) {
    && Injective(rules) && DifferentTracks(s.tracks)
    && (forall i :: 0 <= i < |s.attempts| ==> AttemptOk(rules, s, s.attempts[i]))
    && (forall i, j :: 0 <= i < j < |s.attempts| && s.attempts[i].unit.event.id == s.attempts[j].unit.event.id ==> s.attempts[i].unit == s.attempts[j].unit)
    && (forall i, j :: 0 <= i < j < |s.attempts| && s.attempts[i].succeeded ==> s.attempts[i].key != s.attempts[j].key)
    && (forall id :: id in s.pending ==> Attempted(s, id, s.pending[id]))
    && (forall k :: k in s.tracks && s.tracks[k].finalized ==> Succeeded(s, k))
  }

  ghost predicate Attempted(s: State, id: string, u: Unit) {
    u.event.id == id && exists i :: 0 <= i < |s.attempts| && s.attempts[i].unit == u
  }

  ghost predicate Succeeded(s: State, key: nat) {
    exists i :: 0 <= i < |s.attempts| && s.attempts[i].key == key && s.attempts[i].succeeded
  }

  /** A process whose outbox was empty at first: all entries are its own. */
  ghost predicate ProcessInv(rules: Rules, p: Process) {
    && Inv(rules, p.state)
    && (forall i :: 0 <= i < |p.state.attempts| ==> !p.state.attempts[i].mismatch)
    && (forall id :: id in p.outbox ==> Attempted(p.state, id, p.outbox[id]))
  }

  lemma SameIdSameTrack(rules: Rules, s: State, a: Attempt, key: nat, t: EventType)
    requires Injective(rules) && DifferentTracks(s.tracks) && AttemptOk(rules, s, a) && key in s.tracks
    requires a.unit.event.id == IdOf(rules, s.tracks[key].evidence, t)
    ensures a.key == key && a.unit.event.eventType == t
  {
    var e, f := s.tracks[a.key].evidence, s.tracks[key].evidence;
    assert rules.eventId(e.logicalId, a.unit.event.eventType, e.firstSeen) == rules.eventId(f.logicalId, t, f.firstSeen);
  }

  /** The unit a call will stage is the one every earlier attempt with its id has staged. */
  lemma FrozenUnit(rules: Rules, s: State, key: nat, now: nat)
    requires Inv(rules, s) && key in s.tracks && !s.tracks[key].finalized
    ensures var u := Frozen(rules, s.tracks[key], s.pending, now);
      var id := Build(rules, s.tracks[key].evidence, now).event.id;
      && u.event.id == id && u.event.eventType == TypeNow(rules, s.tracks[key].evidence)
      && (forall i :: 0 <= i < |s.attempts| && s.attempts[i].unit.event.id == id ==> s.attempts[i].unit == u)
  {
    var id := Build(rules, s.tracks[key].evidence, now).event.id;
    var t := TypeNow(rules, s.tracks[key].evidence);
    forall i | 0 <= i < |s.attempts| && s.attempts[i].unit.event.id == id
      ensures s.attempts[i].unit == Frozen(rules, s.tracks[key], s.pending, now) && s.attempts[i].unit.event.eventType == t
    {
      SameIdSameTrack(rules, s, s.attempts[i], key, t);
    }
    if id in s.pending { assert Attempted(s, id, s.pending[id]); }
  }

  lemma CallKeepsAttempts(rules: Rules, s: State, key: nat, now: nat, ending: Ending, i: nat)
    requires Inv(rules, s) && key in s.tracks && !s.tracks[key].finalized && i <= |s.attempts|
    ensures AttemptOk(rules, Conclude(rules, s, key, now, ending), Conclude(rules, s, key, now, ending).attempts[i])
  {
    FrozenUnit(rules, s, key, now);
    if i < |s.attempts| {
      var a := s.attempts[i];
      assert AttemptOk(rules, s, a);
      var t := TypeNow(rules, s.tracks[key].evidence);
      if a.unit.event.id == IdOf(rules, s.tracks[key].evidence, t) { SameIdSameTrack(rules, s, a, key, t); }
    }
  }

  lemma GrowingKeepsAttempted(s: State, t: State, id: string, u: Unit)
    requires Attempted(s, id, u) && s.attempts <= t.attempts
    ensures Attempted(t, id, u)
  {
    var i :| 0 <= i < |s.attempts| && s.attempts[i].unit == u;
    assert t.attempts[i].unit == u;
  }

  lemma GrowingKeepsSucceeded(s: State, t: State, key: nat)
    requires Succeeded(s, key) && s.attempts <= t.attempts
    ensures Succeeded(t, key)
  {
    var i :| 0 <= i < |s.attempts| && s.attempts[i].key == key && s.attempts[i].succeeded;
    assert t.attempts[i].key == key;
  }

  lemma CallIsAttempt(rules: Rules, s: State, key: nat, now: nat, ending: Ending)
    requires Inv(rules, s) && key in s.tracks && !s.tracks[key].finalized
    ensures var u := Frozen(rules, s.tracks[key], s.pending, now); Attempted(Conclude(rules, s, key, now, ending), u.event.id, u)
  {
    var t := Conclude(rules, s, key, now, ending);
    assert t.attempts[|s.attempts|].unit == Frozen(rules, s.tracks[key], s.pending, now);
  }

  lemma CallKeepsUnits(rules: Rules, s: State, key: nat, now: nat, ending: Ending)
    requires Inv(rules, s) && key in s.tracks && !s.tracks[key].finalized
    ensures var t := Conclude(rules, s, key, now, ending); forall id :: id in t.pending ==> Attempted(t, id, t.pending[id])
  {
    FrozenUnit(rules, s, key, now);
    CallIsAttempt(rules, s, key, now, ending);
    var t := Conclude(rules, s, key, now, ending);
    forall id | id in t.pending ensures Attempted(t, id, t.pending[id]) {
      if id != Build(rules, s.tracks[key].evidence, now).event.id { GrowingKeepsAttempted(s, t, id, t.pending[id]); }
    }
  }

  lemma CallKeepsAgreement(rules: Rules, s: State, key: nat, now: nat, ending: Ending, i: nat, j: nat)
    requires Inv(rules, s) && key in s.tracks && !s.tracks[key].finalized
    requires var t := Conclude(rules, s, key, now, ending); i < j < |t.attempts| && t.attempts[i].unit.event.id == t.attempts[j].unit.event.id
    ensures var t := Conclude(rules, s, key, now, ending); t.attempts[i].unit == t.attempts[j].unit
  {
    FrozenUnit(rules, s, key, now);
  }

  lemma CallKeepsSuccesses(rules: Rules, s: State, key: nat, now: nat, ending: Ending)
    requires Inv(rules, s) && key in s.tracks && !s.tracks[key].finalized
    ensures var t := Conclude(rules, s, key, now, ending);
      && (forall i, j :: 0 <= i < j < |t.attempts| && t.attempts[i].succeeded ==> t.attempts[i].key != t.attempts[j].key)
      && (forall k :: k in t.tracks && t.tracks[k].finalized ==> Succeeded(t, k))
  {
    var t := Conclude(rules, s, key, now, ending);
    forall i, j | 0 <= i < j < |t.attempts| && t.attempts[i].succeeded ensures t.attempts[i].key != t.attempts[j].key {
      assert AttemptOk(rules, s, s.attempts[i]);
    }
    forall k | k in t.tracks && t.tracks[k].finalized ensures Succeeded(t, k) {
      if k == key { assert t.attempts[|s.attempts|].key == key; } else { GrowingKeepsSucceeded(s, t, k); }
    }
  }

  lemma CallKeepsInv(rules: Rules, s: State, key: nat, now: nat, ending: Ending)
    requires Inv(rules, s) && key in s.tracks
    ensures Inv(rules, Conclude(rules, s, key, now, ending))
  {
    if !s.tracks[key].finalized {
      var t := Conclude(rules, s, key, now, ending);
      forall i | 0 <= i < |t.attempts| ensures AttemptOk(rules, t, t.attempts[i]) {
        CallKeepsAttempts(rules, s, key, now, ending, i);
      }
      forall i, j | 0 <= i < j < |t.attempts| && t.attempts[i].unit.event.id == t.attempts[j].unit.event.id
        ensures t.attempts[i].unit == t.attempts[j].unit
      {
        CallKeepsAgreement(rules, s, key, now, ending, i, j);
      }
      CallKeepsUnits(rules, s, key, now, ending);
      CallKeepsSuccesses(rules, s, key, now, ending);
    }
  }

  lemma ObserveKeepsAttempts(rules: Rules, s: State, key: nat, trajectory: seq<(int, int)>, rest: string)
    requires Inv(rules, s) && key in s.tracks && !s.tracks[key].finalized
    ensures forall i :: 0 <= i < |s.attempts| ==> AttemptOk(rules, Extend(s, key, trajectory, rest), s.attempts[i])
  {
    forall i | 0 <= i < |s.attempts| ensures AttemptOk(rules, Extend(s, key, trajectory, rest), s.attempts[i]) {
      assert AttemptOk(rules, s, s.attempts[i]);
    }
  }

  lemma ObserveKeepsInv(rules: Rules, s: State, key: nat, trajectory: seq<(int, int)>, rest: string)
    requires Inv(rules, s) && key in s.tracks && !s.tracks[key].finalized
    ensures Inv(rules, Extend(s, key, trajectory, rest))
  {
    var t := Extend(s, key, trajectory, rest);
    ObserveKeepsAttempts(rules, s, key, trajectory, rest);
    forall id | id in t.pending ensures Attempted(t, id, t.pending[id]) { GrowingKeepsAttempted(s, t, id, t.pending[id]); }
    forall k | k in t.tracks && t.tracks[k].finalized ensures Succeeded(t, k) { GrowingKeepsSucceeded(s, t, k); }
  }

  /** Over an outbox whose entries are all its own, a call never finds a different one. */
  lemma OwnEntryAgrees(rules: Rules, p: Process, key: nat, now: nat)
    requires ProcessInv(rules, p) && key in p.state.tracks && !p.state.tracks[key].finalized
    ensures !Differs(p.outbox, Frozen(rules, p.state.tracks[key], p.state.pending, now))
  {
    FrozenUnit(rules, p.state, key, now);
    var id := Build(rules, p.state.tracks[key].evidence, now).event.id;
    if id in p.outbox { assert Attempted(p.state, id, p.outbox[id]); }
  }

  lemma CallKeepsMatching(rules: Rules, p: Process, key: nat, now: nat, fault: Fault)
    requires ProcessInv(rules, p) && key in p.state.tracks && !p.state.tracks[key].finalized
    ensures var q := Finalize(rules, p, key, now, fault); forall i :: 0 <= i < |q.state.attempts| ==> !q.state.attempts[i].mismatch
  {
    OwnEntryAgrees(rules, p, key, now);
  }

  lemma CallKeepsEntries(rules: Rules, p: Process, key: nat, now: nat, fault: Fault)
    requires ProcessInv(rules, p) && key in p.state.tracks && !p.state.tracks[key].finalized
    ensures var q := Finalize(rules, p, key, now, fault); forall id :: id in q.outbox ==> Attempted(q.state, id, q.outbox[id])
  {
    var unit := Frozen(rules, p.state.tracks[key], p.state.pending, now);
    CallIsAttempt(rules, p.state, key, now, EndingOf(p.outbox, unit, fault));
    var q := Finalize(rules, p, key, now, fault);
    forall id | id in q.outbox ensures Attempted(q.state, id, q.outbox[id]) {
      if id in p.outbox && q.outbox[id] == p.outbox[id] { GrowingKeepsAttempted(p.state, q.state, id, p.outbox[id]); }
    }
  }

  lemma ActKeepsInv(rules: Rules, p: Process, a: Action)
    requires ProcessInv(rules, p) && Possible(p, a)
    ensures ProcessInv(rules, Act(rules, p, a))
  {
    match a
    case Call(key, now, fault) =>
      if !p.state.tracks[key].finalized {
        CallKeepsInv(rules, p.state, key, now, EndingOf(p.outbox, Frozen(rules, p.state.tracks[key], p.state.pending, now), fault));
        CallKeepsMatching(rules, p, key, now, fault);
        CallKeepsEntries(rules, p, key, now, fault);
      }
    case Deliver(_) =>
    case Observe(key, trajectory, rest) =>
      ObserveKeepsInv(rules, p.state, key, trajectory, rest);
      var q := Act(rules, p, a);
      forall id | id in q.outbox ensures Attempted(q.state, id, q.outbox[id]) { GrowingKeepsAttempted(p.state, q.state, id, q.outbox[id]); }
  }

  // ----- whole runs

  ghost predicate IsRun(rules: Rules, p: Process, actions: seq<Action>)
    decreases |actions|
  {
    actions == [] || (Possible(p, actions[0]) && IsRun(rules, Act(rules, p, actions[0]), actions[1..]))
  }

  ghost function After(rules: Rules, p: Process, actions: seq<Action>): Process
    requires IsRun(rules, p, actions)
    decreases |actions|
  {
    if actions == [] then p else After(rules, Act(rules, p, actions[0]), actions[1..])
  }

  lemma {:induction false} RunKeepsInv(rules: Rules, p: Process, actions: seq<Action>)
    requires ProcessInv(rules, p) && IsRun(rules, p, actions)
    ensures ProcessInv(rules, After(rules, p, actions)) && After(rules, p, actions).state.tracks.Keys == p.state.tracks.Keys
    decreases |actions|
  {
    if actions != [] {
      ActKeepsInv(rules, p, actions[0]);
      RunKeepsInv(rules, Act(rules, p, actions[0]), actions[1..]);
    }
  }

  /** Live tracks with different identities, and nothing attempted yet. */
  ghost predicate Start(rules: Rules, s: State) {
    && Injective(rules) && DifferentTracks(s.tracks)
    && s.pending == map[] && s.attempts == []
    && forall k :: k in s.tracks ==> !s.tracks[k].finalized
  }

  /** A process at its start, over an empty outbox. */
  ghost predicate Begins(rules: Rules, p: Process) {
    Start(rules, p.state) && p.outbox == map[]
  }

  /** Two attempts for one track stage identical bytes exactly when the event type they carry is
      the same, whatever the clock, the growth of the track, the faults and the deliveries between. */
  lemma FrozenIffSameType(rules: Rules, p: Process, actions: seq<Action>, i: nat, j: nat)
    requires Begins(rules, p) && IsRun(rules, p, actions)
    requires var t := After(rules, p, actions).state;
      i < |t.attempts| && j < |t.attempts| && t.attempts[i].key == t.attempts[j].key
    ensures var t := After(rules, p, actions).state;
      t.attempts[i].unit == t.attempts[j].unit <==> t.attempts[i].unit.event.eventType == t.attempts[j].unit.event.eventType
  {
    RunKeepsInv(rules, p, actions);
    var t := After(rules, p, actions).state;
    assert AttemptOk(rules, t, t.attempts[i]) && AttemptOk(rules, t, t.attempts[j]);
    if i != j && t.attempts[i].unit.event.eventType == t.attempts[j].unit.event.eventType {
      assert t.attempts[i].unit.event.id == t.attempts[j].unit.event.id;
    }
  }

  /** A retry never meets the error about an entry that does not match its event id. */
  lemma NeverMismatched(rules: Rules, p: Process, actions: seq<Action>, i: nat)
    requires Begins(rules, p) && IsRun(rules, p, actions) && i < |After(rules, p, actions).state.attempts|
    ensures !After(rules, p, actions).state.attempts[i].mismatch
  {
    RunKeepsInv(rules, p, actions);
  }

  /** A track is finalized exactly when one of its stagings succeeded; then it was the last. */
  lemma FinalizedIffStaged(rules: Rules, p: Process, actions: seq<Action>, key: nat)
    requires Begins(rules, p) && IsRun(rules, p, actions) && key in p.state.tracks
    ensures var t := After(rules, p, actions).state;
      && key in t.tracks && (t.tracks[key].finalized <==> Succeeded(t, key))
      && (forall i, j :: 0 <= i < j < |t.attempts| && t.attempts[i].key == key && t.attempts[i].succeeded ==> t.attempts[j].key != key)
  {
    RunKeepsInv(rules, p, actions);
    var t := After(rules, p, actions).state;
    if Succeeded(t, key) {
      var i :| 0 <= i < |t.attempts| && t.attempts[i].key == key && t.attempts[i].succeeded;
      assert AttemptOk(rules, t, t.attempts[i]);
    }
  }

  lemma ThreeSteps(rules: Rules, p: Process, a: Action, b: Action, c: Action)
    requires Possible(p, a) && Possible(Act(rules, p, a), b) && Possible(Act(rules, Act(rules, p, a), b), c)
    ensures IsRun(rules, p, [a, b, c])
    ensures After(rules, p, [a, b, c]) == Act(rules, Act(rules, Act(rules, p, a), b), c)
  {
    assert [a, b, c][1..] == [b, c] && [b, c][1..] == [c] && [c][1..] == [];
    var t, u := Act(rules, p, a), Act(rules, Act(rules, p, a), b);
    assert IsRun(rules, u, [c]) && After(rules, u, [c]) == Act(rules, u, c);
    assert IsRun(rules, t, [b, c]) && After(rules, t, [b, c]) == After(rules, u, [c]);
  }

  ghost predicate TwoEntriesFor(p: Process, key: nat) {
    var t := p.state;
    && key in t.tracks && t.tracks[key].finalized && |p.outbox| == 2 && |t.attempts| == 2
    && t.attempts[0].key == key && t.attempts[1].key == key && t.attempts[0].unit != t.attempts[1].unit
  }

  /** Why the event type matters: an attempt that became durable but raised, then a changed
      direction, then a success leave two different entries for one track. */
  lemma ChangedDirectionDuplicates(rules: Rules, p: Process, key: nat, trajectory: seq<(int, int)>, now: nat)
    requires Begins(rules, p) && key in p.state.tracks
    requires TypeOf(rules.estimate(trajectory)) != TypeNow(rules, p.state.tracks[key].evidence)
    ensures exists actions :: IsRun(rules, p, actions) && TwoEntriesFor(After(rules, p, actions), key)
  {
    var rest := p.state.tracks[key].evidence.rest;
    var a, b, c := Call(key, now, AfterCommit), Observe(key, trajectory, rest), Call(key, now, NoFault);
    var u := UncertainThenTurned(rules, p, key, trajectory, now);
    ThreeSteps(rules, p, a, b, c);
    var second := Build(rules, u.state.tracks[key].evidence, now);
    assert Act(rules, u, c).outbox == u.outbox[second.event.id := second];
    assert Act(rules, u, c).outbox.Keys == u.outbox.Keys + {second.event.id};
  }

  /** After an attempt that committed but raised, and a new direction: the entry is there, and
      the track's event now has another id. */
  lemma UncertainThenTurned(rules: Rules, p: Process, key: nat, trajectory: seq<(int, int)>, now: nat) returns (u: Process)
    requires Begins(rules, p) && key in p.state.tracks
    requires TypeOf(rules.estimate(trajectory)) != TypeNow(rules, p.state.tracks[key].evidence)
    ensures var first := Build(rules, p.state.tracks[key].evidence, now);
      && u == Act(rules, Act(rules, p, Call(key, now, AfterCommit)), Observe(key, trajectory, p.state.tracks[key].evidence.rest))
      && key in u.state.tracks && !u.state.tracks[key].finalized
      && u.outbox == map[first.event.id := first] && u.state.pending == u.outbox && u.state.attempts == [Attempt(key, first, false, false)]
      && Build(rules, u.state.tracks[key].evidence, now).event.id != first.event.id
  {
    var first := Build(rules, p.state.tracks[key].evidence, now);
    var t := Act(rules, p, Call(key, now, AfterCommit));
    assert t.outbox == map[first.event.id := first] && t.state.pending == t.outbox;
    u := Act(rules, t, Observe(key, trajectory, p.state.tracks[key].evidence.rest));
  }

  // ----- the objects

  class VehicleTrack {
    const key: nat
    var evidence: Evidence
    var finalized: bool
    var direction: Direction

    constructor (key: nat, evidence: Evidence)
      ensures this.key == key && this.evidence == evidence && !finalized && direction == Unknown
    {
      this.key, this.evidence := key, evidence;
      finalized, direction := false, Unknown;
    }
  }

  /** Frozen units are filed under their event ids. */
  ghost predicate Keyed(pending: map<string, Unit>) {
    forall id :: id in pending ==> pending[id].event.id == id
  }

  /** One call for a live track, in terms of the attempt it makes. */
  lemma FinalizeIs(rules: Rules, key: nat, track: Track, pending: map<string, Unit>, outbox: map<string, Unit>, attempts: seq<Attempt>, now: nat, fault: Fault, a: Attempt)
    requires !track.finalized && Keyed(pending) && a.key == key && a.unit == Frozen(rules, track, pending, now)
    requires a.mismatch <==> fault != BeforeLookup && Differs(outbox, a.unit)
    requires a.succeeded <==> !a.mismatch && fault == NoFault
    ensures var frozen := pending[a.unit.event.id := a.unit];
      Finalize(rules, Process(State(map[key := track], pending, attempts), outbox), key, now, fault) ==
        Process(State(map[key := Track(track.evidence, a.succeeded, rules.estimate(track.evidence.trajectory))],
                      if a.succeeded then frozen - {a.unit.event.id} else frozen, attempts + [a]),
                if !a.mismatch && Commits(fault) then outbox[a.unit.event.id := a.unit] else outbox)
  {
    var t := Track(track.evidence, a.succeeded, rules.estimate(track.evidence.trajectory));
    assert map[key := track][key := t] == map[key := t];
    assert pending[a.unit.event.id := a.unit] - {a.unit.event.id} == pending - {a.unit.event.id};
  }

  datatype Outcome = AlreadyFinalized | Finished(event: Event) | StageFailed | StageMismatched | Cancelled

  class VehicleEventFinalizer {
    const rules: Rules
    var pending: map<string, Unit>
    var outbox: map<string, Unit>
    ghost var attempts: seq<Attempt>

    constructor (rules: Rules)
      ensures this.rules == rules && pending == map[] && outbox == map[] && attempts == []
    {
      this.rules := rules;
      pending, outbox, attempts := map[], map[], [];
    }

    ghost function Seen(track: VehicleTrack): Process
      reads this, track
    {
      Process(State(map[track.key := Track(track.evidence, track.finalized, track.direction)], pending, attempts), outbox)
    }

    /** `stage` of the outbox as the finalizer sees it. */
    method Stage(unit: Unit, fault: Fault) returns (ok: bool, mismatch: bool)
      modifies this`outbox
      ensures mismatch <==> fault != BeforeLookup && unit.event.id in old(outbox) && old(outbox)[unit.event.id] != unit
      ensures ok <==> !mismatch && fault == NoFault
      ensures outbox == if !mismatch && Commits(fault) then old(outbox)[unit.event.id := unit] else old(outbox)
    {
      mismatch := fault != BeforeLookup && Differs(outbox, unit);
      if !mismatch && Commits(fault) { outbox := outbox[unit.event.id := unit]; }
      ok := !mismatch && fault == NoFault;
    }

    /** `_stage_and_finalize`: the caller may be cancelled while the staging runs on. */
    method StageAndFinalize(track: VehicleTrack, unit: Unit, fault: Fault, cancelled: bool) returns (outcome: Outcome)
      requires !track.finalized
      modifies this`pending, this`outbox, this`attempts, track`finalized
      ensures |attempts| == |old(attempts)| + 1
      ensures var a := attempts[|old(attempts)|];
        && attempts == old(attempts) + [a] && a.key == track.key && a.unit == unit
        && (a.mismatch <==> fault != BeforeLookup && unit.event.id in old(outbox) && old(outbox)[unit.event.id] != unit)
        && (a.succeeded <==> !a.mismatch && fault == NoFault) && track.finalized == a.succeeded
        && outbox == (if !a.mismatch && Commits(fault) then old(outbox)[unit.event.id := unit] else old(outbox))
        && pending == (if a.succeeded then old(pending) - {unit.event.id} else old(pending))
        && outcome == if cancelled then Cancelled else if a.succeeded then Finished(unit.event) else if a.mismatch then StageMismatched else StageFailed
    {
      var ok, mismatch := Stage(unit, fault);
      attempts := attempts + [Attempt(track.key, unit, mismatch, ok)];
      if ok {
        track.finalized := true;
        pending := pending - {unit.event.id};
      }
      outcome := if cancelled then Cancelled else if ok then Finished(unit.event) else if mismatch then StageMismatched else StageFailed;
    }

    /** The frozen unit of an earlier attempt, or a new one that is frozen now. */
    method Freeze(track: VehicleTrack, now: nat) returns (unit: Unit)
      requires Keyed(pending)
      modifies this`pending
      ensures unit == Frozen(rules, Track(track.evidence, track.finalized, track.direction), old(pending), now)
      ensures unit.event.id == Build(rules, track.evidence, now).event.id
      ensures pending == old(pending)[unit.event.id := unit] && Keyed(pending)
    {
      unit := Build(rules, track.evidence, now);
      if unit.event.id in pending {
        unit := pending[unit.event.id];
      } else {
        pending := pending[unit.event.id := unit];
      }
    }

    /** `finalize` with an outbox: one step of the runs above. */
    method FinalizeTrack(track: VehicleTrack, now: nat, fault: Fault, cancelled: bool) returns (outcome: Outcome)
      requires Keyed(pending)
      modifies this`pending, this`outbox, this`attempts, track`finalized, track`direction
      ensures Keyed(pending)
      ensures Seen(track) == Finalize(rules, old(Seen(track)), track.key, now, fault)
      ensures outcome == AlreadyFinalized <==> old(track.finalized)
      ensures !old(track.finalized) ==> (cancelled <==> outcome == Cancelled)
      ensures outcome.Finished? ==> track.finalized && attempts != [] && outcome.event == attempts[|attempts| - 1].unit.event
      ensures outcome in {StageFailed, StageMismatched} ==> !track.finalized
    {
      if track.finalized { return AlreadyFinalized; }
      ghost var before := Track(track.evidence, track.finalized, track.direction);
      track.direction := rules.estimate(track.evidence.trajectory);
      var unit := Freeze(track, now);
      outcome := StageAndFinalize(track, unit, fault, cancelled);
      FinalizeIs(rules, track.key, before, old(pending), old(outbox), old(attempts), now, fault, attempts[|old(attempts)|]);
    }
  }
}
