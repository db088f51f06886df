/** The fair latest-frame scheduler (application/gpu_scheduler.py): bounded per-camera queues
    and a ready ring. `State` is what the lock protects; the class refines its steps. */
module Scheduler {

  datatype Frame = Frame(camera: string, number: nat)

  datatype ScheduledFrame = ScheduledFrame(frame: Frame, submitted: real)

  datatype Config = Config(maximumCameras: nat, maximumBatchSize: nat, queueSize: nat, maximumAgeMs: real)
  {
    // the bounds the settings validator enforces
    ghost predicate Valid() {
      1 <= maximumCameras && 1 <= maximumBatchSize && 1 <= queueSize && 0.0 < maximumAgeMs
    }

    predicate IsStale(item: ScheduledFrame, now: real) {
      (now - item.submitted) * 1000.0 > maximumAgeMs
    }
  }

  /** Why a frame left its queue. */
  datatype Exit = Emitted(now: real) | Oldest | Stale(now: real) | Unregistered

  /** The history of the scheduler; only the proofs look at it. */
  datatype Happening = Arrived(item: ScheduledFrame) | Left(item: ScheduledFrame, how: Exit)

  datatype State = State(
    queues: map<string, seq<ScheduledFrame>>,
    ready: seq<string>,
    readySet: set<string>,
    submitted: nat,
    emitted: nat,
    droppedOldest: nat,
    droppedStale: nat,
    emittedPer: map<string, nat>,
    log: seq<Happening>)
  {
    function Queue(camera: string): seq<ScheduledFrame> {
      if camera in queues then queues[camera] else []
    }

    function EmittedBy(camera: string): nat {
      if camera in emittedPer then emittedPer[camera] else 0
    }

    /** `_mark_ready`. */
    function MarkReady(camera: string): State {
      if camera in readySet then this else this.(ready := ready + [camera], readySet := readySet + {camera})
    }
  }

  const Initially := State(map[], [], {}, 0, 0, 0, 0, map[], [])

  function Leaving(items: seq<ScheduledFrame>, how: Exit): (block: seq<Happening>)
    ensures |block| == |items|
  {
    seq(|items|, i requires 0 <= i < |items| => Left(items[i], how))
  }

  // ----- the steps

  predicate HasRoom(config: Config, s: State, camera: string) {
    camera in s.queues || |s.queues| < config.maximumCameras
  }

  function Overflow(config: Config, queue: seq<ScheduledFrame>): (drops: nat)
    requires 1 <= config.queueSize
    ensures drops <= |queue|
  {
    if |queue| >= config.queueSize then |queue| - config.queueSize + 1 else 0
  }

  /** `submit` once capacity has been checked. */
  function Submit(config: Config, s: State, frame: Frame, now: real): State
    requires 1 <= config.queueSize
  {
    var queue := s.Queue(frame.camera);
    var drops := Overflow(config, queue);
    var item := ScheduledFrame(frame, now);
    s.(queues := s.queues[frame.camera := queue[drops..] + [item]],
       submitted := s.submitted + 1,
       droppedOldest := s.droppedOldest + drops,
       log := s.log + Leaving(queue[..drops], Oldest) + [Arrived(item)])
    .MarkReady(frame.camera)
  }

  /** How many frames the stale loop pops from the front. */
  function StaleRun(config: Config, queue: seq<ScheduledFrame>, now: real): (n: nat)
    ensures n <= |queue|
    ensures forall i :: 0 <= i < n ==> config.IsStale(queue[i], now)
    ensures n < |queue| ==> !config.IsStale(queue[n], now)
  {
    if queue != [] && config.IsStale(queue[0], now) then 1 + StaleRun(config, queue[1..], now) else 0
  }

  /** Drops the stale front of a camera's queue and emits the next frame, if one is left. */
  function ServeQueue(config: Config, s: State, camera: string, now: real): (State, seq<ScheduledFrame>)
    requires camera in s.queues
  {
    var queue := s.queues[camera];
    var stale := StaleRun(config, queue, now);
    var dropped := s.(
      queues := s.queues[camera := queue[stale..]],
      droppedStale := s.droppedStale + stale,
      log := s.log + Leaving(queue[..stale], Stale(now)));
    if stale == |queue| then (dropped, [])
    else
      var item := queue[stale];
      var sent := dropped.(
        queues := s.queues[camera := queue[stale + 1..]],
        emitted := s.emitted + 1,
        emittedPer := s.emittedPer[camera := s.EmittedBy(camera) + 1],
        log := dropped.log + [Left(item, Emitted(now))]);
      (if queue[stale + 1..] == [] then sent else sent.MarkReady(camera), [item])
  }

  /** One turn of the loop in `_pop_locked`: visit the camera at the head of the ring. */
  function Visit(config: Config, s: State, now: real): (State, seq<ScheduledFrame>)
    requires s.ready != []
  {
    var camera := s.ready[0];
    var popped := s.(ready := s.ready[1..], readySet := s.readySet - {camera});
    if camera !in s.queues then (popped, []) else ServeQueue(config, popped, camera, now)
  }

  /** `_pop_locked`, with `room` places left in the batch. */
  function PopBatch(config: Config, s: State, now: real, room: nat): (State, seq<ScheduledFrame>)
    decreases room, |s.ready|
  {
    if s.ready == [] || room == 0 then (s, [])
    else
      var (next, batch) := Visit(config, s, now);
      var (last, rest) := PopBatch(config, next, now, room - |batch|);
      (last, batch + rest)
  }

  function Unregister(s: State, camera: string): State {
    s.(queues := s.queues - {camera},
       readySet := s.readySet - {camera},
       ready := Without(s.ready, camera),
       log := s.log + Leaving(s.Queue(camera), Unregistered))
  }

  function Without(ring: seq<string>, camera: string): seq<string> {
    if ring == [] then []
    else if ring[0] == camera then Without(ring[1..], camera)
    else [ring[0]] + Without(ring[1..], camera)
  }

  // ----- the invariant

  ghost predicate Distinct(ring: seq<string>) {
    forall i, j :: 0 <= i < j < |ring| ==> ring[i] != ring[j]
  }

  /** The ring is duplicate-free, mirrors its set, and holds exactly the backlogged cameras. */
  ghost predicate RingOk(s: State) {
    && Distinct(s.ready)
    && (forall c :: c in s.ready <==> c in s.readySet)
    && (forall c :: c in s.readySet <==> s.Queue(c) != [])
  }

  ghost predicate BoundsOk(config: Config, s: State) {
    && |s.queues| <= config.maximumCameras
    && (forall c :: c in s.queues ==> |s.queues[c]| <= config.queueSize)
    && (forall c :: c in s.queues ==> forall i :: 0 <= i < |s.queues[c]| ==> s.queues[c][i].frame.camera == c)
  }

  function Arrivals(log: seq<Happening>, camera: string): seq<ScheduledFrame> {
    if log == [] then []
    else
      var last := log[|log| - 1];
      Arrivals(log[..|log| - 1], camera)
      + (if last.Arrived? && last.item.frame.camera == camera then [last.item] else [])
  }

  function Departures(log: seq<Happening>, camera: string): seq<ScheduledFrame> {
    if log == [] then []
    else
      var last := log[|log| - 1];
      Departures(log[..|log| - 1], camera)
      + (if last.Left? && last.item.frame.camera == camera then [last.item] else [])
  }

  function Emissions(log: seq<Happening>, camera: string): seq<ScheduledFrame> {
    if log == [] then []
    else
      var last := log[|log| - 1];
      Emissions(log[..|log| - 1], camera)
      + (if last.Left? && last.how.Emitted? && last.item.frame.camera == camera then [last.item] else [])
  }

  datatype Kind = Sent | Displaced | Expired | Discarded

  function KindOf(how: Exit): Kind {
    match how
    case Emitted(_) => Sent
    case Oldest => Displaced
    case Stale(_) => Expired
    case Unregistered => Discarded
  }

  /** How many frames left for a reason of the given kind. */
  function Exits(log: seq<Happening>, kind: Kind): nat {
    if log == [] then 0
    else
      var last := log[|log| - 1];
      Exits(log[..|log| - 1], kind) + (if last.Left? && KindOf(last.how) == kind then 1 else 0)
  }

  /** `_pending_locked`: the waiting frames of all cameras together. */
  ghost function Pending(queues: map<string, seq<ScheduledFrame>>): nat
    decreases |queues|
  {
    if queues == map[] then 0
    else
      var c :| c in queues;
      |queues[c]| + Pending(queues - {c})
  }

  lemma {:induction false} PendingSplits(queues: map<string, seq<ScheduledFrame>>, c: string)
    requires c in queues
    ensures Pending(queues) == |queues[c]| + Pending(queues - {c})
    decreases |queues|
  {
    var d :| d in queues && Pending(queues) == |queues[d]| + Pending(queues - {d});
    if c != d {
      PendingSplits(queues - {d}, c);
      PendingSplits(queues - {c}, d);
      assert queues - {d} - {c} == queues - {c} - {d};
    }
  }

  lemma PendingAfterUpdate(queues: map<string, seq<ScheduledFrame>>, c: string, queue: seq<ScheduledFrame>)
    ensures Pending(queues[c := queue]) + (if c in queues then |queues[c]| else 0) == Pending(queues) + |queue|
    ensures c in queues ==> Pending(queues - {c}) + |queues[c]| == Pending(queues)
  {
    PendingSplits(queues[c := queue], c);
    assert queues[c := queue] - {c} == queues - {c};
    if c in queues {
      PendingSplits(queues, c);
    } else {
      assert queues - {c} == queues;
    }
  }

  /** Frame conservation, camera by camera and in order: what arrived is what left followed
      by what still waits. */
  ghost predicate Balanced(s: State, c: string) {
    && Arrivals(s.log, c) == Departures(s.log, c) + s.Queue(c)
    && s.EmittedBy(c) == |Emissions(s.log, c)|
  }

  ghost predicate Conserved(s: State) {
    forall c :: Balanced(s, c)
  }

  /** No frame is emitted after it has gone stale. */
  ghost predicate EmissionsOk(config: Config, log: seq<Happening>) {
    forall k :: 0 <= k < |log| && log[k].Left? && log[k].how.Emitted? ==> !config.IsStale(log[k].item, log[k].how.now)
  }

  /** The counters are what the history says, and they balance. */
  ghost predicate CountersOk(s: State) {
    && s.emitted == Exits(s.log, Sent)
    && s.droppedOldest == Exits(s.log, Displaced)
    && s.droppedStale == Exits(s.log, Expired)
    && s.submitted == s.emitted + s.droppedOldest + s.droppedStale + Exits(s.log, Discarded) + Pending(s.queues)
  }

  ghost predicate Inv(config: Config, s: State) {
    RingOk(s) && BoundsOk(config, s) && Conserved(s) && EmissionsOk(config, s.log) && CountersOk(s)
  }

  lemma InitiallyInv(config: Config, s: State)
    requires s == Initially
    ensures Inv(config, s)
  {
  }

  // ----- what a block of departures does to the history

  lemma AppendOne(log: seq<Happening>, h: Happening, c: string, kind: Kind)
    ensures Arrivals(log + [h], c) == Arrivals(log, c) + (if h.Arrived? && h.item.frame.camera == c then [h.item] else [])
    ensures Departures(log + [h], c) == Departures(log, c) + (if h.Left? && h.item.frame.camera == c then [h.item] else [])
    ensures Emissions(log + [h], c) == Emissions(log, c) + (if h.Left? && h.how.Emitted? && h.item.frame.camera == c then [h.item] else [])
    ensures Exits(log + [h], kind) == Exits(log, kind) + (if h.Left? && KindOf(h.how) == kind then 1 else 0)
  {
    assert (log + [h])[..|log|] == log;
  }

  lemma {:induction false} AppendLeaving(log: seq<Happening>, items: seq<ScheduledFrame>, how: Exit, home: string, c: string, kind: Kind)
    requires !how.Emitted? && forall i :: 0 <= i < |items| ==> items[i].frame.camera == home
    ensures Arrivals(log + Leaving(items, how), c) == Arrivals(log, c)
    ensures Departures(log + Leaving(items, how), c) == Departures(log, c) + (if c == home then items else [])
    ensures Emissions(log + Leaving(items, how), c) == Emissions(log, c)
    ensures Exits(log + Leaving(items, how), kind) == Exits(log, kind) + (if KindOf(how) == kind then |items| else 0)
    decreases |items|
  {
    if items == [] {
      assert log + Leaving(items, how) == log;
    } else {
      var front, last := items[..|items| - 1], items[|items| - 1];
      AppendLeaving(log, front, how, home, c, kind);
      AppendOne(log + Leaving(front, how), Left(last, how), c, kind);
      LastToLeave(log, items, how);
      assert Departures(log, c) + items == Departures(log, c) + front + [last];
    }
  }

  lemma LastToLeave(log: seq<Happening>, items: seq<ScheduledFrame>, how: Exit)
    requires items != []
    ensures log + Leaving(items, how) == log + Leaving(items[..|items| - 1], how) + [Left(items[|items| - 1], how)]
    ensures items == items[..|items| - 1] + [items[|items| - 1]]
  {
  }

  // ----- every step keeps the invariant

  /** A camera stays balanced when what left it, followed by what waits now, is what waited
      before, followed by what arrived. */
  lemma Rebalanced(s: State, t: State, c: string, left: seq<ScheduledFrame>, added: seq<ScheduledFrame>, sent: seq<ScheduledFrame>)
    requires Balanced(s, c) && s.Queue(c) + added == left + t.Queue(c)
    requires Arrivals(t.log, c) == Arrivals(s.log, c) + added && Departures(t.log, c) == Departures(s.log, c) + left
    requires Emissions(t.log, c) == Emissions(s.log, c) + sent && t.EmittedBy(c) == s.EmittedBy(c) + |sent|
    ensures Balanced(t, c)
  {
    Associative(Departures(s.log, c), s.Queue(c), added);
    Associative(Departures(s.log, c), left, t.Queue(c));
  }

  /** Nothing happened to the camera. */
  lemma StillBalanced(s: State, t: State, c: string)
    requires Balanced(s, c) && s.Queue(c) == t.Queue(c) && t.EmittedBy(c) == s.EmittedBy(c)
    requires Arrivals(t.log, c) == Arrivals(s.log, c) + [] && Departures(t.log, c) == Departures(s.log, c) + []
    requires Emissions(t.log, c) == Emissions(s.log, c) + []
    ensures Balanced(t, c)
  {
    assert s.Queue(c) + [] == [] + t.Queue(c);
    Rebalanced(s, t, c, [], [], []);
  }

  lemma OneQueueReplaced(config: Config, s: State, t: State, camera: string, waiting: seq<ScheduledFrame>)
    requires BoundsOk(config, s) && HasRoom(config, s, camera) && t.queues == s.queues[camera := waiting]
    requires |waiting| <= config.queueSize && forall i :: 0 <= i < |waiting| ==> waiting[i].frame.camera == camera
    ensures BoundsOk(config, t) && forall c :: t.Queue(c) == if c == camera then waiting else s.Queue(c)
  {
    UpdateSize(s.queues, camera, waiting);
  }

  lemma RingMarked(s: State, t: State, camera: string)
    requires RingOk(s) && t.Queue(camera) != [] && forall c :: c != camera ==> t.Queue(c) == s.Queue(c)
    requires t.ready == (if camera in s.readySet then s.ready else s.ready + [camera]) && t.readySet == s.readySet + {camera}
    ensures RingOk(t)
  {
    assert forall c :: c in t.ready <==> c in s.ready || c == camera;
  }

  lemma RingTurned(s: State, t: State)
    requires RingOk(s) && s.ready != [] && forall c :: c != s.ready[0] ==> t.Queue(c) == s.Queue(c)
    requires t.ready == s.ready[1..] + (if t.Queue(s.ready[0]) != [] then [s.ready[0]] else [])
    requires t.readySet == s.readySet - {s.ready[0]} + (if t.Queue(s.ready[0]) != [] then {s.ready[0]} else {})
    ensures RingOk(t)
  {
    HeadIsBacklogged(s);
    assert forall c :: c in t.ready <==> c in s.ready[1..] || (c == s.ready[0] && t.Queue(c) != []);
  }

  lemma SubmitHistory(config: Config, s: State, frame: Frame, now: real, c: string, kind: Kind)
    requires BoundsOk(config, s) && config.Valid() && HasRoom(config, s, frame.camera)
    ensures var t, queue := Submit(config, s, frame, now), s.Queue(frame.camera);
      var drops := Overflow(config, queue);
      && Arrivals(t.log, c) == Arrivals(s.log, c) + (if c == frame.camera then [ScheduledFrame(frame, now)] else [])
      && Departures(t.log, c) == Departures(s.log, c) + (if c == frame.camera then queue[..drops] else [])
      && Emissions(t.log, c) == Emissions(s.log, c)
      && Exits(t.log, kind) == Exits(s.log, kind) + (if kind == Displaced then drops else 0)
  {
    var queue := s.Queue(frame.camera);
    var drops := Overflow(config, queue);
    AppendLeaving(s.log, queue[..drops], Oldest, frame.camera, c, kind);
    AppendOne(s.log + Leaving(queue[..drops], Oldest), Arrived(ScheduledFrame(frame, now)), c, kind);
  }

  lemma SubmitShape(config: Config, s: State, frame: Frame, now: real)
    requires 1 <= config.queueSize
    ensures var t, queue := Submit(config, s, frame, now), s.Queue(frame.camera);
      && t.queues == s.queues[frame.camera := queue[Overflow(config, queue)..] + [ScheduledFrame(frame, now)]]
      && t.ready == (if frame.camera in s.readySet then s.ready else s.ready + [frame.camera]) && t.readySet == s.readySet + {frame.camera}
      && t.emittedPer == s.emittedPer
  {
  }

  /** `added` arrived at the camera's queue, whose first `n` frames left unsent. */
  lemma Exchanged(s: State, t: State, camera: string, n: nat, added: seq<ScheduledFrame>, c: string)
    requires Balanced(s, c) && n <= |s.Queue(camera)| && t.Queue(c) == if c == camera then s.Queue(camera)[n..] + added else s.Queue(c)
    requires Arrivals(t.log, c) == Arrivals(s.log, c) + (if c == camera then added else [])
    requires Departures(t.log, c) == Departures(s.log, c) + (if c == camera then s.Queue(camera)[..n] else [])
    requires Emissions(t.log, c) == Emissions(s.log, c) && t.EmittedBy(c) == s.EmittedBy(c)
    ensures Balanced(t, c)
  {
    NothingMore(Emissions(s.log, c));
    if c == camera {
      assert s.Queue(c) + added == s.Queue(c)[..n] + (s.Queue(c)[n..] + added);
      Rebalanced(s, t, c, s.Queue(c)[..n], added, []);
    } else {
      StillBalanced(s, t, c);
    }
  }

  lemma SubmitBalances(config: Config, s: State, frame: Frame, now: real, c: string)
    requires BoundsOk(config, s) && Balanced(s, c) && config.Valid() && HasRoom(config, s, frame.camera)
    ensures Balanced(Submit(config, s, frame, now), c)
  {
    SubmitHistory(config, s, frame, now, c, Sent);
    SubmitShape(config, s, frame, now);
    Exchanged(s, Submit(config, s, frame, now), frame.camera, Overflow(config, s.Queue(frame.camera)), [ScheduledFrame(frame, now)], c);
  }

  lemma SubmitCounts(config: Config, s: State, frame: Frame, now: real)
    requires BoundsOk(config, s) && CountersOk(s) && config.Valid() && HasRoom(config, s, frame.camera)
    ensures CountersOk(Submit(config, s, frame, now))
  {
    SubmitHistory(config, s, frame, now, frame.camera, Sent);
    SubmitHistory(config, s, frame, now, frame.camera, Displaced);
    SubmitHistory(config, s, frame, now, frame.camera, Expired);
    SubmitHistory(config, s, frame, now, frame.camera, Discarded);
    var queue := s.Queue(frame.camera);
    PendingAfterUpdate(s.queues, frame.camera, queue[Overflow(config, queue)..] + [ScheduledFrame(frame, now)]);
  }

  lemma UpdateSize(queues: map<string, seq<ScheduledFrame>>, c: string, queue: seq<ScheduledFrame>)
    ensures |queues[c := queue]| == |queues| + if c in queues then 0 else 1
  {
    var updated := queues[c := queue];
    assert updated.Keys == queues.Keys + {c};
    assert c in queues ==> updated.Keys == queues.Keys;
  }

  lemma SubmitKeepsRing(config: Config, s: State, frame: Frame, now: real)
    requires RingOk(s) && BoundsOk(config, s) && config.Valid() && HasRoom(config, s, frame.camera)
    ensures var t := Submit(config, s, frame, now); RingOk(t) && BoundsOk(config, t)
  {
    var t, queue := Submit(config, s, frame, now), s.Queue(frame.camera);
    SubmitShape(config, s, frame, now);
    OneQueueReplaced(config, s, t, frame.camera, queue[Overflow(config, queue)..] + [ScheduledFrame(frame, now)]);
    RingMarked(s, t, frame.camera);
  }

  lemma SubmitKeepsInv(config: Config, s: State, frame: Frame, now: real)
    requires Inv(config, s) && config.Valid() && HasRoom(config, s, frame.camera)
    ensures Inv(config, Submit(config, s, frame, now))
  {
    SubmitKeepsRing(config, s, frame, now);
    forall c ensures Balanced(Submit(config, s, frame, now), c) {
      assert Balanced(s, c);
      SubmitBalances(config, s, frame, now, c);
    }
    SubmitCounts(config, s, frame, now);
  }

  lemma HeadIsBacklogged(s: State)
    requires RingOk(s) && s.ready != []
    ensures s.ready[0] in s.queues && s.queues[s.ready[0]] != []
    ensures forall c :: c in s.ready[1..] <==> c in s.ready && c != s.ready[0]
  {
    assert s.ready[0] in s.ready;
    assert s.ready == [s.ready[0]] + s.ready[1..];
  }

  /** The number of frames the visit takes from its queue. */
  function Taken(config: Config, queue: seq<ScheduledFrame>, now: real): (n: nat)
    ensures n <= |queue| && (queue != [] ==> n > 0)
  {
    var stale := StaleRun(config, queue, now);
    if stale == |queue| then stale else stale + 1
  }

  /** The history of a visit: the stale frames, then the frame it emits if one is left. */
  lemma VisitLog(config: Config, s: State, now: real)
    requires s.ready != [] && s.ready[0] in s.queues
    ensures var t, queue := Visit(config, s, now).0, s.queues[s.ready[0]];
      var stale := StaleRun(config, queue, now);
      && t.log == s.log + Leaving(queue[..stale], Stale(now)) + (if stale < |queue| then [Left(queue[stale], Emitted(now))] else [])
      && t.queues == s.queues[s.ready[0] := queue[Taken(config, queue, now)..]]
      && (forall c :: t.EmittedBy(c) == s.EmittedBy(c) + if c == s.ready[0] && stale < |queue| then 1 else 0)
  {
  }

  lemma VisitShape(config: Config, s: State, now: real)
    requires s.ready != [] && s.ready[0] in s.queues && s.ready[0] !in s.ready[1..]
    ensures var t, rest := Visit(config, s, now).0, s.queues[s.ready[0]][Taken(config, s.queues[s.ready[0]], now)..];
      && t.ready == s.ready[1..] + (if rest != [] then [s.ready[0]] else [])
      && t.readySet == s.readySet - {s.ready[0]} + (if rest != [] then {s.ready[0]} else {})
  {
  }

  lemma VisitKeepsRing(config: Config, s: State, now: real)
    requires RingOk(s) && BoundsOk(config, s) && s.ready != []
    ensures var t := Visit(config, s, now).0; RingOk(t) && BoundsOk(config, t)
  {
    HeadIsBacklogged(s);
    var t, queue := Visit(config, s, now).0, s.queues[s.ready[0]];
    VisitLog(config, s, now);
    VisitShape(config, s, now);
    OneQueueReplaced(config, s, t, s.ready[0], queue[Taken(config, queue, now)..]);
    RingTurned(s, t);
  }

  lemma VisitHistory(config: Config, s: State, now: real, c: string, kind: Kind)
    requires BoundsOk(config, s) && s.ready != [] && s.ready[0] in s.queues
    ensures var t, queue := Visit(config, s, now).0, s.queues[s.ready[0]];
      var stale, taken := StaleRun(config, queue, now), Taken(config, queue, now);
      && Arrivals(t.log, c) == Arrivals(s.log, c)
      && Departures(t.log, c) == Departures(s.log, c) + (if c == s.ready[0] then queue[..taken] else [])
      && Emissions(t.log, c) == Emissions(s.log, c) + (if c == s.ready[0] then queue[stale..taken] else [])
      && Exits(t.log, kind) == Exits(s.log, kind) + (if kind == Expired then stale else if kind == Sent then taken - stale else 0)
  {
    VisitLog(config, s, now);
    TwoPartHistory(s.log, s.queues[s.ready[0]], StaleRun(config, s.queues[s.ready[0]], now), now, s.ready[0], c, kind);
  }

  lemma OneMoreLeft(before: seq<ScheduledFrame>, queue: seq<ScheduledFrame>, n: nat)
    requires n < |queue|
    ensures before + queue[..n] + [queue[n]] == before + queue[..n + 1] && queue[n..n + 1] == [queue[n]]
  {
  }

  lemma TwoPartHistory(log: seq<Happening>, queue: seq<ScheduledFrame>, stale: nat, now: real, home: string, c: string, kind: Kind)
    requires stale <= |queue| && forall i :: 0 <= i < |queue| ==> queue[i].frame.camera == home
    ensures var taken := if stale == |queue| then stale else stale + 1;
      var after := log + Leaving(queue[..stale], Stale(now)) + (if stale < |queue| then [Left(queue[stale], Emitted(now))] else []);
      && Arrivals(after, c) == Arrivals(log, c)
      && Departures(after, c) == Departures(log, c) + (if c == home then queue[..taken] else [])
      && Emissions(after, c) == Emissions(log, c) + (if c == home then queue[stale..taken] else [])
      && Exits(after, kind) == Exits(log, kind) + (if kind == Expired then stale else if kind == Sent then taken - stale else 0)
  {
    var middle := log + Leaving(queue[..stale], Stale(now));
    AppendLeaving(log, queue[..stale], Stale(now), home, c, kind);
    if stale < |queue| {
      AppendOne(middle, Left(queue[stale], Emitted(now)), c, kind);
      OneMoreLeft(Departures(log, c), queue, stale);
    } else {
      assert middle + [] == middle;
    }
  }

  /** The first `n` frames of the camera's queue left, those from `stale` on to be sent. */
  lemma Shortened(s: State, t: State, camera: string, stale: nat, n: nat, c: string)
    requires Balanced(s, c) && stale <= n <= |s.Queue(camera)| && t.Queue(c) == if c == camera then s.Queue(camera)[n..] else s.Queue(c)
    requires Arrivals(t.log, c) == Arrivals(s.log, c)
    requires Departures(t.log, c) == Departures(s.log, c) + (if c == camera then s.Queue(camera)[..n] else [])
    requires Emissions(t.log, c) == Emissions(s.log, c) + (if c == camera then s.Queue(camera)[stale..n] else [])
    requires t.EmittedBy(c) == s.EmittedBy(c) + if c == camera then n - stale else 0
    ensures Balanced(t, c)
  {
    NothingMore(Arrivals(s.log, c));
    if c == camera {
      assert s.Queue(c) + [] == s.Queue(c)[..n] + s.Queue(c)[n..];
      Rebalanced(s, t, c, s.Queue(c)[..n], [], s.Queue(c)[stale..n]);
    } else {
      StillBalanced(s, t, c);
    }
  }

  lemma VisitBalances(config: Config, s: State, now: real, c: string)
    requires BoundsOk(config, s) && Balanced(s, c) && s.ready != [] && s.ready[0] in s.queues
    ensures Balanced(Visit(config, s, now).0, c)
  {
    var queue := s.queues[s.ready[0]];
    VisitLog(config, s, now);
    VisitHistory(config, s, now, c, Sent);
    Shortened(s, Visit(config, s, now).0, s.ready[0], StaleRun(config, queue, now), Taken(config, queue, now), c);
  }

  lemma VisitExits(config: Config, s: State, now: real, kind: Kind)
    requires BoundsOk(config, s) && s.ready != [] && s.ready[0] in s.queues
    ensures var t, queue := Visit(config, s, now).0, s.queues[s.ready[0]];
      var stale, taken := StaleRun(config, queue, now), Taken(config, queue, now);
      Exits(t.log, kind) == Exits(s.log, kind) + (if kind == Expired then stale else if kind == Sent then taken - stale else 0)
  {
    VisitHistory(config, s, now, "", kind);
  }

  lemma VisitCounts(config: Config, s: State, now: real)
    requires BoundsOk(config, s) && CountersOk(s) && s.ready != [] && s.ready[0] in s.queues
    ensures CountersOk(Visit(config, s, now).0)
  {
    VisitExits(config, s, now, Sent);
    VisitExits(config, s, now, Displaced);
    VisitExits(config, s, now, Expired);
    VisitExits(config, s, now, Discarded);
    VisitPending(config, s, now);
    VisitLog(config, s, now);
  }

  lemma VisitPending(config: Config, s: State, now: real)
    requires s.ready != [] && s.ready[0] in s.queues
    ensures Pending(Visit(config, s, now).0.queues) + Taken(config, s.queues[s.ready[0]], now) == Pending(s.queues)
  {
    VisitLog(config, s, now);
    var queue := s.queues[s.ready[0]];
    PendingAfterUpdate(s.queues, s.ready[0], queue[Taken(config, queue, now)..]);
  }

  lemma VisitEmitsFresh(config: Config, s: State, now: real)
    requires EmissionsOk(config, s.log) && s.ready != []
    ensures EmissionsOk(config, Visit(config, s, now).0.log)
  {
  }

  lemma VisitKeepsInv(config: Config, s: State, now: real)
    requires Inv(config, s) && s.ready != []
    ensures Inv(config, Visit(config, s, now).0)
  {
    HeadIsBacklogged(s);
    VisitKeepsRing(config, s, now);
    forall c ensures Balanced(Visit(config, s, now).0, c) {
      assert Balanced(s, c);
      VisitBalances(config, s, now, c);
    }
    VisitCounts(config, s, now);
    VisitEmitsFresh(config, s, now);
  }

  lemma {:induction false} WithoutRemoves(ring: seq<string>, camera: string)
    ensures forall c :: c in Without(ring, camera) <==> c in ring && c != camera
    ensures Distinct(ring) ==> Distinct(Without(ring, camera))
  {
    if ring != [] {
      var rest := ring[1..];
      assert ring == [ring[0]] + rest;
      WithoutRemoves(rest, camera);
      if Distinct(ring) {
        assert Distinct(rest);
        assert ring[0] !in rest;
      }
    }
  }

  lemma UnregisterHistory(config: Config, s: State, camera: string, c: string, kind: Kind)
    requires BoundsOk(config, s)
    ensures var t := Unregister(s, camera);
      && Arrivals(t.log, c) == Arrivals(s.log, c)
      && Departures(t.log, c) == Departures(s.log, c) + (if c == camera then s.Queue(camera) else [])
      && Emissions(t.log, c) == Emissions(s.log, c)
      && Exits(t.log, kind) == Exits(s.log, kind) + (if kind == Discarded then |s.Queue(camera)| else 0)
  {
    AppendLeaving(s.log, s.Queue(camera), Unregistered, camera, c, kind);
  }

  lemma UnregisterBalances(config: Config, s: State, camera: string, c: string)
    requires BoundsOk(config, s) && Balanced(s, c)
    ensures Balanced(Unregister(s, camera), c)
  {
    var t := Unregister(s, camera);
    UnregisterHistory(config, s, camera, c, Sent);
    NothingMore(Arrivals(s.log, c));
    NothingMore(Emissions(s.log, c));
    if c == camera {
      assert s.Queue(c) + [] == s.Queue(c) + t.Queue(c);
      Rebalanced(s, t, c, s.Queue(c), [], []);
    } else {
      StillBalanced(s, t, c);
    }
  }

  lemma NothingMore(xs: seq<ScheduledFrame>)
    ensures xs + [] == xs
  {
  }

  lemma UnregisterCounts(config: Config, s: State, camera: string)
    requires BoundsOk(config, s) && CountersOk(s)
    ensures CountersOk(Unregister(s, camera))
  {
    UnregisterHistory(config, s, camera, "", Sent);
    UnregisterHistory(config, s, camera, "", Displaced);
    UnregisterHistory(config, s, camera, "", Expired);
    UnregisterHistory(config, s, camera, "", Discarded);
    PendingAfterUpdate(s.queues, camera, []);
    if camera !in s.queues { assert s.queues - {camera} == s.queues; }
  }

  lemma UnregisterKeepsRing(config: Config, s: State, camera: string)
    requires RingOk(s) && BoundsOk(config, s)
    ensures RingOk(Unregister(s, camera)) && BoundsOk(config, Unregister(s, camera))
  {
    var t := Unregister(s, camera);
    WithoutRemoves(s.ready, camera);
    OneQueueGone(config, s, t, camera);
  }

  lemma OneQueueGone(config: Config, s: State, t: State, camera: string)
    requires BoundsOk(config, s) && t.queues == s.queues - {camera}
    ensures BoundsOk(config, t) && forall c :: t.Queue(c) == if c == camera then [] else s.Queue(c)
  {
    assert t.queues.Keys == s.queues.Keys - {camera};
    assert |t.queues| == |t.queues.Keys| && |s.queues| == |s.queues.Keys|;
  }

  lemma UnregisterKeepsInv(config: Config, s: State, camera: string)
    requires Inv(config, s)
    ensures Inv(config, Unregister(s, camera))
  {
    UnregisterKeepsRing(config, s, camera);
    forall c ensures Balanced(Unregister(s, camera), c) {
      assert Balanced(s, c);
      UnregisterBalances(config, s, camera, c);
    }
    UnregisterCounts(config, s, camera);
  }

  // ----- a whole batch

  lemma VisitDecreasesPending(config: Config, s: State, now: real)
    requires RingOk(s) && s.ready != []
    ensures Pending(Visit(config, s, now).0.queues) < Pending(s.queues)
  {
    HeadIsBacklogged(s);
    VisitPending(config, s, now);
  }

  function OfCamera(items: seq<ScheduledFrame>, camera: string): seq<ScheduledFrame> {
    if items == [] then []
    else (if items[0].frame.camera == camera then [items[0]] else []) + OfCamera(items[1..], camera)
  }

  /** The rest of a batch after its first visit: the state, what that visit gave, and the places left. */
  ghost predicate Continues(config: Config, s: State, now: real, room: nat, t: State, popped: seq<ScheduledFrame>, left: nat) {
    && left + |popped| == room && (left < room || |t.ready| < |s.ready|)
    && PopBatch(config, s, now, room).0 == PopBatch(config, t, now, left).0
    && PopBatch(config, s, now, room).1 == popped + PopBatch(config, t, now, left).1
  }

  lemma FirstVisit(config: Config, s: State, now: real, room: nat) returns (t: State, popped: seq<ScheduledFrame>, left: nat)
    requires s.ready != [] && room > 0
    ensures (t, popped) == Visit(config, s, now) && Continues(config, s, now, room, t, popped, left)
  {
    var visited := Visit(config, s, now);
    t, popped, left := visited.0, visited.1, room - |visited.1|;
    BatchUnfolds(config, s, now, room);
  }

  lemma FirstVisitKeepsInv(config: Config, s: State, now: real, room: nat) returns (t: State, popped: seq<ScheduledFrame>, left: nat)
    requires Inv(config, s) && s.ready != [] && room > 0
    ensures Inv(config, t) && Continues(config, s, now, room, t, popped, left)
  {
    VisitKeepsInv(config, s, now);
    t, popped, left := FirstVisit(config, s, now, room);
  }

  lemma {:induction false} BatchKeepsInv(config: Config, s: State, now: real, room: nat)
    requires Inv(config, s)
    ensures Inv(config, PopBatch(config, s, now, room).0)
    decreases room, |s.ready|
  {
    if s.ready != [] && room > 0 {
      var t, _, left := FirstVisitKeepsInv(config, s, now, room);
      BatchKeepsInv(config, t, now, left);
    }
  }

  lemma FirstVisitIsFresh(config: Config, s: State, now: real, room: nat) returns (t: State, popped: seq<ScheduledFrame>, left: nat)
    requires s.ready != [] && room > 0
    ensures Continues(config, s, now, room, t, popped, left) && t.emitted == s.emitted + |popped|
    ensures forall k :: 0 <= k < |popped| ==> !config.IsStale(popped[k], now)
  {
    t, popped, left := FirstVisit(config, s, now, room);
  }

  /** The batch fits, is counted, and holds no stale frame. */
  lemma {:induction false} BatchIsFresh(config: Config, s: State, now: real, room: nat)
    ensures var (t, batch) := PopBatch(config, s, now, room);
      && |batch| <= room
      && t.emitted == s.emitted + |batch|
      && forall k :: 0 <= k < |batch| ==> !config.IsStale(batch[k], now)
    decreases room, |s.ready|
  {
    if s.ready != [] && room > 0 {
      var t, _, left := FirstVisitIsFresh(config, s, now, room);
      BatchIsFresh(config, t, now, left);
    }
  }

  lemma {:induction false} ShortBatchEmptiesRing(config: Config, s: State, now: real, room: nat)
    ensures var (t, batch) := PopBatch(config, s, now, room); |batch| < room ==> t.ready == []
    decreases room, |s.ready|
  {
    if s.ready != [] && room > 0 {
      ShortBatchEmptiesRing(config, Visit(config, s, now).0, now, room - |Visit(config, s, now).1|);
    }
  }

  /** A batch with room to spare means that no camera has anything waiting. */
  lemma ShortBatchMeansAllEmpty(config: Config, s: State, now: real, room: nat)
    requires Inv(config, s) && |PopBatch(config, s, now, room).1| < room
    ensures forall c :: PopBatch(config, s, now, room).0.Queue(c) == []
  {
    var t := PopBatch(config, s, now, room).0;
    ShortBatchEmptiesRing(config, s, now, room);
    BatchKeepsInv(config, s, now, room);
    assert forall c :: c !in t.ready;
  }

  lemma Associative(a: seq<ScheduledFrame>, b: seq<ScheduledFrame>, c: seq<ScheduledFrame>)
    ensures a + (b + c) == (a + b) + c
  {
  }

  lemma {:induction false} OfCameraSplits(xs: seq<ScheduledFrame>, ys: seq<ScheduledFrame>, c: string)
    ensures OfCamera(xs + ys, c) == OfCamera(xs, c) + OfCamera(ys, c)
  {
    if xs == [] {
      assert xs + ys == ys;
    } else {
      OfCameraSplits(xs[1..], ys, c);
      assert (xs + ys)[0] == xs[0] && (xs + ys)[1..] == xs[1..] + ys;
      Associative(if xs[0].frame.camera == c then [xs[0]] else [], OfCamera(xs[1..], c), OfCamera(ys, c));
    }
  }

  lemma OfOne(item: ScheduledFrame, c: string)
    ensures OfCamera([item], c) == if item.frame.camera == c then [item] else []
  {
    assert [item][1..] == [];
  }

  lemma VisitPops(config: Config, s: State, now: real)
    requires s.ready != [] && s.ready[0] in s.queues
    ensures var queue := s.queues[s.ready[0]];
      var stale := StaleRun(config, queue, now);
      Visit(config, s, now).1 == queue[stale..Taken(config, queue, now)]
  {
  }

  lemma AtMostOneOf(items: seq<ScheduledFrame>, home: string, c: string)
    requires |items| <= 1 && forall i :: 0 <= i < |items| ==> items[i].frame.camera == home
    ensures OfCamera(items, c) == if c == home then items else []
  {
    if items != [] {
      assert items == [items[0]];
      OfOne(items[0], c);
    }
  }

  lemma VisitIsTheEmission(config: Config, s: State, now: real, c: string)
    requires BoundsOk(config, s) && s.ready != [] && s.ready[0] in s.queues
    ensures Emissions(Visit(config, s, now).0.log, c) == Emissions(s.log, c) + OfCamera(Visit(config, s, now).1, c)
  {
    VisitHistory(config, s, now, c, Sent);
    VisitPops(config, s, now);
    AtMostOneOf(Visit(config, s, now).1, s.ready[0], c);
  }

  lemma JoinedEmissions(before: seq<ScheduledFrame>, first: seq<ScheduledFrame>, between: seq<ScheduledFrame>,
                        second: seq<ScheduledFrame>, after: seq<ScheduledFrame>, c: string)
    requires between == before + OfCamera(first, c) && after == between + OfCamera(second, c)
    ensures after == before + OfCamera(first + second, c)
  {
    OfCameraSplits(first, second, c);
    Associative(before, OfCamera(first, c), OfCamera(second, c));
  }

  lemma FirstVisitEmits(config: Config, s: State, now: real, room: nat, c: string) returns (t: State, popped: seq<ScheduledFrame>, left: nat)
    requires RingOk(s) && BoundsOk(config, s) && s.ready != [] && room > 0
    ensures RingOk(t) && BoundsOk(config, t) && Continues(config, s, now, room, t, popped, left)
    ensures Emissions(t.log, c) == Emissions(s.log, c) + OfCamera(popped, c)
  {
    HeadIsBacklogged(s);
    VisitKeepsRing(config, s, now);
    VisitIsTheEmission(config, s, now, c);
    t, popped, left := FirstVisit(config, s, now, room);
  }

  /** Per camera, the history of emissions grows by exactly the batch, in batch order. */
  lemma {:induction false} BatchIsTheEmissions(config: Config, s: State, now: real, room: nat, c: string)
    requires RingOk(s) && BoundsOk(config, s)
    ensures Emissions(PopBatch(config, s, now, room).0.log, c)
         == Emissions(s.log, c) + OfCamera(PopBatch(config, s, now, room).1, c)
    decreases room, |s.ready|
  {
    if s.ready != [] && room > 0 {
      var t, popped, left := FirstVisitEmits(config, s, now, room, c);
      BatchIsTheEmissions(config, t, now, left, c);
      JoinedEmissions(Emissions(s.log, c), popped, Emissions(t.log, c), PopBatch(config, t, now, left).1,
                      Emissions(PopBatch(config, t, now, left).0.log, c), c);
    }
  }

  lemma BatchUnfolds(config: Config, s: State, now: real, room: nat)
    requires s.ready != [] && room > 0
    ensures var visited := Visit(config, s, now);
      var rest := PopBatch(config, visited.0, now, room - |visited.1|);
      PopBatch(config, s, now, room) == (rest.0, visited.1 + rest.1)
  {
  }

  function Prefixed(batch: seq<ScheduledFrame>, rest: (State, seq<ScheduledFrame>)): (State, seq<ScheduledFrame>) {
    (rest.0, batch + rest.1)
  }

  lemma PrefixUnfolds(config: Config, s: State, now: real, room: nat, batch: seq<ScheduledFrame>)
    requires s.ready != [] && room > 0
    ensures var visited := Visit(config, s, now);
      Prefixed(batch, PopBatch(config, s, now, room)) == Prefixed(batch + visited.1, PopBatch(config, visited.0, now, room - |visited.1|))
  {
    BatchUnfolds(config, s, now, room);
    var visited := Visit(config, s, now);
    Associative(batch, visited.1, PopBatch(config, visited.0, now, room - |visited.1|).1);
  }

  // ----- order: what is emitted is a subsequence of what was submitted

  ghost predicate Subsequence(xs: seq<ScheduledFrame>, ys: seq<ScheduledFrame>) {
    if xs == [] then true
    else if ys == [] then false
    else if xs[|xs| - 1] == ys[|ys| - 1] && Subsequence(xs[..|xs| - 1], ys[..|ys| - 1]) then true
    else Subsequence(xs, ys[..|ys| - 1])
  }

  lemma {:induction false} SubsequenceOfLonger(xs: seq<ScheduledFrame>, ys: seq<ScheduledFrame>, zs: seq<ScheduledFrame>)
    requires Subsequence(xs, ys)
    ensures Subsequence(xs, ys + zs)
    decreases |zs|
  {
    if zs == [] {
      assert ys + zs == ys;
    } else {
      SubsequenceOfLonger(xs, ys, zs[..|zs| - 1]);
      assert (ys + zs)[..|ys + zs| - 1] == ys + zs[..|zs| - 1];
    }
  }

  lemma {:induction false} EmissionsInDepartureOrder(log: seq<Happening>, c: string)
    ensures Subsequence(Emissions(log, c), Departures(log, c))
  {
    if log != [] {
      var last, rest := log[|log| - 1], log[..|log| - 1];
      EmissionsInDepartureOrder(rest, c);
      if last.Left? && last.item.frame.camera == c {
        var xs, ys := Emissions(log, c), Departures(log, c);
        assert ys[..|ys| - 1] == Departures(rest, c);
        if last.how.Emitted? {
          assert xs[..|xs| - 1] == Emissions(rest, c);
        } else {
          assert xs == Emissions(rest, c);
        }
      } else {
        assert Emissions(log, c) == Emissions(rest, c) && Departures(log, c) == Departures(rest, c);
      }
    }
  }

  /** Per camera, the emitted frames are a subsequence of the submitted ones. */
  lemma EmittedInSubmissionOrder(config: Config, s: State, c: string)
    requires Inv(config, s)
    ensures Subsequence(Emissions(s.log, c), Arrivals(s.log, c))
  {
    assert Balanced(s, c);
    EmissionsInDepartureOrder(s.log, c);
    SubsequenceOfLonger(Emissions(s.log, c), Departures(s.log, c), s.Queue(c));
  }

  // ----- the scheduler object

  datatype SubmitResult = Accepted(dropped: nat) | CapacityReached

  datatype Snapshot = Snapshot(submitted: nat, emitted: nat, droppedOldest: nat, droppedStale: nat,
                               pending: nat, cameras: nat, emittedPer: map<string, nat>)

  class FairLatestFrameScheduler {
    const config: Config
    var queues: map<string, seq<ScheduledFrame>>
    var ready: seq<string>
    var readySet: set<string>
    var submitted: nat
    var emitted: nat
    var droppedOldest: nat
    var droppedStale: nat
    var emittedPer: map<string, nat>
    ghost var log: seq<Happening>

    ghost function Current(): State
      reads this
    {
      State(queues, ready, readySet, submitted, emitted, droppedOldest, droppedStale, emittedPer, log)
    }

    ghost predicate Valid()
      reads this
    {
      config.Valid() && Inv(config, Current())
    }

    constructor (config: Config)
      requires config.Valid()
      ensures Valid() && this.config == config && Current() == Initially
    {
      this.config := config;
      queues, ready, readySet := map[], [], {};
      submitted, emitted, droppedOldest, droppedStale := 0, 0, 0, 0;
      emittedPer, log := map[], [];
      new;
      InitiallyInv(config, Current());
    }

    /** `_mark_ready`. */
    method MarkReady(camera: string)
      modifies this`ready, this`readySet
      ensures Current() == old(Current()).MarkReady(camera)
    {
      if camera !in readySet {
        ready := ready + [camera];
        readySet := readySet + {camera};
      }
    }

    /** The body of `submit` once capacity has been checked. */
    method Enqueue(frame: Frame, now: real) returns (dropped: nat)
      requires 1 <= config.queueSize
      modifies this
      ensures Current() == Submit(config, old(Current()), frame, now)
      ensures dropped == Overflow(config, old(Current()).Queue(frame.camera))
    {
      var queue := if frame.camera in queues then queues[frame.camera] else [];
      ghost var full := queue;
      dropped := 0;
      while |queue| >= config.queueSize
        invariant dropped <= Overflow(config, full) && queue == full[dropped..]
      {
        queue := queue[1..];
        dropped := dropped + 1;
      }
      queues := queues[frame.camera := queue + [ScheduledFrame(frame, now)]];
      submitted := submitted + 1;
      droppedOldest := droppedOldest + dropped;
      log := log + Leaving(full[..dropped], Oldest) + [Arrived(ScheduledFrame(frame, now))];
      MarkReady(frame.camera);
    }

    method SubmitFrame(frame: Frame, now: real) returns (result: SubmitResult)
      requires Valid()
      modifies this
      ensures Valid()
      ensures result.CapacityReached? <==> !old(HasRoom(config, Current(), frame.camera))
      ensures result.CapacityReached? ==> Current() == old(Current())
      ensures result.Accepted? ==>
        && Current() == Submit(config, old(Current()), frame, now)
        && result.dropped == Overflow(config, old(Current()).Queue(frame.camera))
    {
      if frame.camera !in queues && |queues| >= config.maximumCameras {
        return CapacityReached;
      }
      SubmitKeepsInv(config, Current(), frame, now);
      var dropped := Enqueue(frame, now);
      result := Accepted(dropped);
    }

    /** The stale loop: pops from the front while the front is stale. */
    method DropStale(queue: seq<ScheduledFrame>, now: real) returns (rest: seq<ScheduledFrame>)
      modifies this`droppedStale
      ensures rest == queue[StaleRun(config, queue, now)..]
      ensures droppedStale == old(droppedStale) + StaleRun(config, queue, now)
    {
      rest := queue;
      ghost var stale := 0;
      while rest != [] && config.IsStale(rest[0], now)
        invariant stale <= |queue| && rest == queue[stale..]
        invariant StaleRun(config, queue, now) == stale + StaleRun(config, rest, now)
        invariant droppedStale == old(droppedStale) + stale
      {
        rest := rest[1..];
        droppedStale := droppedStale + 1;
        stale := stale + 1;
      }
    }

    /** Emits the front of `queue`, the fresh rest of the visited camera's frames. */
    method EmitFront(camera: string, queue: seq<ScheduledFrame>, now: real)
      requires queue != []
      modifies this
      ensures var s := old(Current());
        var sent := s.(queues := s.queues[camera := queue[1..]],
                       emitted := s.emitted + 1,
                       emittedPer := s.emittedPer[camera := s.EmittedBy(camera) + 1],
                       log := s.log + [Left(queue[0], Emitted(now))]);
        Current() == if queue[1..] == [] then sent else sent.MarkReady(camera)
    {
      log := log + [Left(queue[0], Emitted(now))];
      emitted := emitted + 1;
      emittedPer := emittedPer[camera := (if camera in emittedPer then emittedPer[camera] else 0) + 1];
      queues := queues[camera := queue[1..]];
      if queue[1..] != [] { MarkReady(camera); }
    }

    /** Drops the stale front of the visited camera's queue and emits the next frame, if any. */
    method VisitQueue(camera: string, now: real) returns (popped: seq<ScheduledFrame>)
      requires camera in queues
      modifies this
      ensures Current() == ServeQueue(config, old(Current()), camera, now).0
      ensures popped == ServeQueue(config, old(Current()), camera, now).1
    {
      ghost var whole, stale := queues[camera], StaleRun(config, queues[camera], now);
      var queue := DropStale(queues[camera], now);
      queues := queues[camera := queue];
      log := log + Leaving(whole[..stale], Stale(now));
      popped := [];
      if queue != [] {
        popped := [queue[0]];
        assert queue[0] == whole[stale] && queue[1..] == whole[stale + 1..];
        assert queues[camera := queue[1..]] == old(queues)[camera := queue[1..]];
        EmitFront(camera, queue, now);
      }
    }

    /** One turn of the loop in `_pop_locked`. */
    method VisitHead(now: real) returns (popped: seq<ScheduledFrame>)
      requires ready != []
      modifies this
      ensures Current() == Visit(config, old(Current()), now).0
      ensures popped == Visit(config, old(Current()), now).1
    {
      var camera := ready[0];
      ready := ready[1..];
      readySet := readySet - {camera};
      popped := [];
      if camera in queues { popped := VisitQueue(camera, now); }
    }

    method PopNext(now: real, batch: seq<ScheduledFrame>, room: nat) returns (longer: seq<ScheduledFrame>)
      requires ready != [] && room > 0
      modifies this
      ensures |batch| <= |longer| <= |batch| + room && (|longer| > |batch| || |ready| < |old(ready)|)
      ensures Prefixed(longer, PopBatch(config, Current(), now, room - (|longer| - |batch|)))
           == Prefixed(batch, PopBatch(config, old(Current()), now, room))
    {
      PrefixUnfolds(config, Current(), now, room, batch);
      var popped := VisitHead(now);
      longer := batch + popped;
    }

    /** The loop of `_pop_locked`. */
    method PopLocked(now: real) returns (batch: seq<ScheduledFrame>)
      modifies this
      ensures Current() == PopBatch(config, old(Current()), now, config.maximumBatchSize).0
      ensures batch == PopBatch(config, old(Current()), now, config.maximumBatchSize).1
    {
      ghost var whole := PopBatch(config, Current(), now, config.maximumBatchSize);
      batch := [];
      assert [] + whole.1 == whole.1;
      while ready != [] && |batch| < config.maximumBatchSize
        invariant |batch| <= config.maximumBatchSize
        invariant whole == Prefixed(batch, PopBatch(config, Current(), now, config.maximumBatchSize - |batch|))
        decreases config.maximumBatchSize - |batch|, |ready|
      {
        batch := PopNext(now, batch, config.maximumBatchSize - |batch|);
      }
    }

    /** `pop_batch`: fresh frames only, at most a batch, and short only when nothing is left waiting. */
    method Pop(now: real) returns (batch: seq<ScheduledFrame>)
      requires Valid()
      modifies this
      ensures Valid()
      ensures Current() == PopBatch(config, old(Current()), now, config.maximumBatchSize).0
      ensures batch == PopBatch(config, old(Current()), now, config.maximumBatchSize).1
      ensures forall k :: 0 <= k < |batch| ==> !config.IsStale(batch[k], now)
      ensures |batch| <= config.maximumBatchSize
      ensures |batch| < config.maximumBatchSize ==> forall c :: Current().Queue(c) == []
    {
      BatchKeepsInv(config, Current(), now, config.maximumBatchSize);
      BatchIsFresh(config, Current(), now, config.maximumBatchSize);
      if |PopBatch(config, Current(), now, config.maximumBatchSize).1| < config.maximumBatchSize {
        ShortBatchMeansAllEmpty(config, Current(), now, config.maximumBatchSize);
      }
      batch := PopLocked(now);
    }

    method Forget(camera: string) returns (discarded: nat)
      requires Valid()
      modifies this
      ensures Valid()
      ensures Current() == Unregister(old(Current()), camera)
      ensures discarded == |old(Current()).Queue(camera)|
    {
      ghost var before := Current();
      discarded := if camera in queues then |queues[camera]| else 0;
      log := log + Leaving(if camera in queues then queues[camera] else [], Unregistered);
      queues := queues - {camera};
      readySet := readySet - {camera};
      ready := Without(ready, camera);
      UnregisterKeepsInv(config, before, camera);
    }

    /** `snapshot`: the counters balance once the frames discarded by `unregister` are added. */
    method TakeSnapshot() returns (snapshot: Snapshot)
      requires Valid()
      ensures snapshot.submitted == snapshot.emitted + snapshot.droppedOldest + snapshot.droppedStale
                                    + Exits(log, Discarded) + snapshot.pending
      ensures snapshot.pending == Pending(queues) && snapshot.cameras == |queues| <= config.maximumCameras
      ensures forall c :: (if c in snapshot.emittedPer then snapshot.emittedPer[c] else 0) == |Emissions(log, c)|
    {
      var rest, pending := queues, 0;
      while rest != map[]
        invariant pending + Pending(rest) == Pending(queues)
        decreases |rest|
      {
        var c :| c in rest;
        PendingSplits(rest, c);
        pending := pending + |rest[c]|;
        rest := rest - {c};
      }
      snapshot := Snapshot(submitted, emitted, droppedOldest, droppedStale, pending, |queues|, emittedPer);
      forall c ensures (if c in emittedPer then emittedPer[c] else 0) == |Emissions(log, c)| {
        assert Balanced(Current(), c);
      }
    }
  }
}
