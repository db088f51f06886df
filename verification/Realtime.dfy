/** Realtime fan-out (application/realtime.py): bounded subscriptions that tell a slow
    consumer exactly what it missed, and a hub with a bounded replay history. */
module Realtime {
  import opened Options

  datatype Event = Event(id: string, body: string)

  datatype Gap = Gap(reason: string, dropped: nat, lastAvailable: Option<string>)

  datatype Delivery = GotEvent(event: Event) | GotGap(gap: Gap)

  // ----- what a consumer can conclude from the deliveries it has seen

  /** The stream index a consumer has reached: events delivered plus drops reported. */
  function Position(log: seq<Delivery>): nat {
    if log == [] then 0
    else
      Position(log[..|log| - 1]) + match log[|log| - 1] { case GotEvent(_) => 1 case GotGap(gap) => gap.dropped }
  }

  /** Each delivered event is the stream's event at the position reached before it. */
  ghost predicate Explains(log: seq<Delivery>, stream: seq<Event>) {
    && Position(log) <= |stream|
    && forall k :: 0 <= k < |log| && log[k].GotEvent? ==> Position(log[..k]) < |stream| && log[k].event == stream[Position(log[..k])]
  }

  /** The events named missing by the gaps, in order. */
  function Missing(log: seq<Delivery>, stream: seq<Event>): seq<Event>
    requires Position(log) <= |stream|
  {
    if log == [] then []
    else
      var front := log[..|log| - 1];
      Missing(front, stream) + if log[|log| - 1].GotGap? then stream[Position(front)..Position(log)] else []
  }

  function Delivered(log: seq<Delivery>): seq<Event> {
    if log == [] then []
    else Delivered(log[..|log| - 1]) + if log[|log| - 1].GotEvent? then [log[|log| - 1].event] else []
  }

  /** Plays the log back, filling every gap with the next lost events. */
  function Fill(log: seq<Delivery>, lost: seq<Event>): seq<Event> {
    if log == [] then []
    else
      match log[|log| - 1]
      case GotEvent(event) => Fill(log[..|log| - 1], lost) + [event]
      case GotGap(gap) =>
        var kept := if gap.dropped <= |lost| then |lost| - gap.dropped else 0;
        Fill(log[..|log| - 1], lost[..kept]) + lost[kept..]
  }

  lemma PositionGrows(log: seq<Delivery>, next: Delivery)
    ensures Position(log + [next]) == Position(log) + match next { case GotEvent(_) => 1 case GotGap(gap) => gap.dropped }
  {
    assert (log + [next])[..|log|] == log;
  }

  lemma {:induction false} PositionIsMonotone(log: seq<Delivery>, k: nat)
    requires k <= |log|
    ensures Position(log[..k]) <= Position(log)
    decreases |log|
  {
    if k == |log| {
      assert log[..k] == log;
    } else {
      PositionIsMonotone(log[..|log| - 1], k);
      assert log[..|log| - 1][..k] == log[..k];
    }
  }

  lemma ExplainsPrefix(log: seq<Delivery>, stream: seq<Event>)
    requires log != [] && Explains(log, stream)
    ensures Explains(log[..|log| - 1], stream)
  {
    var front := log[..|log| - 1];
    PositionIsMonotone(log, |front|);
    forall k | 0 <= k < |front| && front[k].GotEvent?
      ensures Position(front[..k]) < |stream| && front[k].event == stream[Position(front[..k])]
    {
      assert front[..k] == log[..k];
    }
  }

  lemma FilledEvent(front: seq<Delivery>, event: Event, stream: seq<Event>)
    requires Position(front) < |stream| && event == stream[Position(front)]
    requires Fill(front, Missing(front, stream)) == stream[..Position(front)]
    ensures var log := front + [GotEvent(event)];
      Position(log) == Position(front) + 1 && Fill(log, Missing(log, stream)) == stream[..Position(log)]
  {
    var log := front + [GotEvent(event)];
    PositionGrows(front, GotEvent(event));
    assert log[..|front|] == front && log[|front|] == GotEvent(event);
    assert Missing(log, stream) == Missing(front, stream);
    assert stream[..Position(log)] == stream[..Position(front)] + [event];
  }

  lemma FilledGap(front: seq<Delivery>, gap: Gap, stream: seq<Event>)
    requires Position(front) + gap.dropped <= |stream|
    requires Fill(front, Missing(front, stream)) == stream[..Position(front)]
    ensures var log := front + [GotGap(gap)];
      && Position(log) == Position(front) + gap.dropped && Fill(log, Missing(log, stream)) == stream[..Position(log)]
      && |Missing(log, stream)| == |Missing(front, stream)| + gap.dropped
  {
    var log := front + [GotGap(gap)];
    PositionGrows(front, GotGap(gap));
    assert log[..|front|] == front && log[|front|] == GotGap(gap);
    var before, jumped := Missing(front, stream), stream[Position(front)..Position(log)];
    assert Missing(log, stream) == before + jumped;
    assert (before + jumped)[..|before|] == before && (before + jumped)[|before|..] == jumped;
    assert stream[..Position(log)] == stream[..Position(front)] + jumped;
  }

  /** Delivered and missing events, put together as the log orders them, are the stream up to
      the consumer's position: nothing is reordered, repeated or silently lost. */
  lemma {:induction false} GapsNameExactlyTheMissing(log: seq<Delivery>, stream: seq<Event>)
    requires Explains(log, stream)
    ensures Fill(log, Missing(log, stream)) == stream[..Position(log)]
    ensures |Missing(log, stream)| + |Delivered(log)| == Position(log)
    decreases |log|
  {
    if log != [] {
      var front, last := log[..|log| - 1], log[|log| - 1];
      assert log == front + [last];
      ExplainsPrefix(log, stream);
      GapsNameExactlyTheMissing(front, stream);
      match last
      case GotEvent(event) => FilledEvent(front, event, stream);
      case GotGap(gap) => FilledGap(front, gap, stream);
    }
  }

  lemma ExplainsStep(log: seq<Delivery>, next: Delivery, stream: seq<Event>)
    requires Explains(log, stream)
    requires Position(log + [next]) <= |stream|
    requires next.GotEvent? ==> Position(log) < |stream| && next.event == stream[Position(log)]
    ensures Explains(log + [next], stream)
  {
    forall k | 0 <= k < |log + [next]| && (log + [next])[k].GotEvent?
      ensures Position((log + [next])[..k]) < |stream| && (log + [next])[k].event == stream[Position((log + [next])[..k])]
    {
      assert (log + [next])[..k] == log[..k];
      if k == |log| { assert log[..k] == log; }
    }
  }

  lemma GapTaken(log: seq<Delivery>, gap: Gap, stream: seq<Event>)
    requires Position(log) + gap.dropped <= |stream|
    ensures Position(log + [GotGap(gap)]) == Position(log) + gap.dropped
    ensures Explains(log, stream) ==> Explains(log + [GotGap(gap)], stream)
  {
    PositionGrows(log, GotGap(gap));
    if Explains(log, stream) { ExplainsStep(log, GotGap(gap), stream); }
  }

  lemma EventTaken(log: seq<Delivery>, event: Event, stream: seq<Event>)
    ensures Position(log + [GotEvent(event)]) == Position(log) + 1
    ensures Explains(log, stream) && Position(log) < |stream| && event == stream[Position(log)] ==> Explains(log + [GotEvent(event)], stream)
  {
    PositionGrows(log, GotEvent(event));
    if Explains(log, stream) && Position(log) < |stream| && event == stream[Position(log)] {
      ExplainsStep(log, GotEvent(event), stream);
    }
  }

  lemma ExplainsLongerStream(log: seq<Delivery>, stream: seq<Event>, more: seq<Event>)
    ensures Explains(log, stream) ==> Explains(log, stream + more)
  {
  }

  // ----- the subscription

  datatype Item = Queued(event: Event) | ClosedMark

  datatype Reception = Got(delivery: Delivery) | TimedOut | SubscriptionClosed | BadTimeout

  /** The queue holds the events from index `from` on. */
  ghost predicate Holds(queue: seq<Item>, events: seq<Event>, from: nat) {
    from + |queue| == |events| && forall i :: 0 <= i < |queue| ==> queue[i] == Queued(events[from + i])
  }

  lemma HoldsRest(queue: seq<Item>, events: seq<Event>, from: nat)
    requires Holds(queue, events, from) && queue != []
    ensures from < |events| && queue[0] == Queued(events[from]) && Holds(queue[1..], events, from + 1)
  {
  }

  lemma HoldsOneMore(queue: seq<Item>, events: seq<Event>, from: nat, event: Event)
    requires Holds(queue, events, from)
    ensures Holds(queue + [Queued(event)], events + [event], from)
  {
  }

  /** How many of `n` events offered to an empty queue are dropped. */
  function Overflow(n: nat, capacity: int): nat {
    if 0 < capacity < n then n - capacity else 0
  }

  ghost predicate DistinctIds(events: seq<Event>) {
    forall i, j :: 0 <= i < j < |events| ==> events[i].id != events[j].id
  }

  /** A consumer that is up to date sleeps while `arriving` is offered. What it is given is in
      its place exactly when the queue could hold everything that arrived. */
  lemma WokenReceiverIsInPlaceIff(log: seq<Delivery>, stream: seq<Event>, arriving: seq<Event>, capacity: int)
    requires Explains(log, stream) && Position(log) == |stream|
    requires arriving != [] && DistinctIds(arriving)
    ensures Explains(log + [GotEvent(arriving[Overflow(|arriving|, capacity)])], stream + arriving)
       <==> capacity <= 0 || |arriving| <= capacity
  {
    var next := GotEvent(arriving[Overflow(|arriving|, capacity)]);
    PositionGrows(log, next);
    ExplainsLongerStream(log, stream, arriving);
    if Overflow(|arriving|, capacity) == 0 {
      ExplainsStep(log, next, stream + arriving);
    } else {
      assert (log + [next])[..|log|] == log && (log + [next])[|log|] == next;
      assert (stream + arriving)[|stream|] == arriving[0];
    }
  }

  lemma WokenReceiver(log: seq<Delivery>, stream: seq<Event>, arriving: seq<Event>, capacity: int)
    requires Position(log) == |stream| && arriving != []
    ensures Explains(log, stream) && DistinctIds(arriving) ==>
      Explains(log + [GotEvent(arriving[Overflow(|arriving|, capacity)])], stream + arriving) == (capacity <= 0 || |arriving| <= capacity)
  {
    if Explains(log, stream) && DistinctIds(arriving) { WokenReceiverIsInPlaceIff(log, stream, arriving, capacity); }
  }

  class RealtimeSubscription {
    const id: string
    const capacity: int  // a queue whose maximum is not positive is unbounded
    var queue: seq<Item>
    var pendingGap: Option<Gap>
    var closed: bool
    ghost var accepted: seq<Event>  // every offer this subscription took
    ghost var log: seq<Delivery>    // every delivery it handed out

    ghost function Dropped(): nat
      reads this
    {
      if pendingGap.Some? then pendingGap.value.dropped else 0
    }

    ghost predicate Full()
      reads this`closed, this`queue
    {
      !closed && 0 < capacity == |queue|
    }

    /** While open, the queue holds exactly the accepted events from the consumer's position,
        advanced by the drops that are still to be reported. */
    ghost predicate Counted()
      reads this
    {
      && Position(log) + Dropped() <= |accepted|
      && (capacity > 0 ==> |queue| <= capacity)
      && (if closed then queue == [] || queue == [ClosedMark]
          else Holds(queue, accepted, Position(log) + Dropped()))
    }

    /** Moreover, every event was delivered in its place, after the gaps before it. */
    ghost predicate Valid()
      reads this
    {
      && Counted()
      && Explains(log, accepted)
      && (!closed && Dropped() > 0 ==>
            pendingGap.value.lastAvailable == Some(accepted[|accepted| - 1].id) && 0 < capacity == |queue|)
    }

    constructor (id: string, capacity: int)
      ensures Valid() && !closed && this.id == id && this.capacity == capacity
      ensures accepted == [] && log == [] && pendingGap == None
    {
      this.id, this.capacity := id, capacity;
      queue, pendingGap, closed := [], None, false;
      accepted, log := [], [];
    }

    method MarkGap(reason: string, droppedEvents: nat, lastAvailable: Option<string>)
      modifies this`pendingGap
      ensures pendingGap == Some(Gap(
        if old(pendingGap).None? then reason else old(pendingGap).value.reason,
        droppedEvents + old(Dropped()),
        lastAvailable))
    {
      pendingGap := match pendingGap
        case None => Some(Gap(reason, droppedEvents, lastAvailable))
        case Some(gap) => Some(Gap(gap.reason, droppedEvents + gap.dropped, lastAvailable));
    }

    /** When the queue is full, drops its oldest event and notes the gap. */
    method MakeRoom(newestId: string) returns (dropped: nat)
      requires Counted() && !closed
      modifies this`queue, this`pendingGap
      ensures dropped == if 0 < capacity == |old(queue)| then 1 else 0
      ensures Dropped() == old(Dropped()) + dropped <= |accepted| - Position(log)
      ensures Holds(queue, accepted, Position(log) + Dropped())
      ensures 0 < capacity ==> |queue| < capacity
      ensures dropped == 0 ==> pendingGap == old(pendingGap)
      ensures dropped == 1 ==> pendingGap.value.lastAvailable == Some(newestId) && |queue| == capacity - 1
    {
      dropped := 0;
      if 0 < capacity <= |queue| {
        HoldsRest(queue, accepted, Position(log) + Dropped());
        queue := queue[1..];
        dropped := 1;
        MarkGap("slow_consumer", dropped, Some(newestId));
      }
    }

    method Offer(event: Event) returns (taken: bool, dropped: nat)
      requires Counted()
      modifies this`queue, this`pendingGap, this`accepted
      ensures Counted() && (old(Valid()) ==> Valid())
      ensures taken == !closed
      ensures accepted == if taken then old(accepted) + [event] else old(accepted)
      ensures dropped == if taken && 0 < capacity == |old(queue)| then 1 else 0
      ensures taken ==> Dropped() == old(Dropped()) + dropped && |queue| == |old(queue)| + 1 - dropped
      ensures dropped == 0 ==> pendingGap == old(pendingGap)
      ensures closed ==> queue == old(queue)
    {
      if closed { return false, 0; }
      dropped := MakeRoom(event.id);
      HoldsOneMore(queue, accepted, Position(log) + Dropped(), event);
      queue := queue + [Queued(event)];
      ExplainsLongerStream(log, accepted, [event]);
      accepted := accepted + [event];
      taken := true;
    }

    /** Hands out the pending gap; the consumer's position jumps over the reported drops. */
    method TakeGap() returns (gap: Gap)
      requires Counted() && pendingGap.Some?
      modifies this`pendingGap, this`log
      ensures Counted() && (old(Valid()) ==> Valid()) && pendingGap == None
      ensures Some(gap) == old(pendingGap) && log == old(log) + [GotGap(gap)]
    {
      gap := pendingGap.value;
      GapTaken(log, gap, accepted);
      pendingGap := None;
      log := log + [GotGap(gap)];
    }

    method PopFront(ghost from: nat) returns (item: Item)
      requires queue != [] && if closed then queue == [ClosedMark] else Holds(queue, accepted, from)
      modifies this`queue
      ensures |queue| == |old(queue)| - 1
      ensures if closed then item == ClosedMark && queue == []
        else from < |accepted| && item == Queued(accepted[from]) && Holds(queue, accepted, from + 1)
    {
      if !closed { HoldsRest(queue, accepted, from); }
      item := queue[0];
      queue := queue[1..];
    }

    /** Hands out the front of the queue: the event at the consumer's position, advanced by the
        drops that nobody has reported. */
    method TakeFront() returns (item: Item)
      requires Counted() && queue != []
      modifies this`queue, this`log
      ensures Counted() && (old(Valid()) && pendingGap.None? ==> Valid())
      ensures item.ClosedMark? <==> closed
      ensures item.ClosedMark? ==> log == old(log)
      ensures item.Queued? ==>
        && Position(old(log)) + Dropped() < |accepted| && item.event == accepted[Position(old(log)) + Dropped()]
        && log == old(log) + [GotEvent(item.event)] && Position(log) == Position(old(log)) + 1
    {
      item := PopFront(Position(log) + Dropped());
      if !closed {
        EventTaken(log, item.event, accepted);
        log := log + [GotEvent(item.event)];
      }
    }

    /** `receive` when it does not have to wait, or waits in vain. A pending gap always goes first. */
    method Receive(timeoutSeconds: real) returns (r: Reception)
      requires Counted()
      modifies this`queue, this`pendingGap, this`log
      ensures Counted() && (old(Valid()) ==> Valid())
      ensures r.BadTimeout? <==> timeoutSeconds <= 0.0
      ensures r.Got? ==> log == old(log) + [r.delivery]
      ensures !r.Got? ==> log == old(log)
      ensures r.Got? && r.delivery.GotGap? <==> timeoutSeconds > 0.0 && old(pendingGap).Some?
      ensures r.Got? && r.delivery.GotGap? ==> Some(r.delivery.gap) == old(pendingGap)
      ensures r.Got? && r.delivery.GotEvent? ==>
        Position(old(log)) < |accepted| && r.delivery.event == accepted[Position(old(log))]
      ensures r.TimedOut? && !closed ==> Position(log) == |accepted|
      ensures r.SubscriptionClosed? ==> closed
    {
      if timeoutSeconds <= 0.0 { return BadTimeout; }
      if pendingGap.Some? {
        var gap := TakeGap();
        return Got(GotGap(gap));
      }
      if queue == [] { return TimedOut; }
      var item := TakeFront();
      r := match item case ClosedMark => SubscriptionClosed case Queued(event) => Got(GotEvent(event));
    }

    method OfferNth(events: seq<Event>, k: nat, ghost before: seq<Event>)
      requires Counted() && !closed && k < |events| && accepted == before + events[..k]
      requires Dropped() == Overflow(k, capacity) && |queue| == k - Dropped()
      modifies this`queue, this`pendingGap, this`accepted
      ensures Counted() && (old(Valid()) ==> Valid()) && accepted == before + events[..k + 1]
      ensures Dropped() == Overflow(k + 1, capacity) && |queue| == k + 1 - Dropped()
    {
      var _, dropped := Offer(events[k]);
      assert before + events[..k + 1] == before + events[..k] + [events[k]];
    }

    /** Several offers in a row, from an empty queue: all but the newest `capacity` are dropped. */
    method OfferAll(events: seq<Event>)
      requires Counted() && !closed && queue == [] && pendingGap == None
      modifies this`queue, this`pendingGap, this`accepted
      ensures Counted() && (old(Valid()) ==> Valid())
      ensures accepted == old(accepted) + events
      ensures Dropped() == Overflow(|events|, capacity) && |queue| == |events| - Dropped()
    {
      ghost var before, wasValid := accepted, Valid();
      assert before + events[..0] == before;
      for k := 0 to |events|
        invariant Counted() && (wasValid ==> Valid())
        invariant accepted == before + events[..k]
        invariant Dropped() == Overflow(k, capacity) && |queue| == k - Dropped()
      {
        OfferNth(events, k, before);
      }
      assert events[..|events|] == events;
    }

    /** `receive` on an empty queue, with the events that are offered before the woken receiver
        runs. It takes the front of the queue without looking at the gap again. */
    method ReceiveAsleep(arriving: seq<Event>) returns (event: Event)
      requires Counted() && !closed && queue == [] && pendingGap == None && arriving != []
      modifies this`queue, this`pendingGap, this`accepted, this`log
      ensures Counted() && accepted == old(accepted) + arriving && log == old(log) + [GotEvent(event)]
      ensures Position(log) + Dropped() + |queue| == |accepted|
      ensures event == arriving[Overflow(|arriving|, capacity)] && Dropped() == Overflow(|arriving|, capacity)
      ensures old(Explains(log, accepted)) && DistinctIds(arriving) ==>
        (Explains(log, accepted) <==> capacity <= 0 || |arriving| <= capacity)
    {
      assert Position(log) == |accepted|;
      WokenReceiver(log, accepted, arriving, capacity);
      OfferAll(arriving);
      var item := TakeFront();
      event := item.event;
    }

    method Close()
      requires Counted()
      modifies this`queue, this`closed
      ensures Counted() && (old(Valid()) ==> Valid()) && closed
      ensures queue == if old(closed) then old(queue) else [ClosedMark]
    {
      if closed { return; }
      closed := true;
      queue := [ClosedMark];
    }
  }

  /** A receiver that slept while more events arrived than the queue holds, and so skipped the
      first one: the delivered event stands before the gap that it should follow. */
  method OvertakenReceiver(first: Event, second: Event) returns (s: RealtimeSubscription)
    requires first.id != second.id
    ensures fresh(s) && s.accepted == [first, second] && s.log == [GotEvent(second)]
    ensures s.pendingGap.Some? && s.pendingGap.value.dropped == 1 && !Explains(s.log, s.accepted)
  {
    s := new RealtimeSubscription("", 1);
    var event := s.ReceiveAsleep([first, second]);
  }

  // ----- the hub

  function Ids(events: seq<Event>): set<string> {
    set i | 0 <= i < |events| :: events[i].id
  }

  function Tail(stream: seq<Event>, n: nat): (tail: seq<Event>)
    ensures |tail| == if n <= |stream| then n else |stream|
  {
    if n <= |stream| then stream[|stream| - n..] else stream
  }

  lemma ResumesAfter(history: seq<Event>, k: nat, gap: Option<Gap>)
    requires k < |history|
    ensures StartsAfter(history, history[k + 1..], gap, Some(history[k].id))
  {
  }

  /** None of these events has the id. */
  ghost predicate Unseen(events: seq<Event>, id: string) {
    forall e :: e in events ==> e.id != id
  }

  /** The fan-out loop when `todo` is still to be offered the event: the others have moved from
      those behind it to those past it ... */
  predicate Offered(todo: set<string>, keys: set<string>, behind: set<string>, past: set<string>) {
    todo <= behind && keys - todo <= past
  }

  lemma OneMoreOffered(todo: set<string>, keys: set<string>, behind: set<string>, past: set<string>,
                       nowBehind: set<string>, nowPast: set<string>, key: string)
    requires Offered(todo, keys, behind, past) && behind - {key} <= nowBehind && past + {key} <= nowPast
    ensures Offered(todo - {key}, keys, nowBehind, nowPast)
  {
  }

  /** ... and were counted; `full` were the full subscriptions before it. */
  predicate Tallied(todo: set<string>, open: set<string>, nowFull: set<string>, full: set<string>, distributed: nat, dropped: nat) {
    distributed == |open - todo| && nowFull * todo == full * todo && dropped == |full - todo|
  }

  lemma OneMoreTallied(todo: set<string>, open: set<string>, nowFull: set<string>, nextFull: set<string>, full: set<string>,
                       distributed: nat, dropped: nat, key: string)
    requires Tallied(todo, open, nowFull, full, distributed, dropped) && key in todo && nextFull - {key} == nowFull - {key}
    ensures Tallied(todo - {key}, open, nextFull, full,
              distributed + (if key in open then 1 else 0), dropped + (if key in nowFull then 1 else 0))
  {
    OneLess(open, todo, key);
    OneLess(full, todo, key);
    assert key in nowFull * todo <==> key in full * todo;
    assert nextFull * (todo - {key}) == (nextFull - {key}) * todo;
    assert nowFull * (todo - {key}) == (nowFull - {key}) * todo == (nowFull * todo) - {key};
    assert full * (todo - {key}) == (full * todo) - {key};
  }

  lemma TallyStarts(keys: set<string>, open: set<string>, full: set<string>)
    requires open <= keys && full <= keys
    ensures Tallied(keys, open, full, full, 0, 0)
  {
    assert open - keys == {} && full - keys == {};
  }

  lemma TallyEnds(open: set<string>, nowFull: set<string>, full: set<string>, distributed: nat, dropped: nat)
    requires Tallied({}, open, nowFull, full, distributed, dropped)
    ensures distributed == |open| && dropped == |full|
  {
    assert open - {} == open && full - {} == full;
  }

  /** A history of at most `n` events after one more. */
  function Pushed(history: seq<Event>, event: Event, n: nat): seq<Event> {
    if n == 0 then history else if |history| >= n then history[1..] + [event] else history + [event]
  }

  lemma TailGrows(stream: seq<Event>, event: Event, n: nat)
    ensures Tail(stream + [event], n) == Pushed(Tail(stream, n), event, n)
  {
  }

  lemma IdsForget(events: seq<Event>)
    requires DistinctIds(events) && events != []
    ensures Ids(events[1..]) == Ids(events) - {events[0].id} && DistinctIds(events[1..])
  {
    forall id | id in Ids(events) - {events[0].id} ensures id in Ids(events[1..]) {
      var i :| 0 <= i < |events| && events[i].id == id;
      assert events[1..][i - 1].id == id;
    }
  }

  lemma IdsGrow(events: seq<Event>, event: Event)
    requires DistinctIds(events) && event.id !in Ids(events)
    ensures Ids(events + [event]) == Ids(events) + {event.id} && DistinctIds(events + [event])
  {
    var longer := events + [event];
    assert forall i :: 0 <= i < |events| ==> longer[i] == events[i] && events[i].id in Ids(events);
    forall id | id in Ids(events) + {event.id} ensures id in Ids(longer) {
      if id == event.id {
        assert longer[|events|].id == id;
      } else {
        var i :| 0 <= i < |events| && events[i].id == id;
        assert longer[i].id == id;
      }
    }
  }

  lemma PushedIds(history: seq<Event>, event: Event, n: nat)
    requires DistinctIds(history) && event.id !in Ids(history) && |history| <= n
    ensures DistinctIds(Pushed(history, event, n))
    ensures n > 0 ==>
      Ids(Pushed(history, event, n)) == (if |history| >= n then Ids(history) - {history[0].id} else Ids(history)) + {event.id}
  {
    if n > 0 {
      if |history| >= n {
        IdsForget(history);
        IdsGrow(history[1..], event);
      } else {
        IdsGrow(history, event);
      }
    }
  }

  /** A resumed subscription is first offered exactly the retained events after the given one;
      one that cannot be resumed is told so by a gap. */
  ghost predicate StartsAfter(history: seq<Event>, offered: seq<Event>, gap: Option<Gap>, lastEventId: Option<string>) {
    match lastEventId
    case None => offered == [] && gap == None
    case Some(last) =>
      if last in Ids(history) then
        exists k :: 0 <= k < |history| && history[k].id == last && offered == history[k + 1..]
      else
        && offered == []
        && gap == Some(Gap("replay_unavailable", 0, if history == [] then None else Some(history[|history| - 1].id)))
  }

  lemma OneLess(keys: set<string>, todo: set<string>, key: string)
    requires key in todo
    ensures |keys - (todo - {key})| == |keys - todo| + if key in keys then 1 else 0
  {
    if key in keys {
      assert keys - (todo - {key}) == (keys - todo) + {key};
    } else {
      assert keys - (todo - {key}) == keys - todo;
    }
  }

  class RealtimeHub {
    const queueSize: int
    const replaySize: nat
    var history: seq<Event>
    var historyIds: set<string>
    var subscriptions: map<string, RealtimeSubscription>
    var eventsReceived: nat
    var eventsDistributed: nat
    var duplicateEvents: nat
    var clientEventsDropped: nat
    ghost var stream: seq<Event>       // every event `publish` accepted
    ghost var start: map<string, nat>  // where in the stream each subscription begins

    /** The history is the end of the stream, without repeated ids, mirrored by its id set. */
    ghost predicate HistoryOk()
      reads this`history, this`historyIds, this`stream, this`eventsReceived, this`duplicateEvents
    {
      && history == Tail(stream, replaySize)
      && historyIds == Ids(history)
      && DistinctIds(history)
      && eventsReceived == |stream| + duplicateEvents
    }

    /** An open subscription has been offered the stream from its start, each event once. */
    ghost predicate Fed(key: string, events: seq<Event>)
      requires key in subscriptions
      reads this`subscriptions, this`start, subscriptions[key]
    {
      var s := subscriptions[key];
      && s.Counted() && s.id == key
      && key in start && start[key] <= |events|
      && s.accepted <= events[start[key]..]
      && (!s.closed ==> s.accepted == events[start[key]..])
    }

    ghost function All(): set<RealtimeSubscription>
      reads this`subscriptions
    {
      set key | key in subscriptions :: subscriptions[key]
    }

    /** The subscriptions in step with the given stream. */
    ghost function FedBy(events: seq<Event>): set<string>
      reads this`subscriptions, this`start, All()
    {
      set key | key in subscriptions && Fed(key, events)
    }

    /** The subscriptions that take what they are offered ... */
    ghost function OpenKeys(): set<string>
      reads this`subscriptions, All()`closed
    {
      set key | key in subscriptions && !subscriptions[key].closed
    }

    /** ... and those among them that lose an event for it. */
    ghost function FullKeys(): set<string>
      reads this`subscriptions, All()`closed, All()`queue
    {
      set key | key in subscriptions && subscriptions[key].Full()
    }

    ghost predicate Separate()
      reads this`subscriptions
    {
      forall k, m :: k in subscriptions && m in subscriptions && k != m ==> subscriptions[k] != subscriptions[m]
    }

    ghost predicate Valid()
      reads this`history, this`historyIds, this`stream, this`eventsReceived, this`duplicateEvents
      reads this`subscriptions, this`start, All()
    {
      && HistoryOk()
      && FedBy(stream) == subscriptions.Keys
      && Separate()
    }

    constructor (queueSize: int, replaySize: nat)
      ensures Valid() && stream == [] && subscriptions == map[]
      ensures this.queueSize == queueSize && this.replaySize == replaySize
    {
      this.queueSize, this.replaySize := queueSize, replaySize;
      history, historyIds, subscriptions := [], {}, map[];
      eventsReceived, eventsDistributed, duplicateEvents, clientEventsDropped := 0, 0, 0, 0;
      stream, start := [], map[];
    }

    /** Remembers an accepted event, forgetting the oldest one when the history is full. */
    method Remember(event: Event)
      requires HistoryOk() && event.id !in historyIds
      modifies this`history, this`historyIds, this`stream, this`eventsReceived
      ensures HistoryOk() && stream == old(stream) + [event]
    {
      TailGrows(stream, event, replaySize);
      PushedIds(history, event, replaySize);
      eventsReceived := eventsReceived + 1;
      stream := stream + [event];
      if replaySize > 0 {
        if |history| >= replaySize {
          var expired := history[0];
          history := history[1..];
          historyIds := historyIds - {expired.id};
        }
        history := history + [event];
        historyIds := historyIds + {event.id};
      }
      assert history == Pushed(old(history), event, replaySize);
    }

    /** Offers an event to one subscription; the others stay as they are. */
    method Feed(key: string, s: RealtimeSubscription, event: Event, ghost before: seq<Event>) returns (taken: bool, lost: nat)
      requires key in subscriptions && subscriptions[key] == s && Fed(key, before)
      modifies s`queue, s`pendingGap, s`accepted
      ensures Fed(key, before + [event])
      ensures taken == !s.closed && lost == if old(s.Full()) then 1 else 0
    {
      assert (before + [event])[start[key]..] == before[start[key]..] + [event];
      taken, lost := s.Offer(event);
    }

    /** One turn of the fan-out loop: `key` moves from the subscriptions that have not seen the
        event to those that have. */
    method FeedNext(key: string, event: Event, ghost before: seq<Event>) returns (taken: bool, lost: nat)
      requires Separate() && key in FedBy(before)
      modifies All()`queue, All()`pendingGap, All()`accepted
      ensures old(FedBy(before)) - {key} <= FedBy(before)
      ensures old(FedBy(before + [event])) + {key} <= FedBy(before + [event])
      ensures FullKeys() - {key} == old(FullKeys()) - {key}
      ensures OpenKeys() == old(OpenKeys()) && taken == (key in OpenKeys())
      ensures lost == if key in old(FullKeys()) then 1 else 0
    {
      taken, lost := Feed(key, subscriptions[key], event, before);
      forall k | k in subscriptions && k != key
        ensures k in old(FedBy(before)) ==> k in FedBy(before)
        ensures k in old(FedBy(before + [event])) ==> k in FedBy(before + [event])
      {
        assert unchanged(subscriptions[k]);
      }
    }

    ghost predicate Halfway(todo: set<string>, before: seq<Event>, event: Event, open: set<string>, full: set<string>,
                            distributed: nat, dropped: nat)
      reads this`subscriptions, this`start, All()
    {
      && Offered(todo, subscriptions.Keys, FedBy(before), FedBy(before + [event]))
      && OpenKeys() == open && Tallied(todo, open, FullKeys(), full, distributed, dropped)
    }

    /** One turn of the fan-out loop. */
    method FeedAndCount(key: string, ghost todo: set<string>, event: Event, ghost before: seq<Event>,
                        ghost open: set<string>, ghost full: set<string>, distributed: nat, dropped: nat)
      returns (nowDistributed: nat, nowDropped: nat)
      requires Separate() && key in todo && Halfway(todo, before, event, open, full, distributed, dropped)
      modifies All()`queue, All()`pendingGap, All()`accepted
      ensures Halfway(todo - {key}, before, event, open, full, nowDistributed, nowDropped)
    {
      ghost var behind, past := FedBy(before), FedBy(before + [event]);
      ghost var filled := FullKeys();
      assert key in behind;
      var taken, lost := FeedNext(key, event, before);
      nowDistributed, nowDropped := distributed + (if taken then 1 else 0), dropped + lost;
      OneMoreOffered(todo, subscriptions.Keys, behind, past, FedBy(before), FedBy(before + [event]), key);
      OneMoreTallied(todo, open, filled, FullKeys(), full, distributed, dropped, key);
    }

    /** The fan-out loop over all subscriptions. */
    method Distribute(event: Event, ghost before: seq<Event>) returns (distributed: nat, dropped: nat)
      requires Separate() && FedBy(before) == subscriptions.Keys
      modifies All()`queue, All()`pendingGap, All()`accepted
      ensures FedBy(before + [event]) == subscriptions.Keys
      ensures distributed == |old(OpenKeys())| && dropped == |old(FullKeys())|
    {
      distributed, dropped := 0, 0;
      var todo := subscriptions.Keys;
      ghost var open, full := OpenKeys(), FullKeys();
      TallyStarts(todo, open, full);
      while todo != {}
        invariant Halfway(todo, before, event, open, full, distributed, dropped)
        decreases |todo|
      {
        var key :| key in todo;
        distributed, dropped := FeedAndCount(key, todo, event, before, open, full, distributed, dropped);
        todo := todo - {key};
      }
      TallyEnds(open, FullKeys(), full, distributed, dropped);
    }

    method RememberUnseen(event: Event)
      requires HistoryOk() && Unseen(Tail(stream, replaySize), event.id)
      modifies this`history, this`historyIds, this`stream, this`eventsReceived
      ensures HistoryOk() && stream == old(stream) + [event]
    {
      KnownIff(event.id);
      Remember(event);
    }

    /** Remembers a new event and offers it to every subscription. */
    method Spread(event: Event) returns (distributed: nat, dropped: nat)
      requires Valid() && Unseen(Tail(stream, replaySize), event.id)
      modifies this`history, this`historyIds, this`stream, this`eventsReceived
      modifies All()`queue, All()`pendingGap, All()`accepted
      ensures Valid() && stream == old(stream) + [event]
      ensures distributed == |old(OpenKeys())| && dropped == |old(FullKeys())|
    {
      ghost var before, open, full := stream, OpenKeys(), FullKeys();
      RememberUnseen(event);
      assert OpenKeys() == open && FullKeys() == full && FedBy(before) == subscriptions.Keys;
      distributed, dropped := Distribute(event, before);
    }

    method Accept(event: Event)
      requires Valid() && Unseen(Tail(stream, replaySize), event.id)
      modifies this`history, this`historyIds, this`stream, this`eventsReceived, this`eventsDistributed, this`clientEventsDropped
      modifies All()`queue, All()`pendingGap, All()`accepted
      ensures Valid() && stream == old(stream) + [event]
      ensures eventsDistributed == old(eventsDistributed) + |old(OpenKeys())|
      ensures clientEventsDropped == old(clientEventsDropped) + |old(FullKeys())|
    {
      var distributed, dropped := Spread(event);
      CountOffers(distributed, dropped);
    }

    method CountOffers(distributed: nat, dropped: nat)
      requires Valid()
      modifies this`eventsDistributed, this`clientEventsDropped
      ensures Valid()
      ensures eventsDistributed == old(eventsDistributed) + distributed
      ensures clientEventsDropped == old(clientEventsDropped) + dropped
    {
      eventsDistributed := eventsDistributed + distributed;
      clientEventsDropped := clientEventsDropped + dropped;
    }

    lemma KnownIff(id: string)
      requires HistoryOk()
      ensures id !in historyIds <==> Unseen(Tail(stream, replaySize), id)
    {
      if id in historyIds {
        var i :| 0 <= i < |history| && history[i].id == id;
        assert history[i] in Tail(stream, replaySize);
      }
    }

    /** `publish` accepts an event exactly when none of the last `replaySize` accepted events
        has its id; every open subscription is then offered it. */
    method Publish(event: Event) returns (accepted: bool)
      requires Valid()
      modifies this`history, this`historyIds, this`stream, this`eventsReceived, this`duplicateEvents
      modifies this`eventsDistributed, this`clientEventsDropped
      modifies All()`queue, All()`pendingGap, All()`accepted
      ensures Valid()
      ensures accepted <==> Unseen(Tail(old(stream), replaySize), event.id)
      ensures stream == if accepted then old(stream) + [event] else old(stream)
      ensures accepted ==> eventsDistributed == old(eventsDistributed) + |old(OpenKeys())|
      ensures accepted ==> clientEventsDropped == old(clientEventsDropped) + |old(FullKeys())|
      ensures !accepted ==> eventsDistributed == old(eventsDistributed) && clientEventsDropped == old(clientEventsDropped)
    {
      KnownIff(event.id);
      if event.id in historyIds {
        CountDuplicate();
        return false;
      }
      Accept(event);
      accepted := true;
    }

    method CountDuplicate()
      requires Valid()
      modifies this`eventsReceived, this`duplicateEvents
      ensures Valid()
    {
      eventsReceived := eventsReceived + 1;
      duplicateEvents := duplicateEvents + 1;
    }

    method Index(id: string) returns (index: Option<nat>)
      requires HistoryOk()
      ensures index.Some? ==> index.value < |history| && history[index.value].id == id
      ensures index.None? <==> id !in historyIds
    {
      for k := 0 to |history|
        invariant forall m :: 0 <= m < k ==> history[m].id != id
      {
        if history[k].id == id { return Some(k); }
      }
      index := None;
    }

    /** Replays the retained events from `from` on to a fresh subscription. */
    method Replay(s: RealtimeSubscription, from: nat) returns (dropped: nat)
      requires HistoryOk() && from <= |history|
      requires s.Valid() && !s.closed && s.accepted == [] && s.log == []
      modifies s`queue, s`pendingGap, s`accepted
      ensures s.Valid() && s.accepted == history[from..]
    {
      dropped := 0;
      for k := from to |history|
        invariant s.Valid() && s.accepted == history[from..k]
      {
        assert history[from..k + 1] == history[from..k] + [history[k]];
        var _, lost := s.Offer(history[k]);
        dropped := dropped + lost;
      }
      assert history[from..] == history[from..|history|];
    }

    lemma TailSuffix(n: nat)
      requires HistoryOk() && n <= |history|
      ensures |history| <= |stream| && history[n..] == stream[|stream| - |history| + n..]
    {
    }

    /** Offers a new subscription the retained events after the `k`-th one. */
    method ResumeAt(s: RealtimeSubscription, k: nat) returns (ghost resumeAt: nat, dropped: nat)
      requires HistoryOk() && k < |history| && s.Valid() && !s.closed && s.accepted == [] && s.log == []
      modifies s`queue, s`pendingGap, s`accepted
      ensures s.Valid() && resumeAt <= |stream| && s.accepted == stream[resumeAt..]
      ensures StartsAfter(history, s.accepted, s.pendingGap, Some(history[k].id))
    {
      TailSuffix(k + 1);
      dropped := Replay(s, k + 1);
      ResumesAfter(history, k, s.pendingGap);
      resumeAt := |stream| - |history| + k + 1;
    }

    /** Offers a new subscription the retained events after the one with the given id, or tells
        it by a gap that they are gone. */
    method Resume(s: RealtimeSubscription, lastEventId: string) returns (ghost resumeAt: nat, dropped: nat)
      requires HistoryOk() && s.Valid() && !s.closed && s.accepted == [] && s.log == [] && s.pendingGap == None
      modifies s`queue, s`pendingGap, s`accepted
      ensures s.Valid() && resumeAt <= |stream| && s.accepted == stream[resumeAt..]
      ensures StartsAfter(history, s.accepted, s.pendingGap, Some(lastEventId))
    {
      var index := Index(lastEventId);
      if index.None? {
        s.MarkGap("replay_unavailable", 0, if history == [] then None else Some(history[|history| - 1].id));
        return |stream|, 0;
      }
      resumeAt, dropped := ResumeAt(s, index.value);
    }

    /** A fresh subscription, with the part of the history it resumes already offered to it. */
    method Open(id: string, lastEventId: Option<string>) returns (s: RealtimeSubscription, ghost resumeAt: nat, dropped: nat)
      requires HistoryOk()
      ensures fresh(s) && s.Valid() && !s.closed && s.log == [] && s.id == id && s !in All()
      ensures resumeAt <= |stream| && s.accepted == stream[resumeAt..]
      ensures StartsAfter(history, s.accepted, s.pendingGap, lastEventId)
    {
      s := new RealtimeSubscription(id, queueSize);
      resumeAt, dropped := |stream|, 0;
      if lastEventId.Some? {
        resumeAt, dropped := Resume(s, lastEventId.value);
      }
    }

    method Subscribe(id: string, lastEventId: Option<string>) returns (s: RealtimeSubscription)
      requires Valid() && id !in subscriptions
      modifies this`subscriptions, this`start, this`clientEventsDropped
      ensures Valid() && fresh(s) && !s.closed && s.log == []
      ensures subscriptions == old(subscriptions)[id := s] && start.Keys == old(start).Keys + {id}
      ensures StartsAfter(history, s.accepted, s.pendingGap, lastEventId)
    {
      ghost var resumeAt;
      var dropped;
      s, resumeAt, dropped := Open(id, lastEventId);
      clientEventsDropped := clientEventsDropped + dropped;
      Register(id, s, resumeAt);
    }

    method Register(id: string, s: RealtimeSubscription, ghost resumeAt: nat)
      requires Valid() && id !in subscriptions && s !in All()
      requires s.Valid() && !s.closed && s.id == id && resumeAt <= |stream| && s.accepted == stream[resumeAt..]
      modifies this`subscriptions, this`start
      ensures Valid()
      ensures subscriptions == old(subscriptions)[id := s] && start == old(start)[id := resumeAt]
    {
      subscriptions := subscriptions[id := s];
      start := start[id := resumeAt];
      assert Fed(id, stream);
      forall k | k in old(subscriptions) ensures k in FedBy(stream) {
        assert old(Fed(k, stream)) && unchanged(subscriptions[k]);
      }
    }

    method Unsubscribe(id: string)
      requires Valid()
      modifies this, All()
      ensures Valid() && stream == old(stream) && start == old(start)
      ensures subscriptions == old(subscriptions) - {id}
      ensures id in old(subscriptions) ==> old(subscriptions)[id].closed
    {
      if id in subscriptions {
        var current := subscriptions[id];
        subscriptions := subscriptions - {id};
        current.Close();
        forall k | k in subscriptions ensures k in FedBy(stream) {
          assert old(Fed(k, stream)) && unchanged(subscriptions[k]);
        }
      }
    }
  }

  /** An event can be accepted a second time only after `replaySize` others. */
  ghost predicate SpacedIds(stream: seq<Event>, window: nat) {
    forall i, j :: 0 <= i < j < |stream| && stream[i].id == stream[j].id ==> j - i > window
  }

  lemma InTailIff(stream: seq<Event>, window: nat, e: Event)
    ensures e in Tail(stream, window) <==> exists i :: 0 <= i < |stream| && |stream| - i <= window && stream[i] == e
  {
    var tail := Tail(stream, window);
    var skipped := |stream| - |tail|;
    if e in tail {
      var k :| 0 <= k < |tail| && tail[k] == e;
      assert stream[skipped + k] == e;
    }
    if i :| 0 <= i < |stream| && |stream| - i <= window && stream[i] == e { assert tail[i - skipped] == e; }
  }

  /** No event among the last `window` ones has this id. */
  ghost predicate FreshId(stream: seq<Event>, window: nat, id: string) {
    forall i :: 0 <= i < |stream| && |stream| - i <= window ==> stream[i].id != id
  }

  lemma FreshIdIff(stream: seq<Event>, window: nat, id: string)
    ensures FreshId(stream, window, id) <==> Unseen(Tail(stream, window), id)
  {
    forall e ensures e in Tail(stream, window) <==> exists i :: 0 <= i < |stream| && |stream| - i <= window && stream[i] == e {
      InTailIff(stream, window, e);
    }
  }

  lemma AcceptingKeepsIdsSpaced(stream: seq<Event>, window: nat, event: Event)
    requires SpacedIds(stream, window)
    ensures SpacedIds(stream + [event], window) <==> Unseen(Tail(stream, window), event.id)
  {
    var longer := stream + [event];
    FreshIdIff(stream, window, event.id);
    assert forall i :: 0 <= i < |stream| ==> longer[i] == stream[i];
    if SpacedIds(longer, window) {
      forall i | 0 <= i < |stream| && |stream| - i <= window ensures stream[i].id != event.id {
        assert longer[i].id != longer[|stream|].id;
      }
    }
  }
}
