/** The life of tracks in the camera pipeline (application/pipeline.py): stream epochs,
    finalization and the suppression of tracker ids that were already finalized. */
module TrackLifecycle {
  import opened Options

  datatype Key = Key(epoch: int, id: int)

  // ----- the reference: one automaton per key over the log of a run

  datatype Entry =
    | Tick(now: real)               // an item arrived; completed ids may expire
    | NewEpoch                      // the stream was reopened
    | Sight(key: Key, at: real)     // the tracker reported the id
    | Emit(key: Key)                // an event was committed for the track
    | Leave(key: Key)               // the track left the active ones

  /** `sent`: the event of this track has been committed. */
  datatype Phase = Absent | Live(sent: bool, last: real) | Resting(last: real)

  function Step(p: Phase, e: Entry, key: Key, timeout: real): Phase {
    match e
    case Tick(now) => if p.Resting? && now - p.last >= timeout then Absent else p
    case NewEpoch => Absent
    case Sight(k, at) => if k != key then p else if p.Absent? then Live(false, at) else p.(last := at)
    case Emit(k) => if k == key && p.Live? then Live(true, p.last) else p
    case Leave(k) => if k == key && p.Live? then Resting(p.last) else p
  }

  function PhaseOf(log: seq<Entry>, key: Key, timeout: real): Phase {
    if log == [] then Absent
    else Step(PhaseOf(log[..|log| - 1], key, timeout), log[|log| - 1], key, timeout)
  }

  /** An event is committed only for a live track that has none yet. */
  ghost predicate Legal(log: seq<Entry>, timeout: real) {
    forall i :: 0 <= i < |log| && log[i].Emit? ==>
      PhaseOf(log[..i], log[i].key, timeout).Live? && !PhaseOf(log[..i], log[i].key, timeout).sent
  }

  /** When the tracker last reported the id. */
  function LastSeen(log: seq<Entry>, key: Key): Option<real> {
    if log == [] then None
    else
      var e := log[|log| - 1];
      if e.Sight? && e.key == key then Some(e.at) else LastSeen(log[..|log| - 1], key)
  }

  /** At entry `m` the id may start anew: the stream was reopened, or an item arrived when the
      id had not been seen for the timeout. */
  predicate Released(log: seq<Entry>, m: nat, key: Key, timeout: real)
    requires m < |log|
  {
    || log[m].NewEpoch?
    || (log[m].Tick? && LastSeen(log[..m], key).Some? && log[m].now - LastSeen(log[..m], key).value >= timeout)
  }

  lemma {:induction false} PhaseRemembersLastSeen(log: seq<Entry>, key: Key, timeout: real)
    ensures !PhaseOf(log, key, timeout).Absent? ==> LastSeen(log, key) == Some(PhaseOf(log, key, timeout).last)
  {
    if log != [] { PhaseRemembersLastSeen(log[..|log| - 1], key, timeout); }
  }

  lemma {:induction false} NotReleasedStaysSent(log: seq<Entry>, i: nat, j: nat, key: Key, timeout: real)
    requires Legal(log, timeout) && i < j <= |log| && log[i] == Emit(key)
    requires forall m :: i < m < j ==> !Released(log, m, key, timeout)
    ensures var p := PhaseOf(log[..j], key, timeout);
      p.Resting? || (p.Live? && p.sent)
  {
    assert log[..j][..j - 1] == log[..j - 1] && log[..j][j - 1] == log[j - 1];
    if j > i + 1 {
      NotReleasedStaysSent(log, i, j - 1, key, timeout);
      PhaseRemembersLastSeen(log[..j - 1], key, timeout);
      assert !Released(log, j - 1, key, timeout);
    }
  }

  /** Between two events of one tracker id the stream was reopened, or the id had gone unseen
      for the timeout. */
  lemma NoSecondEvent(log: seq<Entry>, i: nat, j: nat, key: Key, timeout: real)
    requires Legal(log, timeout) && i < j < |log| && log[i] == Emit(key) && log[j] == Emit(key)
    ensures exists m :: i < m < j && Released(log, m, key, timeout)
  {
    if forall m :: i < m < j ==> !Released(log, m, key, timeout) {
      NotReleasedStaysSent(log, i, j, key, timeout);
      assert false;
    }
  }

  // ----- the pipeline's tables

  datatype Track = Track(sent: bool, last: real)

  datatype Sighting = Sighting(id: int, visible: bool, crossing: bool)

  datatype Item = Heartbeat(time: real, epoch: int) | Frame(time: real, epoch: int, seen: seq<Sighting>)

  // ----- what an item adds to the log

  /** The frame reports the id, and shows its box within the picture. */
  ghost predicate Reports(item: Item, key: Key) {
    item.Frame? && item.epoch == key.epoch && exists s :: s in item.seen && s.id == key.id
  }

  ghost predicate Shows(item: Item, key: Key) {
    item.Frame? && item.epoch == key.epoch && exists s :: s in item.seen && s.id == key.id && s.visible
  }

  /** A track of this epoch is finalized. */
  ghost predicate IsQuiet(e: Entry, epoch: Option<int>) {
    (e.Emit? || e.Leave?) && epoch == Some(e.key.epoch)
  }

  /** From `from` on, tracks of this epoch are finalized and nothing else. */
  ghost predicate QuietFrom(log: seq<Entry>, from: nat, epoch: Option<int>) {
    forall k :: from <= k < |log| ==> IsQuiet(log[k], epoch)
  }

  /** An entry of the item's own epoch: a sighting when it reports the id, a finalization. */
  ghost predicate Fits(e: Entry, item: Item) {
    match e
    case Tick(_) => false
    case NewEpoch => false
    case Sight(key, at) => at == item.time && Reports(item, key)
    case Emit(key) => key.epoch == item.epoch
    case Leave(key) => key.epoch == item.epoch
  }

  ghost predicate FitsFrom(log: seq<Entry>, from: nat, to: nat, item: Item) {
    forall k :: from <= k < to <= |log| ==> Fits(log[k], item)
  }

  ghost predicate Notes(log: seq<Entry>, from: nat, to: nat, e: Entry) {
    exists k :: from <= k < to <= |log| && log[k] == e
  }

  predicate Changes(next: int, before: Option<int>) {
    before.Some? && before.value != next
  }

  /** The entries of one item: its tick; when its epoch is new, finalizations of the epoch before
      up to `cut`, where the stream was reopened; then what fits the item. When it was processed
      to the end, a new epoch was entered and every id that it shows has been noted. */
  ghost predicate CutAt(log: seq<Entry>, from: nat, cut: nat, to: nat, item: Item, before: Option<int>, whole: bool) {
    && from < cut <= to <= |log| && log[from] == Tick(item.time)
    && (forall k :: from < k < cut ==> IsQuiet(log[k], before))
    && (if Changes(item.epoch, before) then
          if cut < to then log[cut] == NewEpoch && FitsFrom(log, cut + 1, to, item) else !whole
        else cut == from + 1 && FitsFrom(log, cut, to, item))
    && (whole ==> forall key :: Shows(item, key) ==> Notes(log, cut, to, Sight(key, item.time)))
  }

  ghost predicate Segment(log: seq<Entry>, from: nat, to: nat, item: Item, before: Option<int>, whole: bool) {
    exists cut: nat :: CutAt(log, from, cut, to, item, before, whole)
  }

  /** The epoch after those entries: the item's own, unless a new one was not entered. */
  ghost function EpochAfter(log: seq<Entry>, from: nat, to: nat, item: Item, before: Option<int>): Option<int> {
    if Changes(item.epoch, before) && !Notes(log, from, to, NewEpoch) then before else Some(item.epoch)
  }

  function EpochBefore(items: seq<Item>, k: nat): Option<int>
    requires k <= |items|
  {
    if k == 0 then None else Some(items[k - 1].epoch)
  }

  /** The epoch after the first `|ends| - 1` items. */
  ghost function LastEpoch(items: seq<Item>, log: seq<Entry>, ends: seq<nat>): Option<int>
    requires 1 <= |ends| <= |items| + 1
  {
    var n := |ends| - 1;
    if n == 0 then None else EpochAfter(log, ends[n - 1], ends[n], items[n - 1], EpochBefore(items, n - 1))
  }

  ghost predicate IsSegment(items: seq<Item>, log: seq<Entry>, ends: seq<nat>, whole: bool, k: nat)
    requires k + 1 < |ends| <= |items| + 1
  {
    Segment(log, ends[k], ends[k + 1], items[k], EpochBefore(items, k), whole || k + 2 < |ends|)
  }

  ghost predicate Rising(ends: seq<nat>) {
    ends != [] && ends[0] == 0 && forall a, b :: 0 <= a < b < |ends| ==> ends[a] < ends[b]
  }

  /** The log of a run consists of one segment per item, and of the final finalization. */
  ghost predicate Segmented(items: seq<Item>, log: seq<Entry>, ends: seq<nat>, whole: bool) {
    && Rising(ends) && |ends| <= |items| + 1 && ends[|ends| - 1] <= |log|
    && (forall k :: 0 <= k < |ends| - 1 ==> IsSegment(items, log, ends, whole, k))
    && QuietFrom(log, ends[|ends| - 1], LastEpoch(items, log, ends))
  }

  /** The entry was logged while item `a` was processed, or after the last one. */
  predicate InItem(ends: seq<nat>, i: nat, a: nat) {
    a < |ends| && ends[a] <= i && (a + 1 < |ends| ==> i < ends[a + 1])
  }

  /** With item `m` the stream was reopened ... */
  predicate Reopens(items: seq<Item>, m: nat) {
    0 < m < |items| && items[m].epoch != items[m - 1].epoch
  }

  /** ... or it arrived when the id, reported last by item `l`, had not been shown for the timeout. */
  ghost predicate GoneFor(items: seq<Item>, l: nat, m: nat, key: Key, timeout: real) {
    && l < m < |items| && Reports(items[l], key) && items[m].time - items[l].time >= timeout
    && forall k :: l < k < m ==> !Shows(items[k], key)
  }

  /** Between an event of the id in item `a` and one in item `b`, item `m` lets the id start anew.
      A reopening comes after the first event, which then is not one of the epoch it opens when
      both are in one item, and before the second one, likewise. The last of the `n` items may have
      failed before it reopened the stream; only if it did reopen it, what follows is of its epoch. */
  ghost predicate Parts(items: seq<Item>, n: nat, a: nat, m: nat, b: nat, key: Key, timeout: real) {
    || (Reopens(items, m) && (a < m || key.epoch != items[m].epoch) && ((m < b && m < n - 1) || key.epoch == items[m].epoch))
    || (a < m && exists l: nat :: GoneFor(items, l, m, key, timeout))
  }

  /** One of the first `n` items does. */
  ghost predicate Apart(items: seq<Item>, n: nat, a: nat, b: nat, key: Key, timeout: real) {
    exists m: nat :: a <= m <= b && m < n && Parts(items, n, a, m, b, key, timeout)
  }

  lemma {:induction false} ItemOf(ends: seq<nat>, i: nat, n: nat) returns (a: nat)
    requires ends != [] && ends[0] == 0 && n < |ends|
    requires n + 1 < |ends| ==> i < ends[n + 1]
    ensures InItem(ends, i, a) && a <= n
  {
    a := n;
    if i < ends[n] { a := ItemOf(ends, i, n - 1); }
  }

  lemma ItemsInOrder(ends: seq<nat>, i: nat, a: nat, j: nat, b: nat)
    requires Rising(ends) && InItem(ends, i, a) && InItem(ends, j, b) && i <= j
    ensures a <= b
  {
  }

  /** Where the id was last noted. */
  lemma {:induction false} LastSeenAt(log: seq<Entry>, key: Key) returns (q: nat)
    requires LastSeen(log, key).Some?
    ensures q < |log| && log[q] == Sight(key, LastSeen(log, key).value)
    ensures forall k :: q < k < |log| ==> !(log[k].Sight? && log[k].key == key)
  {
    var n := |log| - 1;
    if log[n].Sight? && log[n].key == key {
      q := n;
    } else {
      q := LastSeenAt(log[..n], key);
    }
  }

  lemma SegmentOf(items: seq<Item>, log: seq<Entry>, ends: seq<nat>, whole: bool, m: nat) returns (cut: nat)
    requires Segmented(items, log, ends, whole) && m < |ends| - 1
    ensures m < |items| && CutAt(log, ends[m], cut, ends[m + 1], items[m], EpochBefore(items, m), whole || m + 2 < |ends|)
  {
    assert IsSegment(items, log, ends, whole, m);
    cut :| CutAt(log, ends[m], cut, ends[m + 1], items[m], EpochBefore(items, m), whole || m + 2 < |ends|);
  }

  /** A sighting is one of an id that the item reports. */
  lemma SightIn(log: seq<Entry>, from: nat, cut: nat, to: nat, item: Item, before: Option<int>, whole: bool, q: nat)
    requires CutAt(log, from, cut, to, item, before, whole) && from <= q < to && log[q].Sight?
    ensures Reports(item, log[q].key) && log[q].at == item.time
  {
    assert q > cut ==> Fits(log[q], item);
  }

  /** An event is one of the item's epoch, or of the one before. */
  lemma EventIn(log: seq<Entry>, from: nat, cut: nat, to: nat, item: Item, before: Option<int>, whole: bool, i: nat)
    requires CutAt(log, from, cut, to, item, before, whole) && from <= i < to && log[i].Emit?
    ensures from < i && (log[i].key.epoch == item.epoch || before == Some(log[i].key.epoch))
  {
    if i < cut { assert IsQuiet(log[i], before); } else { assert i > cut ==> Fits(log[i], item); }
  }

  /** What comes before a reopened stream is of the earlier epoch, what follows of the item's own. */
  lemma ReopenedIn(log: seq<Entry>, from: nat, cut: nat, to: nat, item: Item, before: Option<int>, whole: bool, r: nat)
    requires CutAt(log, from, cut, to, item, before, whole) && from <= r < to && log[r].NewEpoch?
    ensures Changes(item.epoch, before)
    ensures forall k :: from < k < r ==> IsQuiet(log[k], before)
    ensures forall k :: r < k < to ==> Fits(log[k], item)
  {
    assert r > cut ==> Fits(log[r], item);
  }

  lemma TickIn(log: seq<Entry>, from: nat, cut: nat, to: nat, item: Item, before: Option<int>, whole: bool, r: nat)
    requires CutAt(log, from, cut, to, item, before, whole) && from <= r < to && log[r].Tick?
    ensures r == from && log[r] == Tick(item.time)
  {
    assert r > cut ==> Fits(log[r], item);
  }

  lemma NotShown(log: seq<Entry>, from: nat, cut: nat, to: nat, item: Item, before: Option<int>, key: Key)
    requires CutAt(log, from, cut, to, item, before, true)
    requires forall x :: from < x < to ==> !(log[x].Sight? && log[x].key == key)
    ensures !Shows(item, key)
  {
    assert Shows(item, key) ==> Notes(log, cut, to, Sight(key, item.time));
  }

  /** After the last item tracks are only finalized. */
  lemma FinallyQuiet(items: seq<Item>, log: seq<Entry>, ends: seq<nat>, whole: bool, r: nat, m: nat)
    requires Segmented(items, log, ends, whole) && r < |log| && InItem(ends, r, m)
    ensures m < |ends| - 1 || IsQuiet(log[r], LastEpoch(items, log, ends))
  {
  }

  lemma LastNoteGone(items: seq<Item>, log: seq<Entry>, ends: seq<nat>, whole: bool, m: nat, key: Key, timeout: real)
    requires Segmented(items, log, ends, whole) && m < |ends| - 1 && ends[m] <= |log|
    requires LastSeen(log[..ends[m]], key).Some? && items[m].time - LastSeen(log[..ends[m]], key).value >= timeout
    ensures exists l: nat :: GoneFor(items, l, m, key, timeout)
  {
    var before := log[..ends[m]];
    var q := LastSeenAt(before, key);
    var l := ItemOf(ends, q, |ends| - 1);
    ItemsInOrder(ends, q, l, ends[m], m);
    var cut := SegmentOf(items, log, ends, whole, l);
    SightIn(log, ends[l], cut, ends[l + 1], items[l], EpochBefore(items, l), whole || l + 2 < |ends|, q);
    forall k | l < k < m ensures !Shows(items[k], key) {
      var next := SegmentOf(items, log, ends, whole, k);
      forall x | ends[k] < x < ends[k + 1] ensures !(log[x].Sight? && log[x].key == key) { assert log[x] == before[x]; }
      NotShown(log, ends[k], next, ends[k + 1], items[k], EpochBefore(items, k), key);
    }
    assert GoneFor(items, l, m, key, timeout);
  }

  /** A reopened stream within an item. */
  lemma ReopenedAt(items: seq<Item>, log: seq<Entry>, ends: seq<nat>, whole: bool, r: nat, m: nat)
    requires Segmented(items, log, ends, whole) && r < |log| && InItem(ends, r, m) && log[r].NewEpoch?
    ensures m < |ends| - 1 && Reopens(items, m)
    ensures forall k :: ends[m] < k < r ==> IsQuiet(log[k], Some(items[m - 1].epoch))
    ensures forall k :: r < k < ends[m + 1] ==> Fits(log[k], items[m])
  {
    FinallyQuiet(items, log, ends, whole, r, m);
    var cut := SegmentOf(items, log, ends, whole, m);
    ReopenedIn(log, ends[m], cut, ends[m + 1], items[m], EpochBefore(items, m), whole || m + 2 < |ends|, r);
  }

  /** An event is one of its item's epoch, or of the one before. */
  lemma EventEpoch(items: seq<Item>, log: seq<Entry>, ends: seq<nat>, whole: bool, i: nat, a: nat)
    requires Segmented(items, log, ends, whole) && i < |log| && log[i].Emit? && InItem(ends, i, a) && a < |ends| - 1
    ensures ends[a] < i && (log[i].key.epoch == items[a].epoch || EpochBefore(items, a) == Some(log[i].key.epoch))
  {
    var cut := SegmentOf(items, log, ends, whole, a);
    EventIn(log, ends[a], cut, ends[a + 1], items[a], EpochBefore(items, a), whole || a + 2 < |ends|, i);
  }

  lemma ReopeningShows(items: seq<Item>, log: seq<Entry>, ends: seq<nat>, whole: bool, i: nat, r: nat, j: nat, a: nat, m: nat, b: nat, timeout: real)
    requires Segmented(items, log, ends, whole) && i < r < j < |log| && log[i].Emit? && log[j] == log[i] && log[r].NewEpoch?
    requires InItem(ends, i, a) && InItem(ends, r, m) && InItem(ends, j, b) && a <= m <= b
    ensures ends != [] && m < |ends| - 1 && Parts(items, |ends| - 1, a, m, b, log[i].key, timeout)
  {
    ReopenedAt(items, log, ends, whole, r, m);
    if a == m {
      EventEpoch(items, log, ends, whole, i, m);
      assert IsQuiet(log[i], Some(items[m - 1].epoch));
    }
    if m == b {
      assert Fits(log[j], items[m]);
    } else if m == |ends| - 2 {
      FinallyQuiet(items, log, ends, whole, j, b);
      assert Notes(log, ends[m], ends[m + 1], NewEpoch);
    }
  }

  lemma TimeoutShows(items: seq<Item>, log: seq<Entry>, ends: seq<nat>, whole: bool, i: nat, r: nat, a: nat, m: nat, timeout: real)
    requires Segmented(items, log, ends, whole) && i < r < |log| && log[i].Emit? && log[r].Tick? && Released(log, r, log[i].key, timeout)
    requires InItem(ends, i, a) && InItem(ends, r, m)
    ensures a < m < |ends| - 1 && exists l: nat :: GoneFor(items, l, m, log[i].key, timeout)
  {
    ItemsInOrder(ends, i, a, r, m);
    FinallyQuiet(items, log, ends, whole, r, m);
    var cut := SegmentOf(items, log, ends, whole, m);
    TickIn(log, ends[m], cut, ends[m + 1], items[m], EpochBefore(items, m), whole || m + 2 < |ends|, r);
    LastNoteGone(items, log, ends, whole, m, log[i].key, timeout);
  }

  /** What released the id between two of its events shows in the items. */
  lemma ReleaseShows(items: seq<Item>, log: seq<Entry>, ends: seq<nat>, whole: bool, timeout: real, i: nat, r: nat, j: nat, a: nat, m: nat, b: nat)
    requires Segmented(items, log, ends, whole) && i < r < j < |log| && log[i].Emit? && log[j] == log[i]
    requires InItem(ends, i, a) && InItem(ends, r, m) && InItem(ends, j, b) && Released(log, r, log[i].key, timeout)
    ensures ends != [] && a <= m <= b && m < |ends| - 1 && Parts(items, |ends| - 1, a, m, b, log[i].key, timeout)
  {
    ItemsInOrder(ends, i, a, r, m);
    ItemsInOrder(ends, r, m, j, b);
    if log[r].NewEpoch? {
      ReopeningShows(items, log, ends, whole, i, r, j, a, m, b, timeout);
    } else {
      TimeoutShows(items, log, ends, whole, i, r, a, m, timeout);
    }
  }

  /** Two events of one tracker id are apart: in between an item reopened the stream, or arrived
      when the id had not been shown for the timeout. */
  lemma EventsAreApart(items: seq<Item>, log: seq<Entry>, ends: seq<nat>, whole: bool, timeout: real, i: nat, j: nat, a: nat, b: nat)
    requires Legal(log, timeout) && Segmented(items, log, ends, whole)
    requires i < j < |log| && log[i].Emit? && log[j] == log[i] && InItem(ends, i, a) && InItem(ends, j, b)
    ensures Apart(items, |ends| - 1, a, b, log[i].key, timeout)
  {
    var key := log[i].key;
    NoSecondEvent(log, i, j, key, timeout);
    var r :| i < r < j && Released(log, r, key, timeout);
    var m := ItemOf(ends, r, |ends| - 1);
    ReleaseShows(items, log, ends, whole, timeout, i, r, j, a, m, b);
  }

  ghost predicate AllApart(items: seq<Item>, log: seq<Entry>, ends: seq<nat>, timeout: real) {
    forall i, j, a, b :: 0 <= i < j < |log| && log[i].Emit? && log[j] == log[i] && InItem(ends, i, a) && InItem(ends, j, b) ==>
      Apart(items, |ends| - 1, a, b, log[i].key, timeout)
  }

  lemma RunsKeepEventsApart(items: seq<Item>, log: seq<Entry>, ends: seq<nat>, whole: bool, timeout: real)
    requires Legal(log, timeout) && Segmented(items, log, ends, whole) && ends != []
    ensures AllApart(items, log, ends, timeout)
  {
    forall i, j, a, b | 0 <= i < j < |log| && log[i].Emit? && log[j] == log[i] && InItem(ends, i, a) && InItem(ends, j, b)
      ensures Apart(items, |ends| - 1, a, b, log[i].key, timeout)
    {
      EventsAreApart(items, log, ends, whole, timeout, i, j, a, b);
    }
  }

  // ----- epochs that only grow

  predicate EpochsGrow(items: seq<Item>) {
    forall k, l :: 0 <= k < l < |items| ==> items[k].epoch <= items[l].epoch
  }

  /** Before a reopened stream, events are of an earlier epoch than the one it opens. */
  lemma EarlierEpoch(items: seq<Item>, log: seq<Entry>, ends: seq<nat>, whole: bool, i: nat, a: nat, r: nat, m: nat)
    requires Segmented(items, log, ends, whole) && EpochsGrow(items) && i < r < |log| && log[i].Emit? && log[r].NewEpoch?
    requires InItem(ends, i, a) && InItem(ends, r, m)
    ensures m < |items| && log[i].key.epoch < items[m].epoch
  {
    ItemsInOrder(ends, i, a, r, m);
    ReopenedAt(items, log, ends, whole, r, m);
    EventEpoch(items, log, ends, whole, i, a);
  }

  /** After it, events are not. */
  lemma LaterEpoch(items: seq<Item>, log: seq<Entry>, ends: seq<nat>, whole: bool, r: nat, m: nat, j: nat, b: nat)
    requires Segmented(items, log, ends, whole) && EpochsGrow(items) && r < j < |log| && log[j].Emit? && log[r].NewEpoch?
    requires InItem(ends, r, m) && InItem(ends, j, b)
    ensures m < |items| && items[m].epoch <= log[j].key.epoch
  {
    ItemsInOrder(ends, r, m, j, b);
    ReopenedAt(items, log, ends, whole, r, m);
    var n := |ends| - 1;
    if m < b < n {
      EventEpoch(items, log, ends, whole, j, b);
    } else if b == n {
      assert IsQuiet(log[j], LastEpoch(items, log, ends));
      if m == n - 1 { assert Notes(log, ends[m], ends[m + 1], NewEpoch); }
    }
  }

  /** While epochs only grow, no id is reused across them: between two events of one tracker id an
      item arrived when the id had not been shown for the timeout. */
  lemma GrowingEpochsLeaveTheTimeout(items: seq<Item>, log: seq<Entry>, ends: seq<nat>, whole: bool, timeout: real, i: nat, j: nat, a: nat, b: nat)
    requires Legal(log, timeout) && Segmented(items, log, ends, whole) && EpochsGrow(items)
    requires i < j < |log| && log[i].Emit? && log[j] == log[i] && InItem(ends, i, a) && InItem(ends, j, b)
    ensures exists l: nat, m: nat :: a < m <= b && m < |ends| - 1 && GoneFor(items, l, m, log[i].key, timeout)
  {
    NoSecondEvent(log, i, j, log[i].key, timeout);
    var r :| i < r < j && Released(log, r, log[i].key, timeout);
    var m := ItemOf(ends, r, |ends| - 1);
    if log[r].NewEpoch? {
      EarlierEpoch(items, log, ends, whole, i, a, r, m);
      LaterEpoch(items, log, ends, whole, r, m, j, b);
      assert false;
    } else {
      ItemsInOrder(ends, r, m, j, b);
      TimeoutShows(items, log, ends, whole, i, r, a, m, timeout);
    }
  }

  /** The tables hold exactly what the automata say, for the current epoch. */
  ghost predicate Agrees(active: map<Key, Track>, completed: map<Key, real>, log: seq<Entry>, timeout: real) {
    forall key :: AgreesOn(active, completed, log, timeout, key)
  }

  ghost predicate AgreesOn(active: map<Key, Track>, completed: map<Key, real>, log: seq<Entry>, timeout: real, key: Key) {
    match PhaseOf(log, key, timeout)
    case Absent => key !in active && key !in completed
    case Live(sent, last) => key in active && active[key] == Track(sent, last) && key !in completed
    case Resting(last) => key !in active && key in completed && completed[key] == last
  }

  lemma LogStep(log: seq<Entry>, e: Entry, timeout: real)
    ensures forall key :: PhaseOf(log + [e], key, timeout) == Step(PhaseOf(log, key, timeout), e, key, timeout)
    ensures Legal(log, timeout) && (e.Emit? ==> PhaseOf(log, e.key, timeout).Live? && !PhaseOf(log, e.key, timeout).sent) ==> Legal(log + [e], timeout)
  {
    assert (log + [e])[..|log|] == log;
    forall i | 0 <= i < |log| ensures (log + [e])[..i] == log[..i] && (log + [e])[i] == log[i] {}
  }

  lemma NotesStay(before: seq<Entry>, log: seq<Entry>, from: nat)
    requires before <= log
    ensures forall e :: Notes(before, from, |before|, e) ==> Notes(log, from, |log|, e)
  {
    forall e | Notes(before, from, |before|, e) ensures Notes(log, from, |log|, e) {
      var k :| from <= k < |before| && before[k] == e;
      assert log[k] == e;
    }
  }

  lemma QuietFits(log: seq<Entry>, from: nat, item: Item)
    requires QuietFrom(log, from, Some(item.epoch))
    ensures FitsFrom(log, from, |log|, item)
  {
  }

  lemma FitsOn(before: seq<Entry>, log: seq<Entry>, from: nat, item: Item)
    requires before <= log && FitsFrom(before, from, |before|, item) && FitsFrom(log, |before|, |log|, item)
    ensures FitsFrom(log, from, |log|, item)
  {
    forall k | from <= k < |log| ensures Fits(log[k], item) {
      if k < |before| { assert log[k] == before[k]; }
    }
  }

  lemma NotesAre(before: seq<Entry>, log: seq<Entry>, from: nat, to: nat, e: Entry)
    requires before <= log && to <= |before|
    ensures Notes(before, from, to, e) <==> Notes(log, from, to, e)
  {
    if Notes(before, from, to, e) {
      var k :| from <= k < to && before[k] == e;
      assert log[k] == e;
    }
    if Notes(log, from, to, e) {
      var k :| from <= k < to && log[k] == e;
      assert before[k] == e;
    }
  }

  lemma SegmentStays(before: seq<Entry>, log: seq<Entry>, from: nat, to: nat, item: Item, epoch: Option<int>, whole: bool)
    requires before <= log && Segment(before, from, to, item, epoch, whole)
    ensures Segment(log, from, to, item, epoch, whole)
    ensures EpochAfter(log, from, to, item, epoch) == EpochAfter(before, from, to, item, epoch)
  {
    var cut: nat :| CutAt(before, from, cut, to, item, epoch, whole);
    assert forall k :: 0 <= k < |before| ==> log[k] == before[k];
    NotesAre(before, log, from, to, NewEpoch);
    if whole {
      forall key | Shows(item, key) ensures Notes(log, cut, to, Sight(key, item.time)) {
        NotesAre(before, log, cut, to, Sight(key, item.time));
      }
    }
    assert CutAt(log, from, cut, to, item, epoch, whole);
  }

  lemma OneMoreSegment(items: seq<Item>, before: seq<Entry>, log: seq<Entry>, ends: seq<nat>, whole: bool)
    requires Segmented(items, before, ends, true) && |ends| <= |items| && ends[|ends| - 1] == |before| && before <= log
    requires Segment(log, |before|, |log|, items[|ends| - 1], EpochBefore(items, |ends| - 1), whole)
    ensures Segmented(items, log, ends + [|log|], whole)
  {
    var longer := ends + [|log|];
    forall k | 0 <= k < |longer| - 1 ensures IsSegment(items, log, longer, whole, k) {
      if k < |ends| - 1 {
        assert IsSegment(items, before, ends, true, k);
        SegmentStays(before, log, ends[k], ends[k + 1], items[k], EpochBefore(items, k), true);
      }
    }
  }

  lemma LastEpochIs(items: seq<Item>, log: seq<Entry>, ends: seq<nat>)
    requires 1 <= |ends| <= |items|
    ensures LastEpoch(items, log, ends + [|log|]) == EpochAfter(log, ends[|ends| - 1], |log|, items[|ends| - 1], EpochBefore(items, |ends| - 1))
  {
  }

  lemma QuietEnd(items: seq<Item>, before: seq<Entry>, log: seq<Entry>, ends: seq<nat>, whole: bool)
    requires Segmented(items, before, ends, whole) && before <= log && ends[|ends| - 1] == |before|
    requires QuietFrom(log, |before|, LastEpoch(items, before, ends))
    ensures Segmented(items, log, ends, whole)
  {
    forall k | 0 <= k < |ends| - 1
      ensures IsSegment(items, log, ends, whole, k)
      ensures EpochAfter(log, ends[k], ends[k + 1], items[k], EpochBefore(items, k)) == EpochAfter(before, ends[k], ends[k + 1], items[k], EpochBefore(items, k))
    {
      assert IsSegment(items, before, ends, whole, k);
      SegmentStays(before, log, ends[k], ends[k + 1], items[k], EpochBefore(items, k), whole || k + 2 < |ends|);
    }
  }

  /** What an item logged, put together: `entered` is where the epoch change ended. */
  lemma SegmentIs(log: seq<Entry>, from: nat, entered: nat, item: Item, before: Option<int>, whole: bool)
    requires from < entered <= |log| && log[from] == Tick(item.time) && FitsFrom(log, entered, |log|, item)
    requires if Changes(item.epoch, before) then entered > from + 1 && log[entered - 1] == NewEpoch && forall k :: from < k < entered - 1 ==> IsQuiet(log[k], before)
             else entered == from + 1
    requires whole ==> forall key :: Shows(item, key) ==> Notes(log, entered, |log|, Sight(key, item.time))
    ensures Segment(log, from, |log|, item, before, whole) && EpochAfter(log, from, |log|, item, before) == Some(item.epoch)
  {
    var cut := if Changes(item.epoch, before) then entered - 1 else entered;
    if whole {
      forall key | Shows(item, key) ensures Notes(log, cut, |log|, Sight(key, item.time)) {
        var k :| entered <= k < |log| && log[k] == Sight(key, item.time);
        assert log[k] == Sight(key, item.time);
      }
    }
    assert CutAt(log, from, cut, |log|, item, before, whole);
    if Changes(item.epoch, before) { assert Notes(log, from, |log|, NewEpoch); }
  }

  /** An epoch change that failed ends the item. */
  lemma SegmentFails(log: seq<Entry>, from: nat, item: Item, before: Option<int>)
    requires from < |log| && log[from] == Tick(item.time) && Changes(item.epoch, before) && QuietFrom(log, from + 1, before)
    ensures Segment(log, from, |log|, item, before, false) && EpochAfter(log, from, |log|, item, before) == before
  {
    assert CutAt(log, from, |log|, |log|, item, before, false);
  }

  class VehiclePipeline {
    const timeout: real
    const plateOnly: bool
    var active: map<Key, Track>
    var completed: map<Key, real>
    var epoch: Option<int>
    ghost var log: seq<Entry>

    /** All keys belong to the current epoch; the tables agree with the automata; every event
        so far was the first of its track. */
    ghost predicate Valid()
      reads this
    {
      && Legal(log, timeout) && Agrees(active, completed, log, timeout)
      && (forall key :: key in active || key in completed ==> epoch == Some(key.epoch))
    }

    lemma TablesAreDisjoint()
      requires Valid()
      ensures active.Keys !! completed.Keys
    {
      forall key | key in active ensures key !in completed { assert AgreesOn(active, completed, log, timeout, key); }
    }

    constructor (timeout: real, plateOnly: bool)
      ensures Valid() && active == map[] && completed == map[] && epoch == None && log == []
      ensures this.timeout == timeout && this.plateOnly == plateOnly
    {
      this.timeout, this.plateOnly := timeout, plateOnly;
      active, completed, epoch, log := map[], map[], None, [];
    }

    /** `_expire_completed_tracks`. */
    method ExpireCompleted(now: real)
      requires Valid()
      modifies this`completed, this`log
      ensures Valid() && log == old(log) + [Tick(now)]
      ensures completed == map key | key in old(completed) && now - old(completed)[key] < timeout :: old(completed)[key]
    {
      ghost var before := completed;
      completed := map key | key in completed && now - completed[key] < timeout :: completed[key];
      LogStep(log, Tick(now), timeout);
      forall key ensures AgreesOn(active, completed, log + [Tick(now)], timeout, key) {
        assert AgreesOn(active, before, log, timeout, key);
      }
      log := log + [Tick(now)];
    }

    /** The finalizer committed the track's event. */
    method Commit(key: Key)
      requires Valid() && key in active && !active[key].sent
      modifies this`active, this`log
      ensures Valid() && log == old(log) + [Emit(key)]
      ensures active == old(active)[key := Track(true, old(active)[key].last)]
    {
      ghost var before := active;
      active := active[key := Track(true, active[key].last)];
      assert AgreesOn(before, completed, log, timeout, key);
      LogStep(log, Emit(key), timeout);
      forall k ensures AgreesOn(active, completed, log + [Emit(key)], timeout, k) {
        assert AgreesOn(before, completed, log, timeout, k);
      }
      log := log + [Emit(key)];
    }

    /** The track leaves the active ones; its id rests from when it was last seen. */
    method Retire(key: Key)
      requires Valid() && key in active
      modifies this`active, this`completed, this`log
      ensures Valid() && log == old(log) + [Leave(key)]
      ensures active == old(active) - {key} && completed == old(completed)[key := old(active)[key].last]
    {
      ghost var before, rested := active, completed;
      active, completed := active - {key}, completed[key := active[key].last];
      LogStep(log, Leave(key), timeout);
      forall k ensures AgreesOn(active, completed, log + [Leave(key)], timeout, k) {
        assert AgreesOn(before, rested, log, timeout, k);
      }
      log := log + [Leave(key)];
    }

    /** `_finalize_track`. The finalizer may commit the event, find nothing to create, or raise
        before or after the commit; when it raises the track stays active. */
    method FinalizeTrack(key: Key) returns (ok: bool)
      requires Valid()
      modifies this`active, this`completed, this`log
      ensures Valid() && old(log) <= log && QuietFrom(log, |old(log)|, epoch)
      ensures ok ==> active == old(active) - {key}
      ensures ok ==> completed == if key in old(active) then old(completed)[key := old(active)[key].last] else old(completed)
      ensures !ok ==> key in old(active) && active.Keys == old(active).Keys && completed == old(completed)
    {
      if key !in active { return true; }
      var commits: bool, raises: bool := *, *;
      if !active[key].sent && commits { Commit(key); }
      if raises { return false; }
      Retire(key);
      ok := true;
    }

    /** `_finalize_all`, or `_finalize_timed_out` with the tracks chosen by the caller: stops at
        the first failure. */
    method FinalizeEach(keys: set<Key>) returns (ok: bool)
      requires Valid()
      modifies this`active, this`completed, this`log
      ensures Valid() && old(log) <= log && QuietFrom(log, |old(log)|, epoch) && active.Keys <= old(active).Keys
      ensures ok ==> active.Keys == old(active).Keys - keys
    {
      var rest := keys;
      while rest != {}
        invariant Valid() && rest <= keys && old(log) <= log && QuietFrom(log, |old(log)|, epoch)
        invariant active.Keys == old(active).Keys - (keys - rest)
        decreases |rest|
      {
        var key :| key in rest;
        ok := FinalizeTrack(key);
        if !ok { return; }
        rest := rest - {key};
      }
      ok := true;
    }

    method FinalizeTimedOut(now: real) returns (ok: bool)
      requires Valid()
      modifies this`active, this`completed, this`log
      ensures Valid() && old(log) <= log && QuietFrom(log, |old(log)|, epoch)
      ensures ok ==> forall key :: key in active <==> key in old(active) && now - old(active)[key].last < timeout
    {
      ok := FinalizeEach(set key | key in active && now - active[key].last >= timeout);
    }

    /** `_change_stream_epoch`: all tracks are finalized before the tables start anew. */
    method ChangeEpoch(next: int) returns (ok: bool)
      requires Valid()
      modifies this
      ensures Valid() && old(log) <= log
      ensures !Changes(next, old(epoch)) ==> ok && epoch == Some(next) && active == old(active) && completed == old(completed) && log == old(log)
      ensures Changes(next, old(epoch)) && ok ==>
        && epoch == Some(next) && active == map[] && completed == map[]
        && |log| > |old(log)| && log[|log| - 1] == NewEpoch && forall k :: |old(log)| <= k < |log| - 1 ==> IsQuiet(log[k], old(epoch))
      ensures !ok ==> Changes(next, old(epoch)) && epoch == old(epoch) && QuietFrom(log, |old(log)|, epoch)
    {
      if epoch == None {
        epoch := Some(next);
        return true;
      }
      if epoch == Some(next) { return true; }
      ok := FinalizeEach(active.Keys);
      if !ok { return; }
      LogStep(log, NewEpoch, timeout);
      active, completed, epoch, log := map[], map[], Some(next), log + [NewEpoch];
      assert log[|log| - 1] == NewEpoch;
    }

    /** One reported id: a resting one is noted, another one is tracked when it is visible. */
    method See(s: Sighting, now: real) returns (tracked: bool)
      requires Valid() && epoch.Some?
      modifies this`active, this`completed, this`log
      ensures Valid()
      ensures var key := Key(epoch.value, s.id);
        log == old(log) + if key in old(completed) || s.visible then [Sight(key, now)] else []
      ensures var key := Key(epoch.value, s.id);
        && (tracked <==> key !in old(completed) && s.visible)
        && (tracked ==> key in active && active == old(active)[key := active[key]] && active[key].last == now)
        && (!tracked ==> active == old(active))
        && completed == (if key in old(completed) then old(completed)[key := now] else old(completed))
    {
      var key := Key(epoch.value, s.id);
      if key !in completed && !s.visible { return false; }
      ghost var before, rested := active, completed;
      if key in completed {
        completed := completed[key := now];
        tracked := false;
      } else {
        active := active[key := Track(key in active && active[key].sent, now)];
        tracked := true;
      }
      LogStep(log, Sight(key, now), timeout);
      forall k ensures AgreesOn(active, completed, log + [Sight(key, now)], timeout, k) {
        assert AgreesOn(before, rested, log, timeout, k);
      }
      log := log + [Sight(key, now)];
    }

    /** The first pass over a frame notes every reported id that is shown or resting. */
    method SeeAll(item: Item) returns (prepared: seq<Sighting>)
      requires Valid() && item.Frame? && epoch == Some(item.epoch)
      modifies this`active, this`completed, this`log
      ensures Valid() && old(log) <= log && completed.Keys == old(completed).Keys
      ensures FitsFrom(log, |old(log)|, |log|, item)
      ensures forall i :: 0 <= i < |item.seen| && item.seen[i].visible ==>
        Notes(log, |old(log)|, |log|, Sight(Key(item.epoch, item.seen[i].id), item.time))
      ensures forall i :: 0 <= i < |item.seen| && Key(item.epoch, item.seen[i].id) in completed ==>
        completed[Key(item.epoch, item.seen[i].id)] == item.time
      ensures forall i :: 0 <= i < |item.seen| && item.seen[i].visible ==>
        item.seen[i] in prepared || Key(item.epoch, item.seen[i].id) in completed
    {
      prepared := [];
      for k := 0 to |item.seen|
        invariant Valid() && old(log) <= log && completed.Keys == old(completed).Keys
        invariant FitsFrom(log, |old(log)|, |log|, item)
        invariant forall i :: 0 <= i < k && item.seen[i].visible ==>
          Notes(log, |old(log)|, |log|, Sight(Key(item.epoch, item.seen[i].id), item.time))
        invariant forall i :: 0 <= i < k && Key(item.epoch, item.seen[i].id) in completed ==>
          completed[Key(item.epoch, item.seen[i].id)] == item.time
        invariant forall i :: 0 <= i < k && item.seen[i].visible ==>
          item.seen[i] in prepared || Key(item.epoch, item.seen[i].id) in completed
      {
        ghost var before := log;
        var tracked := See(item.seen[k], item.time);
        assert Reports(item, Key(item.epoch, item.seen[k].id));
        NotesStay(before, log, |old(log)|);
        if tracked { prepared := prepared + [item.seen[k]]; }
        assert item.seen[k].visible ==> log[|before|] == Sight(Key(item.epoch, item.seen[k].id), item.time);
      }
    }

    /** The second pass finalizes the tracks that crossed the line. */
    method FinalizeCrossing(prepared: seq<Sighting>) returns (ok: bool)
      requires Valid() && epoch.Some?
      modifies this`active, this`completed, this`log
      ensures Valid() && old(log) <= log && QuietFrom(log, |old(log)|, epoch)
      ensures forall key :: key in old(completed) ==> key in completed && completed[key] == old(completed)[key]
      ensures ok ==> forall i :: 0 <= i < |prepared| && prepared[i].crossing ==> Key(epoch.value, prepared[i].id) !in active
    {
      for k := 0 to |prepared|
        invariant Valid() && old(log) <= log && QuietFrom(log, |old(log)|, epoch)
        invariant forall key :: key in old(completed) ==> key in completed && completed[key] == old(completed)[key]
        invariant forall i :: 0 <= i < k && prepared[i].crossing ==> Key(epoch.value, prepared[i].id) !in active
      {
        if prepared[k].crossing {
          TablesAreDisjoint();
          ok := FinalizeTrack(Key(epoch.value, prepared[k].id));
          if !ok { return; }
        }
      }
      ok := true;
    }

    /** A frame: all reported ids first, then the crossing ones are finalized. */
    method ProcessVehicleFrame(item: Item) returns (ok: bool)
      requires Valid() && item.Frame? && epoch == Some(item.epoch)
      modifies this`active, this`completed, this`log
      ensures Valid() && old(log) <= log && FitsFrom(log, |old(log)|, |log|, item)
      ensures forall key :: Shows(item, key) ==> Notes(log, |old(log)|, |log|, Sight(key, item.time))
      ensures forall i :: 0 <= i < |item.seen| && Key(item.epoch, item.seen[i].id) in old(completed) ==>
        Key(item.epoch, item.seen[i].id) in completed && completed[Key(item.epoch, item.seen[i].id)] == item.time
      ensures ok ==> forall i :: 0 <= i < |item.seen| && item.seen[i].visible && item.seen[i].crossing ==>
        Key(item.epoch, item.seen[i].id) !in active
    {
      var prepared := SeeAll(item);
      ghost var noted := log;
      ok := FinalizeCrossing(prepared);
      TablesAreDisjoint();
      NotesStay(noted, log, |old(log)|);
      QuietFits(log, |noted|, item);
      FitsOn(noted, log, |old(log)|, item);
    }

    /** One reported id of a frame without a vehicle detector: it is finalized as soon as it crosses. */
    method ProcessPlate(s: Sighting, item: Item) returns (ok: bool)
      requires Valid() && item.Frame? && epoch == Some(item.epoch) && s in item.seen
      modifies this`active, this`completed, this`log
      ensures Valid() && old(log) <= log && FitsFrom(log, |old(log)|, |log|, item)
      ensures s.visible ==> Notes(log, |old(log)|, |log|, Sight(Key(item.epoch, s.id), item.time))
      ensures forall key :: key in old(completed) ==>
        key in completed && completed[key] == if key == Key(item.epoch, s.id) then item.time else old(completed)[key]
      ensures ok && s.visible && s.crossing ==> Key(item.epoch, s.id) in completed && completed[Key(item.epoch, s.id)] == item.time
    {
      var key := Key(item.epoch, s.id);
      var tracked := See(s, item.time);
      assert Reports(item, key);
      assert s.visible ==> log[|old(log)|] == Sight(key, item.time);
      if !tracked || !s.crossing { return true; }
      ghost var noted := log;
      TablesAreDisjoint();
      ok := FinalizeTrack(key);
      QuietFits(log, |noted|, item);
      FitsOn(noted, log, |old(log)|, item);
    }

    /** A frame without a vehicle detector: the ids one after the other. */
    method ProcessPlateFrame(item: Item) returns (ok: bool)
      requires Valid() && item.Frame? && epoch == Some(item.epoch)
      modifies this`active, this`completed, this`log
      ensures Valid() && old(log) <= log && FitsFrom(log, |old(log)|, |log|, item)
      ensures ok ==> forall key :: Shows(item, key) ==> Notes(log, |old(log)|, |log|, Sight(key, item.time))
      ensures ok ==> forall i :: 0 <= i < |item.seen| && Key(item.epoch, item.seen[i].id) in old(completed) ==>
        Key(item.epoch, item.seen[i].id) in completed && completed[Key(item.epoch, item.seen[i].id)] == item.time
      ensures ok ==> forall i :: 0 <= i < |item.seen| && item.seen[i].visible && item.seen[i].crossing ==>
        Key(item.epoch, item.seen[i].id) !in active
    {
      for k := 0 to |item.seen|
        invariant Valid() && old(log) <= log && FitsFrom(log, |old(log)|, |log|, item)
        invariant forall key :: key in old(completed) ==> key in completed
        invariant forall i :: 0 <= i < k && item.seen[i].visible ==>
          Notes(log, |old(log)|, |log|, Sight(Key(item.epoch, item.seen[i].id), item.time))
        invariant forall i :: 0 <= i < k && Key(item.epoch, item.seen[i].id) in old(completed) ==>
          completed[Key(item.epoch, item.seen[i].id)] == item.time
        invariant forall i :: 0 <= i < k && item.seen[i].visible && item.seen[i].crossing ==>
          Key(item.epoch, item.seen[i].id) in completed
      {
        ghost var before := log;
        ok := ProcessPlate(item.seen[k], item);
        FitsOn(before, log, |old(log)|, item);
        NotesStay(before, log, |old(log)|);
        if !ok { return; }
      }
      TablesAreDisjoint();
      ok := true;
    }

    method ProcessFrame(item: Item) returns (ok: bool)
      requires Valid() && item.Frame? && epoch == Some(item.epoch)
      modifies this`active, this`completed, this`log
      ensures Valid() && old(log) <= log && FitsFrom(log, |old(log)|, |log|, item)
      ensures ok ==> forall key :: Shows(item, key) ==> Notes(log, |old(log)|, |log|, Sight(key, item.time))
      ensures ok ==> forall i :: 0 <= i < |item.seen| && Key(item.epoch, item.seen[i].id) in old(completed) ==>
        Key(item.epoch, item.seen[i].id) in completed && completed[Key(item.epoch, item.seen[i].id)] == item.time
      ensures ok ==> forall i :: 0 <= i < |item.seen| && item.seen[i].visible && item.seen[i].crossing ==>
        Key(item.epoch, item.seen[i].id) !in active
    {
      if plateOnly {
        ok := ProcessPlateFrame(item);
      } else {
        ok := ProcessVehicleFrame(item);
      }
    }

    /** One item of the source: the log tells its time, the epoch it entered and the ids it showed. */
    method ProcessItem(item: Item) returns (ok: bool)
      requires Valid()
      modifies this
      ensures Valid() && old(log) <= log && Segment(log, |old(log)|, |log|, item, old(epoch), ok)
      ensures epoch == EpochAfter(log, |old(log)|, |log|, item, old(epoch)) && (ok ==> epoch == Some(item.epoch))
    {
      ghost var before, start := epoch, |log|;
      ExpireCompleted(item.time);
      ok := ChangeEpoch(item.epoch);
      if !ok {
        SegmentFails(log, start, item, before);
        return;
      }
      ghost var entered := |log|;
      ok := ProcessOpened(item);
      SegmentIs(log, start, entered, item, before, ok);
    }

    /** The rest of an item, once its epoch is the current one. */
    method ProcessOpened(item: Item) returns (ok: bool)
      requires Valid() && epoch == Some(item.epoch)
      modifies this`active, this`completed, this`log
      ensures Valid() && old(log) <= log && FitsFrom(log, |old(log)|, |log|, item)
      ensures ok ==> forall key :: Shows(item, key) ==> Notes(log, |old(log)|, |log|, Sight(key, item.time))
    {
      if item.Frame? {
        ok := ProcessFrame(item);
        if !ok { return; }
      }
      ghost var framed := log;
      ok := FinalizeTimedOut(item.time);
      NotesStay(framed, log, |old(log)|);
      QuietFits(log, |framed|, item);
      FitsOn(framed, log, |old(log)|, item);
    }

    /** The item loop of `run`, up to the first item that fails. */
    method RunItems(items: seq<Item>) returns (ok: bool, ghost ends: seq<nat>)
      requires Valid() && log == [] && epoch == None
      modifies this
      ensures Valid() && Segmented(items, log, ends, ok) && ends[|ends| - 1] == |log|
      ensures epoch == LastEpoch(items, log, ends)
    {
      ok := true;
      var k := 0;
      ends := [0];
      while k < |items| && ok
        invariant k <= |items| && Valid() && |ends| == k + 1 && ends[k] == |log|
        invariant Segmented(items, log, ends, ok) && (ok ==> epoch == EpochBefore(items, k)) && epoch == LastEpoch(items, log, ends)
      {
        ghost var before := log;
        ok := ProcessItem(items[k]);
        OneMoreSegment(items, before, log, ends, ok);
        LastEpochIs(items, log, ends);
        ends := ends + [|log|];
        k := k + 1;
      }
    }

    /** `run`: whatever ends the item loop, a run whose final finalization succeeds ends without
        an active track, and two events of one tracker id are apart in the items. */
    method Run(items: seq<Item>, interruptible: bool) returns (clean: bool, ghost ends: seq<nat>, ghost whole: bool)
      requires Valid() && log == [] && epoch == None
      modifies this
      ensures Valid() && Segmented(items, log, ends, whole) && (clean ==> active == map[])
      ensures AllApart(items, log, ends, timeout)
    {
      var ok;
      ok, ends := RunItems(items);
      whole, clean := ok, false;
      if ok || interruptible {
        ghost var before := log;
        clean := FinalizeEach(active.Keys);
        QuietEnd(items, before, log, ends, whole);
      }
      RunsKeepEventsApart(items, log, ends, whole, timeout);
    }
  }
}
