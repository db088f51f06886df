/** The idempotent event consumer (application/event_worker.py) over an at-least-once broker.
    What the broker, the repository and the policies answer is an argument of each batch; the
    per-camera groups of a batch run in any interleaving. */
module EventWorker {
  import opened Options

  datatype Event = Event(id: string, camera: string)

  datatype Message = Message(id: string, payload: string)

  type Codec = string -> Option<Event>

  /** How `_process_event` ends. A failed save may have kept the event; a failure is either one
      the worker handles or one that ends the whole camera group. */
  datatype Outcome = Done | SaveFailed(raised: bool, stored: bool) | PolicyFailed(raised: bool)

  datatype DeadLetter = Moved | MovedButRaised | NotMoved

  datatype Answers = Answers(
    outcome: Message -> Outcome,
    deadLetter: Message -> DeadLetter,
    acknowledged: bool)                 // whether the acknowledgement took effect

  datatype State = State(
    waiting: seq<Message>,              // published, not read yet
    pending: set<Message>,              // read, neither acknowledged nor dead-lettered
    acked: set<Message>,
    dead: set<Message>,
    saved: set<string>,                 // event ids in the repository
    done: set<Message>)                 // saved and post-processed without error

  // ----- one batch

  predicate Decodes(codec: Codec, m: Message) {
    codec(m.payload).Some?
  }

  function EventOf(codec: Codec, m: Message): Event
    requires Decodes(codec, m)
  {
    codec(m.payload).value
  }

  predicate IsOf(codec: Codec, m: Message, camera: string) {
    Decodes(codec, m) && EventOf(codec, m).camera == camera
  }

  /** The decodable messages of one camera, in batch order. */
  function ForCamera(codec: Codec, batch: seq<Message>, camera: string): (entries: seq<Message>)
    ensures forall m :: m in entries <==> m in batch && IsOf(codec, m, camera)
  {
    if batch == [] then []
    else
      var m := batch[|batch| - 1];
      var before := ForCamera(codec, batch[..|batch| - 1], camera);
      if IsOf(codec, m, camera) then before + [m] else before
  }

  /** How many leading entries are processed without a failure. */
  function Successes(entries: seq<Message>, outcome: Message -> Outcome): (n: nat)
    ensures n <= |entries|
    ensures forall k :: 0 <= k < n ==> outcome(entries[k]) == Done
    ensures n < |entries| ==> outcome(entries[n]) != Done
  {
    if entries == [] || outcome(entries[0]) != Done then 0 else 1 + Successes(entries[1..], outcome)
  }

  /** Processing stops after the first failure. */
  function Started(entries: seq<Message>, outcome: Message -> Outcome): (started: seq<Message>)
    ensures started <= entries
  {
    var n := Successes(entries, outcome);
    entries[..if n < |entries| then n + 1 else n]
  }

  /** A group that raises acknowledges nothing, not even its successes. */
  function Acknowledged(entries: seq<Message>, outcome: Message -> Outcome): (acknowledged: seq<Message>)
    ensures acknowledged <= entries
  {
    var n := Successes(entries, outcome);
    if n < |entries| && Raises(outcome(entries[n])) then [] else entries[..n]
  }

  predicate Stores(o: Outcome) {
    o.SaveFailed? ==> o.stored
  }

  predicate Raises(o: Outcome) {
    !o.Done? && o.raised
  }

  function Group(codec: Codec, batch: seq<Message>, m: Message): seq<Message>
    requires Decodes(codec, m)
  {
    ForCamera(codec, batch, EventOf(codec, m).camera)
  }

  function Succeeding(codec: Codec, batch: seq<Message>, outcome: Message -> Outcome): set<Message> {
    set m | m in batch && Decodes(codec, m) && m in Group(codec, batch, m)[..Successes(Group(codec, batch, m), outcome)]
  }

  function Starting(codec: Codec, batch: seq<Message>, outcome: Message -> Outcome): set<Message> {
    set m | m in batch && Decodes(codec, m) && m in Started(Group(codec, batch, m), outcome)
  }

  function Acknowledging(codec: Codec, batch: seq<Message>, outcome: Message -> Outcome): set<Message> {
    set m | m in batch && Decodes(codec, m) && m in Acknowledged(Group(codec, batch, m), outcome)
  }

  function Stored(codec: Codec, batch: seq<Message>, outcome: Message -> Outcome): set<string> {
    set m | m in Starting(codec, batch, outcome) && Stores(outcome(m)) :: EventOf(codec, m).id
  }

  /** The messages moved to the dead-letter stream, up to the first call that raises. */
  function DeadLettered(codec: Codec, batch: seq<Message>, answer: Message -> DeadLetter): set<Message> {
    if batch == [] then {}
    else if Decodes(codec, batch[0]) then DeadLettered(codec, batch[1..], answer)
    else match answer(batch[0])
      case Moved => {batch[0]} + DeadLettered(codec, batch[1..], answer)
      case MovedButRaised => {batch[0]}
      case NotMoved => {}
  }

  predicate DeadLetterRaises(codec: Codec, batch: seq<Message>, answer: Message -> DeadLetter) {
    exists m :: m in batch && !Decodes(codec, m) && answer(m) != Moved
  }

  /** Moving what does not decode to the dead letters. */
  function Sorted(codec: Codec, s: State, batch: seq<Message>, answers: Answers): State {
    var moved := DeadLettered(codec, batch, answers.deadLetter);
    s.(pending := s.pending - moved, dead := s.dead + moved)
  }

  /** Saving and post-processing the camera groups. */
  function Worked(codec: Codec, s: State, batch: seq<Message>, answers: Answers): State {
    s.(saved := s.saved + Stored(codec, batch, answers.outcome), done := s.done + Succeeding(codec, batch, answers.outcome))
  }

  function Settled(s: State, acks: set<Message>): State {
    s.(pending := s.pending - acks, acked := s.acked + acks)
  }

  /** The state after processing a batch that has been read. */
  function Process(codec: Codec, s: State, batch: seq<Message>, answers: Answers): State {
    var t := Sorted(codec, s, batch, answers);
    if DeadLetterRaises(codec, batch, answers.deadLetter) then t
    else if answers.acknowledged then Settled(Worked(codec, t, batch, answers), Acknowledging(codec, batch, answers.outcome))
    else Worked(codec, t, batch, answers)
  }

  predicate NoRepeats(batch: seq<Message>) {
    forall i, j :: 0 <= i < j < |batch| ==> batch[i] != batch[j]
  }

  /** Reading: stale pending messages again, or the next waiting ones. */
  datatype Reading = Reclaim(stale: seq<Message>) | ReadNew(count: nat)

  predicate CanRead(s: State, r: Reading) {
    match r
    case Reclaim(stale) => NoRepeats(stale) && forall k :: 0 <= k < |stale| ==> stale[k] in s.pending
    case ReadNew(count) => count <= |s.waiting|
  }

  function BatchOf(s: State, r: Reading): seq<Message>
    requires CanRead(s, r)
  {
    match r
    case Reclaim(stale) => stale
    case ReadNew(count) => s.waiting[..count]
  }

  function AfterReading(s: State, r: Reading): State
    requires CanRead(s, r)
  {
    match r
    case Reclaim(_) => s
    case ReadNew(count) => s.(waiting := s.waiting[count..], pending := s.pending + set m | m in s.waiting[..count])
  }

  function RunOnce(codec: Codec, s: State, r: Reading, answers: Answers): State
    requires CanRead(s, r)
  {
    Process(codec, AfterReading(s, r), BatchOf(s, r), answers)
  }

  // ----- the invariant

  /** Every published message is in exactly one place. */
  ghost predicate Conserved(published: set<Message>, s: State) {
    var waiting := set m | m in s.waiting;
    && NoRepeats(s.waiting)
    && published == waiting + s.pending + s.acked + s.dead
    && waiting !! s.pending !! s.acked !! s.dead
  }

  /** Acknowledged messages were saved and post-processed; dead-lettered ones do not decode. */
  ghost predicate Durable(codec: Codec, s: State) {
    && s.acked <= s.done
    && (forall m :: m in s.done ==> Decodes(codec, m) && EventOf(codec, m).id in s.saved)
    && (forall m :: m in s.dead ==> !Decodes(codec, m))
  }

  ghost predicate Inv(codec: Codec, published: set<Message>, s: State) {
    Conserved(published, s) && Durable(codec, s)
  }

  lemma {:induction false} DeadLettersDoNotDecode(codec: Codec, batch: seq<Message>, answer: Message -> DeadLetter)
    ensures forall m :: m in DeadLettered(codec, batch, answer) ==> m in batch && !Decodes(codec, m)
  {
    if batch != [] { DeadLettersDoNotDecode(codec, batch[1..], answer); }
  }

  lemma SuccessesAreStored(codec: Codec, batch: seq<Message>, outcome: Message -> Outcome, m: Message)
    requires m in Succeeding(codec, batch, outcome)
    ensures outcome(m) == Done && EventOf(codec, m).id in Stored(codec, batch, outcome)
  {
    var entries := Group(codec, batch, m);
    var k :| 0 <= k < Successes(entries, outcome) && entries[k] == m;
    assert m == Started(entries, outcome)[k];
    assert m in Starting(codec, batch, outcome);
  }

  lemma AcknowledgedSucceed(codec: Codec, batch: seq<Message>, outcome: Message -> Outcome)
    ensures Acknowledging(codec, batch, outcome) <= Succeeding(codec, batch, outcome)
  {
  }

  lemma ProcessKeepsInv(codec: Codec, published: set<Message>, s: State, batch: seq<Message>, answers: Answers)
    requires Inv(codec, published, s) && forall m :: m in batch ==> m in s.pending
    ensures Inv(codec, published, Process(codec, s, batch, answers))
  {
    var t := Process(codec, s, batch, answers);
    DeadLettersDoNotDecode(codec, batch, answers.deadLetter);
    if !DeadLetterRaises(codec, batch, answers.deadLetter) {
      AcknowledgedSucceed(codec, batch, answers.outcome);
      forall m | m in t.done ensures Decodes(codec, m) && EventOf(codec, m).id in t.saved {
        if m !in s.done { SuccessesAreStored(codec, batch, answers.outcome, m); }
      }
    }
  }

  lemma ReadingKeepsInv(codec: Codec, published: set<Message>, s: State, r: Reading)
    requires Inv(codec, published, s) && CanRead(s, r)
    ensures Inv(codec, published, AfterReading(s, r)) && NoRepeats(BatchOf(s, r))
    ensures forall m :: m in BatchOf(s, r) ==> m in AfterReading(s, r).pending
  {
    if r.ReadNew? {
      assert s.waiting == s.waiting[..r.count] + s.waiting[r.count..];
    }
  }

  /** A batch loses no message, acknowledges only what was saved and post-processed, and
      dead-letters only what does not decode. */
  lemma RunOnceKeepsInv(codec: Codec, published: set<Message>, s: State, r: Reading, answers: Answers)
    requires Inv(codec, published, s) && CanRead(s, r)
    ensures Inv(codec, published, RunOnce(codec, s, r, answers))
    ensures s.saved <= RunOnce(codec, s, r, answers).saved && s.acked <= RunOnce(codec, s, r, answers).acked
  {
    ReadingKeepsInv(codec, published, s, r);
    ProcessKeepsInv(codec, published, AfterReading(s, r), BatchOf(s, r), answers);
  }

  // ----- whole runs

  datatype Action = Publish(m: Message) | Batch(reading: Reading, answers: Answers)

  ghost predicate Possible(published: set<Message>, s: State, a: Action) {
    match a
    case Publish(m) => m !in published
    case Batch(reading, _) => CanRead(s, reading)
  }

  ghost predicate IsRun(codec: Codec, published: set<Message>, s: State, actions: seq<Action>)
    decreases |actions|
  {
    actions == [] || (Possible(published, s, actions[0]) &&
      match actions[0]
      case Publish(m) => IsRun(codec, published + {m}, s.(waiting := s.waiting + [m]), actions[1..])
      case Batch(reading, answers) => IsRun(codec, published, RunOnce(codec, s, reading, answers), actions[1..]))
  }

  /** The published messages and the state at the end of a run. */
  ghost function After(codec: Codec, published: set<Message>, s: State, actions: seq<Action>): (set<Message>, State)
    requires IsRun(codec, published, s, actions)
    decreases |actions|
  {
    if actions == [] then (published, s)
    else
      match actions[0]
      case Publish(m) => After(codec, published + {m}, s.(waiting := s.waiting + [m]), actions[1..])
      case Batch(reading, answers) => After(codec, published, RunOnce(codec, s, reading, answers), actions[1..])
  }

  /** Over any run with redelivery every message is waiting, pending, acknowledged or
      dead-lettered, and every acknowledged event is in the repository. */
  lemma {:induction false} RunKeepsInv(codec: Codec, published: set<Message>, s: State, actions: seq<Action>)
    requires Inv(codec, published, s) && IsRun(codec, published, s, actions)
    ensures var (all, t) := After(codec, published, s, actions);
      && Inv(codec, all, t) && published <= all
      && forall m :: m in t.acked ==> Decodes(codec, m) && EventOf(codec, m).id in t.saved
    decreases |actions|
  {
    if actions != [] {
      match actions[0]
      case Publish(m) => RunKeepsInv(codec, published + {m}, s.(waiting := s.waiting + [m]), actions[1..]);
      case Batch(reading, answers) =>
        RunOnceKeepsInv(codec, published, s, reading, answers);
        RunKeepsInv(codec, published, RunOnce(codec, s, reading, answers), actions[1..]);
    }
  }

  // ----- order within a camera

  lemma {:induction false} GroupsHaveNoRepeats(codec: Codec, batch: seq<Message>, camera: string)
    requires NoRepeats(batch)
    ensures NoRepeats(ForCamera(codec, batch, camera))
  {
    if batch != [] {
      GroupsHaveNoRepeats(codec, batch[..|batch| - 1], camera);
      var m := batch[|batch| - 1];
      assert m !in batch[..|batch| - 1];
      assert m !in ForCamera(codec, batch[..|batch| - 1], camera);
    }
  }

  lemma InPrefix(entries: seq<Message>, prefix: seq<Message>, k: nat)
    requires NoRepeats(entries) && prefix <= entries && k < |entries|
    ensures entries[k] in prefix <==> k < |prefix|
  {
    if k < |prefix| { assert prefix[k] == entries[k]; }
  }

  /** Exactly the first `n` entries are acknowledged, and those were processed without error. */
  ghost predicate AcknowledgedTo(entries: seq<Message>, t: State, outcome: Message -> Outcome, n: nat) {
    && n <= |entries|
    && forall k :: 0 <= k < |entries| ==>
         && (entries[k] in t.acked <==> k < n) && (entries[k] in t.pending <==> n <= k)
         && (k < n ==> outcome(entries[k]) == Done && entries[k] in t.done)
  }

  /** In every batch the acknowledged messages of a camera are a prefix of its decodable
      messages, and each of them was processed without error. */
  lemma AcknowledgedArePrefix(codec: Codec, published: set<Message>, s: State, r: Reading, answers: Answers, camera: string)
    requires Inv(codec, published, s) && CanRead(s, r)
    ensures exists n :: AcknowledgedTo(ForCamera(codec, BatchOf(s, r), camera), RunOnce(codec, s, r, answers), answers.outcome, n)
  {
    var batch, entries := BatchOf(s, r), ForCamera(codec, BatchOf(s, r), camera);
    var t := RunOnce(codec, s, r, answers);
    ReadingKeepsInv(codec, published, s, r);
    RunOnceKeepsInv(codec, published, s, r, answers);
    DeadLettersDoNotDecode(codec, batch, answers.deadLetter);
    GroupsHaveNoRepeats(codec, batch, camera);
    var acks := Acknowledged(entries, answers.outcome);
    var n := if DeadLetterRaises(codec, batch, answers.deadLetter) || !answers.acknowledged then 0 else |acks|;
    forall k | 0 <= k < |entries|
      ensures (entries[k] in t.acked <==> k < n) && (entries[k] in t.pending <==> n <= k)
      ensures k < n ==> answers.outcome(entries[k]) == Done && entries[k] in t.done
    {
      InPrefix(entries, acks, k);
      assert entries[k] in batch && Group(codec, batch, entries[k]) == entries;
      assert entries[k] in AfterReading(s, r).pending;
    }
    assert AcknowledgedTo(entries, t, answers.outcome, n);
  }

  /** After the first message of a camera that fails, nothing of that camera is touched in
      this batch: the later ones are not started and stay pending. */
  lemma NothingAfterAFailure(codec: Codec, published: set<Message>, s: State, r: Reading, answers: Answers, camera: string, i: nat, j: nat)
    requires Inv(codec, published, s) && CanRead(s, r)
    requires i < j < |ForCamera(codec, BatchOf(s, r), camera)|
    requires answers.outcome(ForCamera(codec, BatchOf(s, r), camera)[i]) != Done
    ensures var m := ForCamera(codec, BatchOf(s, r), camera)[j];
      var t := RunOnce(codec, s, r, answers);
      && m !in Starting(codec, BatchOf(s, r), answers.outcome) && m in t.pending
      && (m in t.done ==> m in s.done)
  {
    var batch, entries := BatchOf(s, r), ForCamera(codec, BatchOf(s, r), camera);
    ReadingKeepsInv(codec, published, s, r);
    GroupsHaveNoRepeats(codec, batch, camera);
    DeadLettersDoNotDecode(codec, batch, answers.deadLetter);
    var m := entries[j];
    assert m in entries && IsOf(codec, m, camera);
    assert Group(codec, batch, m) == entries;
    assert Successes(entries, answers.outcome) <= i;
    InPrefix(entries, Started(entries, answers.outcome), j);
    InPrefix(entries, entries[..Successes(entries, answers.outcome)], j);
    AcknowledgedSucceed(codec, batch, answers.outcome);
    assert m in AfterReading(s, r).pending;
  }

  lemma {:induction false} AllDeadLettersMove(codec: Codec, batch: seq<Message>, answer: Message -> DeadLetter, m: Message)
    requires !DeadLetterRaises(codec, batch, answer) && m in batch && !Decodes(codec, m)
    ensures m in DeadLettered(codec, batch, answer)
  {
    if m != batch[0] { AllDeadLettersMove(codec, batch[1..], answer, m); }
  }

  /** Without failures a batch settles completely: every message is acknowledged or dead-lettered. */
  lemma CleanBatchSettles(codec: Codec, published: set<Message>, s: State, r: Reading, answers: Answers, m: Message)
    requires Inv(codec, published, s) && CanRead(s, r) && m in BatchOf(s, r)
    requires answers.acknowledged && forall x :: x in BatchOf(s, r) ==> answers.outcome(x) == Done && answers.deadLetter(x) == Moved
    ensures if Decodes(codec, m) then m in RunOnce(codec, s, r, answers).acked else m in RunOnce(codec, s, r, answers).dead
  {
    var batch := BatchOf(s, r);
    if Decodes(codec, m) {
      var entries := Group(codec, batch, m);
      assert Successes(entries, answers.outcome) == |entries|;
      assert entries[..|entries|] == entries;
    } else {
      AllDeadLettersMove(codec, batch, answers.deadLetter, m);
    }
  }

  // ----- interleaved groups

  function Union<T>(parts: seq<set<T>>): set<T> {
    set i, x | 0 <= i < |parts| && x in parts[i] :: x
  }

  lemma UnionShrinks<T>(parts: seq<set<T>>, i: nat, smaller: set<T>, gone: set<T>)
    requires i < |parts| && parts[i] == smaller + gone
    ensures Union(parts) == Union(parts[i := smaller]) + gone
  {
    var next := parts[i := smaller];
    forall x | x in Union(parts) ensures x in Union(next) + gone {
      var j :| 0 <= j < |parts| && x in parts[j];
      assert j != i ==> x in next[j];
      assert j == i && x in smaller ==> x in next[i];
    }
    forall x | x in Union(next) + gone ensures x in Union(parts) {
      if x in gone { assert x in parts[i]; }
      else {
        var j :| 0 <= j < |next| && x in next[j];
        assert x in parts[j];
      }
    }
  }

  function DoneIn(entries: seq<Message>, outcome: Message -> Outcome): set<Message> {
    set m | m in entries[..Successes(entries, outcome)]
  }

  function StoredIn(codec: Codec, entries: seq<Message>, outcome: Message -> Outcome): set<string> {
    set m | m in Started(entries, outcome) && Stores(outcome(m)) && Decodes(codec, m) :: EventOf(codec, m).id
  }

  function AllDone(queues: seq<seq<Message>>, outcome: Message -> Outcome): (parts: seq<set<Message>>)
    ensures |parts| == |queues| && forall i :: 0 <= i < |parts| ==> parts[i] == DoneIn(queues[i], outcome)
  {
    seq(|queues|, i requires 0 <= i < |queues| => DoneIn(queues[i], outcome))
  }

  function AllStored(codec: Codec, queues: seq<seq<Message>>, outcome: Message -> Outcome): (parts: seq<set<string>>)
    ensures |parts| == |queues| && forall i :: 0 <= i < |parts| ==> parts[i] == StoredIn(codec, queues[i], outcome)
  {
    seq(|queues|, i requires 0 <= i < |queues| => StoredIn(codec, queues[i], outcome))
  }

  function Left(queues: seq<seq<Message>>): nat {
    if queues == [] then 0 else |queues[0]| + Left(queues[1..])
  }

  lemma {:induction false} LeftShrinks(queues: seq<seq<Message>>, i: nat, shorter: seq<Message>)
    requires i < |queues| && |shorter| < |queues[i]|
    ensures Left(queues[i := shorter]) < Left(queues)
  {
    if i > 0 {
      LeftShrinks(queues[1..], i - 1, shorter);
      assert queues[i := shorter][1..] == queues[1..][i - 1 := shorter];
    } else {
      assert queues[0 := shorter][1..] == queues[1..];
    }
  }

  lemma {:induction false} SomethingLeft(queues: seq<seq<Message>>)
    ensures Left(queues) > 0 <==> exists i :: 0 <= i < |queues| && queues[i] != []
  {
    if queues != [] {
      SomethingLeft(queues[1..]);
      if Left(queues[1..]) > 0 {
        var i :| 0 <= i < |queues[1..]| && queues[1..][i] != [];
        assert queues[i + 1] != [];
      }
      if j :| 0 <= j < |queues| && queues[j] != [] && j > 0 { assert queues[1..][j - 1] != []; }
    }
  }

  /** A success takes the first entry off a queue ... */
  lemma SuccessTaken(codec: Codec, entries: seq<Message>, outcome: Message -> Outcome)
    requires entries != [] && Decodes(codec, entries[0]) && outcome(entries[0]) == Done
    ensures DoneIn(entries, outcome) == DoneIn(entries[1..], outcome) + {entries[0]}
    ensures StoredIn(codec, entries, outcome) == StoredIn(codec, entries[1..], outcome) + {EventOf(codec, entries[0]).id}
  {
    var rest := entries[1..];
    assert DoneIn(entries, outcome) == DoneIn(rest, outcome) + {entries[0]} by {
      assert entries[..Successes(entries, outcome)] == [entries[0]] + rest[..Successes(rest, outcome)];
    }
    var started := Started(rest, outcome);
    assert Started(entries, outcome) == [entries[0]] + started;
    assert forall m :: m in [entries[0]] + started <==> m == entries[0] || m in started;
  }

  /** ... and a failure the whole queue. */
  lemma FailureTaken(codec: Codec, entries: seq<Message>, outcome: Message -> Outcome)
    requires entries != [] && Decodes(codec, entries[0]) && outcome(entries[0]) != Done
    ensures DoneIn(entries, outcome) == DoneIn([], outcome) == {}
    ensures StoredIn(codec, [], outcome) == {}
    ensures StoredIn(codec, entries, outcome) == if Stores(outcome(entries[0])) then {EventOf(codec, entries[0]).id} else {}
  {
    assert Started(entries, outcome) == [entries[0]];
  }

  lemma EntryTaken(codec: Codec, entries: seq<Message>, outcome: Message -> Outcome)
    requires entries != [] && Decodes(codec, entries[0])
    ensures var rest := if outcome(entries[0]) == Done then entries[1..] else [];
      && DoneIn(entries, outcome) == DoneIn(rest, outcome) + (if outcome(entries[0]) == Done then {entries[0]} else {})
      && StoredIn(codec, entries, outcome) == StoredIn(codec, rest, outcome) + (if Stores(outcome(entries[0])) then {EventOf(codec, entries[0]).id} else {})
  {
    if outcome(entries[0]) == Done {
      SuccessTaken(codec, entries, outcome);
    } else {
      FailureTaken(codec, entries, outcome);
    }
  }

  lemma Moves<T>(before: set<T>, now: set<T>, gone: set<T>, left: set<T>, all: set<T>)
    requires now == before + gone && all == left + gone
    ensures now + left == before + all
  {
  }

  lemma AdvancedDecodes(codec: Codec, queues: seq<seq<Message>>, i: nat, outcome: Message -> Outcome)
    requires i < |queues| && queues[i] != [] && AllDecode(codec, queues)
    ensures AllDecode(codec, Advanced(queues, i, outcome)) && Left(Advanced(queues, i, outcome)) < Left(queues)
  {
    LeftShrinks(queues, i, Advanced(queues, i, outcome)[i]);
  }

  predicate AllDecode(codec: Codec, queues: seq<seq<Message>>) {
    forall i, k :: 0 <= i < |queues| && 0 <= k < |queues[i]| ==> Decodes(codec, queues[i][k])
  }

  /** The queues after processing the first entry of one of them. */
  function Advanced(queues: seq<seq<Message>>, i: nat, outcome: Message -> Outcome): seq<seq<Message>>
    requires i < |queues| && queues[i] != []
  {
    queues[i := if outcome(queues[i][0]) == Done then queues[i][1..] else []]
  }

  lemma AdvancedDone(codec: Codec, queues: seq<seq<Message>>, i: nat, outcome: Message -> Outcome)
    requires i < |queues| && queues[i] != [] && Decodes(codec, queues[i][0])
    ensures Union(AllDone(queues, outcome)) ==
      Union(AllDone(Advanced(queues, i, outcome), outcome)) + (if outcome(queues[i][0]) == Done then {queues[i][0]} else {})
  {
    var next := Advanced(queues, i, outcome);
    EntryTaken(codec, queues[i], outcome);
    UnionShrinks(AllDone(queues, outcome), i, DoneIn(next[i], outcome), if outcome(queues[i][0]) == Done then {queues[i][0]} else {});
    assert AllDone(next, outcome) == AllDone(queues, outcome)[i := DoneIn(next[i], outcome)];
  }

  lemma AdvancedStored(codec: Codec, queues: seq<seq<Message>>, i: nat, outcome: Message -> Outcome)
    requires i < |queues| && queues[i] != [] && Decodes(codec, queues[i][0])
    ensures Union(AllStored(codec, queues, outcome)) == Union(AllStored(codec, Advanced(queues, i, outcome), outcome))
      + (if Stores(outcome(queues[i][0])) then {EventOf(codec, queues[i][0]).id} else {})
  {
    var next := Advanced(queues, i, outcome);
    EntryTaken(codec, queues[i], outcome);
    UnionShrinks(AllStored(codec, queues, outcome), i, StoredIn(codec, next[i], outcome),
                 if Stores(outcome(queues[i][0])) then {EventOf(codec, queues[i][0]).id} else {});
    assert AllStored(codec, next, outcome) == AllStored(codec, queues, outcome)[i := StoredIn(codec, next[i], outcome)];
  }

  /** What a group acknowledges in the end: what it has so far and the coming successes, or
      nothing when it raises. */
  function Final(sofar: seq<Message>, queue: seq<Message>, outcome: Message -> Outcome): seq<Message> {
    var n := Successes(queue, outcome);
    if n < |queue| && Raises(outcome(queue[n])) then [] else sofar + queue[..n]
  }

  /** The acknowledgements of a group after its next entry. */
  function Extended(sofar: seq<Message>, m: Message, outcome: Message -> Outcome): seq<Message> {
    if outcome(m) == Done then sofar + [m] else if Raises(outcome(m)) then [] else sofar
  }

  lemma FinalSteps(sofar: seq<Message>, queue: seq<Message>, outcome: Message -> Outcome)
    requires queue != []
    ensures Final(Extended(sofar, queue[0], outcome), if outcome(queue[0]) == Done then queue[1..] else [], outcome) == Final(sofar, queue, outcome)
  {
    if outcome(queue[0]) == Done {
      var n := Successes(queue[1..], outcome);
      assert queue[..n + 1] == [queue[0]] + queue[1..][..n];
      assert sofar + queue[..n + 1] == (sofar + [queue[0]]) + queue[1..][..n];
    } else {
      assert sofar + queue[..0] == sofar && sofar + [] == sofar;
    }
  }

  function AllFinal(results: seq<seq<Message>>, queues: seq<seq<Message>>, outcome: Message -> Outcome): seq<seq<Message>>
    requires |results| == |queues|
  {
    seq(|queues|, i requires 0 <= i < |queues| => Final(results[i], queues[i], outcome))
  }

  function AllAcknowledged(groups: seq<seq<Message>>, outcome: Message -> Outcome): seq<seq<Message>> {
    seq(|groups|, i requires 0 <= i < |groups| => Acknowledged(groups[i], outcome))
  }

  lemma ResultsStart(groups: seq<seq<Message>>, results: seq<seq<Message>>, outcome: Message -> Outcome)
    requires |results| == |groups| && forall i :: 0 <= i < |results| ==> results[i] == []
    ensures AllFinal(results, groups, outcome) == AllAcknowledged(groups, outcome)
  {
    forall i | 0 <= i < |groups| ensures Final(results[i], groups[i], outcome) == Acknowledged(groups[i], outcome) {
      assert [] + groups[i][..Successes(groups[i], outcome)] == groups[i][..Successes(groups[i], outcome)];
    }
  }

  lemma ResultsStep(queues: seq<seq<Message>>, results: seq<seq<Message>>, i: nat, outcome: Message -> Outcome)
    requires |results| == |queues| && i < |queues| && queues[i] != []
    ensures AllFinal(results[i := Extended(results[i], queues[i][0], outcome)], Advanced(queues, i, outcome), outcome) == AllFinal(results, queues, outcome)
  {
    FinalSteps(results[i], queues[i], outcome);
  }

  lemma ResultsEnd(queues: seq<seq<Message>>, results: seq<seq<Message>>, outcome: Message -> Outcome)
    requires |results| == |queues| && Left(queues) == 0
    ensures AllFinal(results, queues, outcome) == results
  {
    SomethingLeft(queues);
    forall i | 0 <= i < |queues| ensures Final(results[i], queues[i], outcome) == results[i] {
      assert queues[i] == [] && results[i] + [] == results[i];
    }
  }

  ghost predicate IsGroup(codec: Codec, batch: seq<Message>, entries: seq<Message>) {
    exists camera :: entries == ForCamera(codec, batch, camera)
  }

  function GroupIn(groups: map<string, seq<Message>>, camera: string): seq<Message> {
    if camera in groups then groups[camera] else []
  }

  /** The queues are the camera groups of the batch, in some order. */
  ghost predicate Grouped(codec: Codec, batch: seq<Message>, queues: seq<seq<Message>>) {
    && (forall i :: 0 <= i < |queues| ==> IsGroup(codec, batch, queues[i]))
    && (forall m :: m in batch && Decodes(codec, m) ==> Group(codec, batch, m) in queues)
  }

  lemma GroupsDecode(codec: Codec, batch: seq<Message>, queues: seq<seq<Message>>)
    requires Grouped(codec, batch, queues)
    ensures AllDecode(codec, queues)
  {
    forall i, k | 0 <= i < |queues| && 0 <= k < |queues[i]| ensures Decodes(codec, queues[i][k]) {
      assert queues[i][k] in queues[i];
    }
  }

  lemma WholeBatch(codec: Codec, batch: seq<Message>, queues: seq<seq<Message>>, outcome: Message -> Outcome)
    requires Grouped(codec, batch, queues)
    ensures Union(AllDone(queues, outcome)) == Succeeding(codec, batch, outcome)
    ensures Union(AllStored(codec, queues, outcome)) == Stored(codec, batch, outcome)
  {
    forall m | m in Union(AllDone(queues, outcome)) ensures m in Succeeding(codec, batch, outcome) {
      var i :| 0 <= i < |queues| && m in AllDone(queues, outcome)[i];
      assert m in queues[i];
    }
    forall m | m in Succeeding(codec, batch, outcome) ensures m in Union(AllDone(queues, outcome)) {
      var i :| 0 <= i < |queues| && queues[i] == Group(codec, batch, m);
      assert m in AllDone(queues, outcome)[i];
    }
    forall id | id in Union(AllStored(codec, queues, outcome)) ensures id in Stored(codec, batch, outcome) {
      var i :| 0 <= i < |queues| && id in AllStored(codec, queues, outcome)[i];
      var m :| m in Started(queues[i], outcome) && Stores(outcome(m)) && Decodes(codec, m) && EventOf(codec, m).id == id;
      assert m in queues[i];
      assert m in Starting(codec, batch, outcome);
    }
    forall id | id in Stored(codec, batch, outcome) ensures id in Union(AllStored(codec, queues, outcome)) {
      var m :| m in Starting(codec, batch, outcome) && Stores(outcome(m)) && EventOf(codec, m).id == id;
      var i :| 0 <= i < |queues| && queues[i] == Group(codec, batch, m);
      assert id in AllStored(codec, queues, outcome)[i];
    }
  }

  /** The messages of all results together. */
  function Flattened(results: seq<seq<Message>>): set<Message> {
    set i, m | 0 <= i < |results| && m in results[i] :: m
  }

  lemma WholeAcknowledgement(codec: Codec, batch: seq<Message>, groups: seq<seq<Message>>, outcome: Message -> Outcome)
    requires Grouped(codec, batch, groups)
    ensures Flattened(AllAcknowledged(groups, outcome)) == Acknowledging(codec, batch, outcome)
  {
    var results := AllAcknowledged(groups, outcome);
    forall m | m in Acknowledging(codec, batch, outcome) ensures m in Flattened(results) {
      var i :| 0 <= i < |groups| && groups[i] == Group(codec, batch, m);
      assert m in results[i];
    }
    forall m | m in Flattened(results) ensures m in Acknowledging(codec, batch, outcome) {
      var i :| 0 <= i < |results| && m in results[i];
      assert m in groups[i];
    }
  }

  lemma NothingLeft(codec: Codec, queues: seq<seq<Message>>, outcome: Message -> Outcome)
    requires Left(queues) == 0
    ensures Union(AllDone(queues, outcome)) == {} && Union(AllStored(codec, queues, outcome)) == {}
  {
    SomethingLeft(queues);
    assert forall i :: 0 <= i < |queues| ==> queues[i] == [];
  }

  // ----- the object

  class VehicleEventWorker {
    const codec: Codec
    const reclaimInterval: real
    var waiting: seq<Message>      // the broker's stream
    var pending: set<Message>
    var acked: set<Message>
    var dead: set<Message>
    var saved: set<string>         // the repository
    var nextReclaimAt: real
    var messagesRead: nat
    var messagesReclaimed: nat
    var eventsPersisted: nat
    var duplicateEvents: nat
    ghost var done: set<Message>
    ghost var silent: nat          // events the repository kept although `save` raised

    ghost predicate Valid()
      reads this
    {
      |saved| == eventsPersisted + silent
    }

    ghost function Current(): State
      reads this
    {
      State(waiting, pending, acked, dead, saved, done)
    }

    constructor (codec: Codec, reclaimInterval: real)
      ensures Valid() && Current() == State([], {}, {}, {}, {}, {})
      ensures this.codec == codec && this.reclaimInterval == reclaimInterval && nextReclaimAt == 0.0
    {
      this.codec, this.reclaimInterval := codec, reclaimInterval;
      waiting, pending, acked, dead, saved, done := [], {}, {}, {}, {}, {};
      nextReclaimAt, messagesRead, messagesReclaimed, eventsPersisted, duplicateEvents, silent := 0.0, 0, 0, 0, 0, 0;
    }

    /** `_process_event`: an event id is inserted once, whatever is redelivered. */
    method ProcessEvent(m: Message, outcome: Outcome)
      requires Valid() && Decodes(codec, m)
      modifies this`saved, this`done, this`eventsPersisted, this`duplicateEvents, this`silent
      ensures Valid()
      ensures saved == if Stores(outcome) then old(saved) + {EventOf(codec, m).id} else old(saved)
      ensures done == if outcome == Done then old(done) + {m} else old(done)
    {
      var id := EventOf(codec, m).id;
      var created := id !in saved;
      assert !created ==> saved + {id} == saved;
      if Stores(outcome) { saved := saved + {id}; }
      if outcome.SaveFailed? {
        if created && outcome.stored { silent := silent + 1; }
        return;
      }
      if created { eventsPersisted := eventsPersisted + 1; } else { duplicateEvents := duplicateEvents + 1; }
      if outcome.PolicyFailed? { return; }
      done := done + {m};
    }

    /** Decodes a batch into camera groups; what does not decode goes to the dead letters. The
        first dead letter that raises ends the batch. */
    method GroupByCamera(batch: seq<Message>, answers: Answers) returns (ok: bool, groups: map<string, seq<Message>>)
      modifies this`pending, this`dead
      ensures pending == old(pending) - DeadLettered(codec, batch, answers.deadLetter)
      ensures dead == old(dead) + DeadLettered(codec, batch, answers.deadLetter)
      ensures ok <==> !DeadLetterRaises(codec, batch, answers.deadLetter)
      ensures ok ==> forall c :: GroupIn(groups, c) == ForCamera(codec, batch, c)
    {
      groups := map[];
      for k := 0 to |batch|
        invariant pending - DeadLettered(codec, batch[k..], answers.deadLetter) == old(pending) - DeadLettered(codec, batch, answers.deadLetter)
        invariant dead + DeadLettered(codec, batch[k..], answers.deadLetter) == old(dead) + DeadLettered(codec, batch, answers.deadLetter)
        invariant !DeadLetterRaises(codec, batch[..k], answers.deadLetter)
        invariant forall c :: GroupIn(groups, c) == ForCamera(codec, batch[..k], c)
      {
        var m := batch[k];
        assert batch[k..][0] == m && batch[k..][1..] == batch[k + 1..];
        assert batch[..k + 1] == batch[..k] + [m] && batch[..k + 1][..k] == batch[..k];
        if Decodes(codec, m) {
          var camera := EventOf(codec, m).camera;
          groups := groups[camera := GroupIn(groups, camera) + [m]];
        } else {
          var answer := answers.deadLetter(m);
          if !answer.NotMoved? { pending, dead := pending - {m}, dead + {m}; }
          if !answer.Moved? {
            assert m in batch;
            return false, groups;
          }
        }
      }
      assert batch[..|batch|] == batch;
      ok := true;
    }

    /** One entry of one group: what is done and stored moves from the queues to the state. */
    method ProcessNext(queues: seq<seq<Message>>, i: nat, answers: Answers) returns (next: seq<seq<Message>>)
      requires Valid() && i < |queues| && queues[i] != [] && AllDecode(codec, queues)
      modifies this`saved, this`done, this`eventsPersisted, this`duplicateEvents, this`silent
      ensures Valid() && Left(next) < Left(queues) && AllDecode(codec, next) && next == Advanced(queues, i, answers.outcome)
      ensures done + Union(AllDone(next, answers.outcome)) == old(done) + Union(AllDone(queues, answers.outcome))
      ensures saved + Union(AllStored(codec, next, answers.outcome)) == old(saved) + Union(AllStored(codec, queues, answers.outcome))
    {
      var m := queues[i][0];
      ProcessEvent(m, answers.outcome(m));
      next := Advanced(queues, i, answers.outcome);
      AdvancedDecodes(codec, queues, i, answers.outcome);
      AdvancedDone(codec, queues, i, answers.outcome);
      AdvancedStored(codec, queues, i, answers.outcome);
      Moves(old(done), done, if answers.outcome(m) == Done then {m} else {},
            Union(AllDone(next, answers.outcome)), Union(AllDone(queues, answers.outcome)));
      Moves(old(saved), saved, if Stores(answers.outcome(m)) then {EventOf(codec, m).id} else {},
            Union(AllStored(codec, next, answers.outcome)), Union(AllStored(codec, queues, answers.outcome)));
    }

    /** The camera groups in any interleaving, each up to its first failure. */
    method ProcessGroups(ghost batch: seq<Message>, groups: seq<seq<Message>>, answers: Answers) returns (results: seq<seq<Message>>)
      requires Valid() && Grouped(codec, batch, groups)
      modifies this`saved, this`done, this`eventsPersisted, this`duplicateEvents, this`silent
      ensures Valid()
      ensures saved == old(saved) + Stored(codec, batch, answers.outcome)
      ensures done == old(done) + Succeeding(codec, batch, answers.outcome)
      ensures results == AllAcknowledged(groups, answers.outcome)
    {
      var queues := groups;
      results := seq(|groups|, _ => []);
      ResultsStart(groups, results, answers.outcome);
      GroupsDecode(codec, batch, queues);
      WholeBatch(codec, batch, queues, answers.outcome);
      while Left(queues) > 0
        invariant Valid() && AllDecode(codec, queues)
        invariant |results| == |queues| && AllFinal(results, queues, answers.outcome) == AllAcknowledged(groups, answers.outcome)
        invariant done + Union(AllDone(queues, answers.outcome)) == old(done) + Succeeding(codec, batch, answers.outcome)
        invariant saved + Union(AllStored(codec, queues, answers.outcome)) == old(saved) + Stored(codec, batch, answers.outcome)
        decreases Left(queues)
      {
        SomethingLeft(queues);
        var i :| 0 <= i < |queues| && queues[i] != [];
        ResultsStep(queues, results, i, answers.outcome);
        results := results[i := Extended(results[i], queues[i][0], answers.outcome)];
        queues := ProcessNext(queues, i, answers);
      }
      ResultsEnd(queues, results, answers.outcome);
      NothingLeft(codec, queues, answers.outcome);
    }

    method Values(ghost batch: seq<Message>, groups: map<string, seq<Message>>) returns (values: seq<seq<Message>>)
      requires forall c :: GroupIn(groups, c) == ForCamera(codec, batch, c)
      ensures Grouped(codec, batch, values)
    {
      values := [];
      var rest := groups.Keys;
      while rest != {}
        invariant rest <= groups.Keys
        invariant forall c :: c in groups && c !in rest ==> groups[c] in values
        invariant forall i :: 0 <= i < |values| ==> IsGroup(codec, batch, values[i])
      {
        var c :| c in rest;
        assert GroupIn(groups, c) == ForCamera(codec, batch, c);
        values := values + [groups[c]];
        rest := rest - {c};
      }
      forall m | m in batch && Decodes(codec, m) ensures Group(codec, batch, m) in values {
        assert m in Group(codec, batch, m);
        assert GroupIn(groups, EventOf(codec, m).camera) == Group(codec, batch, m);
      }
    }

    /** Reads a batch: stale pending messages when a reclaim is due and there are any. */
    method Read(now: real, stale: seq<Message>, count: nat) returns (batch: seq<Message>)
      requires CanRead(Current(), Reclaim(stale)) && count <= |waiting|
      modifies this`waiting, this`pending, this`nextReclaimAt, this`messagesRead, this`messagesReclaimed
      ensures var r := if now >= old(nextReclaimAt) && stale != [] then Reclaim(stale) else ReadNew(count);
        Current() == AfterReading(old(Current()), r) && batch == BatchOf(old(Current()), r)
      ensures nextReclaimAt == if now >= old(nextReclaimAt) then now + reclaimInterval else old(nextReclaimAt)
      ensures messagesRead + messagesReclaimed == old(messagesRead + messagesReclaimed) + |batch|
    {
      batch := [];
      if now >= nextReclaimAt {
        batch := stale;
        nextReclaimAt := now + reclaimInterval;
      }
      var reclaimed := batch != [];
      if batch == [] {
        batch := waiting[..count];
        pending := pending + set m | m in batch;
        waiting := waiting[count..];
      }
      if reclaimed {
        messagesReclaimed := messagesReclaimed + |batch|;
      } else {
        messagesRead := messagesRead + |batch|;
      }
    }

    /** Runs the camera groups and collects what they acknowledge. */
    method Work(ghost batch: seq<Message>, groups: map<string, seq<Message>>, answers: Answers) returns (acks: set<Message>)
      requires Valid() && forall c :: GroupIn(groups, c) == ForCamera(codec, batch, c)
      modifies this`saved, this`done, this`eventsPersisted, this`duplicateEvents, this`silent
      ensures Valid() && Current() == Worked(codec, old(Current()), batch, answers)
      ensures acks == Acknowledging(codec, batch, answers.outcome)
    {
      var values := Values(batch, groups);
      var results := ProcessGroups(batch, values, answers);
      WholeAcknowledgement(codec, batch, values, answers.outcome);
      acks := Flattened(results);
    }

    method AcknowledgeMany(acks: set<Message>, works: bool)
      modifies this`pending, this`acked
      ensures Current() == if works then Settled(old(Current()), acks) else old(Current())
    {
      if works { pending, acked := pending - acks, acked + acks; }
    }

    method Settle(batch: seq<Message>, answers: Answers)
      requires Valid()
      modifies this`pending, this`acked, this`dead, this`saved, this`done, this`eventsPersisted, this`duplicateEvents, this`silent
      ensures Valid() && Current() == Process(codec, old(Current()), batch, answers)
    {
      var ok, groups := GroupByCamera(batch, answers);
      assert Current() == Sorted(codec, old(Current()), batch, answers);
      if ok {
        var acks := Work(batch, groups, answers);
        AcknowledgeMany(acks, answers.acknowledged);
      }
    }

    /** `run_once`: reading, grouping, processing and acknowledging one batch is one step of
        the runs above. */
    method RunBatch(now: real, stale: seq<Message>, count: nat, answers: Answers) returns (batch: seq<Message>)
      requires Valid() && CanRead(Current(), Reclaim(stale)) && count <= |waiting|
      modifies this
      ensures Valid()
      ensures var r := if now >= old(nextReclaimAt) && stale != [] then Reclaim(stale) else ReadNew(count);
        Current() == RunOnce(codec, old(Current()), r, answers) && batch == BatchOf(old(Current()), r)
      ensures nextReclaimAt == if now >= old(nextReclaimAt) then now + reclaimInterval else old(nextReclaimAt)
    {
      batch := Read(now, stale, count);
      Settle(batch, answers);
    }
  }
}
