/** Per-camera order across the batches of the event worker (application/event_worker.py).
    Within a batch the order holds always; across batches it depends on what is read. */
module EventOrder {
  import opened EventWorker

  // ----- publication order

  /** `log` lists what was published, in order; what waits is the end of it. */
  ghost predicate Logged(published: set<Message>, log: seq<Message>, s: State) {
    && NoRepeats(log) && published == (set m | m in log)
    && |s.waiting| <= |log| && log[|log| - |s.waiting|..] == s.waiting
  }

  /** Of one camera, no message is acknowledged while an earlier one is not. */
  ghost predicate InOrder(codec: Codec, log: seq<Message>, s: State, camera: string) {
    forall i, j :: 0 <= i < j < |log| && IsOf(codec, log[i], camera) && IsOf(codec, log[j], camera) && log[j] in s.acked ==>
      log[i] in s.acked
  }

  /** `first` stands in the batch, before `second`. */
  predicate Precedes(batch: seq<Message>, first: Message, second: Message) {
    exists p, q :: 0 <= p < q < |batch| && batch[p] == first && batch[q] == second
  }

  /** The batch holds a message of the camera, but not before it an earlier one that is pending. */
  ghost predicate LeavesBehind(codec: Codec, log: seq<Message>, s: State, r: Reading, camera: string)
    requires CanRead(s, r)
  {
    exists i, j :: 0 <= i < j < |log| && IsOf(codec, log[i], camera) && IsOf(codec, log[j], camera)
      && Jumps(log[i], log[j], AfterReading(s, r), BatchOf(s, r))
  }

  ghost predicate Jumps(first: Message, second: Message, s: State, batch: seq<Message>) {
    first in s.pending && second in batch && !Precedes(batch, first, second)
  }

  lemma StillPrecedes(before: seq<Message>, more: seq<Message>, first: Message, second: Message)
    requires Precedes(before, first, second)
    ensures Precedes(before + more, first, second)
  {
    var a, b :| 0 <= a < b < |before| && before[a] == first && before[b] == second;
    assert (before + more)[a] == first && (before + more)[b] == second;
  }

  lemma LastIsAfter(before: seq<Message>, first: Message, last: Message)
    requires first in before
    ensures Precedes(before + [last], first, last)
  {
    var a :| 0 <= a < |before| && before[a] == first;
    assert (before + [last])[a] == first && (before + [last])[|before|] == last;
  }

  lemma PrecedesInFront(batch: seq<Message>, n: nat, first: Message, second: Message)
    requires n == |batch| - 1 && Precedes(batch, first, second)
    ensures first in batch[..n] && (batch[n] == second || Precedes(batch[..n], first, second))
  {
    var p, q :| 0 <= p < q < |batch| && batch[p] == first && batch[q] == second;
    assert batch[..n][p] == first;
    assert q < n ==> batch[..n][q] == second;
  }

  lemma OneMoreInGroup(codec: Codec, batch: seq<Message>, camera: string)
    requires batch != []
    ensures var n := |batch| - 1;
      ForCamera(codec, batch, camera) == ForCamera(codec, batch[..n], camera) + (if IsOf(codec, batch[n], camera) then [batch[n]] else [])
  {
  }

  lemma {:induction false} GroupKeepsBatchOrder(codec: Codec, batch: seq<Message>, camera: string, first: Message, second: Message)
    requires Precedes(batch, first, second) && IsOf(codec, first, camera) && IsOf(codec, second, camera)
    ensures Precedes(ForCamera(codec, batch, camera), first, second)
  {
    var n := |batch| - 1;
    var before := ForCamera(codec, batch[..n], camera);
    PrecedesInFront(batch, n, first, second);
    OneMoreInGroup(codec, batch, camera);
    if batch[n] == second {
      LastIsAfter(before, first, second);
    } else {
      GroupKeepsBatchOrder(codec, batch[..n], camera, first, second);
      StillPrecedes(before, if IsOf(codec, batch[n], camera) then [batch[n]] else [], first, second);
    }
  }

  /** Only a message of the batch is acknowledged anew. */
  lemma NewlyAcknowledged(codec: Codec, published: set<Message>, s: State, r: Reading, answers: Answers, m: Message)
    requires Inv(codec, published, s) && CanRead(s, r) && m in RunOnce(codec, s, r, answers).acked && m !in s.acked
    ensures m in BatchOf(s, r) && Decodes(codec, m)
  {
  }

  /** What precedes an acknowledged message of its camera in the batch is acknowledged too. */
  lemma PrecedingIsAcknowledged(codec: Codec, published: set<Message>, s: State, r: Reading, answers: Answers, camera: string,
                                first: Message, second: Message)
    requires Inv(codec, published, s) && CanRead(s, r) && IsOf(codec, first, camera) && IsOf(codec, second, camera)
    requires Precedes(BatchOf(s, r), first, second)
    requires second in RunOnce(codec, s, r, answers).acked
    ensures first in RunOnce(codec, s, r, answers).acked
  {
    var entries, t := ForCamera(codec, BatchOf(s, r), camera), RunOnce(codec, s, r, answers);
    ReadingKeepsInv(codec, published, s, r);
    GroupKeepsBatchOrder(codec, BatchOf(s, r), camera, first, second);
    AcknowledgedArePrefix(codec, published, s, r, answers, camera);
    var n :| AcknowledgedTo(entries, t, answers.outcome, n);
    var a, b :| 0 <= a < b < |entries| && entries[a] == first && entries[b] == second;
  }

  /** A message that decodes and was published is waiting, pending or acknowledged. */
  lemma Placed(codec: Codec, published: set<Message>, log: seq<Message>, s: State, m: Message)
    requires Inv(codec, published, s) && Logged(published, log, s) && m in log && Decodes(codec, m)
    ensures m in s.waiting || m in s.pending || m in s.acked
  {
  }

  /** Nothing published before a message that has been read is waiting. */
  lemma WaitingIsLast(published: set<Message>, log: seq<Message>, s: State, i: nat, j: nat)
    requires Logged(published, log, s) && i < j < |log|
    ensures log[i] in s.waiting ==> log[j] in s.waiting
  {
    var cut := |log| - |s.waiting|;
    if k :| 0 <= k < |s.waiting| && s.waiting[k] == log[i] {
      assert log[cut + k] == s.waiting[k];
      assert log[j] == s.waiting[j - cut];
    }
  }

  lemma ShorterSuffix(log: seq<Message>, waiting: seq<Message>, count: nat)
    requires |waiting| <= |log| && log[|log| - |waiting|..] == waiting && count <= |waiting|
    ensures log[|log| - |waiting[count..]|..] == waiting[count..]
  {
    assert log[|log| - |waiting|..][count..] == log[|log| - |waiting| + count..];
  }

  lemma OnlyReadingShortens(codec: Codec, s: State, r: Reading, answers: Answers)
    requires CanRead(s, r)
    ensures RunOnce(codec, s, r, answers).waiting == AfterReading(s, r).waiting
  {
  }

  lemma ReadingKeepsLog(published: set<Message>, log: seq<Message>, s: State, r: Reading)
    requires Logged(published, log, s) && CanRead(s, r)
    ensures Logged(published, log, AfterReading(s, r))
  {
    if r.ReadNew? { ShorterSuffix(log, s.waiting, r.count); }
  }

  lemma SameLog(published: set<Message>, log: seq<Message>, s: State, t: State)
    requires Logged(published, log, s) && t.waiting == s.waiting
    ensures Logged(published, log, t)
  {
  }

  lemma RunOnceKeepsLog(codec: Codec, published: set<Message>, log: seq<Message>, s: State, r: Reading, answers: Answers)
    requires Logged(published, log, s) && CanRead(s, r)
    ensures Logged(published, log, RunOnce(codec, s, r, answers))
  {
    ReadingKeepsLog(published, log, s, r);
    OnlyReadingShortens(codec, s, r, answers);
    SameLog(published, log, AfterReading(s, r), RunOnce(codec, s, r, answers));
  }

  /** A batch that leaves nothing behind keeps the order, whatever fails in it. */
  lemma OrderIsKept(codec: Codec, published: set<Message>, log: seq<Message>, s: State, r: Reading, answers: Answers, camera: string)
    requires Inv(codec, published, s) && Logged(published, log, s) && CanRead(s, r) && InOrder(codec, log, s, camera)
    requires !LeavesBehind(codec, log, s, r, camera)
    ensures InOrder(codec, log, RunOnce(codec, s, r, answers), camera)
  {
    var t := RunOnce(codec, s, r, answers);
    RunOnceKeepsInv(codec, published, s, r, answers);
    ReadingKeepsInv(codec, published, s, r);
    RunOnceKeepsLog(codec, published, log, s, r, answers);
    forall i, j | 0 <= i < j < |log| && IsOf(codec, log[i], camera) && IsOf(codec, log[j], camera) && log[j] in t.acked
      ensures log[i] in t.acked
    {
      if log[j] !in s.acked && log[i] !in t.acked {
        NewlyAcknowledged(codec, published, s, r, answers, log[j]);
        Placed(codec, published, log, t, log[i]);
        WaitingIsLast(published, log, t, i, j);
        assert log[i] in AfterReading(s, r).pending;
        assert !Jumps(log[i], log[j], AfterReading(s, r), BatchOf(s, r));
        PrecedingIsAcknowledged(codec, published, s, r, answers, camera, log[i], log[j]);
      }
    }
  }

  /** Everything succeeds, except that saving `m` fails. */
  function FailingOnly(m: Message): Answers {
    Answers(x => if x == m then SaveFailed(false, false) else Done, x => Moved, true)
  }

  lemma {:induction false} SucceedUpTo(entries: seq<Message>, m: Message, k: nat)
    requires k < |entries| && forall p :: 0 <= p <= k ==> entries[p] != m
    ensures Successes(entries, FailingOnly(m).outcome) > k
  {
    if k > 0 {
      assert forall p :: 0 <= p <= k - 1 ==> entries[1..][p] == entries[p + 1];
      SucceedUpTo(entries[1..], m, k - 1);
    }
  }

  /** Otherwise some failure lets the later message be acknowledged while the earlier one stays pending. */
  lemma LeftBehind(codec: Codec, published: set<Message>, s: State, r: Reading, camera: string, first: Message, second: Message)
    requires Inv(codec, published, s) && CanRead(s, r) && first != second
    requires IsOf(codec, first, camera) && IsOf(codec, second, camera) && Jumps(first, second, AfterReading(s, r), BatchOf(s, r))
    ensures var t := RunOnce(codec, s, r, FailingOnly(first)); second in t.acked && first in t.pending
  {
    var batch, answers := BatchOf(s, r), FailingOnly(first);
    var entries := ForCamera(codec, batch, camera);
    ReadingKeepsInv(codec, published, s, r);
    DeadLettersDoNotDecode(codec, batch, answers.deadLetter);
    var k :| 0 <= k < |entries| && entries[k] == second;
    forall p | 0 <= p <= k ensures entries[p] != first {
      if entries[p] == first { FirstInGroup(codec, batch, camera, p, k); }
    }
    SucceedUpTo(entries, first, k);
    assert Acknowledged(entries, answers.outcome)[k] == second;
    assert second in Acknowledging(codec, batch, answers.outcome);
    if first in Acknowledging(codec, batch, answers.outcome) {
      AcknowledgedSucceed(codec, batch, answers.outcome);
      SuccessesAreStored(codec, batch, answers.outcome, first);
      assert false;
    }
  }

  lemma {:induction false} FirstInGroup(codec: Codec, batch: seq<Message>, camera: string, a: nat, b: nat)
    requires a < b < |ForCamera(codec, batch, camera)|
    ensures Precedes(batch, ForCamera(codec, batch, camera)[a], ForCamera(codec, batch, camera)[b])
  {
    var n := |batch| - 1;
    var before, entries := ForCamera(codec, batch[..n], camera), ForCamera(codec, batch, camera);
    if b < |before| {
      FirstInGroup(codec, batch[..n], camera, a, b);
      var p, q :| 0 <= p < q < n && batch[..n][p] == before[a] && batch[..n][q] == before[b];
      assert batch[p] == entries[a] && batch[q] == entries[b];
    } else {
      assert before[a] in batch[..n];
      var p :| 0 <= p < n && batch[..n][p] == before[a];
      assert batch[p] == entries[a] && batch[n] == entries[b];
    }
  }

  lemma OrderIsBroken(codec: Codec, published: set<Message>, log: seq<Message>, s: State, r: Reading, camera: string) returns (answers: Answers)
    requires Inv(codec, published, s) && Logged(published, log, s) && CanRead(s, r) && LeavesBehind(codec, log, s, r, camera)
    ensures !InOrder(codec, log, RunOnce(codec, s, r, answers), camera)
  {
    var i, j :| 0 <= i < j < |log| && IsOf(codec, log[i], camera) && IsOf(codec, log[j], camera)
      && Jumps(log[i], log[j], AfterReading(s, r), BatchOf(s, r));
    answers := FailingOnly(log[i]);
    LeftBehind(codec, published, s, r, camera, log[i], log[j]);
    RunOnceKeepsInv(codec, published, s, r, answers);
  }

  /** Across batches: whatever may fail in it, a batch keeps the order of a camera exactly when
      it leaves no earlier pending message of the camera behind one it holds. */
  lemma BatchKeepsOrderIff(codec: Codec, published: set<Message>, log: seq<Message>, s: State, r: Reading, camera: string)
    requires Inv(codec, published, s) && Logged(published, log, s) && CanRead(s, r) && InOrder(codec, log, s, camera)
    ensures (forall answers :: InOrder(codec, log, RunOnce(codec, s, r, answers), camera)) <==> !LeavesBehind(codec, log, s, r, camera)
  {
    if LeavesBehind(codec, log, s, r, camera) {
      var answers := OrderIsBroken(codec, published, log, s, r, camera);
    } else {
      forall answers ensures InOrder(codec, log, RunOnce(codec, s, r, answers), camera) {
        OrderIsKept(codec, published, log, s, r, answers, camera);
      }
    }
  }

  // ----- whole runs

  /** No batch of the run leaves a message of the camera behind. */
  ghost predicate Careful(codec: Codec, published: set<Message>, log: seq<Message>, s: State, actions: seq<Action>, camera: string)
    requires IsRun(codec, published, s, actions)
    decreases |actions|
  {
    actions == [] ||
      match actions[0]
      case Publish(m) => Careful(codec, published + {m}, log + [m], s.(waiting := s.waiting + [m]), actions[1..], camera)
      case Batch(reading, answers) =>
        && !LeavesBehind(codec, log, s, reading, camera)
        && Careful(codec, published, log, RunOnce(codec, s, reading, answers), actions[1..], camera)
  }

  function LogAfter(log: seq<Message>, actions: seq<Action>): seq<Message>
    decreases |actions|
  {
    if actions == [] then log
    else LogAfter(if actions[0].Publish? then log + [actions[0].m] else log, actions[1..])
  }

  lemma PublishingKeepsOrder(codec: Codec, published: set<Message>, log: seq<Message>, s: State, m: Message, camera: string)
    requires Inv(codec, published, s) && Logged(published, log, s) && InOrder(codec, log, s, camera) && m !in published
    ensures var t := s.(waiting := s.waiting + [m]);
      Inv(codec, published + {m}, t) && Logged(published + {m}, log + [m], t) && InOrder(codec, log + [m], t, camera)
  {
    var t := s.(waiting := s.waiting + [m]);
    assert t.waiting == (log + [m])[|log| - |s.waiting|..];
  }

  /** Over every run of careful batches the acknowledged messages of a camera are in order. */
  lemma {:induction false} CarefulRunKeepsOrder(codec: Codec, published: set<Message>, log: seq<Message>, s: State, actions: seq<Action>, camera: string)
    requires Inv(codec, published, s) && Logged(published, log, s) && InOrder(codec, log, s, camera)
    requires IsRun(codec, published, s, actions) && Careful(codec, published, log, s, actions, camera)
    ensures InOrder(codec, LogAfter(log, actions), After(codec, published, s, actions).1, camera)
    decreases |actions|
  {
    if actions != [] {
      match actions[0]
      case Publish(m) =>
        PublishingKeepsOrder(codec, published, log, s, m, camera);
        CarefulRunKeepsOrder(codec, published + {m}, log + [m], s.(waiting := s.waiting + [m]), actions[1..], camera);
      case Batch(reading, answers) =>
        OrderIsKept(codec, published, log, s, reading, answers, camera);
        RunOnceKeepsInv(codec, published, s, reading, answers);
        RunOnceKeepsLog(codec, published, log, s, reading, answers);
        CarefulRunKeepsOrder(codec, published, log, RunOnce(codec, s, reading, answers), actions[1..], camera);
    }
  }

  // ----- a run that does not keep the order

  lemma OnlyOne(codec: Codec, m: Message, camera: string)
    requires IsOf(codec, m, camera)
    ensures ForCamera(codec, [m], camera) == [m] && Group(codec, [m], m) == [m]
  {
    assert [m][..0] == [];
  }

  lemma BatchOfOne(codec: Codec, s: State, m: Message, camera: string, answers: Answers)
    requires IsOf(codec, m, camera)
    ensures answers.outcome(m) != Done ==>
      Process(codec, s, [m], answers).done == s.done && Process(codec, s, [m], answers).acked == s.acked && Process(codec, s, [m], answers).pending == s.pending
    ensures answers.outcome(m) == Done && answers.acknowledged ==> m in Process(codec, s, [m], answers).acked
    ensures Process(codec, s, [m], answers).pending >= s.pending - {m} && Process(codec, s, [m], answers).done <= s.done + {m}
  {
    OnlyOne(codec, m, camera);
    DeadLettersDoNotDecode(codec, [m], answers.deadLetter);
    assert [m][..1] == [m];
    assert Succeeding(codec, [m], answers.outcome) == if answers.outcome(m) == Done then {m} else {};
    assert Acknowledging(codec, [m], answers.outcome) == if answers.outcome(m) == Done then {m} else {};
  }

  lemma FailureStaysPending(codec: Codec, first: Message, second: Message, camera: string, answers: Answers)
    requires first != second && IsOf(codec, first, camera) && answers.outcome(first) != Done
    ensures var t := RunOnce(codec, State([first, second], {}, {}, {}, {}, {}), ReadNew(1), answers);
      t.waiting == [second] && t.pending == {first} && t.acked == {} && t.done == {}
  {
    var s := State([first, second], {}, {}, {}, {}, {});
    assert s.waiting[..1] == [first] && s.waiting[1..] == [second];
    BatchOfOne(codec, AfterReading(s, ReadNew(1)), first, camera, answers);
  }

  /** The order holds within a batch only: when the first of two messages of one camera fails,
      the next read processes and acknowledges the second one before it. */
  lemma LaterBatchOvertakes(codec: Codec, first: Message, second: Message, camera: string, failing: Answers, fine: Answers)
    requires first != second && IsOf(codec, first, camera) && IsOf(codec, second, camera)
    requires failing.outcome(first) != Done && fine.acknowledged && fine.outcome(second) == Done
    ensures var t := RunOnce(codec, State([first, second], {}, {}, {}, {}, {}), ReadNew(1), failing);
      && CanRead(t, ReadNew(1))
      && var u := RunOnce(codec, t, ReadNew(1), fine);
         second in u.acked && first in u.pending && first !in u.done
  {
    FailureStaysPending(codec, first, second, camera, failing);
    var t := RunOnce(codec, State([first, second], {}, {}, {}, {}, {}), ReadNew(1), failing);
    assert t.waiting[..1] == [second];
    BatchOfOne(codec, AfterReading(t, ReadNew(1)), second, camera, fine);
  }
}
