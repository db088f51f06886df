/** One remote training run under concurrent submit, cancel, refresh and fail operations
    (application/model_training.py) that meet in a compare-and-swap repository
    (infrastructure/training/model_training_files.py). Every await is a step boundary. */
module TrainingRuns {
  import opened Options

  datatype Status = Queued | Submitting | Scheduling | Running | Completed | Failed | Canceled

  /** What a run was requested with and never changes. */
  datatype Evidence = Evidence(modelName: string, modelVersion: string, rest: string)

  /** What the remote side last said; a missing URL is empty. */
  datatype Report = Report(message: string, url: string)

  datatype Run = Run(status: Status, updatedAt: int, job: Option<string>, report: Report, evidence: Evidence)

  predicate Active(s: Status) {
    s in {Queued, Submitting, Scheduling, Running}
  }

  /** The transitions the file repository accepts. */
  function Allowed(s: Status): set<Status> {
    match s
    case Queued => {Submitting, Failed, Canceled}
    case Submitting => {Scheduling, Running, Completed, Failed}
    case Scheduling => {Scheduling, Running, Completed, Failed, Canceled}
    case Running => {Running, Completed, Failed, Canceled}
    case _ => {}
  }

  /** `strict`: the file repository, which checks transitions, evidence and that timestamps advance;
      otherwise a bare compare-and-swap on `updatedAt`. `ticking`: clock readings strictly increase. */
  datatype Mode = Mode(strict: bool, ticking: bool)

  predicate Accepts(mode: Mode, current: Run, candidate: Run, expected: int) {
    && current.updatedAt == expected
    && (mode.strict ==>
          candidate.status in Allowed(current.status) && candidate.evidence == current.evidence && candidate.updatedAt > current.updatedAt)
  }

  // ----- operations in flight

  datatype Kind = ToSubmitting | ToSubmitted | ToSubmitFailed | ToCanceled | ToRefreshed | ToFailed

  datatype Operation =
    | SubmitRead(seen: Run)                          // read a queued run
    | SubmitReady(seen: Run)                         // saved SUBMITTING, the remote call is next
    | SubmitCalled(seen: Run, status: Status, job: string, report: Report)
    | SubmitError                                    // something raised; the run is read again
    | SubmitFailing(seen: Run)
    | CancelRead(seen: Run)                          // queued, or the remote job was canceled
    | RefreshSeen(seen: Run, status: Status, report: Report)
    | FailRead(seen: Run)
    | Saving(kind: Kind, candidate: Run, seen: Run)  // waits for the repository's lock

  datatype World = World(run: Run, clock: int, operations: map<nat, Operation>, submits: nat)

  predicate Remote(s: Status) {
    s in {Scheduling, Running, Completed, Failed, Canceled}
  }

  datatype Step =
    | StartSubmit(id: nat)
    | StartCancel(id: nat)
    | StartRefresh(id: nat, status: Status, report: Report)
    | StartFail(id: nat)
    | Prepare(id: nat, now: int)
    | Commit(id: nat, works: bool)
    | CallGateway(id: nat, answer: Option<(Status, string, Report)>)
    | ReadAgain(id: nat)
    | Drop(id: nat)                                  // the operation raised or was canceled
    | Restart(now: int)

  /** A refresh without a URL keeps the one known before. */
  function Refreshed(before: Report, now: Report): Report {
    if now.url == "" then now.(url := before.url) else now
  }

  /** The operation that reads its clock next, and the candidate it builds. */
  predicate Prepares(o: Operation) {
    o.SubmitRead? || o.SubmitCalled? || o.SubmitFailing? || o.CancelRead? || o.RefreshSeen? || o.FailRead?
  }

  function Candidate(o: Operation, now: int): (Kind, Run)
    requires Prepares(o)
  {
    match o
    case SubmitRead(seen) => (ToSubmitting, seen.(status := Submitting, updatedAt := now))
    case SubmitCalled(seen, status, job, report) => (ToSubmitted, seen.(status := status, updatedAt := now, job := Some(job), report := report))
    case SubmitFailing(seen) => (ToSubmitFailed, seen.(status := Failed, updatedAt := now))
    case CancelRead(seen) => (ToCanceled, seen.(status := Canceled, updatedAt := now))
    case RefreshSeen(seen, status, report) => (ToRefreshed, seen.(status := status, updatedAt := now, report := Refreshed(seen.report, report)))
    case FailRead(seen) => (ToFailed, seen.(status := Failed, updatedAt := now))
  }

  predicate Enabled(mode: Mode, w: World, step: Step) {
    match step
    case StartSubmit(id) => id !in w.operations && w.run.status == Queued
    case StartCancel(id) => id !in w.operations && Active(w.run.status) && (w.run.status == Queued || w.run.job.Some?)
    case StartRefresh(id, status, report) =>
      id !in w.operations && Active(w.run.status) && w.run.job.Some? && Remote(status) && (status != w.run.status || report != w.run.report)
    case StartFail(id) => id !in w.operations && w.run.status == Queued
    case Prepare(id, now) => id in w.operations && Prepares(w.operations[id]) && (mode.ticking ==> now > w.clock)
    case Commit(id, _) => id in w.operations && w.operations[id].Saving?
    case CallGateway(id, answer) => id in w.operations && w.operations[id].SubmitReady? && (answer.Some? ==> Remote(answer.value.0))
    case ReadAgain(id) => id in w.operations && w.operations[id].SubmitError?
    case Drop(id) => id in w.operations
    case Restart(_) => true
  }

  /** What happens to an operation when its save went through or not. */
  function AfterSave(o: Operation, saved: bool): Option<Operation>
    requires o.Saving?
  {
    if o.kind == ToSubmitting then Some(if saved then SubmitReady(o.candidate) else SubmitError)
    else if o.kind == ToSubmitted && !saved then Some(SubmitError)
    else None
  }

  function Continue(operations: map<nat, Operation>, id: nat, next: Option<Operation>): map<nat, Operation> {
    match next
    case None => operations - {id}
    case Some(o) => operations[id := o]
  }

  /** A queued or half-submitted run is failed when the repository is loaded again. */
  function Recovered(run: Run, now: int): Run {
    if run.status in {Queued, Submitting} && run.job.None?
    then run.(status := Failed, updatedAt := if now > run.updatedAt then now else run.updatedAt + 1)
    else run
  }

  function Next(mode: Mode, w: World, step: Step): World
    requires Enabled(mode, w, step)
  {
    match step
    case StartSubmit(id) => w.(operations := w.operations[id := SubmitRead(w.run)])
    case StartCancel(id) => w.(operations := w.operations[id := CancelRead(w.run)])
    case StartRefresh(id, status, report) => w.(operations := w.operations[id := RefreshSeen(w.run, status, report)])
    case StartFail(id) => w.(operations := w.operations[id := FailRead(w.run)])
    case Prepare(id, now) =>
      var (kind, candidate) := Candidate(w.operations[id], now);
      w.(clock := now, operations := w.operations[id := Saving(kind, candidate, w.operations[id].seen)])
    case Commit(id, works) =>
      var o := w.operations[id];
      var saved := works && Accepts(mode, w.run, o.candidate, o.seen.updatedAt);
      w.(run := if saved then o.candidate else w.run, operations := Continue(w.operations, id, AfterSave(o, saved)))
    case CallGateway(id, answer) =>
      var o := w.operations[id];
      var next := match answer
        case None => SubmitError
        case Some((status, job, report)) => SubmitCalled(o.seen, status, job, report);
      w.(operations := w.operations[id := next], submits := w.submits + 1)
    case ReadAgain(id) =>
      w.(operations := Continue(w.operations, id, if Active(w.run.status) then Some(SubmitFailing(w.run)) else None))
    case Drop(id) => w.(operations := w.operations - {id})
    case Restart(now) =>
      var run := Recovered(w.run, now);
      w.(run := run, clock := if w.clock > run.updatedAt then w.clock else run.updatedAt, operations := map[])
  }

  // ----- the invariant

  /** What each operation knows about the run it has seen: its decision fits that run. */
  predicate Fits(o: Operation) {
    match o
    case SubmitRead(seen) => seen.status == Queued
    case SubmitReady(seen) => seen.status == Submitting
    case SubmitCalled(seen, status, _, _) => seen.status == Submitting && Remote(status)
    case SubmitError => true
    case SubmitFailing(seen) => Active(seen.status)
    case CancelRead(seen) => Active(seen.status)
    case RefreshSeen(seen, status, _) => Active(seen.status) && Remote(status)
    case FailRead(seen) => seen.status == Queued
    case Saving(kind, candidate, seen) =>
      Active(seen.status) && candidate.status != Queued && (kind == ToSubmitting <==> candidate.status == Submitting) && (kind == ToSubmitting ==> seen.status == Queued)
  }

  predicate HasSeen(o: Operation) {
    !o.SubmitError?
  }

  /** With increasing readings a timestamp names a version: whoever saw the current timestamp
      saw the current run, and the timestamp of a waiting candidate is nobody else's. */
  ghost predicate Versions(w: World) {
    && w.run.updatedAt <= w.clock
    && (forall id :: id in w.operations && HasSeen(w.operations[id]) ==> SeenOk(w, w.operations[id]))
    && (forall id :: id in w.operations && w.operations[id].Saving? ==> CandidateOk(w, id))
  }

  predicate SeenOk(w: World, o: Operation)
    requires HasSeen(o)
  {
    o.seen.updatedAt <= w.clock && (o.seen.updatedAt == w.run.updatedAt ==> o.seen == w.run)
  }

  ghost predicate CandidateOk(w: World, id: nat)
    requires id in w.operations && w.operations[id].Saving?
  {
    var at := w.operations[id].candidate.updatedAt;
    && at <= w.clock && at != w.run.updatedAt
    && (forall other :: other in w.operations && HasSeen(w.operations[other]) ==> w.operations[other].seen.updatedAt != at)
    && (forall other :: other in w.operations && other != id && w.operations[other].Saving? ==> w.operations[other].candidate.updatedAt != at)
  }

  /** The remote call has happened, is the next step of one operation, or the run was never
      taken from the queue. */
  ghost predicate OneSubmit(w: World) {
    && w.submits <= 1
    && (w.run.status == Queued ==> w.submits == 0)
    && (forall id :: id in w.operations && w.operations[id].SubmitReady? ==> w.submits == 0 && w.run.status != Queued)
    && (forall id, other :: id in w.operations && other in w.operations && w.operations[id].SubmitReady? && w.operations[other].SubmitReady? ==> id == other)
  }

  ghost predicate Inv(mode: Mode, w: World) {
    && (forall id :: id in w.operations ==> Fits(w.operations[id]))
    && OneSubmit(w)
    && (mode.ticking ==> Versions(w))
  }

  lemma StepKeepsFits(mode: Mode, w: World, step: Step)
    requires Inv(mode, w) && Enabled(mode, w, step)
    ensures forall id :: id in Next(mode, w, step).operations ==> Fits(Next(mode, w, step).operations[id])
  {
  }

  /** A save that is accepted was decided on an active run. */
  lemma AcceptedFromActive(mode: Mode, w: World, id: nat)
    requires Inv(mode, w) && (mode.strict || mode.ticking) && id in w.operations && w.operations[id].Saving?
    requires Accepts(mode, w.run, w.operations[id].candidate, w.operations[id].seen.updatedAt)
    ensures Active(w.run.status) && w.operations[id].candidate.status != Queued
    ensures w.operations[id].kind == ToSubmitting ==> w.run.status == Queued
  {
    assert Fits(w.operations[id]);
  }

  lemma StepKeepsOneSubmit(mode: Mode, w: World, step: Step)
    requires Inv(mode, w) && Enabled(mode, w, step) && (mode.strict || mode.ticking)
    ensures OneSubmit(Next(mode, w, step))
  {
    if step.Commit? {
      var o := w.operations[step.id];
      if step.works && Accepts(mode, w.run, o.candidate, o.seen.updatedAt) { AcceptedFromActive(mode, w, step.id); }
    }
  }

  /** An operation may take up what it has seen when no waiting candidate carries that timestamp. */
  lemma TakingUp(w: World, id: nat, o: Operation)
    requires Versions(w) && !o.Saving?
    requires HasSeen(o) ==> SeenOk(w, o)
    requires HasSeen(o) ==> forall other :: other in w.operations && other != id && w.operations[other].Saving? ==> w.operations[other].candidate.updatedAt != o.seen.updatedAt
    ensures Versions(w.(operations := w.operations[id := o]))
  {
    var t := w.(operations := w.operations[id := o]);
    forall k | k in t.operations && t.operations[k].Saving? ensures CandidateOk(t, k) { assert CandidateOk(w, k); }
  }

  lemma LeavingOff(w: World, id: nat)
    requires Versions(w)
    ensures Versions(w.(operations := w.operations - {id}))
  {
    var t := w.(operations := w.operations - {id});
    forall k | k in t.operations && t.operations[k].Saving? ensures CandidateOk(t, k) { assert CandidateOk(w, k); }
  }

  lemma PrepareKeepsVersions(mode: Mode, w: World, id: nat, now: int)
    requires Versions(w) && mode.ticking && Enabled(mode, w, Prepare(id, now))
    ensures Versions(Next(mode, w, Prepare(id, now)))
  {
    var t := Next(mode, w, Prepare(id, now));
    assert SeenOk(w, w.operations[id]);
    forall k | k in t.operations && HasSeen(t.operations[k]) ensures SeenOk(t, t.operations[k]) {
      if k != id { assert SeenOk(w, w.operations[k]); }
    }
    forall k | k in t.operations && t.operations[k].Saving? ensures CandidateOk(t, k) {
      if k != id { assert CandidateOk(w, k); }
    }
  }

  /** A saved candidate becomes the run; its timestamp was nobody else's. */
  lemma SavingKeepsVersions(w: World, id: nat, next: map<nat, Operation>)
    requires Versions(w) && id in w.operations && w.operations[id].Saving?
    requires next - {id} == w.operations - {id}
    requires id in next ==> !next[id].Saving? && (HasSeen(next[id]) ==> next[id].seen == w.operations[id].candidate)
    ensures Versions(w.(run := w.operations[id].candidate, operations := next))
  {
    var t := w.(run := w.operations[id].candidate, operations := next);
    assert CandidateOk(w, id);
    forall k | k in next && k != id ensures k in w.operations && next[k] == w.operations[k] {
      assert k in next - {id} && (next - {id})[k] == (w.operations - {id})[k];
    }
    forall k | k in next && HasSeen(next[k]) ensures SeenOk(t, next[k]) {
      if k != id { assert SeenOk(w, w.operations[k]); }
    }
    forall k | k in next && next[k].Saving? ensures CandidateOk(t, k) { assert CandidateOk(w, k); }
  }

  lemma CommitKeepsVersions(mode: Mode, w: World, id: nat, works: bool)
    requires Versions(w) && Enabled(mode, w, Commit(id, works))
    ensures Versions(Next(mode, w, Commit(id, works)))
  {
    var o := w.operations[id];
    var saved := works && Accepts(mode, w.run, o.candidate, o.seen.updatedAt);
    var next := AfterSave(o, saved);
    if saved {
      SavingKeepsVersions(w, id, Continue(w.operations, id, next));
    } else if next.Some? {
      TakingUp(w, id, next.value);
    } else {
      LeavingOff(w, id);
    }
  }

  lemma NobodyWaitsWithTheRun(w: World)
    requires Versions(w)
    ensures forall k :: k in w.operations && w.operations[k].Saving? ==> w.operations[k].candidate.updatedAt != w.run.updatedAt
  {
    forall k | k in w.operations && w.operations[k].Saving? ensures w.operations[k].candidate.updatedAt != w.run.updatedAt {
      assert CandidateOk(w, k);
    }
  }

  lemma CallKeepsVersions(mode: Mode, w: World, id: nat, answer: Option<(Status, string, Report)>)
    requires Versions(w) && Enabled(mode, w, CallGateway(id, answer))
    ensures Versions(Next(mode, w, CallGateway(id, answer)))
  {
    var o := w.operations[id];
    assert SeenOk(w, o);
    forall k | k in w.operations && k != id && w.operations[k].Saving? ensures w.operations[k].candidate.updatedAt != o.seen.updatedAt {
      assert CandidateOk(w, k);
    }
    var t := Next(mode, w, CallGateway(id, answer));
    TakingUp(w, id, t.operations[id]);
    CountDoesNotMatter(w.(operations := t.operations), t);
  }

  lemma CountDoesNotMatter(w: World, t: World)
    requires Versions(w) && t == w.(submits := t.submits)
    ensures Versions(t)
  {
    forall k | k in t.operations && t.operations[k].Saving? ensures CandidateOk(t, k) { assert CandidateOk(w, k); }
    forall k | k in t.operations && HasSeen(t.operations[k]) ensures SeenOk(t, t.operations[k]) { assert SeenOk(w, w.operations[k]); }
  }

  lemma StepKeepsVersions(mode: Mode, w: World, step: Step)
    requires Versions(w) && Enabled(mode, w, step) && mode.ticking
    ensures Versions(Next(mode, w, step))
  {
    NobodyWaitsWithTheRun(w);
    match step
    case StartSubmit(id) => TakingUp(w, id, SubmitRead(w.run));
    case StartCancel(id) => TakingUp(w, id, CancelRead(w.run));
    case StartRefresh(id, status, report) => TakingUp(w, id, RefreshSeen(w.run, status, report));
    case StartFail(id) => TakingUp(w, id, FailRead(w.run));
    case Prepare(id, now) => PrepareKeepsVersions(mode, w, id, now);
    case Commit(id, works) => CommitKeepsVersions(mode, w, id, works);
    case CallGateway(id, answer) => CallKeepsVersions(mode, w, id, answer);
    case ReadAgain(id) => if Active(w.run.status) { TakingUp(w, id, SubmitFailing(w.run)); } else { LeavingOff(w, id); }
    case Drop(id) => LeavingOff(w, id);
    case Restart(_) =>
  }

  lemma StepKeepsInv(mode: Mode, w: World, step: Step)
    requires Inv(mode, w) && Enabled(mode, w, step) && (mode.strict || mode.ticking)
    ensures Inv(mode, Next(mode, w, step))
  {
    StepKeepsFits(mode, w, step);
    StepKeepsOneSubmit(mode, w, step);
    if mode.ticking { StepKeepsVersions(mode, w, step); }
  }

  // ----- whole runs

  ghost predicate IsRun(mode: Mode, w: World, steps: seq<Step>)
    decreases |steps|
  {
    steps == [] || (Enabled(mode, w, steps[0]) && IsRun(mode, Next(mode, w, steps[0]), steps[1..]))
  }

  ghost function After(mode: Mode, w: World, steps: seq<Step>): World
    requires IsRun(mode, w, steps)
    decreases |steps|
  {
    if steps == [] then w else After(mode, Next(mode, w, steps[0]), steps[1..])
  }

  /** A run just created: queued, nothing in flight. */
  predicate Created(w: World) {
    w.run.status == Queued && w.run.job.None? && w.operations == map[] && w.submits == 0 && w.run.updatedAt <= w.clock
  }

  lemma {:induction false} RunKeepsInv(mode: Mode, w: World, steps: seq<Step>)
    requires Inv(mode, w) && IsRun(mode, w, steps) && (mode.strict || mode.ticking)
    ensures Inv(mode, After(mode, w, steps))
    decreases |steps|
  {
    if steps != [] {
      StepKeepsInv(mode, w, steps[0]);
      RunKeepsInv(mode, Next(mode, w, steps[0]), steps[1..]);
    }
  }

  lemma {:induction false} TerminalStays(mode: Mode, w: World, steps: seq<Step>)
    requires Inv(mode, w) && IsRun(mode, w, steps) && (mode.strict || mode.ticking)
    requires !Active(w.run.status)
    ensures After(mode, w, steps).run == w.run
    decreases |steps|
  {
    if steps != [] {
      if steps[0].Commit? && Accepts(mode, w.run, w.operations[steps[0].id].candidate, w.operations[steps[0].id].seen.updatedAt) {
        AcceptedFromActive(mode, w, steps[0].id);
      }
      StepKeepsInv(mode, w, steps[0]);
      TerminalStays(mode, Next(mode, w, steps[0]), steps[1..]);
    }
  }

  /** From a created run, the remote job is submitted at most once, and a terminal run is never
      written again, whatever happens afterwards. */
  ghost predicate SafeAfter(mode: Mode, w: World, steps: seq<Step>, more: seq<Step>)
    requires IsRun(mode, w, steps) && IsRun(mode, After(mode, w, steps), more)
  {
    var t := After(mode, w, steps);
    && After(mode, t, more).submits <= 1
    && (!Active(t.run.status) ==> After(mode, t, more).run == t.run)
  }

  ghost predicate Safe(mode: Mode) {
    forall w, steps, more | Created(w) && IsRun(mode, w, steps) && IsRun(mode, After(mode, w, steps), more) :: SafeAfter(mode, w, steps, more)
  }

  lemma SafeWhenGuarded(mode: Mode, w: World, steps: seq<Step>, more: seq<Step>)
    requires mode.strict || mode.ticking
    requires Created(w) && IsRun(mode, w, steps) && IsRun(mode, After(mode, w, steps), more)
    ensures SafeAfter(mode, w, steps, more)
  {
    RunKeepsInv(mode, w, steps);
    RunKeepsInv(mode, After(mode, w, steps), more);
    if !Active(After(mode, w, steps).run.status) { TerminalStays(mode, After(mode, w, steps), more); }
  }

  lemma {:induction false} OneMore(mode: Mode, w: World, steps: seq<Step>, step: Step)
    requires IsRun(mode, w, steps) && Enabled(mode, After(mode, w, steps), step)
    ensures IsRun(mode, w, steps + [step])
    ensures After(mode, w, steps + [step]) == Next(mode, After(mode, w, steps), step)
    decreases |steps|
  {
    if steps == [] {
      assert (steps + [step])[1..] == [];
      assert IsRun(mode, Next(mode, w, step), []);
    } else {
      OneMore(mode, Next(mode, w, steps[0]), steps[1..], step);
      assert (steps + [step])[1..] == steps[1..] + [step];
    }
  }

  // ----- the race that a bare compare-and-swap with a standing clock loses

  function Start(): World {
    World(Run(Queued, 0, None, Report("", ""), Evidence("", "", "")), 0, map[], 0)
  }

  /** A submission and a cancellation both read the queued run; the cancellation is saved, then
      the submission is saved over it: nothing has changed the timestamp it compares. */
  lemma CanceledThenOverwritten() returns (steps: seq<Step>, over: Step)
    ensures var mode := Mode(false, false);
      && IsRun(mode, Start(), steps) && After(mode, Start(), steps).run.status == Canceled
      && Enabled(mode, After(mode, Start(), steps), over)
      && Next(mode, After(mode, Start(), steps), over).run.status == Submitting
  {
    var mode := Mode(false, false);
    steps := [];
    OneMore(mode, Start(), steps, StartSubmit(0));
    steps := steps + [StartSubmit(0)];
    OneMore(mode, Start(), steps, StartCancel(1));
    steps := steps + [StartCancel(1)];
    OneMore(mode, Start(), steps, Prepare(0, 0));
    steps := steps + [Prepare(0, 0)];
    OneMore(mode, Start(), steps, Prepare(1, 0));
    steps := steps + [Prepare(1, 0)];
    OneMore(mode, Start(), steps, Commit(1, true));
    steps := steps + [Commit(1, true)];
    over := Commit(0, true);
  }

  /** Terminal statuses are absorbing and the job is submitted at most once under every
      interleaving exactly when the repository checks transitions and advancing timestamps, or
      clock readings strictly increase. */
  lemma SafeIff(mode: Mode)
    ensures Safe(mode) <==> mode.strict || mode.ticking
  {
    if mode.strict || mode.ticking {
      forall w, steps, more | Created(w) && IsRun(mode, w, steps) && IsRun(mode, After(mode, w, steps), more)
        ensures SafeAfter(mode, w, steps, more)
      {
        SafeWhenGuarded(mode, w, steps, more);
      }
    } else {
      var steps, over := CanceledThenOverwritten();
      assert mode == Mode(false, false) && Created(Start());
      var t := After(mode, Start(), steps);
      OneMore(mode, t, [], over);
      assert [] + [over] == [over];
      assert After(mode, t, [over]).run.status == Submitting;
      assert !SafeAfter(mode, Start(), steps, [over]);
    }
  }

  // ----- a submission that ends without an answer

  /** Submitting, without a remote job and without an operation in flight. */
  predicate HalfSubmitted(w: World) {
    w.run.status == Submitting && w.run.job.None? && w.operations == map[]
  }

  /** A run that is scheduled or runs has a remote job. */
  predicate HasItsJob(r: Run) {
    r.status in {Scheduling, Running} ==> r.job.Some?
  }

  /** What an operation has seen, or waits to save, is about the same request. */
  predicate Concerns(o: Operation, evidence: Evidence) {
    && (HasSeen(o) ==> HasItsJob(o.seen) && o.seen.evidence == evidence)
    && (o.RefreshSeen? ==> o.seen.job.Some?)
    && (o.Saving? ==> HasItsJob(o.candidate) && o.candidate.evidence == evidence)
  }

  ghost predicate AboutOneRequest(w: World) {
    HasItsJob(w.run) && forall id :: id in w.operations ==> Concerns(w.operations[id], w.run.evidence)
  }

  lemma StepKeepsRequest(mode: Mode, w: World, step: Step)
    requires AboutOneRequest(w) && Enabled(mode, w, step)
    ensures AboutOneRequest(Next(mode, w, step)) && Next(mode, w, step).run.evidence == w.run.evidence
  {
    if step.Prepare? || step.Commit? || step.CallGateway? { assert Concerns(w.operations[step.id], w.run.evidence); }
  }

  /** The evidence of a run never changes, in any mode. */
  lemma {:induction false} EvidenceStays(mode: Mode, w: World, steps: seq<Step>)
    requires AboutOneRequest(w) && IsRun(mode, w, steps)
    ensures AboutOneRequest(After(mode, w, steps)) && After(mode, w, steps).run.evidence == w.run.evidence
    decreases |steps|
  {
    if steps != [] {
      StepKeepsRequest(mode, w, steps[0]);
      EvidenceStays(mode, Next(mode, w, steps[0]), steps[1..]);
    }
  }

  /** The operation that can take up an active run with nothing in flight. */
  function WayOut(r: Run, id: nat): Step {
    if r.status == Queued then StartSubmit(id) else StartCancel(id)
  }

  /** An active run with nothing in flight can be neither canceled, refreshed, submitted nor
      failed exactly when it is half submitted. Only loading the repository again moves it then,
      and it is failed. */
  lemma IdleRunIsStuckIff(mode: Mode, start: World, steps: seq<Step>)
    requires Created(start) && IsRun(mode, start, steps)
    requires After(mode, start, steps).operations == map[] && Active(After(mode, start, steps).run.status)
    ensures var w := After(mode, start, steps);
      (forall step :: Enabled(mode, w, step) ==> step.Restart?) <==> HalfSubmitted(w)
    ensures HalfSubmitted(After(mode, start, steps)) ==>
      forall now :: Next(mode, After(mode, start, steps), Restart(now)).run.status == Failed
  {
    var w := After(mode, start, steps);
    EvidenceStays(mode, start, steps);
    if !HalfSubmitted(w) { assert Enabled(mode, w, WayOut(w.run, 0)); }
  }

  function TakenAt(at: int): Run {
    Start().run.(status := Submitting, updatedAt := at)
  }

  lemma UpToTheCall(mode: Mode) returns (steps: seq<Step>)
    ensures IsRun(mode, Start(), steps)
    ensures After(mode, Start(), steps) == World(TakenAt(1), 1, map[0 := SubmitReady(TakenAt(1))], 0)
  {
    steps := [];
    OneMore(mode, Start(), steps, StartSubmit(0));
    steps := steps + [StartSubmit(0)];
    OneMore(mode, Start(), steps, Prepare(0, 1));
    steps := steps + [Prepare(0, 1)];
    OneMore(mode, Start(), steps, Commit(0, true));
    steps := steps + [Commit(0, true)];
  }

  /** How it gets there in every mode: the remote call raises, and saving the failure does too. */
  lemma HalfSubmittedHappens(mode: Mode)
    ensures exists steps :: IsRun(mode, Start(), steps) && HalfSubmitted(After(mode, Start(), steps))
  {
    var steps := UpToTheCall(mode);
    OneMore(mode, Start(), steps, CallGateway(0, None));
    steps := steps + [CallGateway(0, None)];
    OneMore(mode, Start(), steps, ReadAgain(0));
    steps := steps + [ReadAgain(0)];
    OneMore(mode, Start(), steps, Prepare(0, 2));
    steps := steps + [Prepare(0, 2)];
    OneMore(mode, Start(), steps, Commit(0, false));
    steps := steps + [Commit(0, false)];
    assert HalfSubmitted(After(mode, Start(), steps));
  }

  // ----- the repository object

  datatype SaveResult = Saved | NotFound | Stale | BadTransition | EvidenceChanged | NotAdvanced | WriteFailed

  datatype CreateResult = Stored | HistoryFull | TooManyActive | NameTaken | Exists | CreateFailed

  /** A completed run of the same model name and version. */
  predicate NamesModel(r: Run, e: Evidence) {
    r.status == Completed && r.evidence.modelName == e.modelName && r.evidence.modelVersion == e.modelVersion
  }

  class FileModelTrainingRunRepository {
    const maximumRuns: nat
    const maximumActive: nat
    var runs: map<string, Run>

    ghost function ActiveIds(): set<string>
      reads this
    {
      set id | id in runs && Active(runs[id].status)
    }

    /** History and concurrency stay within their limits. */
    ghost predicate Valid()
      reads this
    {
      |runs| <= maximumRuns && |ActiveIds()| <= maximumActive
    }

    constructor (maximumRuns: nat, maximumActive: nat)
      ensures Valid() && runs == map[] && this.maximumRuns == maximumRuns && this.maximumActive == maximumActive
    {
      this.maximumRuns, this.maximumActive := maximumRuns, maximumActive;
      runs := map[];
    }

    method CountActive() returns (n: nat)
      ensures n == |ActiveIds()|
    {
      n := 0;
      var rest := runs.Keys;
      ghost var seen: set<string> := {};
      while rest != {}
        invariant rest <= runs.Keys && seen == set id | id in runs && id !in rest && Active(runs[id].status)
        invariant n == |seen|
      {
        var id :| id in rest;
        if Active(runs[id].status) {
          n := n + 1;
          seen := seen + {id};
        }
        rest := rest - {id};
      }
      assert seen == ActiveIds();
    }

    /** A completed run already carries this model name and version. */
    ghost predicate Taken(e: Evidence)
      reads this
    {
      exists id :: id in runs && NamesModel(runs[id], e)
    }

    method FindCompleted(e: Evidence) returns (found: bool)
      ensures found == Taken(e)
    {
      var rest := runs.Keys;
      while rest != {}
        invariant rest <= runs.Keys && forall id :: id in runs && id !in rest ==> !NamesModel(runs[id], e)
      {
        var id :| id in rest;
        if NamesModel(runs[id], e) { return true; }
        rest := rest - {id};
      }
      found := false;
    }

    /** `create`: the refusals in the order in which they are tried; only a queued run with a new
        id is stored. */
    method Create(id: string, run: Run, writes: bool) returns (result: CreateResult)
      requires Valid()
      modifies this
      ensures Valid()
      ensures runs == if result == Stored then old(runs)[id := run] else old(runs)
      ensures result == HistoryFull <==> |old(runs)| >= maximumRuns
      ensures result == TooManyActive <==> |old(runs)| < maximumRuns && old(|ActiveIds()|) >= maximumActive
      ensures result == NameTaken <==> |old(runs)| < maximumRuns && old(|ActiveIds()|) < maximumActive && old(Taken(run.evidence))
      ensures result == Exists <==> |old(runs)| < maximumRuns && old(|ActiveIds()|) < maximumActive && !old(Taken(run.evidence))
                                    && (id in old(runs) || run.status != Queued)
      ensures result == CreateFailed ==> !writes
      ensures writes ==> result != CreateFailed
    {
      if |runs| >= maximumRuns { return HistoryFull; }
      var active := CountActive();
      if active >= maximumActive { return TooManyActive; }
      var taken := FindCompleted(run.evidence);
      if taken { return NameTaken; }
      if id in runs || run.status != Queued { return Exists; }
      if !writes { return CreateFailed; }
      ghost var before := ActiveIds();
      assert runs[id := run].Keys == runs.Keys + {id};
      runs := runs[id := run];
      assert ActiveIds() == before + {id};
      result := Stored;
    }

    /** `save`: accepts exactly what the strict repository of the runs above accepts. */
    method Save(id: string, run: Run, expected: int, writes: bool) returns (result: SaveResult)
      requires Valid()
      modifies this
      ensures Valid()
      ensures result == Saved <==> id in old(runs) && writes && Accepts(Mode(true, false), old(runs)[id], run, expected)
      ensures runs == if result == Saved then old(runs)[id := run] else old(runs)
      ensures result == NotFound <==> id !in old(runs)
      ensures result == Stale <==> id in old(runs) && old(runs)[id].updatedAt != expected
      ensures result == EvidenceChanged ==> run.evidence != old(runs)[id].evidence
    {
      if id !in runs { return NotFound; }
      var current := runs[id];
      if current.updatedAt != expected { return Stale; }
      if run.status !in Allowed(current.status) { return BadTransition; }
      if run.evidence != current.evidence { return EvidenceChanged; }
      if run.updatedAt <= current.updatedAt { return NotAdvanced; }
      if !writes { return WriteFailed; }
      ghost var before := ActiveIds();
      assert runs[id := run].Keys == runs.Keys;
      runs := runs[id := run];
      assert ActiveIds() <= before;
      SubsetSize(ActiveIds(), before);
      result := Saved;
    }

    lemma SubsetSize(a: set<string>, b: set<string>)
      requires a <= b
      ensures |a| <= |b|
    {
      assert b == a + (b - a);
    }
  }
}
