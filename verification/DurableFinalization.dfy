/** The finalizer above its outbox (application/finalization.py over
    infrastructure/finalization_outbox.py): what a track that was marked finalized can rely on
    when the disk fails and the process crashes. */
module DurableFinalization {
  import F = Finalization
  import opened EntryNames
  import opened Options
  import opened OutboxDisk
  import opened OutboxProtocol

  /** A call of `finalize` under way. `acknowledged`: `stage` is about to return without raising. */
  datatype Call = Call(key: nat, now: nat, acknowledged: bool)

  datatype System = System(
    world: World,
    state: F.State,
    call: Option<Call>,       // the finalizer's lock admits one
    left: set<Document>,      // what earlier processes left on the disk when this one started
    marked: set<Document>)    // the documents of all tracks marked finalized, by any process

  datatype Move =
    | Disk(step: Step)                                                        // anything but a crash
    | Begin(key: nat, now: nat)                                               // `finalize` freezes the unit and calls `stage`
    | End(ending: F.Ending)
    | Observe(key: nat, trajectory: seq<(int, int)>, rest: string)
    | Die(keep: seq<bool>, garbage: Document, tracks: map<nat, F.Track>)      // a crash, or an end that keeps everything; the next tracks

  /** The finalizer's rules, and the encoding of its units. */
  datatype Setup = Setup(limits: Limits, rules: F.Rules, encode: F.Unit -> Document)

  /** The encoding keeps event ids, and different units have different bytes. */
  ghost predicate Encodes(setup: Setup) {
    && (forall u :: setup.encode(u).event.id == u.event.id)
    && forall u, v :: setup.encode(u) == setup.encode(v) ==> u == v
  }

  function Fresh(tracks: map<nat, F.Track>): F.State {
    F.State(tracks, map[], [])
  }

  predicate Calling(s: System) {
    s.call.Some? && s.call.value.key in s.state.tracks
  }

  function UnitOf(setup: Setup, s: System): F.Unit
    requires Calling(s)
  {
    F.Frozen(setup.rules, s.state.tracks[s.call.value.key], s.state.pending, s.call.value.now)
  }

  function DocOf(setup: Setup, s: System): Document
    requires Calling(s)
  {
    setup.encode(UnitOf(setup, s))
  }

  /** The entry that `stage` finds for an event id: the first one in name order. */
  ghost predicate Meets(view: Directory, id: string, n: Name) {
    && n in view && n.Entry? && n.id == id
    && forall m :: m in view && m.Entry? && m.id == id ==> !Before(m.occurredAt, n.occurredAt)
  }

  /** `stage` of the call finds an entry that is not its own document. */
  ghost predicate Mismatches(setup: Setup, s: System)
    requires Calling(s)
  {
    exists n :: Meets(s.world.view, DocOf(setup, s).event.id, n) && s.world.view[n].data != DocOf(setup, s)
  }

  predicate Staging(holder: Holder) {
    holder.Writing? || holder.Flushed? || holder.Renamed?
  }

  /** Only the call under way stages, and only its own document. */
  ghost predicate MayStep(setup: Setup, s: System, step: Step) {
    && !step.Crash? && Enabled(setup.limits, s.world, step)
    && (step.WriteTemp? ==> Calling(s) && step.doc == DocOf(setup, s))
    && (step.AckExisting? ==> Calling(s) && step.doc == DocOf(setup, s) && Meets(s.world.view, step.doc.event.id, PathOf(step.doc)))
  }

  ghost predicate MayEnd(setup: Setup, s: System, ending: F.Ending) {
    && Calling(s) && !Staging(s.world.holder)
    && match ending
       case Returned => s.call.value.acknowledged
       case Mismatched => s.world.running && s.world.holder.Free? && !s.call.value.acknowledged && Mismatches(setup, s)
       case Raised => true
  }

  ghost predicate Possible(setup: Setup, s: System, m: Move) {
    match m
    case Disk(step) => MayStep(setup, s, step)
    case Begin(key, _) => s.call.None? && key in s.state.tracks && !s.state.tracks[key].finalized
    case End(ending) => MayEnd(setup, s, ending)
    case Observe(key, _, _) => key in s.state.tracks && !s.state.tracks[key].finalized && (s.call.None? || s.call.value.key != key)
    case Die(keep, _, tracks) => |keep| == |s.world.journal| && F.Start(setup.rules, Fresh(tracks))
  }

  predicate Acknowledges(w: World, step: Step) {
    step.AckExisting? || (step.SyncDirectory? && w.holder.Renamed?)
  }

  function Informed(call: Option<Call>, w: World, step: Step): Option<Call> {
    if call.Some? && Acknowledges(w, step) then Some(call.value.(acknowledged := true)) else call
  }

  function Documents(view: Directory): set<Document> {
    set n | n in view && n.Entry? :: view[n].data
  }

  function Concluded(setup: Setup, s: System, ending: F.Ending): System
    requires Calling(s)
  {
    s.(state := F.Conclude(setup.rules, s.state, s.call.value.key, s.call.value.now, ending), call := None,
       marked := s.marked + if ending.Returned? then {DocOf(setup, s)} else {})
  }

  function Restarted(s: System, keep: seq<bool>, garbage: Document, tracks: map<nat, F.Track>): System
    requires |keep| == |s.world.journal|
  {
    var w := OutboxProtocol.Next(s.world, Crash(keep, garbage));
    System(w, Fresh(tracks), None, Documents(w.view), s.marked)
  }

  ghost function Next(setup: Setup, s: System, m: Move): System
    requires Possible(setup, s, m)
  {
    match m
    case Disk(step) => s.(world := OutboxProtocol.Next(s.world, step), call := Informed(s.call, s.world, step))
    case Begin(key, now) => s.(call := Some(Call(key, now, false)))
    case End(ending) => Concluded(setup, s, ending)
    case Observe(key, trajectory, rest) => s.(state := F.Extend(s.state, key, trajectory, rest))
    case Die(keep, garbage, tracks) => Restarted(s, keep, garbage, tracks)
  }

  // ----- the invariant

  ghost predicate AttemptsMarked(setup: Setup, s: System) {
    forall i :: 0 <= i < |s.state.attempts| && s.state.attempts[i].succeeded ==> setup.encode(s.state.attempts[i].unit) in s.marked
  }

  /** The document of a call of this process, ended or under way. */
  ghost predicate Own(setup: Setup, s: System, doc: Document) {
    || (exists i :: 0 <= i < |s.state.attempts| && setup.encode(s.state.attempts[i].unit) == doc)
    || (Calling(s) && doc == DocOf(setup, s))
  }

  /** Every entry was left by an earlier process, or is of this one. */
  ghost predicate Accounted(setup: Setup, s: System) {
    forall n :: n in s.world.view && n.Entry? ==> s.world.view[n].data in s.left || Own(setup, s, s.world.view[n].data)
  }

  ghost predicate CallOk(setup: Setup, s: System) {
    && (s.call.Some? ==> Calling(s) && !s.state.tracks[s.call.value.key].finalized)
    && (s.call.Some? && s.call.value.acknowledged ==> DocOf(setup, s) in s.world.staged + s.world.tentative)
    && (Staging(s.world.holder) ==> Calling(s) && s.world.holder.doc == DocOf(setup, s))
  }

  ghost predicate Inv(setup: Setup, s: System) {
    && OutboxProtocol.Inv(setup.limits, s.world) && F.Inv(setup.rules, s.state)
    && AttemptsMarked(setup, s) && s.marked <= s.world.staged + s.world.tentative
    && CallOk(setup, s) && Accounted(setup, s)
  }

  /** What was acknowledged stays acknowledged. */
  lemma AcknowledgedStays(limits: Limits, w: World, step: Step)
    requires Enabled(limits, w, step)
    ensures w.staged + w.tentative <= OutboxProtocol.Next(w, step).staged + OutboxProtocol.Next(w, step).tentative
  {
  }

  lemma FreshInv(rules: F.Rules, tracks: map<nat, F.Track>)
    requires F.Start(rules, Fresh(tracks))
    ensures F.Inv(rules, Fresh(tracks))
  {
  }

  /** The only entry a step can bring is the one that is renamed. */
  lemma EntriesCome(limits: Limits, w: World, step: Step, n: Name)
    requires OutboxProtocol.Inv(limits, w) && Enabled(limits, w, step) && !step.Crash?
    requires n.Entry? && n in OutboxProtocol.Next(w, step).view
    ensures var t := OutboxProtocol.Next(w, step);
      (n in w.view && t.view[n] == w.view[n]) || (step.RenameTemp? && n == PathOf(w.holder.doc) && t.view[n].data == w.holder.doc)
  {
    match step
    case RenameTemp =>
    case UnlinkEntry(_) =>
    case _ =>
  }

  lemma StepKeepsAccounted(setup: Setup, s: System, step: Step)
    requires Inv(setup, s) && MayStep(setup, s, step)
    ensures Accounted(setup, Next(setup, s, Disk(step)))
  {
    var t := Next(setup, s, Disk(step));
    forall n | n in t.world.view && n.Entry? ensures t.world.view[n].data in t.left || Own(setup, t, t.world.view[n].data) {
      EntriesCome(setup.limits, s.world, step, n);
    }
  }

  lemma StepKeepsStaging(setup: Setup, s: System, step: Step)
    requires Inv(setup, s) && MayStep(setup, s, step)
    ensures var w := OutboxProtocol.Next(s.world, step); Staging(w.holder) ==> Calling(s) && w.holder.doc == DocOf(setup, s)
  {
  }

  lemma StepKeepsAcknowledged(setup: Setup, s: System, step: Step)
    requires Inv(setup, s) && MayStep(setup, s, step) && Calling(s)
    requires s.call.value.acknowledged || Acknowledges(s.world, step)
    ensures var w := OutboxProtocol.Next(s.world, step); DocOf(setup, s) in w.staged + w.tentative
  {
    AcknowledgedStays(setup.limits, s.world, step);
  }

  lemma StepKeepsCall(setup: Setup, s: System, step: Step)
    requires Inv(setup, s) && MayStep(setup, s, step)
    ensures CallOk(setup, Next(setup, s, Disk(step)))
  {
    StepKeepsStaging(setup, s, step);
    if Calling(s) && (s.call.value.acknowledged || Acknowledges(s.world, step)) { StepKeepsAcknowledged(setup, s, step); }
    assert Calling(s) ==> DocOf(setup, Next(setup, s, Disk(step))) == DocOf(setup, s);
  }

  lemma EndMarks(setup: Setup, s: System, ending: F.Ending)
    requires Inv(setup, s) && MayEnd(setup, s, ending)
    ensures AttemptsMarked(setup, Concluded(setup, s, ending))
    ensures Concluded(setup, s, ending).marked <= s.world.staged + s.world.tentative
  {
    var t := Concluded(setup, s, ending);
    forall i | 0 <= i < |t.state.attempts| && t.state.attempts[i].succeeded ensures setup.encode(t.state.attempts[i].unit) in t.marked {
      if i < |s.state.attempts| { assert t.state.attempts[i] == s.state.attempts[i]; }
    }
  }

  lemma EndKeepsAccounted(setup: Setup, s: System, ending: F.Ending)
    requires Inv(setup, s) && MayEnd(setup, s, ending)
    ensures Accounted(setup, Concluded(setup, s, ending))
  {
    var t := Concluded(setup, s, ending);
    assert t.state.attempts[|s.state.attempts|].unit == UnitOf(setup, s);
    forall n | n in t.world.view && n.Entry? && t.world.view[n].data !in t.left ensures Own(setup, t, t.world.view[n].data) {
      if i :| 0 <= i < |s.state.attempts| && setup.encode(s.state.attempts[i].unit) == t.world.view[n].data {
        assert t.state.attempts[i] == s.state.attempts[i];
      }
    }
  }

  lemma MoveKeepsInv(setup: Setup, s: System, m: Move)
    requires Inv(setup, s) && Possible(setup, s, m)
    ensures Inv(setup, Next(setup, s, m))
    ensures s.marked <= Next(setup, s, m).marked
  {
    match m
    case Disk(step) =>
      StepKeepsInv(setup.limits, s.world, step);
      AcknowledgedStays(setup.limits, s.world, step);
      StepKeepsCall(setup, s, step);
      StepKeepsAccounted(setup, s, step);
    case Begin(_, _) =>
    case End(ending) =>
      F.CallKeepsInv(setup.rules, s.state, s.call.value.key, s.call.value.now, ending);
      EndMarks(setup, s, ending);
      EndKeepsAccounted(setup, s, ending);
    case Observe(key, trajectory, rest) =>
      F.ObserveKeepsInv(setup.rules, s.state, key, trajectory, rest);
    case Die(keep, garbage, tracks) =>
      StepKeepsInv(setup.limits, s.world, Crash(keep, garbage));
      FreshInv(setup.rules, tracks);
  }

  // ----- whole runs

  ghost predicate IsRun(setup: Setup, s: System, moves: seq<Move>)
    decreases |moves|
  {
    moves == [] || (Possible(setup, s, moves[0]) && IsRun(setup, Next(setup, s, moves[0]), moves[1..]))
  }

  ghost function After(setup: Setup, s: System, moves: seq<Move>): System
    requires IsRun(setup, s, moves)
    decreases |moves|
  {
    if moves == [] then s else After(setup, Next(setup, s, moves[0]), moves[1..])
  }

  lemma {:induction false} RunKeepsInv(setup: Setup, s: System, moves: seq<Move>)
    requires Inv(setup, s) && IsRun(setup, s, moves)
    ensures Inv(setup, After(setup, s, moves)) && s.marked <= After(setup, s, moves).marked
    decreases |moves|
  {
    if moves != [] {
      MoveKeepsInv(setup, s, moves[0]);
      RunKeepsInv(setup, Next(setup, s, moves[0]), moves[1..]);
    }
  }

  /** An empty outbox, and the tracks of the first process. */
  function Initially(tracks: map<nat, F.Track>): System {
    System(Empty, Fresh(tracks), None, {}, {})
  }

  lemma InitiallyInv(setup: Setup, tracks: map<nat, F.Track>)
    requires F.Start(setup.rules, Fresh(tracks))
    ensures Inv(setup, Initially(tracks))
  {
    EmptyInv(setup.limits);
    FreshInv(setup.rules, tracks);
  }

  /** The event is delivered after its media, or its intact entry is there after any crash now. */
  ghost predicate Safe(w: World, doc: Document) {
    Delivered(w.external, doc)
    || forall keep: seq<bool>, garbage {:trigger Crash(keep, garbage)} :: |keep| == |w.journal| ==>
         OnDisk(OutboxProtocol.Next(w, Crash(keep, garbage)).view, doc)
  }

  lemma SafeIff(limits: Limits, w: World, doc: Document)
    requires OutboxProtocol.Inv(limits, w)
    ensures Safe(w, doc) <==> Delivered(w.external, doc) || OnDisk(w.base, doc)
  {
    if !Delivered(w.external, doc) {
      if OnDisk(w.base, doc) {
        forall keep: seq<bool>, garbage | |keep| == |w.journal| ensures OnDisk(OutboxProtocol.Next(w, Crash(keep, garbage)).view, doc) {
          BaseEntryIsSafe(w, doc, keep, garbage);
        }
      } else {
        KeepingNothing(w.base, w.journal);
        assert !OnDisk(OutboxProtocol.Next(w, Crash(Nothing(w.journal), doc)).view, doc);
      }
    }
  }

  /** Whatever the disk, the deliveries, crashes and restarts did: a finalized track has staged
      one document for good, and that is safe exactly when it is delivered or on the flushed
      disk. It is, unless `stage` found it as an entry whose rename was not flushed. */
  lemma FinalizedTrackIsSafeIff(setup: Setup, tracks: map<nat, F.Track>, moves: seq<Move>, key: nat)
    requires F.Start(setup.rules, Fresh(tracks)) && IsRun(setup, Initially(tracks), moves)
    requires var s := After(setup, Initially(tracks), moves); key in s.state.tracks && s.state.tracks[key].finalized
    ensures var s := After(setup, Initially(tracks), moves);
      exists i :: 0 <= i < |s.state.attempts| && s.state.attempts[i].key == key && s.state.attempts[i].succeeded
        && var doc := setup.encode(s.state.attempts[i].unit);
           && doc in s.marked && (Safe(s.world, doc) <==> Delivered(s.world.external, doc) || OnDisk(s.world.base, doc))
           && (Safe(s.world, doc) || doc in s.world.tentative)
  {
    InitiallyInv(setup, tracks);
    RunKeepsInv(setup, Initially(tracks), moves);
    var s := After(setup, Initially(tracks), moves);
    assert F.Succeeded(s.state, key);
    var i :| 0 <= i < |s.state.attempts| && s.state.attempts[i].key == key && s.state.attempts[i].succeeded;
    SafeIff(setup.limits, s.world, setup.encode(s.state.attempts[i].unit));
  }

  // ----- runs in which no rename is left unflushed by a failure

  ghost predicate Smooth(setup: Setup, s: System, moves: seq<Move>)
    requires IsRun(setup, s, moves)
    decreases |moves|
  {
    moves == [] ||
      (!(moves[0] == Disk(FailSync) && s.world.holder.Renamed?) && Smooth(setup, Next(setup, s, moves[0]), moves[1..]))
  }

  /** Only the entry that is being committed may wait for a flush. */
  ghost predicate Flushed(w: World) {
    && w.tentative == {}
    && forall n :: n in w.view && n.Entry? && Touches(w.journal, n) ==> w.holder.Renamed? && n == PathOf(w.holder.doc)
  }

  lemma TouchesOneMore(journal: seq<Operation>, op: Operation, n: Name)
    ensures Touches(journal + [op], n) <==> Touches(journal, n) || op.name == n || (op.Rename? && op.from == n)
  {
    assert (journal + [op])[|journal|] == op;
    assert forall k :: 0 <= k < |journal| ==> (journal + [op])[k] == journal[k];
  }

  lemma DoKeepsFlushed(w: World, op: Operation, holder: Holder)
    requires Flushed(w) && !w.holder.Renamed? && (op.Rename? ==> op.from.Temp?)
    requires op.name.Entry? ==> op.Unlink? || (holder.Renamed? && op.name == PathOf(holder.doc))
    ensures Flushed(Do(w, op).(holder := holder))
  {
    var t := Do(w, op).(holder := holder);
    forall n | n in t.view && n.Entry? && Touches(t.journal, n) ensures t.holder.Renamed? && n == PathOf(t.holder.doc) {
      TouchesOneMore(w.journal, op, n);
    }
  }

  lemma StepKeepsFlushed(limits: Limits, w: World, step: Step)
    requires OutboxProtocol.Inv(limits, w) && Enabled(limits, w, step) && Flushed(w)
    requires !(step.FailSync? && w.holder.Renamed?)
    ensures Flushed(OutboxProtocol.Next(w, step))
  {
    match step
    case WriteTemp(token, doc) => DoKeepsFlushed(w, Link(Temp(token), File(doc, false)), Writing(token, doc));
    case SyncFile => DoKeepsFlushed(w, Link(Temp(w.holder.token), File(w.holder.doc, true)), Holder.Flushed(w.holder.token, w.holder.doc));
    case RenameTemp =>
      DoKeepsFlushed(w, Rename(Temp(w.holder.token), PathOf(w.holder.doc), w.view[Temp(w.holder.token)]), Renamed(w.holder.doc));
    case AbortStage(unlinked) => DoKeepsFlushed(w, Unlink(Temp(w.holder.token)), Free);
    case CleanTemp(token) => DoKeepsFlushed(w, Unlink(Temp(token)), Free);
    case UnlinkEntry(doc) => DoKeepsFlushed(w, Unlink(PathOf(doc)), Removed(doc));
    case _ =>
  }

  lemma {:induction false} SmoothRunIsFlushed(setup: Setup, s: System, moves: seq<Move>)
    requires Inv(setup, s) && IsRun(setup, s, moves) && Smooth(setup, s, moves) && Flushed(s.world)
    ensures Flushed(After(setup, s, moves).world)
    decreases |moves|
  {
    if moves != [] {
      MoveKeepsInv(setup, s, moves[0]);
      match moves[0] {
        case Disk(step) => StepKeepsFlushed(setup.limits, s.world, step);
        case Begin(_, _) =>
        case End(_) =>
        case Observe(_, _, _) =>
        case Die(keep, garbage, _) => StepKeepsFlushed(setup.limits, s.world, Crash(keep, garbage));
      }
      SmoothRunIsFlushed(setup, Next(setup, s, moves[0]), moves[1..]);
    }
  }

  /** As long as no flush of a rename failed, the document of every track that any process ever
      marked finalized is safe. */
  lemma SmoothRunsLoseNothing(setup: Setup, tracks: map<nat, F.Track>, moves: seq<Move>, doc: Document)
    requires F.Start(setup.rules, Fresh(tracks)) && IsRun(setup, Initially(tracks), moves) && Smooth(setup, Initially(tracks), moves)
    requires doc in After(setup, Initially(tracks), moves).marked
    ensures Safe(After(setup, Initially(tracks), moves).world, doc)
  {
    InitiallyInv(setup, tracks);
    RunKeepsInv(setup, Initially(tracks), moves);
    SmoothRunIsFlushed(setup, Initially(tracks), moves);
    SafeIff(setup.limits, After(setup, Initially(tracks), moves).world, doc);
  }

  // ----- entries left by an earlier process

  lemma OnlyOneIsMet(view: Directory, id: string, n: Name, m: Name)
    requires Meets(view, id, n) && Meets(view, id, m)
    ensures n == m
  {
  }

  /** Documents of this process under the id of the call's event are the call's own. */
  lemma OwnIdOwnDocument(setup: Setup, s: System, doc: Document)
    requires Inv(setup, s) && Encodes(setup) && Calling(s) && Own(setup, s, doc) && doc.event.id == DocOf(setup, s).event.id
    ensures doc == DocOf(setup, s)
  {
    F.FrozenUnit(setup.rules, s.state, s.call.value.key, s.call.value.now);
  }

  /** When a call raises because the entry of its event id does not match: exactly when `stage`
      finds a document that an earlier process left, and that differs from the call's own. So it
      cannot when no earlier process left an event of that id. */
  lemma MismatchIff(setup: Setup, tracks: map<nat, F.Track>, moves: seq<Move>)
    requires Encodes(setup) && F.Start(setup.rules, Fresh(tracks)) && IsRun(setup, Initially(tracks), moves)
    requires Calling(After(setup, Initially(tracks), moves))
    ensures var s := After(setup, Initially(tracks), moves); var doc := DocOf(setup, s);
      Mismatches(setup, s) <==>
        exists n :: Meets(s.world.view, doc.event.id, n) && s.world.view[n].data in s.left && s.world.view[n].data != doc
    ensures var s := After(setup, Initially(tracks), moves);
      (forall doc :: doc in s.left ==> doc.event.id != DocOf(setup, s).event.id) ==> !Mismatches(setup, s)
  {
    InitiallyInv(setup, tracks);
    RunKeepsInv(setup, Initially(tracks), moves);
    var s := After(setup, Initially(tracks), moves);
    forall n | Meets(s.world.view, DocOf(setup, s).event.id, n) && s.world.view[n].data != DocOf(setup, s)
      ensures s.world.view[n].data in s.left && s.world.view[n].data.event.id == DocOf(setup, s).event.id
    {
      assert Intact(n, s.world.view[n]);
      if s.world.view[n].data !in s.left { OwnIdOwnDocument(setup, s, s.world.view[n].data); }
    }
  }

  /** `stage` finds entry `n` with the document `doc` for its event id, and nothing else under that
      id is about to be acknowledged. */
  ghost predicate Held(setup: Setup, s: System, n: Name, doc: Document) {
    && Meets(s.world.view, doc.event.id, n) && s.world.view[n].data == doc
    && (s.world.holder.Renamed? && s.world.holder.doc.event.id == doc.event.id ==> s.world.holder.doc == doc)
    && (Calling(s) && s.call.value.acknowledged && DocOf(setup, s).event.id == doc.event.id ==> DocOf(setup, s) == doc)
  }

  lemma StepKeepsMet(limits: Limits, w: World, step: Step, id: string, n: Name)
    requires OutboxProtocol.Inv(limits, w) && Enabled(limits, w, step) && !step.Crash? && Meets(w.view, id, n)
    ensures var t := OutboxProtocol.Next(w, step);
      Delivered(w.external, w.view[n].data) || (Meets(t.view, id, n) && t.view[n] == w.view[n])
  {
    EntryStays(limits, w, step, n);
    var t := OutboxProtocol.Next(w, step);
    forall m | m in t.view && m.Entry? && m.id == id ensures m in w.view {
      EntriesCome(limits, w, step, m);
      if m !in w.view { assert HasEvent(w.view, w.holder.doc.event.id); }
    }
  }

  lemma RenamedStays(limits: Limits, w: World, step: Step, n: Name, doc: Document)
    requires OutboxProtocol.Inv(limits, w) && Enabled(limits, w, step) && !step.Crash? && Meets(w.view, doc.event.id, n)
    requires w.holder.Renamed? && w.holder.doc.event.id == doc.event.id ==> w.holder.doc == doc
    ensures var t := OutboxProtocol.Next(w, step); t.holder.Renamed? && t.holder.doc.event.id == doc.event.id ==> t.holder.doc == doc
  {
    if step.RenameTemp? { assert w.holder.doc.event.id == doc.event.id ==> HasEvent(w.view, doc.event.id); }
  }

  lemma AcknowledgedAgrees(setup: Setup, s: System, step: Step, n: Name, doc: Document)
    requires Inv(setup, s) && MayStep(setup, s, step) && Held(setup, s, n, doc) && Calling(s) && Acknowledges(s.world, step)
    ensures DocOf(setup, s).event.id == doc.event.id ==> DocOf(setup, s) == doc
  {
    if step.AckExisting? && step.doc.event.id == doc.event.id { OnlyOneIsMet(s.world.view, doc.event.id, n, PathOf(step.doc)); }
  }

  lemma StepKeepsHeld(setup: Setup, s: System, step: Step, n: Name, doc: Document)
    requires Inv(setup, s) && MayStep(setup, s, step) && Held(setup, s, n, doc) && !Delivered(s.world.external, doc)
    ensures Held(setup, Next(setup, s, Disk(step)), n, doc)
  {
    StepKeepsMet(setup.limits, s.world, step, doc.event.id, n);
    RenamedStays(setup.limits, s.world, step, n, doc);
    var t := Next(setup, s, Disk(step));
    if Calling(t) {
      assert DocOf(setup, t) == DocOf(setup, s);
      if Acknowledges(s.world, step) { AcknowledgedAgrees(setup, s, step, n, doc); }
    }
  }

  lemma MoveKeepsHeld(setup: Setup, s: System, m: Move, n: Name, doc: Document)
    requires Inv(setup, s) && Possible(setup, s, m) && !m.Die? && Held(setup, s, n, doc) && !Delivered(s.world.external, doc)
    ensures Held(setup, Next(setup, s, m), n, doc)
    ensures forall other :: other in Next(setup, s, m).marked && other !in s.marked && other.event.id == doc.event.id ==> other == doc
  {
    if m.Disk? { StepKeepsHeld(setup, s, m.step, n, doc); }
  }

  lemma StepKeepsDelivered(limits: Limits, w: World, step: Step, doc: Document)
    requires Enabled(limits, w, step) && Delivered(w.external, doc)
    ensures Delivered(OutboxProtocol.Next(w, step).external, doc)
  {
    match step
    case PutMedia(delivery, _) => DeliveredStays(w.external, Put(delivery.doc.media[delivery.done].key, delivery.doc.media[delivery.done].data), doc);
    case Publish(delivery, _) => DeliveredStays(w.external, Published(delivery.doc.event), doc);
    case _ =>
  }

  lemma DeliveredForGood(setup: Setup, s: System, m: Move, doc: Document)
    requires Possible(setup, s, m) && Delivered(s.world.external, doc)
    ensures Delivered(Next(setup, s, m).world.external, doc)
  {
    match m
    case Disk(step) => StepKeepsDelivered(setup.limits, s.world, step, doc);
    case Die(keep, garbage, _) => StepKeepsDelivered(setup.limits, s.world, Crash(keep, garbage), doc);
    case _ =>
  }

  ghost predicate NoCrash(moves: seq<Move>) {
    forall k :: 0 <= k < |moves| ==> !moves[k].Die?
  }

  lemma {:induction false} DeliveredOverRun(setup: Setup, s: System, moves: seq<Move>, doc: Document)
    requires IsRun(setup, s, moves) && Delivered(s.world.external, doc)
    ensures Delivered(After(setup, s, moves).world.external, doc)
    decreases |moves|
  {
    if moves != [] {
      DeliveredForGood(setup, s, moves[0], doc);
      DeliveredOverRun(setup, Next(setup, s, moves[0]), moves[1..], doc);
    }
  }

  /** Until an entry is delivered, no track is marked finalized with another document of the same
      event id: every such call raises, however often it is repeated. */
  lemma {:induction false} EntryBlocksOthers(setup: Setup, s: System, moves: seq<Move>, n: Name, doc: Document)
    requires Inv(setup, s) && IsRun(setup, s, moves) && NoCrash(moves) && Held(setup, s, n, doc)
    ensures var t := After(setup, s, moves);
      Delivered(t.world.external, doc)
      || (Held(setup, t, n, doc) && forall other :: other in t.marked && other !in s.marked && other.event.id == doc.event.id ==> other == doc)
    decreases |moves|
  {
    if Delivered(s.world.external, doc) {
      DeliveredOverRun(setup, s, moves, doc);
    } else if moves != [] {
      MoveKeepsInv(setup, s, moves[0]);
      MoveKeepsHeld(setup, s, moves[0], n, doc);
      EntryBlocksOthers(setup, Next(setup, s, moves[0]), moves[1..], n, doc);
    }
  }

  // ----- the same recording twice

  ghost predicate Reachable(setup: Setup, tracks: map<nat, F.Track>, s: System) {
    exists moves :: IsRun(setup, Initially(tracks), moves) && After(setup, Initially(tracks), moves) == s
  }

  lemma {:induction false} RunOfOneMore(setup: Setup, s: System, moves: seq<Move>, m: Move)
    requires IsRun(setup, s, moves) && Possible(setup, After(setup, s, moves), m)
    ensures IsRun(setup, s, moves + [m])
    ensures After(setup, s, moves + [m]) == Next(setup, After(setup, s, moves), m)
    decreases |moves|
  {
    if moves == [] {
      assert ([] + [m])[1..] == [] && ([] + [m])[0] == m;
      assert IsRun(setup, Next(setup, s, m), []);
    } else {
      RunOfOneMore(setup, Next(setup, s, moves[0]), moves[1..], m);
      assert (moves + [m])[1..] == moves[1..] + [m];
    }
  }

  lemma Advance(setup: Setup, tracks: map<nat, F.Track>, s: System, m: Move) returns (t: System)
    requires Reachable(setup, tracks, s) && Possible(setup, s, m)
    ensures t == Next(setup, s, m) && Reachable(setup, tracks, t)
  {
    var moves :| IsRun(setup, Initially(tracks), moves) && After(setup, Initially(tracks), moves) == s;
    RunOfOneMore(setup, Initially(tracks), moves, m);
    t := Next(setup, s, m);
  }

  function BuiltAt(setup: Setup, tracks: map<nat, F.Track>, key: nat, now: nat): Document
    requires key in tracks
  {
    setup.encode(F.Build(setup.rules, tracks[key].evidence, now))
  }

  predicate Fits(limits: Limits, doc: Document) {
    1 <= limits.maximumEntries && doc.size <= limits.maximumBytes && doc.size <= limits.maximumEntryBytes
  }

  /** A first call of `finalize` in an empty outbox. */
  lemma FirstCall(setup: Setup, tracks: map<nat, F.Track>, key: nat, now: nat) returns (s: System)
    requires F.Start(setup.rules, Fresh(tracks)) && key in tracks
    ensures s == Initially(tracks).(call := Some(Call(key, now, false)), world := Empty.(running := true)) && Reachable(setup, tracks, s)
  {
    assert IsRun(setup, Initially(tracks), []) && After(setup, Initially(tracks), []) == Initially(tracks);
    EmptyInv(setup.limits);
    s := Advance(setup, tracks, Initially(tracks), Disk(Recover));
    s := Advance(setup, tracks, s, Begin(key, now));
  }

  lemma FirstWrite(setup: Setup, tracks: map<nat, F.Track>, key: nat, now: nat) returns (s: System)
    requires F.Start(setup.rules, Fresh(tracks)) && key in tracks && Fits(setup.limits, BuiltAt(setup, tracks, key, now))
    ensures var doc := BuiltAt(setup, tracks, key, now);
      s == Initially(tracks).(call := Some(Call(key, now, false)),
             world := Empty.(view := map[Temp(0) := File(doc, false)], journal := StagingJournal(doc)[..1], holder := Writing(0, doc), running := true))
    ensures Reachable(setup, tracks, s)
  {
    s := FirstCall(setup, tracks, key, now);
    EmptyInv(setup.limits);
    assert DocOf(setup, s) == BuiltAt(setup, tracks, key, now);
    s := Advance(setup, tracks, s, Disk(WriteTemp(0, BuiltAt(setup, tracks, key, now))));
  }

  /** It has renamed its document. */
  lemma FirstRename(setup: Setup, tracks: map<nat, F.Track>, key: nat, now: nat) returns (s: System)
    requires F.Start(setup.rules, Fresh(tracks)) && key in tracks && Fits(setup.limits, BuiltAt(setup, tracks, key, now))
    ensures var doc := BuiltAt(setup, tracks, key, now);
      s == Initially(tracks).(call := Some(Call(key, now, false)),
             world := Empty.(view := map[PathOf(doc) := File(doc, true)], journal := StagingJournal(doc), holder := Renamed(doc), running := true))
    ensures Reachable(setup, tracks, s)
  {
    var doc := BuiltAt(setup, tracks, key, now);
    s := FirstWrite(setup, tracks, key, now);
    s := Advance(setup, tracks, s, Disk(SyncFile));
    assert s.world.view == map[Temp(0) := File(doc, true)];
    s := Advance(setup, tracks, s, Disk(RenameTemp));
    assert s.world.view == map[PathOf(doc) := File(doc, true)];
    assert s.world.journal == StagingJournal(doc);
  }

  lemma FirstSync(setup: Setup, tracks: map<nat, F.Track>, key: nat, now: nat) returns (s: System)
    requires F.Start(setup.rules, Fresh(tracks)) && key in tracks && Fits(setup.limits, BuiltAt(setup, tracks, key, now))
    ensures var doc := BuiltAt(setup, tracks, key, now); var dir: Directory := map[PathOf(doc) := File(doc, true)];
      s == Initially(tracks).(call := Some(Call(key, now, true)), world := Empty.(view := dir, base := dir, staged := {doc}, running := true))
    ensures Reachable(setup, tracks, s)
  {
    s := FirstRename(setup, tracks, key, now);
    s := Advance(setup, tracks, s, Disk(SyncDirectory));
  }

  /** It succeeds and marks its track finalized ... */
  lemma FirstEnd(setup: Setup, tracks: map<nat, F.Track>, key: nat, now: nat) returns (s: System)
    requires F.Start(setup.rules, Fresh(tracks)) && key in tracks && Fits(setup.limits, BuiltAt(setup, tracks, key, now))
    ensures var doc := BuiltAt(setup, tracks, key, now); var dir: Directory := map[PathOf(doc) := File(doc, true)];
      s.world == Empty.(view := dir, base := dir, staged := {doc}, running := true) && s.marked == {doc}
    ensures Reachable(setup, tracks, s)
  {
    s := FirstSync(setup, tracks, key, now);
    assert DocOf(setup, s) == BuiltAt(setup, tracks, key, now);
    s := Advance(setup, tracks, s, End(F.Returned));
  }

  lemma NothingLost(doc: Document)
    ensures var dir: Directory := map[PathOf(doc) := File(doc, true)]; Torn(dir, doc) == dir && Documents(dir) == {doc}
  {
    var dir: Directory := map[PathOf(doc) := File(doc, true)];
    assert PathOf(doc) in dir && dir[PathOf(doc)].data == doc;
  }

  /** ... and the process ends before the delivery. */
  lemma FirstProcess(setup: Setup, tracks: map<nat, F.Track>, key: nat, now: nat) returns (s: System)
    requires F.Start(setup.rules, Fresh(tracks)) && key in tracks && Fits(setup.limits, BuiltAt(setup, tracks, key, now))
    ensures var doc := BuiltAt(setup, tracks, key, now); var dir: Directory := map[PathOf(doc) := File(doc, true)];
      s == System(Empty.(view := dir, base := dir, staged := {doc}), Fresh(tracks), None, {doc}, {doc})
    ensures Reachable(setup, tracks, s)
  {
    var doc := BuiltAt(setup, tracks, key, now);
    s := FirstEnd(setup, tracks, key, now);
    NothingLost(doc);
    s := Advance(setup, tracks, s, Die([], doc, tracks));
  }

  ghost predicate SecondCall(setup: Setup, tracks: map<nat, F.Track>, s: System, key: nat, first: nat, second: nat)
    requires key in tracks
  {
    Reachable(setup, tracks, s) && s.marked == {BuiltAt(setup, tracks, key, first)} && s.state == Fresh(tracks) && s.call == Some(Call(key, second, false))
  }

  /** When the same tracks are seen again, as when a recording is processed twice, the event of a
      track that was finalized but not yet delivered is refused exactly when the clock has moved on. */
  lemma RerunMismatchesIff(setup: Setup, tracks: map<nat, F.Track>, key: nat, first: nat, second: nat)
    requires Encodes(setup) && F.Start(setup.rules, Fresh(tracks)) && key in tracks && Fits(setup.limits, BuiltAt(setup, tracks, key, first))
    ensures exists s :: SecondCall(setup, tracks, s, key, first, second) && (Mismatches(setup, s) <==> first != second)
  {
    var doc := BuiltAt(setup, tracks, key, first);
    var s := FirstProcess(setup, tracks, key, first);
    assert Entries(s.world.view) == {PathOf(doc)};
    BytesSplit(s.world.view, PathOf(doc));
    assert s.world.view - {PathOf(doc)} == map[];
    s := Advance(setup, tracks, s, Disk(Recover));
    s := Advance(setup, tracks, s, Begin(key, second));
    assert DocOf(setup, s) == BuiltAt(setup, tracks, key, second);
    assert Meets(s.world.view, doc.event.id, PathOf(doc));
    assert SecondCall(setup, tracks, s, key, first, second);
  }
}
