/** The durable finalization protocol (infrastructure/finalization_outbox.py) as a transition
    system: every system call, every external delivery and a crash at any point is one step. */
module OutboxProtocol {
  import opened FinalizationUnits
  import opened OutboxDisk

  /** What reached the media store and the event bus, in order. Crashes do not undo it. */
  datatype External = Put(key: string, data: string) | Published(event: Event)

  /** Who holds the directory lock, and how far the holder has come. */
  datatype Holder =
    | Free
    | Writing(token: nat, doc: Document)
    | Flushed(token: nat, doc: Document)
    | Renamed(doc: Document)
    | Removed(doc: Document)

  /** A delivery in flight: `done` media objects of `doc` have been stored. */
  datatype Delivery = Delivery(doc: Document, done: nat)

  datatype Limits = Limits(maximumEntries: nat, maximumBytes: nat, maximumEntryBytes: nat)

  datatype World = World(
    view: Directory,              // what the running process sees
    base: Directory,              // what is certainly on the disk
    journal: seq<Operation>,      // operations on `base` that are not flushed yet
    external: seq<External>,
    holder: Holder,
    deliveries: set<Delivery>,
    deletable: set<Document>,     // published by this process, entry not yet removed
    running: bool,
    staged: set<Document>,        // `stage` returned, with the directory flushed since the rename
    tentative: set<Document>)     // `stage` returned on an existing entry whose rename is unflushed

  const Empty := World(map[], map[], [], [], Free, {}, {}, false, {}, {})

  // ----- observations

  ghost predicate MediaStored(external: seq<External>, doc: Document, n: nat)
    requires n <= |doc.media|
  {
    forall i :: 0 <= i < n ==> Put(doc.media[i].key, doc.media[i].data) in external
  }

  /** The event was published after all its media had been put. */
  ghost predicate Delivered(external: seq<External>, doc: Document) {
    exists k :: 0 <= k < |external| && external[k] == Published(doc.event) && MediaStored(external[..k], doc, |doc.media|)
  }

  ghost predicate OnDisk(dir: Directory, doc: Document) {
    PathOf(doc) in dir && dir[PathOf(doc)] == File(doc, true)
  }

  predicate HasEvent(dir: Directory, id: string) {
    exists n :: n in dir && n.Entry? && n.id == id
  }

  ghost function Entries(dir: Directory): set<Name> {
    set n | n in dir && n.Entry?
  }

  ghost function SizeAt(dir: Directory, n: Name): nat
    requires n in dir
  {
    if n.Entry? then dir[n].data.size else 0
  }

  /** The bytes of all entries together. */
  ghost function Bytes(dir: Directory): nat
    decreases |dir|
  {
    if dir == map[] then 0
    else
      var n :| n in dir;
      SizeAt(dir, n) + Bytes(dir - {n})
  }

  lemma {:induction false} BytesSplit(dir: Directory, n: Name)
    requires n in dir
    ensures Bytes(dir) == SizeAt(dir, n) + Bytes(dir - {n})
    decreases |dir|
  {
    var m :| m in dir && Bytes(dir) == SizeAt(dir, m) + Bytes(dir - {m});
    if m != n {
      BytesSplit(dir - {m}, n);
      BytesSplit(dir - {n}, m);
      assert dir - {m} - {n} == dir - {n} - {m};
      assert SizeAt(dir - {m}, n) == SizeAt(dir, n) && SizeAt(dir - {n}, m) == SizeAt(dir, m);
    }
  }

  ghost predicate WithinLimits(limits: Limits, dir: Directory) {
    |Entries(dir)| <= limits.maximumEntries && Bytes(dir) <= limits.maximumBytes
  }

  /** Room for one more entry of the given size: the capacity tests of `_stage_sync`. */
  ghost predicate HasRoom(limits: Limits, dir: Directory, size: nat) {
    |Entries(dir)| < limits.maximumEntries && Bytes(dir) + size <= limits.maximumBytes && size <= limits.maximumEntryBytes
  }

  lemma TempsAreFree(dir: Directory, n: Name, file: File)
    requires n.Temp?
    ensures Bytes(dir[n := file]) == Bytes(dir) == Bytes(dir - {n})
    ensures Entries(dir[n := file]) == Entries(dir) == Entries(dir - {n})
  {
    BytesSplit(dir[n := file], n);
    assert dir[n := file] - {n} == dir - {n};
    if n in dir { BytesSplit(dir, n); } else { assert dir - {n} == dir; }
  }

  lemma EntryAdds(dir: Directory, n: Name, file: File)
    requires n.Entry? && n !in dir
    ensures Bytes(dir[n := file]) == Bytes(dir) + file.data.size
    ensures |Entries(dir[n := file])| == |Entries(dir)| + 1
  {
    BytesSplit(dir[n := file], n);
    assert dir[n := file] - {n} == dir;
    assert Entries(dir[n := file]) == Entries(dir) + {n};
  }

  lemma EntryRemoves(dir: Directory, n: Name)
    requires n.Entry? && n in dir
    ensures Bytes(dir - {n}) <= Bytes(dir)
    ensures |Entries(dir - {n})| <= |Entries(dir)|
  {
    BytesSplit(dir, n);
    assert Entries(dir - {n}) == Entries(dir) - {n};
  }

  // ----- the steps

  datatype Step =
    | WriteTemp(token: nat, doc: Document)
    | SyncFile
    | RenameTemp
    | SyncDirectory
    | FailSync
    | AbortStage(unlinked: bool)
    | AckExisting(doc: Document)
    | CleanTemp(token: nat)
    | Load(name: Name)
    | PutMedia(delivery: Delivery, acknowledged: bool)
    | Publish(delivery: Delivery, acknowledged: bool)
    | Abandon(delivery: Delivery)
    | UnlinkEntry(doc: Document)
    | Crash(keep: seq<bool>, garbage: Document)
    | Recover

  ghost predicate Enabled(limits: Limits, w: World, step: Step) {
    match step
    case WriteTemp(token, doc) =>
      w.running && w.holder.Free? && Temp(token) !in w.view && !HasEvent(w.view, doc.event.id) && HasRoom(limits, w.view, doc.size)
    case SyncFile => w.holder.Writing?
    case RenameTemp => w.holder.Flushed? && Temp(w.holder.token) in w.view
    case SyncDirectory => w.holder.Free? || w.holder.Renamed? || w.holder.Removed?
    case FailSync => w.holder.Renamed? || w.holder.Removed?
    case AbortStage(_) => w.holder.Writing? || w.holder.Flushed?
    case AckExisting(doc) => w.running && w.holder.Free? && PathOf(doc) in w.view && w.view[PathOf(doc)].data == doc
    case CleanTemp(token) => w.holder.Free? && Temp(token) in w.view
    case Load(name) => w.running && name.Entry? && name in w.view
    case PutMedia(delivery, _) => delivery in w.deliveries && delivery.done < |delivery.doc.media|
    case Publish(delivery, _) => delivery in w.deliveries && delivery.done == |delivery.doc.media|
    case Abandon(delivery) => delivery in w.deliveries
    case UnlinkEntry(doc) =>
      w.running && w.holder.Free? && doc in w.deletable && PathOf(doc) in w.view && w.view[PathOf(doc)].data == doc
    case Crash(keep, _) => |keep| == |w.journal|
    case Recover =>
      !w.running && w.holder.Free? && w.journal == [] && (forall n :: n in w.view ==> n.Entry?) && WithinLimits(limits, w.view)
  }

  function Do(w: World, op: Operation): World {
    w.(view := Apply(w.view, op), journal := w.journal + [op])
  }

  function Next(w: World, step: Step): World
    requires step.Crash? ==> |step.keep| == |w.journal|
    requires step.SyncFile? ==> w.holder.Writing?
    requires step.RenameTemp? ==> w.holder.Flushed? && Temp(w.holder.token) in w.view
    requires step.AbortStage? ==> w.holder.Writing? || w.holder.Flushed?
    requires step.Load? ==> step.name in w.view
    requires step.PutMedia? ==> step.delivery.done < |step.delivery.doc.media|
  {
    match step
    case WriteTemp(token, doc) => Do(w, Link(Temp(token), File(doc, false))).(holder := Writing(token, doc))
    case SyncFile =>
      w.(view := w.view[Temp(w.holder.token) := File(w.holder.doc, true)],
         journal := w.journal + [Link(Temp(w.holder.token), File(w.holder.doc, true))],
         holder := Flushed(w.holder.token, w.holder.doc))
    case RenameTemp =>
      Do(w, Rename(Temp(w.holder.token), PathOf(w.holder.doc), w.view[Temp(w.holder.token)])).(holder := Renamed(w.holder.doc))
    case SyncDirectory =>
      var durable := set d | d in w.tentative && PathOf(d) in w.view && w.view[PathOf(d)] == File(d, true);
      w.(base := w.view, journal := [], holder := Free,
         staged := w.staged + durable + (if w.holder.Renamed? then {w.holder.doc} else {}),
         tentative := w.tentative - durable)
    case FailSync => w.(holder := Free)
    case AbortStage(unlinked) =>
      (if unlinked then Do(w, Unlink(Temp(w.holder.token))) else w).(holder := Free)
    case AckExisting(doc) =>
      if Touches(w.journal, PathOf(doc)) then w.(tentative := w.tentative + {doc}) else w.(staged := w.staged + {doc})
    case CleanTemp(token) => Do(w, Unlink(Temp(token)))
    case Load(name) => w.(deliveries := w.deliveries + {Delivery(w.view[name].data, 0)})
    case PutMedia(delivery, acknowledged) =>
      var m := delivery.doc.media[delivery.done];
      var put := w.(external := w.external + [Put(m.key, m.data)]);
      if acknowledged then put.(deliveries := w.deliveries - {delivery} + {delivery.(done := delivery.done + 1)}) else put
    case Publish(delivery, acknowledged) =>
      var published := w.(external := w.external + [Published(delivery.doc.event)]);
      if acknowledged then published.(deliveries := w.deliveries - {delivery}, deletable := w.deletable + {delivery.doc}) else published
    case Abandon(delivery) => w.(deliveries := w.deliveries - {delivery})
    case UnlinkEntry(doc) => Do(w, Unlink(PathOf(doc))).(holder := Removed(doc))
    case Crash(keep, garbage) =>
      var dir := Torn(ApplyKept(w.base, w.journal, keep), garbage);
      w.(view := dir, base := dir, journal := [], holder := Free, deliveries := {}, deletable := {}, running := false)
    case Recover => w.(running := true)
  }

  // ----- the invariant

  /** The directory part: the view is the base plus the journal, entries are intact, and only
      delivered entries of the base have been touched since the last flush. */
  ghost predicate DiskOk(w: World) {
    && IntactDirectory(w.base) && IntactDirectory(w.view) && IntactJournal(w.journal)
    && w.view == ApplyKept(w.base, w.journal, Everything(w.journal))
    && forall n :: n in w.base && n.Entry? ==> !Touches(w.journal, n) || Delivered(w.external, w.base[n].data)
  }

  ghost predicate HolderOk(limits: Limits, w: World) {
    match w.holder
    case Free => true
    case Writing(token, doc) =>
      Temp(token) in w.view && w.view[Temp(token)].data == doc && !HasEvent(w.view, doc.event.id) && HasRoom(limits, w.view, doc.size)
    case Flushed(token, doc) =>
      Temp(token) in w.view && w.view[Temp(token)] == File(doc, true) && !HasEvent(w.view, doc.event.id) && HasRoom(limits, w.view, doc.size)
    case Renamed(doc) => OnDisk(w.view, doc)
    case Removed(doc) => Delivered(w.external, doc)
  }

  ghost predicate DeliveriesOk(w: World) {
    && (forall d :: d in w.deliveries ==> d.done <= |d.doc.media| && MediaStored(w.external, d.doc, d.done))
    && (forall doc :: doc in w.deletable ==> Delivered(w.external, doc))
  }

  /** A staged event is published after its media, or its intact entry is safely on the disk. */
  ghost predicate StagedOk(w: World) {
    forall doc :: doc in w.staged ==> Delivered(w.external, doc) || OnDisk(w.base, doc)
  }

  ghost predicate Inv(limits: Limits, w: World) {
    DiskOk(w) && HolderOk(limits, w) && DeliveriesOk(w) && StagedOk(w) && (w.running ==> WithinLimits(limits, w.view))
  }

  // ----- every step keeps the invariant

  lemma DeliveredStays(external: seq<External>, next: External, doc: Document)
    requires Delivered(external, doc)
    ensures Delivered(external + [next], doc)
  {
    var k :| 0 <= k < |external| && external[k] == Published(doc.event) && MediaStored(external[..k], doc, |doc.media|);
    assert (external + [next])[k] == external[k] && (external + [next])[..k] == external[..k];
  }

  lemma DoKeepsDisk(w: World, op: Operation)
    requires DiskOk(w)
    requires !op.Unlink? ==> Intact(op.name, op.file)
    requires op.Rename? ==> op.from.Temp?
    requires op.name.Entry? && op.name in w.view ==> Delivered(w.external, w.view[op.name].data)
    ensures DiskOk(Do(w, op))
  {
    var t := Do(w, op);
    KeepingOneMore(w.base, w.journal, op);
    assert forall k :: 0 <= k < |w.journal| ==> t.journal[k] == w.journal[k];
    forall n | n in t.base && n.Entry? ensures !Touches(t.journal, n) || Delivered(t.external, t.base[n].data) {
      if Touches(t.journal, n) && !Touches(w.journal, n) {
        assert n == op.name;
        UntouchedIsUnchanged(w.base, w.journal, Everything(w.journal), n);
      }
    }
  }

  lemma SyncFileKeepsDisk(w: World, token: nat, file: File)
    requires DiskOk(w)
    ensures DiskOk(w.(view := w.view[Temp(token) := file], journal := w.journal + [Link(Temp(token), file)]))
  {
    DoKeepsDisk(w, Link(Temp(token), file));
  }

  lemma FlushKeepsDisk(w: World)
    requires DiskOk(w)
    ensures DiskOk(w.(base := w.view, journal := []))
  {
  }

  lemma CrashKeepsDisk(w: World, keep: seq<bool>, garbage: Document)
    requires DiskOk(w) && |keep| == |w.journal|
    ensures DiskOk(Next(w, Crash(keep, garbage)))
  {
    CrashKeepsEntriesIntact(w.base, w.journal, keep);
    TearingKeepsEntries(ApplyKept(w.base, w.journal, keep), garbage);
  }

  /** An undelivered entry of the base is in the view and survives any crash. */
  lemma BaseEntryIsSafe(w: World, doc: Document, keep: seq<bool>, garbage: Document)
    requires DiskOk(w) && OnDisk(w.base, doc) && !Delivered(w.external, doc) && |keep| == |w.journal|
    ensures OnDisk(w.view, doc) && OnDisk(Next(w, Crash(keep, garbage)).base, doc)
  {
    UntouchedIsUnchanged(w.base, w.journal, Everything(w.journal), PathOf(doc));
    UntouchedIsUnchanged(w.base, w.journal, keep, PathOf(doc));
  }

  lemma StepKeepsDisk(limits: Limits, w: World, step: Step)
    requires Inv(limits, w) && Enabled(limits, w, step)
    ensures DiskOk(Next(w, step))
  {
    match step
    case WriteTemp(token, doc) => DoKeepsDisk(w, Link(Temp(token), File(doc, false)));
    case SyncFile => SyncFileKeepsDisk(w, w.holder.token, File(w.holder.doc, true));
    case RenameTemp => DoKeepsDisk(w, Rename(Temp(w.holder.token), PathOf(w.holder.doc), w.view[Temp(w.holder.token)]));
    case SyncDirectory => FlushKeepsDisk(w);
    case AbortStage(unlinked) => if unlinked { DoKeepsDisk(w, Unlink(Temp(w.holder.token))); }
    case CleanTemp(token) => DoKeepsDisk(w, Unlink(Temp(token)));
    case UnlinkEntry(doc) => DoKeepsDisk(w, Unlink(PathOf(doc)));
    case Crash(keep, garbage) => CrashKeepsDisk(w, keep, garbage);
    case PutMedia(delivery, _) => ExternalKeepsDisk(w, Next(w, step));
    case Publish(delivery, _) => ExternalKeepsDisk(w, Next(w, step));
    case _ =>
  }

  ghost predicate ExternalGrows(w: World, t: World) {
    |t.external| == |w.external| + 1 && t.external == w.external + [t.external[|w.external|]]
  }

  lemma ExternalKeepsDisk(w: World, t: World)
    requires DiskOk(w) && ExternalGrows(w, t) && t.view == w.view && t.base == w.base && t.journal == w.journal
    ensures DiskOk(t)
  {
    forall n | n in t.base && n.Entry? ensures !Touches(t.journal, n) || Delivered(t.external, t.base[n].data) {
      if Touches(t.journal, n) { DeliveredStays(w.external, t.external[|w.external|], w.base[n].data); }
    }
  }

  lemma StepKeepsStaged(limits: Limits, w: World, step: Step)
    requires Inv(limits, w) && Enabled(limits, w, step)
    ensures StagedOk(Next(w, step))
  {
    var t := Next(w, step);
    forall doc | doc in t.staged ensures Delivered(t.external, doc) || OnDisk(t.base, doc) {
      if doc in w.staged {
        if Delivered(w.external, doc) {
          if t.external != w.external { DeliveredStays(w.external, t.external[|w.external|], doc); }
        } else {
          match step
          case SyncDirectory => BaseEntryIsSafe(w, doc, Nothing(w.journal), doc);
          case Crash(keep, garbage) => BaseEntryIsSafe(w, doc, keep, garbage);
          case _ =>
        }
      } else if step.AckExisting? {
        UntouchedIsUnchanged(w.base, w.journal, Everything(w.journal), PathOf(doc));
      }
    }
  }

  lemma HolderStays(limits: Limits, w: World, t: World)
    requires HolderOk(limits, w) && t.holder == w.holder && t.view == w.view && (t.external == w.external || ExternalGrows(w, t))
    ensures HolderOk(limits, t)
  {
    if t.holder.Removed? && t.external != w.external {
      DeliveredStays(w.external, t.external[|w.external|], t.holder.doc);
    }
  }

  lemma StepKeepsHolder(limits: Limits, w: World, step: Step)
    requires Inv(limits, w) && Enabled(limits, w, step)
    ensures HolderOk(limits, Next(w, step))
  {
    match step
    case WriteTemp(token, doc) => TempsAreFree(w.view, Temp(token), File(doc, false));
    case SyncFile => TempsAreFree(w.view, Temp(w.holder.token), File(w.holder.doc, true));
    case PutMedia(_, _) => HolderStays(limits, w, Next(w, step));
    case Publish(_, _) => HolderStays(limits, w, Next(w, step));
    case Load(_) => HolderStays(limits, w, Next(w, step));
    case Abandon(_) => HolderStays(limits, w, Next(w, step));
    case _ =>
  }

  lemma StepKeepsMedia(limits: Limits, w: World, step: Step, d: Delivery)
    requires Inv(limits, w) && Enabled(limits, w, step) && d in Next(w, step).deliveries
    ensures d.done <= |d.doc.media| && MediaStored(Next(w, step).external, d.doc, d.done)
  {
    if d !in w.deliveries && step.PutMedia? {
      assert MediaStored(w.external, d.doc, step.delivery.done);
    }
  }

  lemma StepKeepsDeletable(limits: Limits, w: World, step: Step, doc: Document)
    requires Inv(limits, w) && Enabled(limits, w, step) && doc in Next(w, step).deletable
    ensures Delivered(Next(w, step).external, doc)
  {
    var t := Next(w, step);
    if doc in w.deletable {
      if t.external != w.external { DeliveredStays(w.external, t.external[|w.external|], doc); }
    } else {
      assert t.external[|w.external|] == Published(doc.event);
      assert t.external[..|w.external|] == w.external;
    }
  }

  lemma StepKeepsLimits(limits: Limits, w: World, step: Step)
    requires Inv(limits, w) && Enabled(limits, w, step) && Next(w, step).running
    ensures WithinLimits(limits, Next(w, step).view)
  {
    match step
    case WriteTemp(token, doc) => TempsAreFree(w.view, Temp(token), File(doc, false));
    case SyncFile => TempsAreFree(w.view, Temp(w.holder.token), File(w.holder.doc, true));
    case RenameTemp =>
      var temp := Temp(w.holder.token);
      TempsAreFree(w.view, temp, w.view[temp]);
      EntryAdds(w.view - {temp}, PathOf(w.holder.doc), w.view[temp]);
    case AbortStage(unlinked) => TempsAreFree(w.view, Temp(w.holder.token), File(w.holder.doc, true));
    case CleanTemp(token) => TempsAreFree(w.view, Temp(token), w.view[Temp(token)]);
    case UnlinkEntry(doc) => EntryRemoves(w.view, PathOf(doc));
    case _ =>
  }

  lemma StepKeepsInv(limits: Limits, w: World, step: Step)
    requires Inv(limits, w) && Enabled(limits, w, step)
    ensures Inv(limits, Next(w, step))
  {
    var t := Next(w, step);
    StepKeepsDisk(limits, w, step);
    StepKeepsHolder(limits, w, step);
    StepKeepsStaged(limits, w, step);
    if t.running { StepKeepsLimits(limits, w, step); }
    forall d | d in t.deliveries ensures d.done <= |d.doc.media| && MediaStored(t.external, d.doc, d.done) {
      StepKeepsMedia(limits, w, step, d);
    }
    forall doc | doc in t.deletable ensures Delivered(t.external, doc) {
      StepKeepsDeletable(limits, w, step, doc);
    }
  }

  // ----- whole runs

  ghost predicate IsRun(limits: Limits, w: World, steps: seq<Step>)
    requires Inv(limits, w)
    decreases |steps|
  {
    steps == [] || (Enabled(limits, w, steps[0]) && (StepKeepsInv(limits, w, steps[0]); IsRun(limits, Next(w, steps[0]), steps[1..])))
  }

  ghost function After(limits: Limits, w: World, steps: seq<Step>): World
    requires Inv(limits, w) && IsRun(limits, w, steps)
    decreases |steps|
  {
    if steps == [] then w
    else
      StepKeepsInv(limits, w, steps[0]);
      After(limits, Next(w, steps[0]), steps[1..])
  }

  lemma {:induction false} RunKeepsInv(limits: Limits, w: World, steps: seq<Step>)
    requires Inv(limits, w) && IsRun(limits, w, steps)
    ensures Inv(limits, After(limits, w, steps))
    ensures w.staged <= After(limits, w, steps).staged
    decreases |steps|
  {
    if steps != [] {
      StepKeepsInv(limits, w, steps[0]);
      RunKeepsInv(limits, Next(w, steps[0]), steps[1..]);
    }
  }

  lemma EmptyInv(limits: Limits)
    ensures Inv(limits, Empty)
  {
    assert Entries(Empty.view) == {};
  }

  /** `w` can be reached from the empty outbox. */
  ghost predicate Reachable(limits: Limits, w: World) {
    EmptyInv(limits);
    exists steps :: IsRun(limits, Empty, steps) && After(limits, Empty, steps) == w
  }

  lemma ReachableInv(limits: Limits, w: World)
    requires Reachable(limits, w)
    ensures Inv(limits, w)
  {
    EmptyInv(limits);
    var steps :| IsRun(limits, Empty, steps) && After(limits, Empty, steps) == w;
    RunKeepsInv(limits, Empty, steps);
  }

  lemma {:induction false} RunOfOneMore(limits: Limits, w: World, steps: seq<Step>, step: Step)
    requires Inv(limits, w) && IsRun(limits, w, steps) && Enabled(limits, After(limits, w, steps), step)
    requires Inv(limits, After(limits, w, steps))
    ensures IsRun(limits, w, steps + [step])
    ensures After(limits, w, steps + [step]) == Next(After(limits, w, steps), step)
    decreases |steps|
  {
    if steps == [] {
      assert ([] + [step])[1..] == [];
      StepKeepsInv(limits, w, step);
      assert IsRun(limits, Next(w, step), []);
      assert (steps + [step])[0] == step;
    } else {
      StepKeepsInv(limits, w, steps[0]);
      RunOfOneMore(limits, Next(w, steps[0]), steps[1..], step);
      assert (steps + [step])[1..] == steps[1..] + [step];
    }
  }

  lemma Advance(limits: Limits, w: World, step: Step) returns (t: World)
    requires Reachable(limits, w) && Enabled(limits, w, step)
    ensures Inv(limits, w) && t == Next(w, step) && Reachable(limits, t)
  {
    EmptyInv(limits);
    var steps :| IsRun(limits, Empty, steps) && After(limits, Empty, steps) == w;
    RunKeepsInv(limits, Empty, steps);
    RunOfOneMore(limits, Empty, steps, step);
    t := Next(w, step);
  }

  /** Crash safety: wherever a run of staging, delivery, removal, failures, crashes and restarts
      has led, a staged event has been published after its media were put, or its intact entry
      is in the directory now and after any crash. */
  lemma StagedEventsSurvive(limits: Limits, w: World, doc: Document, keep: seq<bool>, garbage: Document)
    requires Reachable(limits, w) && doc in w.staged && |keep| == |w.journal|
    ensures Delivered(w.external, doc) || (OnDisk(w.view, doc) && OnDisk(Next(w, Crash(keep, garbage)).view, doc))
  {
    ReachableInv(limits, w);
    if !Delivered(w.external, doc) {
      BaseEntryIsSafe(w, doc, keep, garbage);
    }
  }

  lemma EntryStays(limits: Limits, w: World, step: Step, name: Name)
    requires Inv(limits, w) && Enabled(limits, w, step) && !step.Crash?
    requires name.Entry? && name in w.view
    ensures Delivered(w.external, w.view[name].data) || (name in Next(w, step).view && Next(w, step).view[name] == w.view[name])
  {
    if step.RenameTemp? { assert name != PathOf(w.holder.doc); }
  }

  /** While the process runs, an entry disappears only after its event was delivered. */
  lemma EntriesLeaveAfterPublish(limits: Limits, w: World, step: Step, name: Name)
    requires Reachable(limits, w) && Enabled(limits, w, step) && !step.Crash?
    requires name.Entry? && name in w.view
    ensures Inv(limits, w)
    ensures Delivered(w.external, w.view[name].data) || (name in Next(w, step).view && Next(w, step).view[name] == w.view[name])
  {
    ReachableInv(limits, w);
    EntryStays(limits, w, step, name);
  }

  /** Whatever a crash leaves behind, every entry is flushed and carries its own name: recovery
      never meets a torn or misnamed entry. */
  lemma RecoveryFindsIntactEntries(limits: Limits, w: World, keep: seq<bool>, garbage: Document, name: Name)
    requires Reachable(limits, w) && |keep| == |w.journal|
    requires name.Entry? && name in Next(w, Crash(keep, garbage)).view
    ensures var file := Next(w, Crash(keep, garbage)).view[name]; file.synced && name == PathOf(file.data)
  {
    ReachableInv(limits, w);
    CrashKeepsDisk(w, keep, garbage);
  }

  /** Entry count and bytes stay within the limits whenever the process runs. */
  lemma CapacityHolds(limits: Limits, w: World)
    requires Reachable(limits, w) && w.running
    ensures |Entries(w.view)| <= limits.maximumEntries && Bytes(w.view) <= limits.maximumBytes
  {
    ReachableInv(limits, w);
  }

  // ----- the acknowledgement of an existing entry

  /** `stage` of an entry that already exists returns without flushing the directory. That is
      crash-safe exactly when the entry's rename is not still waiting for a flush, or the event
      has already been delivered. */
  lemma AckExistingIsDurableIff(limits: Limits, w: World, doc: Document)
    requires Reachable(limits, w) && Enabled(limits, w, AckExisting(doc))
    ensures (forall keep: seq<bool>, garbage {:trigger Crash(keep, garbage)} :: |keep| == |w.journal| ==>
              Delivered(w.external, doc) || OnDisk(Next(w, Crash(keep, garbage)).view, doc))
       <==> !Touches(w.journal, PathOf(doc)) || Delivered(w.external, doc)
  {
    ReachableInv(limits, w);
    if !Touches(w.journal, PathOf(doc)) {
      UntouchedIsUnchanged(w.base, w.journal, Everything(w.journal), PathOf(doc));
      forall keep: seq<bool>, garbage | |keep| == |w.journal| ensures OnDisk(Next(w, Crash(keep, garbage)).view, doc) {
        UntouchedIsUnchanged(w.base, w.journal, keep, PathOf(doc));
      }
    } else if !Delivered(w.external, doc) {
      KeepingNothing(w.base, w.journal);
      assert !OnDisk(Next(w, Crash(Nothing(w.journal), doc)).view, doc);
    }
  }

  /** One flush later the tentative acknowledgement is as good as any other: however the run goes
      on, and whatever a later crash keeps, the event is delivered or its intact entry is there. */
  lemma FlushConfirms(limits: Limits, w: World, doc: Document, steps: seq<Step>, keep: seq<bool>, garbage: Document)
    requires Reachable(limits, w) && Enabled(limits, w, SyncDirectory) && doc in w.tentative && OnDisk(w.view, doc)
    requires Inv(limits, Next(w, SyncDirectory)) && IsRun(limits, Next(w, SyncDirectory), steps)
    requires |keep| == |After(limits, Next(w, SyncDirectory), steps).journal|
    ensures var t := After(limits, Next(w, SyncDirectory), steps);
      Delivered(t.external, doc) || (OnDisk(t.view, doc) && OnDisk(Next(t, Crash(keep, garbage)).view, doc))
  {
    var t := After(limits, Next(w, SyncDirectory), steps);
    RunKeepsInv(limits, Next(w, SyncDirectory), steps);
    if !Delivered(t.external, doc) { BaseEntryIsSafe(t, doc, keep, garbage); }
  }

  /** The directory operations of staging `doc` in an empty outbox, up to the rename. */
  function StagingJournal(doc: Document): seq<Operation> {
    [Link(Temp(0), File(doc, false)), Link(Temp(0), File(doc, true)), Rename(Temp(0), PathOf(doc), File(doc, true))]
  }

  lemma FirstWrite(limits: Limits, doc: Document) returns (w: World)
    requires 1 <= limits.maximumEntries && doc.size <= limits.maximumBytes && doc.size <= limits.maximumEntryBytes
    ensures Reachable(limits, w)
    ensures w == Empty.(view := map[Temp(0) := File(doc, true)], journal := StagingJournal(doc)[..2], holder := Flushed(0, doc), running := true)
  {
    EmptyInv(limits);
    assert IsRun(limits, Empty, []) && After(limits, Empty, []) == Empty;
    w := Advance(limits, Empty, Recover);
    w := Advance(limits, w, WriteTemp(0, doc));
    w := Advance(limits, w, SyncFile);
  }

  lemma UnflushedRename(limits: Limits, doc: Document) returns (w: World)
    requires 1 <= limits.maximumEntries && doc.size <= limits.maximumBytes && doc.size <= limits.maximumEntryBytes
    ensures Reachable(limits, w)
    ensures w == Empty.(view := map[PathOf(doc) := File(doc, true)], journal := StagingJournal(doc), running := true)
  {
    w := FirstWrite(limits, doc);
    w := Advance(limits, w, RenameTemp);
    w := Advance(limits, w, FailSync);
  }

  /** The losing run: the rename succeeds, flushing the directory fails, the retry finds the
      entry and returns, and the crash forgets the rename. */
  lemma FailedFlushThenRetryLosesTheEvent(limits: Limits, doc: Document)
    requires 1 <= limits.maximumEntries && doc.size <= limits.maximumBytes && doc.size <= limits.maximumEntryBytes
    ensures exists w :: Reachable(limits, w) && doc in w.tentative && !Delivered(w.external, doc) && PathOf(doc) !in w.view
  {
    var w := UnflushedRename(limits, doc);
    assert StagingJournal(doc)[2].name == PathOf(doc);
    w := Advance(limits, w, AckExisting(doc));
    KeepingNothing(w.base, w.journal);
    w := Advance(limits, w, Crash(Nothing(w.journal), doc));
  }
}
