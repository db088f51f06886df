/** How much a crash of the outbox can leave behind (infrastructure/finalization_outbox.py).
    The capacity tests of `_stage_sync` look at the running directory, in which removals count
    as done before they are flushed. */
module OutboxCapacity {
  import opened OutboxDisk
  import opened OutboxProtocol

  // ----- directories that hold no more than another

  /** Every entry of `a` is one of `b`, where it is no smaller. */
  ghost predicate Below(a: Directory, b: Directory) {
    forall n :: n in a && n.Entry? ==> n in b && a[n].data.size <= b[n].data.size
  }

  lemma {:induction false} BelowHasFewerBytes(a: Directory, b: Directory)
    requires Below(a, b)
    ensures Bytes(a) <= Bytes(b)
    decreases |a|
  {
    if a != map[] {
      var n :| n in a;
      BytesSplit(a, n);
      if n.Entry? {
        BytesSplit(b, n);
        BelowHasFewerBytes(a - {n}, b - {n});
      } else {
        BelowHasFewerBytes(a - {n}, b);
      }
    }
  }

  lemma BelowHasFewerEntries(a: Directory, b: Directory)
    requires Below(a, b)
    ensures |Entries(a)| <= |Entries(b)|
  {
    assert Entries(a) <= Entries(b);
    assert Entries(b) == Entries(a) + (Entries(b) - Entries(a));
  }

  lemma TearingKeepsSizes(dir: Directory, garbage: Document)
    requires IntactDirectory(dir)
    ensures Below(dir, Torn(dir, garbage)) && Below(Torn(dir, garbage), dir)
  {
    TearingKeepsEntries(dir, garbage);
  }

  // ----- the footprint

  predicate Grows(dir: Directory, op: Operation) {
    !op.Unlink? && op.name.Entry? && (op.name in dir ==> dir[op.name].data.size < op.file.data.size)
  }

  /** The flushed directory with every unflushed removal ignored and every unflushed rename
      counted, where it makes an entry larger. */
  function Footprint(base: Directory, journal: seq<Operation>): Directory {
    if journal == [] then base
    else
      var n := |journal| - 1;
      var before := Footprint(base, journal[..n]);
      if Grows(before, journal[n]) then before[journal[n].name := journal[n].file] else before
  }

  /** The operations that survive when a crash leaves as much as it can. */
  function Heaviest(base: Directory, journal: seq<Operation>): (keep: seq<bool>)
    ensures |keep| == |journal|
  {
    if journal == [] then []
    else
      var n := |journal| - 1;
      Heaviest(base, journal[..n]) + [Grows(Footprint(base, journal[..n]), journal[n])]
  }

  lemma {:induction false} FootprintIsAnUpperBound(base: Directory, journal: seq<Operation>, keep: seq<bool>)
    requires |keep| == |journal|
    ensures Below(ApplyKept(base, journal, keep), Footprint(base, journal))
  {
    if journal != [] {
      var n := |journal| - 1;
      FootprintIsAnUpperBound(base, journal[..n], keep[..n]);
    }
  }

  lemma {:induction false} FootprintIsReached(base: Directory, journal: seq<Operation>)
    requires IntactJournal(journal)
    ensures Below(Footprint(base, journal), ApplyKept(base, journal, Heaviest(base, journal)))
    ensures Below(ApplyKept(base, journal, Heaviest(base, journal)), Footprint(base, journal))
  {
    if journal != [] {
      var n := |journal| - 1;
      FootprintIsReached(base, journal[..n]);
      assert Heaviest(base, journal)[..n] == Heaviest(base, journal[..n]);
    }
  }

  function RenamedTo(journal: seq<Operation>): set<Name> {
    set k | 0 <= k < |journal| && !journal[k].Unlink? && journal[k].name.Entry? :: journal[k].name
  }

  /** The footprint's names: those on the disk and those an unflushed rename puts there. */
  lemma {:induction false} FootprintNames(base: Directory, journal: seq<Operation>)
    ensures Entries(Footprint(base, journal)) == Entries(base) + RenamedTo(journal)
  {
    if journal != [] {
      var n := |journal| - 1;
      var op, before := journal[n], Footprint(base, journal[..n]);
      FootprintNames(base, journal[..n]);
      if !op.Unlink? && op.name.Entry? {
        assert RenamedTo(journal) == RenamedTo(journal[..n]) + {op.name};
        assert Entries(before[op.name := op.file]) == Entries(before) + {op.name};
        assert !Grows(before, op) ==> op.name in Entries(before);
      } else {
        assert RenamedTo(journal) == RenamedTo(journal[..n]);
      }
    }
  }

  // ----- crashes

  /** A crash leaves at most the footprint. */
  lemma CrashStaysBelow(w: World, keep: seq<bool>, garbage: Document)
    requires DiskOk(w) && |keep| == |w.journal|
    ensures Below(Next(w, Crash(keep, garbage)).view, Footprint(w.base, w.journal))
  {
    CrashKeepsEntriesIntact(w.base, w.journal, keep);
    TearingKeepsSizes(ApplyKept(w.base, w.journal, keep), garbage);
    FootprintIsAnUpperBound(w.base, w.journal, keep);
  }

  /** Some crash leaves all of the footprint. */
  lemma CrashReaches(w: World, garbage: Document)
    requires DiskOk(w)
    ensures Below(Footprint(w.base, w.journal), Next(w, Crash(Heaviest(w.base, w.journal), garbage)).view)
  {
    var keep := Heaviest(w.base, w.journal);
    CrashKeepsEntriesIntact(w.base, w.journal, keep);
    TearingKeepsSizes(ApplyKept(w.base, w.journal, keep), garbage);
    FootprintIsReached(w.base, w.journal);
  }

  /** The limits hold across every crash exactly when they hold for the footprint: when they
      leave room for the entries whose removal is not flushed. */
  lemma CrashKeepsLimitsIff(limits: Limits, w: World)
    requires Reachable(limits, w)
    ensures (forall keep: seq<bool>, garbage {:trigger Crash(keep, garbage)} :: |keep| == |w.journal| ==>
              |Entries(Next(w, Crash(keep, garbage)).view)| <= limits.maximumEntries)
       <==> |Entries(w.base) + RenamedTo(w.journal)| <= limits.maximumEntries
    ensures (forall keep: seq<bool>, garbage {:trigger Crash(keep, garbage)} :: |keep| == |w.journal| ==>
              Bytes(Next(w, Crash(keep, garbage)).view) <= limits.maximumBytes)
       <==> Bytes(Footprint(w.base, w.journal)) <= limits.maximumBytes
  {
    ReachableInv(limits, w);
    FootprintNames(w.base, w.journal);
    forall keep: seq<bool>, garbage | |keep| == |w.journal|
      ensures |Entries(Next(w, Crash(keep, garbage)).view)| <= |Entries(Footprint(w.base, w.journal))|
      ensures Bytes(Next(w, Crash(keep, garbage)).view) <= Bytes(Footprint(w.base, w.journal))
    {
      CrashStaysBelow(w, keep, garbage);
      BelowHasFewerEntries(Next(w, Crash(keep, garbage)).view, Footprint(w.base, w.journal));
      BelowHasFewerBytes(Next(w, Crash(keep, garbage)).view, Footprint(w.base, w.journal));
    }
    var garbage: Document :| true;
    var worst := Crash(Heaviest(w.base, w.journal), garbage);
    CrashReaches(w, garbage);
    BelowHasFewerEntries(Footprint(w.base, w.journal), Next(w, worst).view);
    BelowHasFewerBytes(Footprint(w.base, w.journal), Next(w, worst).view);
  }

  // ----- flushed removals

  predicate RemovesNoEntry(journal: seq<Operation>) {
    forall k :: 0 <= k < |journal| && journal[k].Unlink? ==> journal[k].name.Temp?
  }

  /** No unflushed rename met an entry of its name. */
  ghost predicate RenamesAreFresh(base: Directory, journal: seq<Operation>) {
    journal == [] ||
      var n := |journal| - 1;
      && RenamesAreFresh(base, journal[..n])
      && (!journal[n].Unlink? && journal[n].name.Entry? ==>
            journal[n].name !in ApplyKept(base, journal[..n], Everything(journal[..n])))
  }

  lemma DoKeepsFresh(w: World, op: Operation)
    requires DiskOk(w) && RenamesAreFresh(w.base, w.journal)
    requires !op.Unlink? && op.name.Entry? ==> op.name !in w.view
    ensures RenamesAreFresh(w.base, w.journal + [op])
  {
    assert (w.journal + [op])[..|w.journal|] == w.journal;
  }

  lemma StepKeepsFresh(limits: Limits, w: World, step: Step)
    requires Inv(limits, w) && Enabled(limits, w, step) && RenamesAreFresh(w.base, w.journal)
    ensures RenamesAreFresh(Next(w, step).base, Next(w, step).journal)
  {
    match step
    case WriteTemp(token, doc) => DoKeepsFresh(w, Link(Temp(token), File(doc, false)));
    case SyncFile => DoKeepsFresh(w, Link(Temp(w.holder.token), File(w.holder.doc, true)));
    case RenameTemp => DoKeepsFresh(w, Rename(Temp(w.holder.token), PathOf(w.holder.doc), w.view[Temp(w.holder.token)]));
    case AbortStage(unlinked) => DoKeepsFresh(w, Unlink(Temp(w.holder.token)));
    case CleanTemp(token) => DoKeepsFresh(w, Unlink(Temp(token)));
    case UnlinkEntry(doc) => DoKeepsFresh(w, Unlink(PathOf(doc)));
    case _ =>
  }

  lemma {:induction false} RunKeepsFresh(limits: Limits, w: World, steps: seq<Step>)
    requires Inv(limits, w) && IsRun(limits, w, steps) && RenamesAreFresh(w.base, w.journal)
    ensures RenamesAreFresh(After(limits, w, steps).base, After(limits, w, steps).journal)
    decreases |steps|
  {
    if steps != [] {
      StepKeepsInv(limits, w, steps[0]);
      StepKeepsFresh(limits, w, steps[0]);
      RunKeepsFresh(limits, Next(w, steps[0]), steps[1..]);
    }
  }

  lemma {:induction false} FootprintIsTheView(base: Directory, journal: seq<Operation>)
    requires IntactJournal(journal) && RemovesNoEntry(journal) && RenamesAreFresh(base, journal)
    ensures Below(Footprint(base, journal), ApplyKept(base, journal, Everything(journal)))
  {
    if journal != [] {
      var n := |journal| - 1;
      assert forall k :: 0 <= k < n ==> journal[..n][k] == journal[k];
      FootprintIsTheView(base, journal[..n]);
      assert Everything(journal)[..n] == Everything(journal[..n]);
    }
  }

  /** While no removal of an entry waits for a flush, no crash breaks the limits. */
  lemma FlushedRemovalsKeepLimits(limits: Limits, w: World, keep: seq<bool>, garbage: Document)
    requires Reachable(limits, w) && w.running && RemovesNoEntry(w.journal) && |keep| == |w.journal|
    ensures WithinLimits(limits, Next(w, Crash(keep, garbage)).view)
  {
    ReachableInv(limits, w);
    EmptyInv(limits);
    var steps :| IsRun(limits, Empty, steps) && After(limits, Empty, steps) == w;
    RunKeepsFresh(limits, Empty, steps);
    FootprintIsTheView(w.base, w.journal);
    CrashStaysBelow(w, keep, garbage);
    BelowHasFewerEntries(Next(w, Crash(keep, garbage)).view, Footprint(w.base, w.journal));
    BelowHasFewerEntries(Footprint(w.base, w.journal), w.view);
    BelowHasFewerBytes(Next(w, Crash(keep, garbage)).view, Footprint(w.base, w.journal));
    BelowHasFewerBytes(Footprint(w.base, w.journal), w.view);
  }

  // ----- a losing run

  /** Staging `doc` in a running outbox without other unflushed names, up to the rename. */
  lemma StagedUpToRename(limits: Limits, w: World, doc: Document) returns (t: World)
    requires Reachable(limits, w) && w.running && w.holder.Free? && Temp(0) !in w.view
    requires !HasEvent(w.view, doc.event.id) && HasRoom(limits, w.view, doc.size)
    ensures Reachable(limits, t)
    ensures t == w.(view := w.view[PathOf(doc) := File(doc, true)], journal := w.journal + StagingJournal(doc), holder := Renamed(doc))
  {
    t := Advance(limits, w, WriteTemp(0, doc));
    t := Advance(limits, t, SyncFile);
    t := Advance(limits, t, RenameTemp);
    assert t.view == w.view[PathOf(doc) := File(doc, true)];
    assert t.journal == w.journal + StagingJournal(doc);
  }

  lemma StagedAlone(limits: Limits, doc: Document) returns (w: World)
    requires 1 <= limits.maximumEntries && doc.size <= limits.maximumBytes && doc.size <= limits.maximumEntryBytes
    ensures Reachable(limits, w)
    ensures w == Empty.(view := map[PathOf(doc) := File(doc, true)], base := map[PathOf(doc) := File(doc, true)], running := true, staged := {doc})
  {
    EmptyInv(limits);
    assert IsRun(limits, Empty, []) && After(limits, Empty, []) == Empty;
    w := Advance(limits, Empty, Recover);
    w := StagedUpToRename(limits, w, doc);
    w := Advance(limits, w, SyncDirectory);
  }

  lemma PublishedAlone(limits: Limits, doc: Document) returns (w: World)
    requires 1 <= limits.maximumEntries && doc.size <= limits.maximumBytes && doc.size <= limits.maximumEntryBytes && doc.media == []
    ensures Reachable(limits, w) && w.running && w.holder.Free? && w.deletable == {doc} && w.journal == []
    ensures w.view == w.base == map[PathOf(doc) := File(doc, true)]
  {
    var delivery := Delivery(doc, 0);
    w := StagedAlone(limits, doc);
    w := Advance(limits, w, Load(PathOf(doc)));
    w := Advance(limits, w, Publish(delivery, true));
  }

  /** A document without media is staged and delivered, but flushing its removal fails. */
  lemma UnflushedRemoval(limits: Limits, doc: Document) returns (w: World)
    requires 1 <= limits.maximumEntries && doc.size <= limits.maximumBytes && doc.size <= limits.maximumEntryBytes && doc.media == []
    ensures Reachable(limits, w) && w.running && w.holder.Free?
    ensures w.view == map[] && w.base == map[PathOf(doc) := File(doc, true)] && w.journal == [Unlink(PathOf(doc))]
  {
    w := PublishedAlone(limits, doc);
    w := Advance(limits, w, UnlinkEntry(doc));
    w := Advance(limits, w, FailSync);
  }

  lemma RemovalLost(dir: Directory, removal: Operation, doc: Document)
    requires Temp(0) !in dir
    ensures ApplyKept(dir, [removal] + StagingJournal(doc), [false, true, true, true]) == dir[PathOf(doc) := File(doc, true)]
  {
    var journal, keep := [removal] + StagingJournal(doc), [false, true, true, true];
    assert journal[..3] == [removal] + StagingJournal(doc)[..2] && keep[..3] == [false, true, true];
    assert journal[..3][..2] == [removal] + StagingJournal(doc)[..1] && keep[..3][..2] == [false, true];
    assert journal[..3][..2][..1] == [removal] && keep[..3][..2][..1] == [false];
    assert ApplyKept(dir, [removal], [false]) == dir;
    assert ApplyKept(dir, journal[..3][..2], keep[..3][..2]) == dir[Temp(0) := File(doc, false)];
    assert ApplyKept(dir, journal[..3], keep[..3]) == dir[Temp(0) := File(doc, true)];
    assert dir[Temp(0) := File(doc, true)] - {Temp(0)} == dir;
  }

  /** The capacity tests look at the running view. A crash that loses an unflushed removal but
      keeps a later rename leaves more entries than the limit, and such a directory is refused
      at the next start. */
  lemma LostRemovalOverfills(limits: Limits, first: Document, second: Document)
    requires limits.maximumEntries == 1 && first.event.id != second.event.id && first.media == []
    requires first.size <= limits.maximumBytes && first.size <= limits.maximumEntryBytes
    requires second.size <= limits.maximumBytes && second.size <= limits.maximumEntryBytes
    ensures exists w :: Reachable(limits, w) && !w.running && |Entries(w.view)| > limits.maximumEntries
  {
    var w := UnflushedRemoval(limits, first);
    w := StagedUpToRename(limits, w, second);
    RemovalLost(w.base, Unlink(PathOf(first)), second);
    w := Advance(limits, w, Crash([false, true, true, true], first));
    assert Entries(w.view) == {PathOf(first), PathOf(second)};
  }
}
