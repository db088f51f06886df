/** The filesystem outbox object (infrastructure/finalization_outbox.py). Every system call it
    makes is one enabled step of the protocol, so each of its states is a reachable one. */
module FinalizationOutbox {
  import opened EntryNames
  import opened FinalizationUnits
  import opened OutboxDisk
  import opened OutboxProtocol

  datatype StageResult = Staged | Existing | TooLarge | EntriesFull | BytesFull | Mismatch | Retryable

  datatype StartResult = Ready | TooManyEntries | TooManyBytes | ScanFailed

  datatype Outcome = Done | Deferred | Corrupt

  /** A call of `_stage_sync`; `token` is the random part of its temporary file's name. */
  datatype Staging = Staging(doc: Document, token: nat)

  /** The stage calls that run before an entry is loaded, while it is delivered, and before it is removed. */
  datatype Calls = Calls(between: seq<Staging>, during: seq<Staging>, after: seq<Staging>)

  function EntriesOf(dir: Directory): Directory {
    map n | n in dir && n.Entry? :: dir[n]
  }

  ghost function TotalSize(dir: Directory, names: seq<Name>): nat
    requires forall i :: 0 <= i < |names| ==> names[i] in dir
  {
    if names == [] then 0
    else TotalSize(dir, names[..|names| - 1]) + dir[names[|names| - 1]].data.size
  }

  lemma {:induction false} SameSizes(dir: Directory, smaller: Directory, names: seq<Name>)
    requires forall i :: 0 <= i < |names| ==> names[i] in dir && names[i] in smaller && smaller[names[i]] == dir[names[i]]
    ensures TotalSize(smaller, names) == TotalSize(dir, names)
  {
    if names != [] { SameSizes(dir, smaller, names[..|names| - 1]); }
  }

  /** A listing names exactly the entries of a directory, without repetitions. */
  ghost predicate IsListing(names: seq<Name>, dir: Directory) {
    && (forall i :: 0 <= i < |names| ==> names[i].Entry?)
    && (forall i, j :: 0 <= i < j < |names| ==> names[i] != names[j])
    && (forall n :: n in names <==> n in dir)
  }

  lemma ShorterListing(names: seq<Name>, dir: Directory)
    requires IsListing(names, dir) && names != []
    ensures IsListing(names[..|names| - 1], dir - {names[|names| - 1]})
  {
    var rest, last := names[..|names| - 1], names[|names| - 1];
    forall n ensures n in rest <==> n in dir - {last} {
      if n in rest {
        var i :| 0 <= i < |rest| && rest[i] == n;
        assert names[i] in names && names[i] != names[|names| - 1];
      }
      if n in dir - {last} { assert n in names; }
    }
  }

  /** Summing over a listing without repetitions gives the bytes of the directory. */
  lemma {:induction false} ListingIsTotal(dir: Directory, names: seq<Name>)
    requires IsListing(names, dir)
    ensures TotalSize(dir, names) == Bytes(dir) && |names| == |dir.Keys|
  {
    if names == [] {
      assert dir == map[];
    } else {
      var rest, last := names[..|names| - 1], names[|names| - 1];
      ShorterListing(names, dir);
      ListingIsTotal(dir - {last}, rest);
      WithoutLast(dir, names);
      OneMoreEntry(dir, last);
    }
  }

  lemma WithoutLast(dir: Directory, names: seq<Name>)
    requires IsListing(names, dir) && names != [] && IsListing(names[..|names| - 1], dir - {names[|names| - 1]})
    ensures var last := names[|names| - 1];
      TotalSize(dir, names) == TotalSize(dir - {last}, names[..|names| - 1]) + SizeAt(dir, last)
  {
    SameSizes(dir, dir - {names[|names| - 1]}, names[..|names| - 1]);
  }

  lemma OneMoreEntry(dir: Directory, last: Name)
    requires last in dir
    ensures Bytes(dir) == SizeAt(dir, last) + Bytes(dir - {last}) && |dir.Keys| == |(dir - {last}).Keys| + 1
  {
    BytesSplit(dir, last);
    assert (dir - {last}).Keys == dir.Keys - {last};
  }

  lemma ListedUsage(dir: Directory, names: seq<Name>)
    requires IsListing(names, dir)
    ensures TotalSize(dir, names) == Bytes(dir) && |names| == |Entries(dir)|
  {
    ListingIsTotal(dir, names);
    assert forall n :: n in dir ==> n in names && n.Entry?;
    assert Entries(dir) == dir.Keys;
  }

  /** What one delivery sends: all media in order, then the event. */
  ghost function Script(doc: Document): seq<External> {
    seq(|doc.media|, i requires 0 <= i < |doc.media| => Put(doc.media[i].key, doc.media[i].data)) + [Published(doc.event)]
  }

  ghost function Scripts(dir: Directory, names: seq<Name>): seq<External>
    requires forall i :: 0 <= i < |names| ==> names[i] in dir
  {
    if names == [] then []
    else Scripts(dir, names[..|names| - 1]) + Script(dir[names[|names| - 1]].data)
  }

  /** No entry of `before` is lost or changed. */
  ghost predicate Keeps(before: Directory, now: Directory) {
    forall n :: n in before && n.Entry? ==> n in now && now[n] == before[n]
  }

  predicate Arrives(n: Name, stagings: seq<Staging>) {
    exists k :: 0 <= k < |stagings| && PathOf(stagings[k].doc) == n
  }

  /** Every entry of `now` that `before` lacks belongs to one of the stage calls. */
  ghost predicate OnlyArrivals(before: Directory, now: Directory, stagings: seq<Staging>) {
    forall n :: n in now && n.Entry? && n !in before ==> Arrives(n, stagings)
  }

  /** The entry is staged by one of the first `k` rounds of stage calls. */
  ghost predicate Arrived(n: Name, calls: nat -> Calls, k: nat) {
    exists i :: 0 <= i < k && ArrivesIn(n, calls(i))
  }

  ghost predicate ArrivesIn(n: Name, c: Calls) {
    Arrives(n, c.between) || Arrives(n, c.during) || Arrives(n, c.after)
  }

  /** One delivery takes out at most its own entry; whatever is new was staged meanwhile. */
  ghost predicate TakesOne(before: Directory, now: Directory, name: Name, c: Calls) {
    && (forall n :: n in before && n.Entry? && n != name ==> n in now && now[n] == before[n])
    && (name in now && name in before ==> now[name] == before[name])
    && (forall n :: n in now && n.Entry? && n !in before ==> ArrivesIn(n, c))
  }

  lemma StagedOnly(before: Directory, now: Directory, doc: Document)
    requires EntriesOf(now) == EntriesOf(before) || (PathOf(doc) !in before && EntriesOf(now) == EntriesOf(before)[PathOf(doc) := File(doc, true)])
    ensures Keeps(before, now) && forall n :: n in now && n.Entry? && n !in before ==> n == PathOf(doc)
  {
    assert forall n: Name :: n.Entry? ==> (n in before <==> n in EntriesOf(before)) && (n in now <==> n in EntriesOf(now));
    assert forall n :: n in before && n.Entry? ==> EntriesOf(before)[n] == before[n];
    assert forall n :: n in now && n.Entry? ==> EntriesOf(now)[n] == now[n];
  }

  lemma ArrivalsGrow(before: Directory, between: Directory, now: Directory, stagings: seq<Staging>, k: nat)
    requires k < |stagings| && OnlyArrivals(before, between, stagings[..k])
    requires forall n :: n in now && n.Entry? && n !in between ==> n == PathOf(stagings[k].doc)
    ensures OnlyArrivals(before, now, stagings[..k + 1])
  {
    forall n | n in now && n.Entry? && n !in before ensures Arrives(n, stagings[..k + 1]) {
      if n in between {
        var i :| 0 <= i < k && PathOf(stagings[..k][i].doc) == n;
        assert stagings[..k + 1][i] == stagings[i];
      } else {
        assert stagings[..k + 1][k] == stagings[k];
      }
    }
  }

  class FilesystemOutbox {
    const limits: Limits
    const digest: string -> string  // the hexadecimal digest of an id
    const text: Name -> string      // the file name of an entry
    var world: World

    ghost predicate Valid()
      reads this
    {
      Reachable(limits, world)
    }

    /** Between two calls: no system call and no delivery is in flight. */
    ghost predicate Idle()
      reads this
    {
      Valid() && world.holder.Free? && world.deliveries == {}
    }

    constructor (limits: Limits, digest: string -> string)
      ensures Valid() && world == Empty && this.limits == limits && this.digest == digest && NamesAreFileNames()
    {
      this.limits, this.digest := limits, digest;
      text := (n: Name) => if n.Entry? then FileName(n.occurredAt, digest(n.id)) else "";
      world := Empty;
      new;
      EmptyInv(limits);
      assert IsRun(limits, Empty, []) && After(limits, Empty, []) == Empty;
    }

    /** One system call or external effect. */
    method Perform(step: Step)
      requires Valid() && Enabled(limits, world, step)
      modifies this`world
      ensures Valid() && world == Next(old(world), step)
    {
      ghost var t := Advance(limits, world, step);
      world := Next(world, step);
    }

    // ----- scanning the directory

    ghost predicate NamesAreFileNames() {
      forall n: Name :: n.Entry? ==> text(n) == FileName(n.occurredAt, digest(n.id))
    }

    /** The order in which the listing sorts file names. */
    predicate NotAfter(n: Name, m: Name) {
      !Less(text(m), text(n))
    }

    lemma NotAfterIsTotal(n: Name, m: Name)
      ensures NotAfter(n, m) || NotAfter(m, n)
      ensures NotAfter(n, n)
    {
      LessIsTotal(text(n), text(m));
      LessIsStrict(text(n));
    }

    lemma NotAfterIsTransitive(n: Name, m: Name, k: Name)
      requires NotAfter(n, m) && NotAfter(m, k)
      ensures NotAfter(n, k)
    {
      LessIsTotal(text(n), text(m));
      if Less(text(k), text(n)) && text(n) != text(m) { LessIsTransitive(text(k), text(n), text(m)); }
    }

    ghost predicate Sorted(names: seq<Name>) {
      && (forall i :: 0 <= i < |names| ==> names[i].Entry?)
      && (forall i, j :: 0 <= i < j < |names| ==> names[i] != names[j] && NotAfter(names[i], names[j]))
    }

    /** File-name order is chronological, then by digest. */
    lemma SortedIsChronological(names: seq<Name>, i: nat, j: nat)
      requires NamesAreFileNames() && Sorted(names) && i < j < |names|
      requires EntryNames.Valid(names[i].occurredAt) && EntryNames.Valid(names[j].occurredAt)
      requires |digest(names[i].id)| == |digest(names[j].id)|
      ensures Before(names[i].occurredAt, names[j].occurredAt)
              || (names[i].occurredAt == names[j].occurredAt && !Less(digest(names[j].id), digest(names[i].id)))
    {
      var n, m := names[i], names[j];
      FileNameOrder(m.occurredAt, n.occurredAt, digest(m.id), digest(n.id));
      TimestampOrder(n.occurredAt, m.occurredAt);
      TimestampOrder(m.occurredAt, n.occurredAt);
      LessIsTotal(Timestamp(n.occurredAt), Timestamp(m.occurredAt));
    }

    ghost predicate Lists(names: seq<Name>, dir: Directory) {
      forall n :: n in names <==> n in dir
    }

    method First(names: set<Name>) returns (first: Name)
      requires names != {} && forall n :: n in names ==> n.Entry?
      ensures first in names && forall n :: n in names ==> NotAfter(first, n)
    {
      first :| first in names;
      var rest := names - {first};
      NotAfterIsTotal(first, first);
      while rest != {}
        invariant first in names && rest <= names && NotAfter(first, first)
        invariant forall n :: n in names - rest ==> NotAfter(first, n)
        decreases |rest|
      {
        var n :| n in rest;
        ghost var before := first;
        NotAfterIsTotal(first, n);
        if !NotAfter(first, n) { first := n; }
        forall m | m in names - (rest - {n}) ensures NotAfter(first, m) {
          if m == n { NotAfterIsTotal(n, n); } else { NotAfterIsTransitive(first, before, m); }
        }
        rest := rest - {n};
      }
    }

    /** Entry names in file-name order: chronological, then by digest. */
    method InNameOrder(entries: set<Name>) returns (names: seq<Name>)
      requires forall n :: n in entries ==> n.Entry?
      ensures Sorted(names) && forall n :: n in names <==> n in entries
    {
      names := [];
      var rest := entries;
      while rest != {}
        invariant rest <= entries && Sorted(names)
        invariant forall n :: n in names <==> n in entries - rest
        invariant forall n, m :: n in names && m in rest ==> NotAfter(n, m)
        decreases |rest|
      {
        var next := First(rest);
        assert forall i :: 0 <= i < |names| ==> names[i] in names;
        names := names + [next];
        rest := rest - {next};
      }
    }

    /** What a scan may change: temporary files go, a flush may confirm acknowledgements. */
    ghost predicate OnlyCleaned(w: World, t: World) {
      && EntriesOf(t.view) == EntriesOf(w.view)
      && t.holder.Free? && t.running == w.running
      && t.external == w.external && t.deliveries == w.deliveries && t.deletable == w.deletable
      && w.staged <= t.staged && w.staged + w.tentative <= t.staged + t.tentative
    }

    /** Unlinks the temporary files one by one; each unlink may fail. */
    method RemoveTemporary() returns (ok: bool)
      requires Valid() && world.holder.Free?
      modifies this`world
      ensures Valid() && world == old(world).(view := world.view, journal := world.journal)
      ensures EntriesOf(world.view) == EntriesOf(old(world.view))
      ensures ok ==> forall n :: n in world.view ==> n.Entry?
    {
      var left := set n | n in world.view && n.Temp?;
      while left != {}
        invariant Valid() && world.holder.Free?
        invariant left == set n | n in world.view && n.Temp?
        invariant EntriesOf(world.view) == EntriesOf(old(world.view))
        invariant world == old(world).(view := world.view, journal := world.journal)
        decreases |left|
      {
        var failed: bool := *;
        if failed { return false; }
        var n :| n in left;
        Perform(CleanTemp(n.token));
        left := left - {n};
      }
      forall n | n in world.view ensures n.Entry? { assert n !in left; }
      ok := true;
    }

    /** `_entry_paths_locked`: removes abandoned temporary files, then lists the entries. */
    method EntryPathsLocked() returns (ok: bool, names: seq<Name>)
      requires Valid() && world.holder.Free?
      modifies this`world
      ensures Valid() && OnlyCleaned(old(world), world) && (!ok ==> names == [])
      ensures ok ==> Sorted(names) && Lists(names, world.view) && Lists(names, EntriesOf(old(world.view)))
    {
      names := [];
      var temporary := set n | n in world.view && n.Temp?;
      if temporary != {} {
        ok := RemoveTemporary();
        var failed: bool := *;
        if !ok || failed { return false, []; }
        Perform(SyncDirectory);
      } else {
        forall n | n in world.view ensures n.Entry? { assert n !in temporary; }
      }
      names := InNameOrder(world.view.Keys);
      ok := true;
    }

    // ----- staging

    /** `n` is the first name of the listing that carries the event's digest. */
    ghost predicate IsFirst(n: Name, names: seq<Name>, id: string) {
      && n in names && n.Entry? && n.id == id
      && forall m :: m in names && m.Entry? && m.id == id ==> NotAfter(n, m)
    }

    /** The first entry whose name carries the event's digest. */
    method FindEvent(names: seq<Name>, id: string) returns (found: seq<Name>)
      requires Sorted(names)
      ensures found == [] <==> forall n :: n in names ==> n.id != id
      ensures found != [] ==> |found| == 1 && IsFirst(found[0], names, id)
    {
      found := [];
      for k := 0 to |names|
        invariant forall i :: 0 <= i < k ==> names[i].id != id
      {
        if names[k].id == id {
          NotAfterIsTotal(names[k], names[k]);
          return [names[k]];
        }
      }
    }

    method Usage(names: seq<Name>) returns (total: nat)
      requires Sorted(names) && forall n :: n in names <==> n in world.view
      ensures total == Bytes(world.view) && |names| == |Entries(world.view)|
    {
      total := 0;
      for k := 0 to |names|
        invariant total == TotalSize(world.view, names[..k])
      {
        assert names[..k + 1][..k] == names[..k];
        total := total + world.view[names[k]].data.size;
      }
      assert names[..|names|] == names;
      ListedUsage(world.view, names);
    }

    /** Writes and flushes the temporary file; on a failure it is removed if that works. */
    method WriteTemporary(doc: Document, token: nat) returns (ok: bool)
      requires Valid() && world.running && world.holder.Free? && !HasEvent(world.view, doc.event.id)
      requires HasRoom(limits, world.view, doc.size) && Temp(token) !in world.view
      modifies this`world
      ensures Valid() && world == old(world).(view := world.view, journal := world.journal, holder := world.holder)
      ensures EntriesOf(world.view) == EntriesOf(old(world.view))
      ensures world.holder == if ok then Flushed(token, doc) else Free
      ensures ok ==> world.view == old(world.view)[Temp(token) := File(doc, true)]
    {
      var failed: bool := *;
      if failed { return false; }
      Perform(WriteTemp(token, doc));
      failed := *;
      if !failed {
        Perform(SyncFile);
        failed := *;
      }
      if failed {
        var unlinked: bool := *;
        Perform(AbortStage(unlinked));
      }
      ok := !failed;
    }

    /** Renames the temporary file and flushes the directory. */
    method Commit() returns (ok: bool)
      requires Valid() && world.holder.Flushed? && Temp(world.holder.token) in world.view
      requires world.view[Temp(world.holder.token)] == File(world.holder.doc, true)
      modifies this`world
      ensures Valid() && world.holder.Free? && world.external == old(world.external) && world.running == old(world.running)
      ensures world.deliveries == old(world.deliveries) && world.deletable == old(world.deletable)
      ensures var doc := old(world.holder.doc);
        && EntriesOf(world.view) == EntriesOf(old(world.view))[PathOf(doc) := File(doc, true)]
        && old(world.staged) <= world.staged && (ok ==> doc in world.staged)
    {
      var failed: bool := *;
      Perform(RenameTemp);
      if failed {
        Perform(FailSync);
      } else {
        Perform(SyncDirectory);
      }
      ok := !failed;
    }

    /** The part of `_stage_sync` for an event that has no entry yet. */
    method StageNew(doc: Document, token: nat, names: seq<Name>) returns (result: StageResult)
      requires Valid() && world.holder.Free? && world.running && Temp(token) !in world.view && doc.size <= limits.maximumEntryBytes
      requires Sorted(names) && Lists(names, world.view) && forall n :: n in names ==> n.id != doc.event.id
      modifies this`world
      ensures Valid() && world.holder.Free? && world.running && world.external == old(world.external)
      ensures world.deliveries == old(world.deliveries) && world.deletable == old(world.deletable)
      ensures old(world.staged) <= world.staged && (result == Staged ==> doc in world.staged)
      ensures result in {Staged, Retryable, EntriesFull, BytesFull}
      ensures result == EntriesFull <==> |names| >= limits.maximumEntries
      ensures result == BytesFull <==> |names| < limits.maximumEntries && Bytes(old(world.view)) + doc.size > limits.maximumBytes
      ensures result in {EntriesFull, BytesFull} ==> world == old(world)
      ensures result == Staged ==> EntriesOf(world.view) == EntriesOf(old(world.view))[PathOf(doc) := File(doc, true)]
      ensures result == Retryable ==> EntriesOf(world.view) == EntriesOf(old(world.view))
                                      || EntriesOf(world.view) == EntriesOf(old(world.view))[PathOf(doc) := File(doc, true)]
      ensures PathOf(doc) !in old(world.view)
    {
      assert PathOf(doc) !in names;
      var total := Usage(names);
      if |names| >= limits.maximumEntries { return EntriesFull; }
      if total + doc.size > limits.maximumBytes { return BytesFull; }
      var ok := WriteTemporary(doc, token);
      if ok { ok := Commit(); }
      result := if ok then Staged else Retryable;
    }

    /** `_stage_sync`, also while an entry is being delivered. */
    method StageSync(doc: Document, token: nat) returns (result: StageResult, names: seq<Name>)
      requires Valid() && world.holder.Free? && world.running && Temp(token) !in world.view
      modifies this`world
      ensures Valid() && world.holder.Free? && world.running && world.external == old(world.external)
      ensures world.deliveries == old(world.deliveries) && world.deletable == old(world.deletable)
      ensures old(world.staged) <= world.staged && (result == Staged ==> doc in world.staged)
      ensures result == TooLarge <==> doc.size > limits.maximumEntryBytes
      ensures result !in {TooLarge, Retryable} ==> Sorted(names) && Lists(names, EntriesOf(old(world.view)))
      ensures result == Existing ==>
        && IsFirst(PathOf(doc), names, doc.event.id)
        && EntriesOf(old(world.view))[PathOf(doc)].data == doc && doc in world.staged + world.tentative
      ensures result == Mismatch ==> exists n ::
        && IsFirst(n, names, doc.event.id)
        && (n != PathOf(doc) || EntriesOf(old(world.view))[n].data != doc)
      ensures result in {EntriesFull, BytesFull, Staged} ==> forall n :: n in names ==> n.id != doc.event.id
      ensures result == EntriesFull ==> |names| >= limits.maximumEntries
      ensures result == BytesFull ==> |names| < limits.maximumEntries && Bytes(EntriesOf(old(world.view))) + doc.size > limits.maximumBytes
      ensures result == Staged ==> |names| < limits.maximumEntries && Bytes(EntriesOf(old(world.view))) + doc.size <= limits.maximumBytes
      ensures result == Staged ==> EntriesOf(world.view) == EntriesOf(old(world.view))[PathOf(doc) := File(doc, true)]
      ensures result !in {Staged, Retryable} ==> EntriesOf(world.view) == EntriesOf(old(world.view))
      ensures result == Retryable ==> EntriesOf(world.view) == EntriesOf(old(world.view))
                                      || EntriesOf(world.view) == EntriesOf(old(world.view))[PathOf(doc) := File(doc, true)]
      ensures EntriesOf(world.view) == EntriesOf(old(world.view)) || PathOf(doc) !in old(world.view)
    {
      names := [];
      if doc.size > limits.maximumEntryBytes { return TooLarge, []; }
      var ok;
      ok, names := EntryPathsLocked();
      if !ok { return Retryable, []; }
      assert world.view == EntriesOf(old(world.view));
      var found := FindEvent(names, doc.event.id);
      if found != [] {
        if found[0] != PathOf(doc) || world.view[found[0]].data != doc { return Mismatch, names; }
        Perform(AckExisting(doc));
        return Existing, names;
      }
      result := StageNew(doc, token, names);
    }

    /** Stage calls that run one after the other lose and change no entry. */
    method StageAll(stagings: seq<Staging>)
      requires Valid() && world.holder.Free? && world.running
      modifies this`world
      ensures Valid() && world.holder.Free? && world.running && world.external == old(world.external)
      ensures world.deliveries == old(world.deliveries) && world.deletable == old(world.deletable)
      ensures Keeps(old(world.view), world.view) && OnlyArrivals(old(world.view), world.view, stagings)
    {
      for k := 0 to |stagings|
        invariant Valid() && world.holder.Free? && world.running && world.external == old(world.external)
        invariant world.deliveries == old(world.deliveries) && world.deletable == old(world.deletable)
        invariant Keeps(old(world.view), world.view) && OnlyArrivals(old(world.view), world.view, stagings[..k])
      {
        ghost var between := world.view;
        if Temp(stagings[k].token) !in world.view { StageOne(stagings[k]); }
        ArrivalsGrow(old(world.view), between, world.view, stagings, k);
      }
      assert stagings[..|stagings|] == stagings;
    }

    method StageOne(s: Staging)
      requires Valid() && world.holder.Free? && world.running && Temp(s.token) !in world.view
      modifies this`world
      ensures Valid() && world.holder.Free? && world.running && world.external == old(world.external)
      ensures world.deliveries == old(world.deliveries) && world.deletable == old(world.deletable)
      ensures Keeps(old(world.view), world.view)
      ensures forall n :: n in world.view && n.Entry? && n !in old(world.view) ==> n == PathOf(s.doc)
    {
      var result, _ := StageSync(s.doc, s.token);
      StagedOnly(old(world.view), world.view, s.doc);
    }

    // ----- delivery

    method RemoveEntrySync(doc: Document) returns (outcome: Outcome)
      requires Idle() && world.running && doc in world.deletable
      modifies this`world
      ensures Idle() && world.running && world.external == old(world.external)
      ensures outcome == Corrupt <==> PathOf(doc) in old(world.view) && old(world.view)[PathOf(doc)].data != doc
      ensures world.view == old(world.view) || world.view == old(world.view) - {PathOf(doc)}
      ensures outcome == Done ==> PathOf(doc) !in world.view
    {
      if PathOf(doc) !in world.view { return Done; }
      if world.view[PathOf(doc)].data != doc { return Corrupt; }
      var failed: bool := *;
      if failed { return Deferred; }
      Perform(UnlinkEntry(doc));
      failed := *;
      if failed {
        Perform(FailSync);
        return Deferred;
      }
      Perform(SyncDirectory);
      outcome := Done;
    }

    /** Puts the media one by one. A put may fail, with or without having stored the object. */
    method SendMedia(doc: Document) returns (ok: bool, ghost sent: nat)
      requires Valid() && world.running && world.deliveries == {Delivery(doc, 0)}
      modifies this`world
      ensures Valid() && world == old(world).(external := world.external, deliveries := world.deliveries)
      ensures sent <= |doc.media| && world.external == old(world.external) + Script(doc)[..sent]
      ensures world.deliveries == if ok then {Delivery(doc, |doc.media|)} else {}
      ensures ok ==> sent == |doc.media|
    {
      sent := 0;
      var next := 0;
      while next < |doc.media|
        invariant Valid() && world == old(world).(external := world.external, deliveries := {Delivery(doc, next)})
        invariant sent == next <= |doc.media| && world.external == old(world.external) + Script(doc)[..sent]
      {
        var reached: bool, acknowledged: bool := *, *;
        if reached {
          Perform(PutMedia(Delivery(doc, next), acknowledged));
          sent := sent + 1;
        }
        if !reached || !acknowledged {
          Perform(Abandon(Delivery(doc, next)));
          return false, sent;
        }
        next := next + 1;
      }
      ok := true;
    }

    /** The media and the event of a loaded entry. */
    method Send(doc: Document) returns (ok: bool, ghost sent: nat)
      requires Valid() && world.running && world.deliveries == {Delivery(doc, 0)}
      modifies this`world
      ensures Valid() && world == old(world).(external := world.external, deliveries := {}, deletable := world.deletable)
      ensures sent <= |Script(doc)| && world.external == old(world.external) + Script(doc)[..sent]
      ensures ok ==> sent == |Script(doc)| && doc in world.deletable
    {
      ok, sent := SendMedia(doc);
      if !ok { return; }
      var reached: bool, acknowledged: bool := *, *;
      if reached {
        Perform(Publish(Delivery(doc, |doc.media|), acknowledged));
        sent := sent + 1;
      }
      ok := reached && acknowledged;
      if !ok { Perform(Abandon(Delivery(doc, |doc.media|))); }
    }

    /** `_deliver`: puts the media, publishes, removes the entry. What was sent is always a
        prefix of the script, and the entry goes only after the whole script. Stage calls may
        run before it is loaded, between loading and sending, and before it is removed; one that
        overlaps the sending changes nothing for it. */
    method Deliver(name: Name, calls: Calls) returns (outcome: Outcome, ghost sent: nat)
      requires Idle() && world.running && name.Entry? && name in world.view
      modifies this`world
      ensures Idle() && world.running && outcome != Corrupt
      ensures TakesOne(old(world.view), world.view, name, calls)
      ensures var doc := old(world.view)[name].data;
        && sent <= |Script(doc)| && world.external == old(world.external) + Script(doc)[..sent]
        && (name !in world.view ==> sent == |Script(doc)|)
      ensures outcome == Done ==> name !in world.view
    {
      StageAll(calls.between);
      ReachableInv(limits, world);
      var doc := world.view[name].data;
      assert name == PathOf(doc);
      var failed: bool := *;
      if failed { return Deferred, 0; }
      Perform(Load(name));
      StageAll(calls.during);
      var ok;
      ok, sent := Send(doc);
      if !ok { return Deferred, sent; }
      StageAll(calls.after);
      outcome := RemoveEntrySync(doc);
    }

    /** The first `gone` entries have left the directory, unless they were staged again; those
        from `kept` on are untouched. */
    ghost predicate Drained(before: Directory, now: Directory, names: seq<Name>, gone: nat, kept: nat, calls: nat -> Calls) {
      && (forall i :: 0 <= i < |names| ==> names[i] in before)
      && (forall i :: 0 <= i < |names| && i < gone && names[i] in now ==> Arrived(names[i], calls, kept))
      && (forall i :: kept <= i < |names| ==> names[i] in now && now[names[i]] == before[names[i]])
    }

    lemma DrainOne(before: Directory, now: Directory, next: Directory, names: seq<Name>, k: nat, calls: nat -> Calls)
      requires k < |names| && Drained(before, now, names, k, k, calls) && TakesOne(now, next, names[k], calls(k))
      requires forall i :: 0 <= i < |names| ==> names[i].Entry?
      requires forall i, j :: 0 <= i < j < |names| ==> names[i] != names[j]
      ensures Drained(before, next, names, k, k + 1, calls)
      ensures names[k] !in next ==> Drained(before, next, names, k + 1, k + 1, calls)
    {
      forall i | 0 <= i < k && names[i] in next ensures Arrived(names[i], calls, k + 1) {
        if names[i] in now {
          assert Arrived(names[i], calls, k);
        } else {
          assert ArrivesIn(names[i], calls(k));
        }
      }
    }

    /** The scripts of the first `done` names went out whole, at most part of the next one. */
    ghost predicate Sent(dir: Directory, names: seq<Name>, done: nat, earlier: seq<External>, now: seq<External>)
      requires done <= |names| && forall i :: 0 <= i < |names| ==> names[i] in dir
    {
      && earlier + Scripts(dir, names[..done]) <= now
      && now <= earlier + Scripts(dir, names[..if done < |names| then done + 1 else done])
    }

    lemma ScriptsStep(dir: Directory, names: seq<Name>, k: nat, earlier: seq<External>, now: seq<External>, sent: nat)
      requires k < |names| && forall i :: 0 <= i < |names| ==> names[i] in dir
      requires now == earlier + Scripts(dir, names[..k])
      requires sent <= |Script(dir[names[k]].data)|
      ensures Sent(dir, names, k, earlier, now + Script(dir[names[k]].data)[..sent])
      ensures sent == |Script(dir[names[k]].data)| ==> now + Script(dir[names[k]].data)[..sent] == earlier + Scripts(dir, names[..k + 1])
    {
      assert names[..k + 1][..k] == names[..k];
    }

    /** Delivers listed entries one after the other and stops at the first failure, while stage
        calls come in. */
    method DeliverInOrder(names: seq<Name>, calls: nat -> Calls) returns (done: nat)
      requires Idle() && world.running && Drained(world.view, world.view, names, 0, 0, calls)
      requires forall i :: 0 <= i < |names| ==> names[i].Entry?
      requires forall i, j :: 0 <= i < j < |names| ==> names[i] != names[j]
      modifies this`world
      ensures Idle() && world.running
      ensures done <= |names| && Drained(old(world.view), world.view, names, done, done + 1, calls)
      ensures Sent(old(world.view), names, done, old(world.external), world.external)
    {
      done := 0;
      ghost var before := world.view;
      while done < |names|
        invariant Idle() && world.running && done <= |names| && Drained(before, world.view, names, done, done, calls)
        invariant world.external == old(world.external) + Scripts(before, names[..done])
      {
        ghost var now, external := world.view, world.external;
        ghost var sent;
        var outcome;
        outcome, sent := Deliver(names[done], calls(done));
        DrainOne(before, now, world.view, names, done, calls);
        ScriptsStep(before, names, done, old(world.external), external, sent);
        if outcome != Done { return; }
        done := done + 1;
      }
    }

    /** One pass of the worker: the entries of a scan in name order, up to the first failure. */
    method ReplayOnce(calls: nat -> Calls) returns (ok: bool, names: seq<Name>, done: nat)
      requires Idle() && world.running
      modifies this`world
      ensures Idle() && world.running
      ensures Sorted(names) && done <= |names| && Drained(EntriesOf(old(world.view)), world.view, names, done, done + 1, calls)
      ensures ok ==> Lists(names, EntriesOf(old(world.view)))
      ensures Sent(EntriesOf(old(world.view)), names, done, old(world.external), world.external)
    {
      ok, names := EntryPathsLocked();
      if !ok { return false, [], 0; }
      assert world.view == EntriesOf(old(world.view));
      done := DeliverInOrder(names, calls);
    }

    // ----- starting

    /** `_initialize_sync`: after it the whole directory is flushed and every entry is intact. */
    method Initialize() returns (result: StartResult, names: seq<Name>)
      requires Idle() && !world.running
      modifies this`world
      ensures Idle() && world.external == old(world.external) && EntriesOf(world.view) == EntriesOf(old(world.view))
      ensures world.running <==> result == Ready
      ensures result != ScanFailed ==> Lists(names, EntriesOf(old(world.view)))
      ensures result != ScanFailed ==> world.journal == [] && world.view == world.base == EntriesOf(old(world.view))
      ensures result == TooManyEntries ==> |names| > limits.maximumEntries
      ensures result == TooManyBytes ==> |names| <= limits.maximumEntries && Bytes(EntriesOf(old(world.view))) > limits.maximumBytes
      ensures result == Ready ==> WithinLimits(limits, world.view)
      ensures result != ScanFailed ==> forall n :: n in world.view ==> OnDisk(world.view, world.view[n].data) && n == PathOf(world.view[n].data)
    {
      var ok;
      ok, names := EntryPathsLocked();
      var failed: bool := *;
      if !ok || failed { return ScanFailed, []; }
      assert world.view == EntriesOf(old(world.view));
      Perform(SyncDirectory);
      IntactWhenListed(names);
      var total := Usage(names);
      if |names| > limits.maximumEntries { return TooManyEntries, names; }
      if total > limits.maximumBytes { return TooManyBytes, names; }
      Perform(Recover);
      result := Ready;
    }

    lemma IntactWhenListed(names: seq<Name>)
      requires Valid() && Lists(names, world.view) && Sorted(names)
      ensures forall n :: n in world.view ==> OnDisk(world.view, world.view[n].data) && n == PathOf(world.view[n].data)
    {
      ReachableInv(limits, world);
      assert forall n :: n in world.view ==> n in names && Intact(n, world.view[n]);
    }
  }
}
