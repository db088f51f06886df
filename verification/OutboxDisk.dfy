/** The directory of the finalization outbox and what a crash may do to it
    (infrastructure/finalization_outbox.py). A rename is one atomic directory operation;
    operations that were not flushed may each be lost, and so may unflushed file contents. */
module OutboxDisk {
  import opened EntryNames
  import opened FinalizationUnits

  /** The encoded bytes of one finalization unit; equal documents are equal byte strings. */
  datatype Document = Document(event: Event, media: seq<Media>, size: nat)

  /** SHA-256 is taken as injective, so an entry's name is its timestamp and its event id. */
  datatype Name = Temp(token: nat) | Entry(occurredAt: Instant, id: string)

  datatype File = File(data: Document, synced: bool)

  type Directory = map<Name, File>

  datatype Operation =
    | Link(name: Name, file: File)
    | Rename(from: Name, name: Name, file: File)
    | Unlink(name: Name)

  function PathOf(d: Document): Name {
    Entry(d.event.occurredAt, d.event.id)
  }

  function Apply(dir: Directory, op: Operation): Directory {
    match op
    case Link(name, file) => dir[name := file]
    case Rename(from, name, file) => (dir - {from})[name := file]
    case Unlink(name) => dir - {name}
  }

  /** The directory after the kept operations of a journal. */
  function ApplyKept(dir: Directory, journal: seq<Operation>, keep: seq<bool>): Directory
    requires |keep| == |journal|
  {
    if journal == [] then dir
    else
      var n := |journal| - 1;
      var before := ApplyKept(dir, journal[..n], keep[..n]);
      if keep[n] then Apply(before, journal[n]) else before
  }

  function Everything(journal: seq<Operation>): (keep: seq<bool>)
    ensures |keep| == |journal|
  {
    seq(|journal|, i => true)
  }

  function Nothing(journal: seq<Operation>): (keep: seq<bool>)
    ensures |keep| == |journal|
  {
    seq(|journal|, i => false)
  }

  /** Contents that were never flushed may come back as anything. */
  function Torn(dir: Directory, garbage: Document): (torn: Directory)
    ensures torn.Keys == dir.Keys
    ensures forall n :: n in dir && dir[n].synced ==> torn[n] == dir[n]
  {
    map n | n in dir :: if dir[n].synced then dir[n] else File(garbage, false)
  }

  predicate Touches(journal: seq<Operation>, name: Name) {
    exists k :: 0 <= k < |journal| && (journal[k].name == name || (journal[k].Rename? && journal[k].from == name))
  }

  lemma {:induction false} UntouchedIsUnchanged(dir: Directory, journal: seq<Operation>, keep: seq<bool>, name: Name)
    requires |keep| == |journal| && !Touches(journal, name)
    ensures name in ApplyKept(dir, journal, keep) <==> name in dir
    ensures name in dir ==> ApplyKept(dir, journal, keep)[name] == dir[name]
  {
    if journal != [] {
      var n := |journal| - 1;
      forall k | 0 <= k < n ensures journal[..n][k] == journal[k] {}
      assert journal[n].name != name;
      UntouchedIsUnchanged(dir, journal[..n], keep[..n], name);
    }
  }

  lemma {:induction false} KeepingNothing(dir: Directory, journal: seq<Operation>)
    ensures ApplyKept(dir, journal, Nothing(journal)) == dir
  {
    if journal != [] {
      var n := |journal| - 1;
      KeepingNothing(dir, journal[..n]);
      assert Nothing(journal)[..n] == Nothing(journal[..n]);
    }
  }

  lemma KeepingOneMore(dir: Directory, journal: seq<Operation>, op: Operation)
    ensures ApplyKept(dir, journal + [op], Everything(journal + [op])) == Apply(ApplyKept(dir, journal, Everything(journal)), op)
  {
    assert (journal + [op])[..|journal|] == journal;
    assert Everything(journal + [op])[..|journal|] == Everything(journal);
  }

  /** Every entry a directory or journal can show is flushed and carries its own name. */
  ghost predicate Intact(name: Name, file: File) {
    name.Entry? ==> file.synced && name == PathOf(file.data)
  }

  ghost predicate IntactDirectory(dir: Directory) {
    forall n :: n in dir ==> Intact(n, dir[n])
  }

  ghost predicate IntactJournal(journal: seq<Operation>) {
    forall k :: 0 <= k < |journal| ==>
      && (!journal[k].Unlink? ==> Intact(journal[k].name, journal[k].file))
      && (journal[k].Rename? ==> journal[k].from.Temp?)
  }

  lemma {:induction false} CrashKeepsEntriesIntact(dir: Directory, journal: seq<Operation>, keep: seq<bool>)
    requires |keep| == |journal| && IntactDirectory(dir) && IntactJournal(journal)
    ensures IntactDirectory(ApplyKept(dir, journal, keep))
  {
    if journal != [] {
      var n := |journal| - 1;
      CrashKeepsEntriesIntact(dir, journal[..n], keep[..n]);
      assert !journal[n].Unlink? ==> Intact(journal[n].name, journal[n].file);
    }
  }

  lemma TearingKeepsEntries(dir: Directory, garbage: Document)
    requires IntactDirectory(dir)
    ensures IntactDirectory(Torn(dir, garbage))
    ensures forall n :: n in dir && n.Entry? ==> Torn(dir, garbage)[n] == dir[n]
  {
  }
}
