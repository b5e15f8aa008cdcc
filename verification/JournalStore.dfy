/** Storing a journal so that a crash at any step leaves the old document or the new one.

    Every call to the operating system may be done, may raise, or may be the last thing the process
    does.  The directory shows its current entries to the running system; a crash may bring back any
    entries it has had since it was last synced, and data that was never synced. */
module JournalStore {
  import opened Wrappers

  type Bytes = seq<nat>
  type Inode = nat

  datatype File = File(content: Bytes, synced: bool)

  /** The two entries of one operation: its journal and the partial file it is written to. */
  datatype Entries = Entries(journal: Option<Inode>, partial: Option<Inode>)

  /** Files are numbered as they are made, and none is forgotten when its last entry goes. */
  datatype Disk = Disk(entries: Entries, files: seq<File>, past: set<Entries>)

  predicate Names(o: Option<Inode>, files: seq<File>) { o.Some? ==> o.value < |files| }

  predicate Valid(d: Disk) {
    d.entries in d.past && forall n :: n in d.past ==> Names(n.journal, d.files) && Names(n.partial, d.files)
  }

  /** The document at the journal's path. */
  function Shown(d: Disk): Option<Bytes>
    requires Valid(d)
  {
    if d.entries.journal.None? then None else Some(d.files[d.entries.journal.value].content)
  }

  /** The path may hold this after a crash. */
  predicate MaySurvive(d: Disk, document: Option<Bytes>)
    requires Valid(d)
  {
    exists n :: n in d.past &&
      if n.journal.None? then document.None?
      else document.Some? && (d.files[n.journal.value].synced ==> document.value == d.files[n.journal.value].content)
  }

  // ----- what each call does to the disk -----

  function Enter(d: Disk, entries: Entries): Disk { d.(entries := entries, past := d.past + {entries}) }

  function Created(d: Disk): Disk {
    Enter(d, d.entries.(partial := Some(|d.files|))).(files := d.files + [File([], false)])
  }

  function Appended(d: Disk, i: Inode, bytes: Bytes): Disk
    requires i < |d.files|
  {
    d.(files := d.files[i := File(d.files[i].content + bytes, false)])
  }

  function Synced(d: Disk, i: Inode): Disk
    requires i < |d.files|
  {
    d.(files := d.files[i := d.files[i].(synced := true)])
  }

  function Linked(d: Disk): Disk { Enter(d, d.entries.(journal := d.entries.partial)) }

  function Replaced(d: Disk): Disk { Enter(d, Entries(d.entries.partial, None)) }

  function Unlinked(d: Disk): Disk { Enter(d, d.entries.(partial := None)) }

  function DirectorySynced(d: Disk): Disk { d.(past := {d.entries}) }

  /** A call is done, raises `OSError`, or is where the process dies, before or after its effect. */
  datatype Outcome = Done | Fault | Died

  /** How an operation of the store ends. */
  datatype Result = Ok | JournalError | OsError | Crashed

  predicate Follows(o: Outcome, before: Disk, effect: Disk, after: Disk) {
    match o
    case Done => after == effect
    case Fault => after == before
    case Died => after == before || after == effect
  }

  class Directory {
    var disk: Disk
    /** Some call raised, did nothing or was the last. */
    ghost var troubled: bool

    constructor (disk: Disk)
      ensures this.disk == disk && !troubled
    {
      this.disk, troubled := disk, false;
    }

    /** A call without an effect: `fstat`, `lstat`, `close`, opening the directory. */
    method Look() returns (o: Outcome)
      modifies this`troubled
      ensures troubled == (old(troubled) || !o.Done?)
    {
      o := *;
      troubled := troubled || !o.Done?;
    }

    /** Whether `fstat` shows a regular file of mode 0600. */
    method IsPrivateFile() returns (b: bool)
      modifies this`troubled
      ensures troubled == (old(troubled) || !b)
    {
      b := *;
      troubled := troubled || !b;
    }

    method Call(effect: Disk) returns (o: Outcome)
      modifies this
      ensures Follows(o, old(disk), effect, disk) && troubled == (old(troubled) || !o.Done?)
    {
      o := *;
      troubled := troubled || !o.Done?;
      var happened: bool := *;
      if o.Done? || (o.Died? && happened) { disk := effect; }
    }

    /** `open` with `O_CREAT | O_EXCL`. */
    method OpenExclusive() returns (o: Outcome)
      modifies this
      ensures if old(disk).entries.partial.Some? then !o.Done? && disk == old(disk) && troubled == old(troubled)
              else Follows(o, old(disk), Created(old(disk)), disk) && troubled == (old(troubled) || !o.Done?)
    {
      if disk.entries.partial.Some? {
        o := *;
        if o.Done? { o := Fault; }
      } else {
        o := Call(Created(disk));
      }
    }

    /** `os.write`: some of the bytes, or none. */
    method Write(i: Inode, bytes: Bytes) returns (o: Outcome, count: nat)
      requires i < |disk.files|
      modifies this
      ensures count <= |bytes| && Follows(o, old(disk), Appended(old(disk), i, bytes[..count]), disk)
      ensures troubled == (old(troubled) || !o.Done? || count == 0)
    {
      var n: int := *;
      count := if 0 <= n <= |bytes| then n else 0;
      o := Call(Appended(disk, i, bytes[..count]));
      troubled := troubled || count == 0;
    }

    /** `os.link`, which never replaces an entry. */
    method Link() returns (o: Outcome)
      modifies this
      ensures if old(disk).entries.journal.Some? then !o.Done? && disk == old(disk) && troubled == old(troubled)
              else Follows(o, old(disk), Linked(old(disk)), disk) && troubled == (old(troubled) || !o.Done?)
    {
      if disk.entries.journal.Some? {
        o := *;
        if o.Done? { o := Fault; }
      } else {
        o := Call(Linked(disk));
      }
    }
  }

  // ----- what an operation may do -----

  function Journals(past: set<Entries>): set<Option<Inode>> { set n | n in past :: n.journal }

  /** A file that did not exist before, with all of the document in it, and synced. */
  predicate Complete(a: Disk, b: Disk, j: Option<Inode>, raw: Bytes) {
    j.Some? && |a.files| <= j.value < |b.files| && b.files[j.value] == File(raw, true)
  }

  /** Whatever existed is as it was, and the journal's entry, now or after a crash, is an old one or the
      complete new document's; a partial file that was not there is one of the operation's own. */
  predicate Within(a: Disk, b: Disk, raw: Bytes) {
    && Valid(b) && a.files <= b.files
    && (b.entries.journal == a.entries.journal || Complete(a, b, b.entries.journal, raw))
    && (forall j :: j in Journals(b.past) ==> j in Journals(a.past) || Complete(a, b, j, raw))
    && (b.entries.partial.Some? && b.entries.partial != a.entries.partial ==> |a.files| <= b.entries.partial.value)
  }

  /** Nothing has been published. */
  predicate Unpublished(a: Disk, b: Disk) {
    && Valid(b) && a.files <= b.files
    && b.entries.journal == a.entries.journal && Journals(b.past) == Journals(a.past)
    && (b.entries.partial.Some? && b.entries.partial != a.entries.partial ==> |a.files| <= b.entries.partial.value)
  }

  /** The new document is stored, whatever happens next. */
  predicate Stored(a: Disk, b: Disk, raw: Bytes) {
    Complete(a, b, b.entries.journal, raw) && Journals(b.past) == {b.entries.journal} && b.entries.partial.None?
  }

  /** The partial file has been made and holds this much. */
  predicate Making(a: Disk, b: Disk, content: Bytes) {
    && a.entries.partial.None? && b.entries == a.entries.(partial := Some(|a.files|)) && b.past == a.past + {b.entries}
    && |b.files| == |a.files| + 1 && a.files <= b.files && b.files[|a.files|].content == content
  }

  lemma NothingDone(a: Disk)
    requires Valid(a)
    ensures Unpublished(a, a)
  {
  }

  lemma MakingIsPrivate(a: Disk, b: Disk, content: Bytes)
    requires Valid(a) && Making(a, b, content)
    ensures Valid(b) && Unpublished(a, b) && Valid(Unlinked(b)) && Unpublished(a, Unlinked(b))
  {
    assert Journals(b.past) == Journals(a.past) + {b.entries.journal};
    assert a.entries.journal in Journals(a.past);
    assert Journals(Unlinked(b).past) == Journals(b.past) + {b.entries.journal};
  }

  lemma Begins(a: Disk, raw: Bytes)
    requires Valid(a) && a.entries.partial.None?
    ensures Making(a, Created(a), raw[..0]) && Valid(Created(a))
    ensures Unpublished(a, Created(a)) && Unpublished(a, Unlinked(Created(a)))
  {
    MakingIsPrivate(a, Created(a), []);
  }

  lemma Appends(a: Disk, b: Disk, raw: Bytes, written: nat, count: nat)
    requires Valid(a) && written + count <= |raw| && Making(a, b, raw[..written])
    ensures var c := Appended(b, |a.files|, raw[written..][..count]);
      && Making(a, c, raw[..written + count]) && Valid(b) && Valid(c)
      && Unpublished(a, b) && Unpublished(a, c) && Unpublished(a, Unlinked(b)) && Unpublished(a, Unlinked(c))
  {
    var c := Appended(b, |a.files|, raw[written..][..count]);
    assert raw[..written + count] == raw[..written] + raw[written..][..count];
    MakingIsPrivate(a, b, raw[..written]);
    MakingIsPrivate(a, c, raw[..written + count]);
  }

  lemma Syncs(a: Disk, b: Disk, raw: Bytes)
    requires Valid(a) && Making(a, b, raw)
    ensures var c := Synced(b, |a.files|);
      && Making(a, c, raw) && c.files[|a.files|].synced && Valid(b) && Valid(c)
      && Unpublished(a, b) && Unpublished(a, c) && Unpublished(a, Unlinked(b))
  {
    MakingIsPrivate(a, b, raw);
    MakingIsPrivate(a, Synced(b, |a.files|), raw);
  }

  class JournalStore {
    const root: Directory

    constructor (root: Directory)
      ensures this.root == root
    {
      this.root := root;
    }

    /** `_unlink_owned_partial`. */
    method UnlinkOwnedPartial(identity: Option<Inode>) returns (o: Outcome)
      requires Valid(root.disk)
      modifies root
      ensures root.disk == old(root.disk)
              || (root.disk == Unlinked(old(root.disk)) && old(root.disk).entries.partial == identity)
      ensures o.Done? && identity.Some? ==> root.disk.entries.partial != identity
      ensures root.troubled == (old(root.troubled) || !o.Done?)
    {
      if identity.None? { return Done; }
      o := root.Look();
      if !o.Done? { return; }
      if root.disk.entries.partial == identity { o := root.Call(Unlinked(root.disk)); }
    }

    /** The end of a failed write: close, then unlink what was made. */
    method Abandon(identity: Option<Inode>, error: Result) returns (r: Result)
      requires Valid(root.disk) && (error.JournalError? || error.OsError?)
      modifies root
      ensures root.disk == old(root.disk)
              || (root.disk == Unlinked(old(root.disk)) && old(root.disk).entries.partial == identity)
      ensures !r.Ok? && (old(root.troubled) ==> root.troubled)
    {
      var o := root.Look();
      if o.Done? { o := UnlinkOwnedPartial(identity); }
      return if o.Died? then Crashed else if o.Fault? then OsError else error;
    }

    /** `_write_owned_partial`: the partial file made here, complete and synced, or nothing published. */
    method WriteOwnedPartial(raw: Bytes) returns (r: Result, identity: Inode)
      requires Valid(root.disk)
      modifies root
      ensures Unpublished(old(root.disk), root.disk)
      ensures old(root.disk).entries.partial.Some? ==> !r.Ok? && root.disk == old(root.disk)
      ensures r.Ok? ==>
        root.disk.entries.partial == Some(identity) && Complete(old(root.disk), root.disk, Some(identity), raw)
      ensures old(root.troubled) ==> root.troubled
      ensures !r.Ok? && old(root.disk).entries.partial.None? ==> root.troubled
    {
      hide Valid, Unpublished;
      ghost var before := root.disk;
      identity := |root.disk.files|;
      NothingDone(before);
      var o := root.OpenExclusive();
      if before.entries.partial.None? { Begins(before, raw); }
      if o.Died? { return Crashed, identity; }
      if o.Fault? { return JournalError, identity; }
      o := root.Look();
      if o.Died? { return Crashed, identity; }
      if o.Fault? {
        r := Abandon(None, OsError);
        return;
      }
      var private := root.IsPrivateFile();
      if !private {
        r := Abandon(Some(identity), JournalError);
        return;
      }
      var written := 0;
      while written < |raw|
        invariant written <= |raw| && Making(before, root.disk, raw[..written])
        invariant old(root.troubled) ==> root.troubled
      {
        ghost var made := root.disk;
        var count;
        o, count := root.Write(identity, raw[written..]);
        Appends(before, made, raw, written, count);
        if o.Died? { return Crashed, identity; }
        if o.Fault? || count == 0 {
          r := Abandon(Some(identity), OsError);
          return;
        }
        written := written + count;
      }
      assert raw[..|raw|] == raw;
      ghost var made := root.disk;
      o := root.Call(Synced(root.disk, identity));
      Syncs(before, made, raw);
      if o.Died? { return Crashed, identity; }
      if o.Fault? {
        r := Abandon(Some(identity), OsError);
        return;
      }
      return Ok, identity;
    }

    /** The `finally` of `create` and `write`. */
    method Finish(descriptorOpen: bool, identity: Inode, result: Result) returns (r: Result)
      requires Valid(root.disk)
      modifies root
      ensures root.disk == old(root.disk)
              || (root.disk == Unlinked(old(root.disk)) && old(root.disk).entries.partial == Some(identity))
      ensures if r == result then (old(root.troubled) ==> root.troubled)
              else root.troubled && (r.Crashed? || r.OsError?)
      ensures r.Ok? ==> root.disk.entries.partial != Some(identity)
    {
      var o;
      if descriptorOpen {
        o := root.Look();
        if !o.Done? { return if o.Died? then Crashed else OsError; }
      }
      o := UnlinkOwnedPartial(Some(identity));
      return if o.Died? then Crashed else if o.Fault? then OsError else result;
    }

    /** Open, sync and close the directory. */
    method SyncDirectory() returns (o: Outcome)
      modifies root
      ensures root.disk == old(root.disk) || root.disk == DirectorySynced(old(root.disk))
      ensures o.Done? ==> root.disk == DirectorySynced(old(root.disk))
      ensures root.troubled == (old(root.troubled) || !o.Done?)
    {
      o := root.Look();
      if !o.Done? { return; }
      o := root.Call(DirectorySynced(root.disk));
      if o.Died? { return; }
      var closed := root.Look();
      if o.Done? { o := closed; }
    }

    /** `create`: publish a document where there is none. */
    method Create(raw: Bytes) returns (r: Result)
      requires Valid(root.disk)
      modifies root
      ensures Within(old(root.disk), root.disk, raw)
      ensures Unpublished(old(root.disk), root.disk)
              || Complete(old(root.disk), root.disk, root.disk.entries.journal, raw)
      ensures old(root.disk).entries.journal.Some? ==> !r.Ok? && Unpublished(old(root.disk), root.disk)
      ensures old(root.disk).entries.partial.Some? ==> !r.Ok? && root.disk == old(root.disk)
      ensures r.Ok? ==> Stored(old(root.disk), root.disk, raw)
      ensures old(root.disk).entries == Entries(None, None) && !root.troubled ==> r.Ok?
    {
      hide Valid, Within, Unpublished, Stored;
      ghost var before := root.disk;
      var identity;
      r, identity := WriteOwnedPartial(raw);
      ghost var ready := root.disk;
      if !r.Ok? {
        UnpublishedIsWithin(before, ready, raw);
        return;
      }
      Readies(before, ready, raw);
      var o := root.Look();
      if o.Died? { return Crashed; }
      if o.Fault? {
        r := Finish(true, identity, JournalError);
        return;
      }
      o := root.Link();
      if o.Done? { o := SyncDirectory(); }
      if o.Died? { return Crashed; }
      r := Finish(false, identity, if o.Done? then Ok else JournalError);
    }

    /** `write`: replace the document that is there. */
    method Write(raw: Bytes) returns (r: Result)
      requires Valid(root.disk)
      modifies root
      ensures Within(old(root.disk), root.disk, raw)
      ensures Unpublished(old(root.disk), root.disk)
              || Complete(old(root.disk), root.disk, root.disk.entries.journal, raw)
      ensures old(root.disk).entries.journal.None? || old(root.disk).entries.partial.Some?
              ==> !r.Ok? && root.disk == old(root.disk)
      ensures r.Ok? ==> Stored(old(root.disk), root.disk, raw)
      ensures old(root.disk).entries.journal.Some? && old(root.disk).entries.partial.None? && !root.troubled ==> r.Ok?
    {
      hide Valid, Within, Unpublished, Stored;
      ghost var before := root.disk;
      NothingDone(before);
      UnpublishedIsWithin(before, before, raw);
      var existing := root.disk.entries.journal;
      var o := root.Look();
      if !o.Done? { return if o.Died? then Crashed else JournalError; }
      if existing.None? { return JournalError; }
      var identity;
      r, identity := WriteOwnedPartial(raw);
      ghost var ready := root.disk;
      if !r.Ok? {
        UnpublishedIsWithin(before, ready, raw);
        return;
      }
      Readies(before, ready, raw);
      o := root.Look();
      if o.Died? { return Crashed; }
      if o.Fault? {
        r := Finish(true, identity, JournalError);
        return;
      }
      o := root.Look();
      if o.Died? { return Crashed; }
      if o.Fault? || root.disk.entries.journal != existing {
        r := Finish(false, identity, JournalError);
        return;
      }
      o := root.Call(Replaced(root.disk));
      if o.Done? { o := SyncDirectory(); }
      if o.Died? { return Crashed; }
      r := Finish(false, identity, if o.Done? then Ok else JournalError);
    }
  }

  lemma UnpublishedIsWithin(a: Disk, b: Disk, raw: Bytes)
    requires Unpublished(a, b)
    ensures Within(a, b, raw)
  {
  }

  /** From a complete partial file on, every step stays within bounds, and syncing the directory once the
      entry has moved makes the new document the only one. */
  lemma Readies(a: Disk, b: Disk, raw: Bytes)
    requires Valid(a) && Unpublished(a, b) && a.entries.partial.None?
    requires b.entries.partial.Some? && Complete(a, b, b.entries.partial, raw)
    ensures Valid(b) && Valid(Unlinked(b)) && Within(a, b, raw) && Within(a, Unlinked(b), raw)
    ensures Unpublished(a, Unlinked(b)) && b.entries.journal == a.entries.journal
    ensures Moved(a, Linked(b), raw) && Moved(a, Replaced(b), raw)
  {
    hide Moved;
    Moves(a, b, Linked(b), raw);
    Moves(a, b, Replaced(b), raw);
  }

  lemma Moves(a: Disk, b: Disk, c: Disk, raw: Bytes)
    requires Valid(a) && Unpublished(a, b) && b.entries.partial.Some? && Complete(a, b, b.entries.partial, raw)
    requires c == Linked(b) || c == Replaced(b)
    ensures Moved(a, c, raw)
  {
  }

  /** What holds once the new document has been entered as the journal. */
  predicate Moved(a: Disk, c: Disk, raw: Bytes) {
    var d := DirectorySynced(c);
    && Valid(c) && Valid(d) && Valid(Unlinked(c)) && Valid(Unlinked(d))
    && Within(a, c, raw) && Within(a, d, raw) && Within(a, Unlinked(c), raw) && Within(a, Unlinked(d), raw)
    && (d.entries.partial.None? ==> Stored(a, d, raw)) && Stored(a, Unlinked(d), raw)
    && Complete(a, c, c.entries.journal, raw)
  }

  // ----- any sequence of operations, crashes and restarts -----

  lemma WithinSurvives(a: Disk, b: Disk, raw: Bytes, document: Option<Bytes>)
    requires Valid(a) && Within(a, b, raw) && MaySurvive(b, document)
    ensures MaySurvive(a, document) || document == Some(raw)
  {
    var n :| n in b.past &&
      if n.journal.None? then document.None?
      else document.Some? && (b.files[n.journal.value].synced ==> document.value == b.files[n.journal.value].content);
    assert n.journal in Journals(b.past);
    if n.journal in Journals(a.past) {
      var m :| m in a.past && m.journal == n.journal;
      assert Names(m.journal, a.files);
      if m.journal.Some? { assert a.files[m.journal.value] == b.files[m.journal.value]; }
    }
  }

  lemma StoredSurvives(a: Disk, b: Disk, raw: Bytes, document: Option<Bytes>)
    requires Within(a, b, raw) && Stored(a, b, raw) && MaySurvive(b, document)
    ensures document == Some(raw)
  {
    var n :| n in b.past &&
      if n.journal.None? then document.None?
      else document.Some? && (b.files[n.journal.value].synced ==> document.value == b.files[n.journal.value].content);
    assert n.journal in Journals(b.past);
  }

  /** What a restart may find: the disk as it was when only the process died, or what a power loss left. */
  predicate FoundAfter(a: Disk, b: Disk) {
    || b == a
    || (&& b.entries in a.past && b.past == {b.entries} && |b.files| == |a.files|
        && forall i :: 0 <= i < |a.files| ==> b.files[i].synced && (a.files[i].synced ==> b.files[i] == a.files[i]))
  }

  lemma FoundSurvived(a: Disk, b: Disk)
    requires Valid(a) && FoundAfter(a, b)
    ensures Valid(b) && forall document :: MaySurvive(b, document) ==> MaySurvive(a, document)
  {
    assert Valid(b);
    forall document | MaySurvive(b, document)
      ensures MaySurvive(a, document)
    {
      var n :| n in b.past &&
        if n.journal.None? then document.None?
        else document.Some? && (b.files[n.journal.value].synced ==> document.value == b.files[n.journal.value].content);
      assert n in a.past && Names(n.journal, a.files);
    }
  }

  lemma ShownSurvives(a: Disk)
    requires Valid(a)
    ensures MaySurvive(a, Shown(a))
  {
    assert a.entries in a.past;
  }

  datatype Command = Create(raw: Bytes) | Write(raw: Bytes) | Restart

  /** The documents the path may hold: the last one whose storing was reported, and any attempted since. */
  function Possible(initial: set<Option<Bytes>>, commands: seq<Command>, results: seq<Result>): set<Option<Bytes>>
    requires |commands| == |results|
  {
    if commands == [] then initial
    else
      var n := |commands| - 1;
      var before := Possible(initial, commands[..n], results[..n]);
      if commands[n].Restart? then before
      else if results[n].Ok? then {Some(commands[n].raw)}
      else before + {Some(commands[n].raw)}
  }

  /** Over any operations, faults, crashes and power losses in any order, the journal's path holds the
      last document that was reported stored or one attempted after it, whole. */
  method Lifetime(store: JournalStore, commands: seq<Command>, ghost initial: set<Option<Bytes>>)
      returns (results: seq<Result>)
    requires Valid(store.root.disk) && forall d :: MaySurvive(store.root.disk, d) ==> d in initial
    modifies store.root
    ensures Valid(store.root.disk) && |results| == |commands|
    ensures forall d :: MaySurvive(store.root.disk, d) ==> d in Possible(initial, commands, results)
    ensures Shown(store.root.disk) in Possible(initial, commands, results)
  {
    results := [];
    for n := 0 to |commands|
      invariant Valid(store.root.disk) && |results| == n
      invariant forall d :: MaySurvive(store.root.disk, d) ==> d in Possible(initial, commands[..n], results)
    {
      ghost var before := store.root.disk;
      var result := Ok;
      match commands[n] {
        case Restart =>
          var found: Disk := *;
          if FoundAfter(store.root.disk, found) {
            FoundSurvived(store.root.disk, found);
            store.root.disk := found;
          }
        case Create(raw) =>
          result := store.Create(raw);
        case Write(raw) =>
          result := store.Write(raw);
      }
      OneMore(initial, commands, results, n, result, before, store.root.disk);
      results := results + [result];
    }
    assert commands[..|commands|] == commands;
    ShownSurvives(store.root.disk);
  }

  lemma OneMore(initial: set<Option<Bytes>>, commands: seq<Command>, results: seq<Result>, n: nat, result: Result,
                a: Disk, b: Disk)
    requires n == |results| < |commands| && Valid(a) && Valid(b)
    requires forall d :: MaySurvive(a, d) ==> d in Possible(initial, commands[..n], results)
    requires if commands[n].Restart? then forall d :: MaySurvive(b, d) ==> MaySurvive(a, d)
             else Within(a, b, commands[n].raw) && (result.Ok? ==> Stored(a, b, commands[n].raw))
    ensures forall d :: MaySurvive(b, d) ==> d in Possible(initial, commands[..n + 1], results + [result])
  {
    assert commands[..n + 1][..n] == commands[..n] && (results + [result])[..n] == results;
    forall d | MaySurvive(b, d)
      ensures d in Possible(initial, commands[..n + 1], results + [result])
    {
      if !commands[n].Restart? {
        WithinSurvives(a, b, commands[n].raw, d);
        if result.Ok? { StoredSurvives(a, b, commands[n].raw, d); }
      }
    }
  }

  /** A partial file left by a crash stops the operation for good: until something else removes it,
      neither `create` nor `write` changes anything or succeeds. */
  method StalePartialBlocks(store: JournalStore, commands: seq<Command>) returns (results: seq<Result>)
    requires Valid(store.root.disk) && store.root.disk.entries.partial.Some?
    requires forall i :: 0 <= i < |commands| ==> !commands[i].Restart?
    modifies store.root
    ensures store.root.disk == old(store.root.disk) && |results| == |commands|
    ensures forall i :: 0 <= i < |results| ==> !results[i].Ok?
  {
    results := [];
    for n := 0 to |commands|
      invariant store.root.disk == old(store.root.disk) && |results| == n
      invariant forall i :: 0 <= i < |results| ==> !results[i].Ok?
    {
      var result;
      match commands[n] {
        case Create(raw) => result := store.Create(raw);
        case Write(raw) => result := store.Write(raw);
      }
      results := results + [result];
    }
  }
}
