/** The journal file of the protocol is the file of the store: a write of the store is a step that is
    reported, or that is not and may yet show, and a restart is a power loss or nothing. */
module JournalFile {
  import opened Wrappers
  import opened JournalFormat
  import opened DurableProtocol
  import Store = JournalStore

  /** How a journal is rendered. */
  type Encoder = Journal -> Store.Bytes

  function Encoded(encode: Encoder, v: Version): Option<Store.Bytes> {
    if v.Some? then Some(encode(v.value)) else None
  }

  /** The disk shows the world's journal, and a power loss leaves one the world allows for. */
  ghost predicate Holds(disk: Store.Disk, w: World, encode: Encoder) {
    && Store.Valid(disk) && w.durable in w.past
    && Store.Shown(disk) == Encoded(encode, w.durable)
    && forall d :: Store.MaySurvive(disk, d) ==> exists v :: v in w.past && d == Encoded(encode, v)
  }

  lemma UnpublishedHolds(a: Store.Disk, b: Store.Disk, w: World, encode: Encoder)
    requires Holds(a, w, encode) && Store.Unpublished(a, b)
    ensures Holds(b, w, encode)
  {
    forall d | Store.MaySurvive(b, d)
      ensures Store.MaySurvive(a, d)
    {
      SurvivedBefore(a, b, d);
    }
    if a.entries.journal.Some? { assert Store.Names(a.entries.journal, a.files); }
  }

  lemma SurvivedBefore(a: Store.Disk, b: Store.Disk, d: Option<Store.Bytes>)
    requires Store.Valid(a) && Store.Unpublished(a, b) && Store.MaySurvive(b, d)
    ensures Store.MaySurvive(a, d)
  {
    var n :| n in b.past &&
      if n.journal.None? then d.None?
      else d.Some? && (b.files[n.journal.value].synced ==> d.value == b.files[n.journal.value].content);
    assert n.journal in Store.Journals(b.past);
    var m :| m in a.past && m.journal == n.journal;
    assert Store.Names(m.journal, a.files);
  }

  /** What an operation of the store leaves is the world before it or after its step. */
  lemma WrittenHolds(a: Store.Disk, b: Store.Disk, w: World, j: Journal, encode: Encoder, ok: bool) returns (w': World)
    requires Holds(a, w, encode) && Store.Within(a, b, encode(j))
    requires Store.Unpublished(a, b) || Store.Complete(a, b, b.entries.journal, encode(j))
    requires ok ==> Store.Stored(a, b, encode(j))
    ensures Holds(b, w', encode)
    ensures if ok then w' == Stored(w, j, true) else w' == w || w' == Stored(w, j, false)
  {
    var raw := encode(j);
    if !ok && Store.Unpublished(a, b) {
      w' := w;
      UnpublishedHolds(a, b, w, encode);
    } else {
      w' := Stored(w, j, ok);
      forall d | Store.MaySurvive(b, d)
        ensures exists v :: v in w'.past && d == Encoded(encode, v)
      {
        if ok { Store.StoredSurvives(a, b, raw, d); } else { Store.WithinSurvives(a, b, raw, d); }
        if d == Some(raw) { assert Some(j) in w'.past && d == Encoded(encode, Some(j)); }
        else { var v :| v in w.past && d == Encoded(encode, v); assert v in w'.past; }
      }
    }
  }

  /** `JournalStore.write` as the protocol sees it. */
  method WriteJournal(store: Store.JournalStore, j: Journal, encode: Encoder, ghost w: World)
      returns (r: Store.Result, ghost w': World)
    requires Holds(store.root.disk, w, encode)
    modifies store.root
    ensures Holds(store.root.disk, w', encode)
    ensures if r.Ok? then w' == Stored(w, j, true) else w' == w || w' == Stored(w, j, false)
    ensures w.durable.None? ==> !r.Ok? && w' == w
  {
    ghost var before := store.root.disk;
    r := store.Write(encode(j));
    if w.durable.None? {
      w' := w;
    } else {
      w' := WrittenHolds(before, store.root.disk, w, j, encode, r.Ok?);
    }
  }

  /** `JournalStore.create` as the protocol sees it. */
  method CreateJournal(store: Store.JournalStore, j: Journal, encode: Encoder, ghost w: World)
      returns (r: Store.Result, ghost w': World)
    requires Holds(store.root.disk, w, encode)
    modifies store.root
    ensures Holds(store.root.disk, w', encode)
    ensures if r.Ok? then w' == Stored(w, j, true) else w' == w || w' == Stored(w, j, false)
    ensures w.durable.Some? ==> !r.Ok? && w' == w
  {
    ghost var before := store.root.disk;
    r := store.Create(encode(j));
    if w.durable.Some? {
      w' := w;
      UnpublishedHolds(before, store.root.disk, w, encode);
    } else {
      w' := WrittenHolds(before, store.root.disk, w, j, encode, r.Ok?);
    }
  }

  /** What is found after a restart is the same world, or a power loss in it. */
  lemma RestartFinds(a: Store.Disk, b: Store.Disk, w: World, encode: Encoder) returns (w': World)
    requires Holds(a, w, encode) && Store.FoundAfter(a, b)
    ensures Holds(b, w', encode)
    ensures w' == w || exists v :: Step(w, PowerLoss(v), w')
  {
    if b == a {
      w' := w;
    } else {
      Store.FoundSurvived(a, b);
      Store.ShownSurvives(b);
      var v :| v in w.past && Store.Shown(b) == Encoded(encode, v);
      w' := w.(durable := v, past := {v});
      forall d | Store.MaySurvive(b, d)
        ensures d == Store.Shown(b)
      {
        OnlyShown(b, d);
      }
      assert Step(w, PowerLoss(v), w');
    }
  }

  /** With a single state of the directory and all data synced, a power loss changes nothing. */
  lemma OnlyShown(b: Store.Disk, d: Option<Store.Bytes>)
    requires Store.Valid(b) && b.past == {b.entries} && (forall i :: 0 <= i < |b.files| ==> b.files[i].synced)
    requires Store.MaySurvive(b, d)
    ensures d == Store.Shown(b)
  {
  }
}
