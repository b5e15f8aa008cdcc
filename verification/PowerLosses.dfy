/** What a power loss can undo: a request written ahead but never reported stored, sent by a later
    process, and sent again under a new key once the power loss has taken it back. */
module PowerLosses {
  import opened Wrappers
  import opened PublicValues
  import opened JournalFormat
  import opened DurableProtocol
  import opened ProtocolTheorems
  import opened PublicReads
  import opened ReachableHistories

  /** The write-ahead shows in the file but is not reported stored. */
  lemma Unreported(t: seq<World>, j: Journal, p: Pending) returns (t': seq<World>)
    requires Reaches(t, j) && j.pending.None? && |j.history| < MAXIMUM_REQUEST_RECORDS
    requires |t| > 0 && Fresh(t[|t| - 1], p.key) && p.body == Retained(p.digest.body)
    requires ValidJournal(j.(pending := Some(p)))
    ensures t <= t' && |t'| == |t| + 1 && Reaches(t', j.(pending := Some(p)))
    ensures t'[|t|] == Stored(t[|t| - 1], j.(pending := Some(p)), false)
  {
    var w := Stored(t[|t| - 1], j.(pending := Some(p)), false);
    ExtendRun(t, WriteAhead(p, false), w);
    t' := t + [w];
  }

  lemma Sent(t: seq<World>, j: Journal, p: Pending) returns (t': seq<World>)
    requires Reaches(t, j) && j.pending == Some(p) && Sha256(p.digest.body) == p.digest
    ensures t <= t' && |t'| == |t| + 1 && |t| > 0 && Reaches(t', j)
    ensures var w := t[|t| - 1];
      t'[|t|] == w.(sent := w.sent + [RequestOf(p, p.digest.body)], applied := w.applied + {p.key})
  {
    var w := t[|t| - 1];
    var w' := w.(sent := w.sent + [RequestOf(p, p.digest.body)], applied := w.applied + {p.key});
    ExtendRun(t, Send(p.digest.body, true), w');
    t' := t + [w'];
  }

  lemma Lost(t: seq<World>, v: Version) returns (t': seq<World>)
    requires IsRun(t) && v in t[|t| - 1].past
    ensures IsRun(t') && t <= t' && |t'| == |t| + 1
    ensures t'[|t|] == t[|t| - 1].(durable := v, past := {v})
  {
    var w := t[|t| - 1].(durable := v, past := {v});
    ExtendRun(t, PowerLoss(v), w);
    t' := t + [w];
  }

  /** The request of a route, with a key just drawn. */
  lemma Requested(j: Journal, r: Route, key: Key) returns (p: Pending)
    requires Open(j) && ValidJournal(j) && MayPend(r, j.phase)
    ensures p.route == r && p.key == key && p.body == Retained(p.digest.body)
    ensures ValidJournal(j.(pending := Some(p)))
  {
    Answerable(j, r, key, true);
    p := RequestFor(r, key, j.coords);
    WriteAheadIsValid(j, p);
  }

  /** A request is sent although its write-ahead was not reported stored. */
  lemma SentUnreported(t: seq<World>, j: Journal, r: Route) returns (t': seq<World>, key: Key)
    requires Reaches(t, j) && Open(j) && MayPend(r, j.phase) && |j.history| < MAXIMUM_REQUEST_RECORDS
    ensures IsRun(t') && t <= t' && |t'| == |t| + 3
    ensures !Announced(t'[|t| + 1])
    ensures var w, w', n := t[|t| - 1], t'[|t| + 2], |t[|t| - 1].sent|;
      && w'.sent != t'[|t| + 1].sent && |w'.sent| == n + 1 && w'.sent[..n] == w.sent
      && w'.sent[n].route == r && w'.sent[n].key == key && key in w'.applied
      && Some(j) in w'.past && key < w'.minted && key !in KeysOf(Some(j))
  {
    hide Exchanges, Coherent, ValidJournal, PhaseFits;
    ReachedIsCoherent(t, j);
    var drawn;
    drawn, key := Draw(t, j);
    var p := Requested(j, r, key);
    var announced := Unreported(drawn, j, p);
    t' := Sent(announced, j.(pending := Some(p)), p);
    assert Some(j) in drawn[|t|].past;
  }

  /** On every route, from every journal that allows it: if a write-ahead was never reported stored, a
      later process sends it and the server applies it, a power loss may take it back, and the request
      is sent and applied a second time under another key.  The journal knows of the second only. */
  lemma AppliedTwice(t: seq<World>, j: Journal, r: Route) returns (t': seq<World>)
    requires Reaches(t, j) && Open(j) && MayPend(r, j.phase) && |j.history| < MAXIMUM_REQUEST_RECORDS
    ensures IsRun(t') && t <= t' && |t'| > |t| > 0 && !Careful(t')
    ensures var w, n := t'[|t'| - 1], |t[|t| - 1].sent|;
      && |w.sent| == n + 2 && w.sent[n].route == w.sent[n + 1].route == r && w.sent[n].key != w.sent[n + 1].key
      && w.sent[n].key in w.applied && w.sent[n + 1].key in w.applied
      && w.sent[n + 1].key in KeysOf(w.durable) && w.sent[n].key !in KeysOf(w.durable)
  {
    var sent, key := SentUnreported(t, j, r);
    var lost := Lost(sent, Some(j));
    var drawn, key' := Draw(lost, j);
    ReachedIsCoherent(drawn, j);
    var p := Requested(j, r, key');
    t' := Unreported(drawn, j, p);
    t' := Sent(t', j.(pending := Some(p)), p);
    assert t'[|t| + 2] == sent[|t| + 2] && t'[|t| + 1] == sent[|t| + 1];
  }
}
