/** What holds in every run of the protocol: exactly-once accounting, replay identity, the language
    of accepted requests, absorbing end states, and the request budget. */
module ProtocolTheorems {
  import opened Wrappers
  import opened PublicValues
  import opened JournalFormat
  import opened PublicResponses
  import opened DurableProtocol

  // ----- runs -----

  lemma {:induction false} RunKeepsInv(t: seq<World>, i: nat)
    requires IsRun(t) && i < |t|
    ensures Inv(t[i])
  {
    hide IsRun, Inv, Step;
    RunAt(t, i);
    if i == 0 {
      StartKeepsInv();
    } else {
      RunKeepsInv(t, i - 1);
      var a :| Step(t[i - 1], a, t[i]);
      StepKeepsInv(t[i - 1], a, t[i]);
    }
  }

  lemma StartKeepsInv()
    ensures Inv(InitialWorld) && Accounted(InitialWorld)
  {
  }

  lemma RunAt(t: seq<World>, i: nat)
    requires IsRun(t) && i < |t|
    ensures i == 0 ==> t[i] == InitialWorld
    ensures i > 0 ==> Next(t[i - 1], t[i])
  {
    hide Next;
  }

  // ----- moving forward -----

  /** What a later journal of the operation keeps of an earlier one. */
  predicate Descends(v: Version, v': Version) {
    v.Some? ==>
      && v'.Some?
      && var j, j' := v.value, v'.value;
      && j'.ref == j.ref && j'.target == j.target && j'.desired == j.desired
      && j.history <= j'.history
      && Rank(j.phase) <= Rank(j'.phase)
      && Frozen(j.coords, j'.coords)
  }

  lemma AcceptMovesForward(j: Journal, response: Fields, projection: Coordinates)
    requires Coherent(j) && j.pending.Some? && Answers(j, j.pending.value, response, projection)
    ensures Rank(j.phase) <= Rank(PhaseAfter(j.pending.value.route, projection))
    ensures Frozen(j.coords, Merge(j.coords, projection))
  {
    hide Coherent, Answers, Frozen, Matches, ValidCoordinates, PhaseFits, NotYet;
    ResponseAdds(j, response, projection);
  }

  lemma AcceptDescends(j: Journal, response: Fields, projection: Coordinates)
    requires Coherent(j) && j.pending.Some? && Answers(j, j.pending.value, response, projection)
    ensures Descends(Some(j), Some(Accepted(j, j.pending.value, projection)))
  {
    hide Coherent, Answers, Frozen;
    AcceptMovesForward(j, response, projection);
  }

  lemma BookDescends(j: Journal, j': Journal)
    requires Bookkeeping(j, j')
    ensures Descends(Some(j), Some(j'))
  {
  }

  lemma DescendsFromItself(v: Version)
    ensures Descends(v, v)
  {
  }

  lemma DescendsOn(u: Version, v: Version, w: Version)
    requires Descends(u, v) && Descends(v, w)
    ensures Descends(u, w)
  {
  }

  /** While the power stays on, every step leads to a journal that descends from the one before. */
  lemma StepDescends(w: World, a: Action, w': World)
    requires w.durable.Some? ==> Coherent(w.durable.value)
    requires Step(w, a, w') && !a.PowerLoss?
    ensures Descends(w.durable, w'.durable) && w.sent <= w'.sent && w.applied <= w'.applied
    ensures forall v :: v in w'.past ==> v in w.past || v == w'.durable
  {
    hide ValidJournal, Coherent, ResponseIsBound, ResponseCoordinates, Bookkeeping, Descends, Fresh;
    match a
    case Create(j, reported) => NothingDescends(w'.durable);
    case WriteAhead(p, reported) => PendingDescends(w.durable.value, p);
    case Accept(response, reported) =>
      var j := w.durable.value;
      AcceptDescends(j, response, ResponseCoordinates(j.pending.value.route, response).value);
    case Book(j', reported) => BookDescends(w.durable.value, j');
    case _ => DescendsFromItself(w.durable);
  }

  lemma NothingDescends(v: Version)
    ensures Descends(None, v)
  {
  }

  lemma PendingDescends(j: Journal, p: Pending)
    ensures Descends(Some(j), Some(j.(pending := Some(p))))
  {
  }

  /** The power stays on from `i` on. */
  ghost predicate Quiet(t: seq<World>, i: nat) {
    forall k {:trigger t[k]} :: i < k < |t| ==> QuietNext(t[k - 1], t[k])
  }

  lemma QuietAt(t: seq<World>, i: nat, k: nat)
    requires Quiet(t, i) && i < k < |t|
    ensures QuietNext(t[k - 1], t[k])
  {
    hide QuietNext;
  }

  lemma QuietFurtherOn(t: seq<World>, i: nat, k: nat)
    requires Quiet(t, i) && i <= k
    ensures Quiet(t, k)
  {
  }

  lemma QuietGrows(t: seq<World>, i: nat, w: World)
    requires t != [] && Quiet(t, i) && QuietNext(t[|t| - 1], w)
    ensures Quiet(t + [w], i)
  {
    hide QuietNext;
    var t' := t + [w];
    forall k {:trigger t'[k]} | i < k < |t'|
      ensures QuietNext(t'[k - 1], t'[k])
    {
      if k < |t| { assert t'[k] == t[k]; }
    }
  }

  lemma DurableIsCoherent(t: seq<World>, i: nat)
    requires IsRun(t) && i < |t| && t[i].durable.Some?
    ensures Coherent(t[i].durable.value)
  {
    hide IsRun, Coherent, Fits, Agree, SentOnce;
    RunKeepsInv(t, i);
    assert Explains(t[i], t[i].durable.value);
  }

  /** While the power stays on, the journal's phase never moves back, its history only grows at the end,
      and the coordinates of plan, approval, request, run and claim never change once set. */
  lemma {:induction false} RunOnlyMovesForward(t: seq<World>, i: nat, k: nat)
    requires IsRun(t) && Quiet(t, i) && i <= k < |t|
    ensures Descends(t[i].durable, t[k].durable) && t[i].sent <= t[k].sent && t[i].applied <= t[k].applied
    decreases k
  {
    hide IsRun, Quiet, Descends, Step, Coherent;
    if i == k {
      DescendsFromItself(t[i].durable);
    } else {
      RunOnlyMovesForward(t, i, k - 1);
      if t[k - 1].durable.Some? { DurableIsCoherent(t, k - 1); }
      QuietAt(t, i, k);
      var a :| Step(t[k - 1], a, t[k]) && !a.PowerLoss?;
      StepDescends(t[k - 1], a, t[k]);
      DescendsOn(t[i].durable, t[k - 1].durable, t[k].durable);
    }
  }

  /** Every journal a power loss may bring back descends from this one. */
  predicate AllDescend(v: Version, w: World) { forall v' :: v' in w.past ==> Descends(v, v') }

  lemma StepKeepsDescent(v: Version, w: World, a: Action, w': World)
    requires Inv(w) && AllDescend(v, w) && Step(w, a, w')
    ensures AllDescend(v, w')
  {
    hide Coherent, ValidJournal, Descends, Fits, Agree, SentOnce, ResponseIsBound, ResponseCoordinates, Bookkeeping,
         Fresh;
    if !a.PowerLoss? {
      if w.durable.Some? { assert Explains(w, w.durable.value); }
      StepDescends(w, a, w');
      DescendsOn(v, w.durable, w'.durable);
    }
  }

  /** A path from a world: steps of any kind, power losses included. */
  ghost predicate Leads(w: World, t: seq<World>) {
    |t| > 0 && t[0] == w && forall k {:trigger t[k]} :: 0 < k < |t| ==> Next(t[k - 1], t[k])
  }

  lemma {:induction false} PathKeeps(v: Version, w: World, t: seq<World>, k: nat)
    requires Inv(w) && AllDescend(v, w) && Leads(w, t) && k < |t|
    ensures Inv(t[k]) && AllDescend(v, t[k])
  {
    hide Inv, AllDescend, Step;
    if k > 0 {
      PathKeeps(v, w, t, k - 1);
      assert Next(t[k - 1], t[k]);
      var a :| Step(t[k - 1], a, t[k]);
      StepKeepsInv(t[k - 1], a, t[k]);
      StepKeepsDescent(v, t[k - 1], a, t[k]);
    }
  }

  /** With power losses a journal is never taken back if and only if every journal the file may hold
      already descends from it. */
  lemma NeverTakenBackExactly(w: World)
    requires Inv(w)
    ensures AllDescend(w.durable, w) <==>
            forall t: seq<World>, k: nat :: Leads(w, t) && k < |t| ==> Descends(w.durable, t[k].durable)
  {
    hide Descends, Coherent, Explains, Agree, SentOnce;
    if AllDescend(w.durable, w) {
      forall t: seq<World>, k: nat | Leads(w, t) && k < |t|
        ensures Descends(w.durable, t[k].durable)
      {
        PathKeeps(w.durable, w, t, k);
      }
    } else {
      var v :| v in w.past && !Descends(w.durable, v);
      var t := TakenBack(w, v);
      assert Leads(w, t) && !Descends(w.durable, t[1].durable);
    }
  }

  lemma TakenBack(w: World, v: Version) returns (t: seq<World>)
    requires v in w.past
    ensures Leads(w, t) && |t| == 2 && t[1].durable == v && t[1].sent == w.sent
  {
    var w' := w.(durable := v, past := {v});
    assert Step(w, PowerLoss(v), w');
    assert Next(w, w');
    t := [w, w'];
  }

  /** What was reported stored is all the file may hold. */
  predicate Reported(w: World) { w.past == {w.durable} }

  /** A journal reported stored is never taken back, over any power losses. */
  lemma ReportedIsKept(t: seq<World>, i: nat, k: nat)
    requires IsRun(t) && i <= k < |t| && Reported(t[i])
    ensures AllDescend(t[i].durable, t[k]) && Descends(t[i].durable, t[k].durable)
  {
    hide Descends, Step;
    RunKeepsInv(t, i);
    RunKeepsInv(t, k);
    DescendsFromItself(t[i].durable);
    var rest := t[i..];
    forall m {:trigger rest[m]} | 0 < m < |rest|
      ensures Next(rest[m - 1], rest[m])
    {
      assert Next(t[i + m - 1], t[i + m]);
    }
    PathKeeps(t[i].durable, t[i], rest, k - i);
  }

  // ----- accounting -----

  /** No request is sent that some journal the file may hold does not know of. */
  ghost predicate Careful(t: seq<World>) {
    forall i {:trigger t[i]} :: 0 < i < |t| && t[i].sent != t[i - 1].sent ==> Announced(t[i - 1])
  }

  lemma CarefulGrows(t: seq<World>, w: World)
    requires t != []
    ensures Careful(t) && (w.sent == t[|t| - 1].sent || Announced(t[|t| - 1])) ==> Careful(t + [w])
  {
    hide Announced;
    var t' := t + [w];
    assert forall k :: 0 <= k < |t| ==> t'[k] == t[k];
  }

  lemma {:induction false} CarefulIsAccounted(t: seq<World>, i: nat)
    requires IsRun(t) && Careful(t) && i < |t|
    ensures Accounted(t[i])
  {
    hide IsRun, Accounted, Inv, Step, Announced;
    RunAt(t, i);
    if i == 0 {
      StartKeepsInv();
    } else {
      CarefulIsAccounted(t, i - 1);
      RunKeepsInv(t, i - 1);
      var a :| Step(t[i - 1], a, t[i]);
      SendShows(t[i - 1], a, t[i]);
      StepKeepsAccounted(t[i - 1], a, t[i]);
    }
  }

  lemma SendShows(w: World, a: Action, w': World)
    requires Step(w, a, w')
    ensures a.Send? <==> w'.sent != w.sent
  {
    hide ValidJournal, ResponseIsBound, ResponseCoordinates, Bookkeeping, Fresh;
  }

  /** Keys stay accounted for in every state, whatever a power loss brings back, if and only if no
      request was sent that some journal the file may hold does not know of. */
  lemma AccountedExactly(t: seq<World>)
    requires IsRun(t)
    ensures (forall i :: 0 <= i < |t| ==> Accounted(t[i])) <==> Careful(t)
  {
    hide Accounted, Inv, Step, Announced;
    if Careful(t) {
      forall i | 0 <= i < |t|
        ensures Accounted(t[i])
      {
        CarefulIsAccounted(t, i);
      }
    }
    if forall i :: 0 <= i < |t| ==> Accounted(t[i]) {
      forall i {:trigger t[i]} | 0 < i < |t| && t[i].sent != t[i - 1].sent
        ensures Announced(t[i - 1])
      {
        RunKeepsInv(t, i - 1);
        assert Next(t[i - 1], t[i]);
        var a :| Step(t[i - 1], a, t[i]);
        SendShows(t[i - 1], a, t[i]);
        StepKeepsAccounted(t[i - 1], a, t[i]);
      }
    }
  }

  /** A request whose journal was reported stored is announced. */
  lemma ReportedIsAnnounced(w: World)
    requires Reported(w) && w.durable.Some? && w.durable.value.pending.Some?
    ensures Announced(w)
  {
  }

  lemma FirstKey(sent: seq<Request>)
    ensures sent != [] ==> sent[0].key in SentKeys(sent)
  {
  }

  /** The server has applied every accepted request and at most one other, the pending one; with nothing
      pending it has applied exactly the accepted requests, and none was recorded twice. */
  predicate AppliedOnce(w: World, v: Version) {
    && (v.None? ==> w.applied == {} && w.sent == [])
    && (v.Some? ==>
          && var j := v.value;
          && RecordKeys(j.history) <= w.applied <= RecordKeys(j.history) + PendingKeys(j)
          && (j.pending.None? ==> w.applied == RecordKeys(j.history))
          && DistinctKeys(j.history))
  }

  lemma KnownIsAppliedOnce(w: World, v: Version)
    requires Inv(w) && v in w.past && SentKeys(w.sent) <= KeysOf(v)
    ensures AppliedOnce(w, v)
  {
    hide Fits, Agree, SentOnce, ValidJournal, PhaseOf, Settled, NotYet, Matches;
    if v.Some? {
      assert Explains(w, v.value);
    } else {
      FirstKey(w.sent);
    }
  }

  lemma QuietKeepsIt(w: World, w': World)
    requires Inv(w) && AccountedNow(w) && QuietNext(w, w')
    ensures AccountedNow(w')
  {
    hide AccountedNow, Inv, Step;
    var a :| Step(w, a, w') && !a.PowerLoss?;
    StepKeepsAccountedNow(w, a, w');
  }

  lemma {:induction false} QuietKeepsAccounted(t: seq<World>, i: nat, k: nat)
    requires IsRun(t) && Quiet(t, i) && i <= k < |t| && AccountedNow(t[i])
    ensures AccountedNow(t[k])
    decreases k
  {
    hide IsRun, Quiet, AccountedNow, Inv, QuietNext;
    if i < k {
      QuietKeepsAccounted(t, i, k - 1);
      RunKeepsInv(t, k - 1);
      QuietAt(t, i, k);
      QuietKeepsIt(t[k - 1], t[k]);
    }
  }

  /** While the power stays on, over any processes that die, writes that fail and responses that are
      lost, the journal accounts for every request: from the beginning, or from any state whose journal
      knows the keys sent so far. */
  lemma ExactlyOnce(t: seq<World>, i: nat, k: nat)
    requires IsRun(t) && Quiet(t, i) && i <= k < |t| && (i == 0 || AccountedNow(t[i]))
    ensures AccountedNow(t[k]) && AppliedOnce(t[k], t[k].durable)
  {
    hide IsRun, Quiet, AppliedOnce, Explains, Agree, SentOnce;
    if i == 0 {
      RunAt(t, 0);
      StartIsAccounted();
    }
    QuietKeepsAccounted(t, i, k);
    RunKeepsInv(t, k);
    KnownIsAppliedOnce(t[k], t[k].durable);
  }

  /** The power fails on the way to the state at `i`, and leaves a journal that does not know some key
      that was sent. */
  ghost predicate Forgets(t: seq<World>, i: nat)
    requires 0 < i < |t|
  {
    !QuietNext(t[i - 1], t[i]) && !(SentKeys(t[i - 1].sent) <= KeysOf(t[i].durable))
  }

  lemma ForgetsExactly(t: seq<World>, i: nat)
    requires IsRun(t) && 0 < i < |t| && AccountedNow(t[i - 1])
    ensures AccountedNow(t[i]) <==> !Forgets(t, i)
  {
    hide IsRun, AccountedNow, Inv;
    RunKeepsInv(t, i - 1);
    RunAt(t, i);
    if QuietNext(t[i - 1], t[i]) {
      QuietKeepsIt(t[i - 1], t[i]);
    } else {
      var a :| Step(t[i - 1], a, t[i]);
      StepKeepsAccountedNow(t[i - 1], a, t[i]);
    }
  }

  /** Over power losses, every request stays accounted for in every state of a run if and only if no power
      loss left a journal that had not known some key already sent. */
  lemma AccountedNowExactly(t: seq<World>)
    requires IsRun(t)
    ensures (forall i :: 0 <= i < |t| ==> AccountedNow(t[i])) <==> (forall i :: 0 < i < |t| ==> !Forgets(t, i))
  {
    hide IsRun, AccountedNow, Forgets;
    if forall i :: 0 <= i < |t| ==> AccountedNow(t[i]) {
      forall i | 0 < i < |t|
        ensures !Forgets(t, i)
      {
        ForgetsExactly(t, i);
      }
    }
    if forall i :: 0 < i < |t| ==> !Forgets(t, i) {
      forall k | 0 <= k < |t|
        ensures AccountedNow(t[k])
      {
        NothingForgotten(t, k);
      }
    }
  }

  lemma {:induction false} NothingForgotten(t: seq<World>, k: nat)
    requires IsRun(t) && k < |t| && forall i :: 0 < i <= k ==> !Forgets(t, i)
    ensures AccountedNow(t[k])
  {
    hide IsRun, AccountedNow, Forgets;
    if k == 0 {
      RunAt(t, 0);
      StartIsAccounted();
    } else {
      NothingForgotten(t, k - 1);
      ForgetsExactly(t, k);
    }
  }

  lemma StartIsAccounted()
    ensures AccountedNow(InitialWorld)
  {
  }

  /** If each request was known to every journal the file might hold when it was sent, all that is so of
      every journal a power loss may bring back. */
  lemma ExactlyOnceInAll(t: seq<World>, i: nat, v: Version)
    requires IsRun(t) && Careful(t) && i < |t| && v in t[i].past
    ensures AppliedOnce(t[i], v)
  {
    hide IsRun, AppliedOnce, Inv, Careful;
    RunKeepsInv(t, i);
    CarefulIsAccounted(t, i);
    KnownIsAppliedOnce(t[i], v);
  }

  /** A pending request comes into being before it is sent, and ends only as the next record; a power
      loss aside, which brings a whole earlier journal back. */
  lemma PendingLifeCycle(w: World, a: Action, w': World)
    requires Inv(w) && Step(w, a, w') && w.durable.Some?
    ensures a.PowerLoss? ==> w'.durable in w.past && w'.sent == w.sent
    ensures !a.PowerLoss? ==>
      && w'.durable.Some?
      && var j, j' := w.durable.value, w'.durable.value;
      || (j'.pending == j.pending && j'.history == j.history)
      || (&& j.pending.None? && j'.pending.Some? && j'.history == j.history
          && j'.pending.value.key !in SentKeys(w'.sent))
      || (&& j.pending.Some? && j'.pending.None? && |j'.history| == |j.history| + 1
          && j'.history[..|j.history|] == j.history
          && var r := j'.history[|j.history|];
          && r.route == j.pending.value.route && r.key == j.pending.value.key
          && r.digest == j.pending.value.digest)
  {
    hide Inv, ValidJournal, ResponseIsBound, ResponseCoordinates;
  }

  /** Two transmissions under one key, however many crashes and power losses apart, are the same
      request: route, path, role and whole body. */
  lemma ReplayIdentity(t: seq<World>, i: nat, m: nat, n: nat)
    requires IsRun(t) && i < |t| && m < |t[i].sent| && n < |t[i].sent|
    requires t[i].sent[m].key == t[i].sent[n].key
    ensures t[i].sent[m] == t[i].sent[n]
  {
    hide Explains, Agree;
    RunKeepsInv(t, i);
  }

  /** An accepted request was sent, under its own key and with the body its record has the digest of. */
  lemma AcceptedWasSent(w: World, k: nat) returns (i: nat)
    requires Inv(w) && w.durable.Some? && k < |w.durable.value.history|
    ensures i < |w.sent|
    ensures var r := w.durable.value.history[k];
      w.sent[i].key == r.key && w.sent[i].route == r.route && Sha256(w.sent[i].body) == r.digest
  {
    hide Coherent, Agree, SentOnce;
    var j := w.durable.value;
    assert Explains(w, j);
    var r := j.history[k];
    assert r.key in RecordKeys(j.history);
    assert r.key in SentKeys(w.sent);
    var s :| s in w.sent && s.key == r.key;
    i :| 0 <= i < |w.sent| && w.sent[i] == s;
  }

  // ----- end states -----

  predicate EndedVersion(v: Version) { v.Some? && Rank(v.value.phase) >= 8 }

  predicate Ended(w: World) { EndedVersion(w.durable) }

  /** Every journal the file may hold is at its end. */
  predicate AllEnded(w: World) { forall v :: v in w.past ==> EndedVersion(v) }

  lemma EndedStays(w: World, a: Action, w': World)
    requires Ended(w) && Coherent(w.durable.value) && Step(w, a, w')
    ensures w'.sent == w.sent && (!a.PowerLoss? ==> Ended(w') && w'.durable.value.history == w.durable.value.history)
    ensures AllEnded(w) ==> AllEnded(w')
  {
    hide Coherent, ValidJournal, ResponseIsBound, ResponseCoordinates, Bookkeeping, Fresh;
    EndedWaitsForNothing(w.durable.value);
    if a.Book? { EndedBooks(w.durable.value, a.journal); }
  }

  lemma EndedBooks(j: Journal, j': Journal)
    requires Rank(j.phase) >= 8 && Bookkeeping(j, j')
    ensures Rank(j'.phase) >= 8 && j'.history == j.history
  {
  }

  lemma EndedWaitsForNothing(j: Journal)
    requires Coherent(j) && Rank(j.phase) >= 8
    ensures j.pending.None? && forall p :: !ValidJournal(j.(pending := Some(p)))
  {
    hide Matches, NotYet, PhaseOf, DistinctKeys, RecordKeys;
  }

  /** Once advanced, converged, unchanged or in need of attention, an operation sends nothing more while
      the power stays on. */
  lemma {:induction false} EndStatesAbsorb(t: seq<World>, i: nat, k: nat)
    requires IsRun(t) && Quiet(t, i) && i <= k < |t| && Ended(t[i])
    ensures Ended(t[k]) && t[k].sent == t[i].sent
    ensures t[k].durable.value.history == t[i].durable.value.history
    decreases k
  {
    hide IsRun, Quiet, Step, Coherent, EndedVersion;
    if i < k {
      EndStatesAbsorb(t, i, k - 1);
      QuietAt(t, i, k);
      QuietEnd(t, k);
    }
  }

  lemma QuietEnd(t: seq<World>, k: nat)
    requires IsRun(t) && 0 < k < |t| && QuietNext(t[k - 1], t[k]) && Ended(t[k - 1])
    ensures Ended(t[k]) && t[k].sent == t[k - 1].sent
    ensures t[k].durable.value.history == t[k - 1].durable.value.history
  {
    hide IsRun, Step, Coherent;
    DurableIsCoherent(t, k - 1);
    var a :| Step(t[k - 1], a, t[k]) && !a.PowerLoss?;
    EndedStays(t[k - 1], a, t[k]);
  }

  /** Once every journal the file may hold is at its end, as when one at its end was reported stored,
      no power loss can make the operation send anything again. */
  lemma {:induction false} StoredEndStatesAbsorb(t: seq<World>, i: nat, k: nat)
    requires IsRun(t) && i <= k < |t| && AllEnded(t[i])
    ensures AllEnded(t[k]) && Ended(t[k]) && t[k].sent == t[i].sent
    decreases k
  {
    hide IsRun, Step, Coherent, AllEnded, Fits, Agree, SentOnce;
    RunKeepsInv(t, k);
    EndedNow(t[k]);
    if i < k {
      StoredEndStatesAbsorb(t, i, k - 1);
      DurableIsCoherent(t, k - 1);
      RunAt(t, k);
      var a :| Step(t[k - 1], a, t[k]);
      EndedStays(t[k - 1], a, t[k]);
      EndedNow(t[k]);
    }
  }

  lemma EndedNow(w: World)
    ensures w.durable in w.past && AllEnded(w) ==> Ended(w)
  {
  }

  /** Short of that, an end that was never reported stored may be taken back to the journal that still
      waits for the last response, and its request is sent once more. */
  lemma EndTakenBack(w: World, v: Version) returns (t: seq<World>)
    requires Inv(w) && v in w.past && v.Some? && v.value.pending.Some?
    ensures Leads(w, t)
    ensures var p := v.value.pending.value; t[|t| - 1].sent == w.sent + [RequestOf(p, p.digest.body)]
  {
    hide Inv;
    t := TakenBack(w, v);
    var p := v.value.pending.value;
    var w' := t[1].(sent := w.sent + [RequestOf(p, p.digest.body)]);
    assert Step(t[1], Send(p.digest.body, false), w');
    assert Next(t[1], w');
    t := [t[0], t[1], w'];
  }

  // ----- the language of accepted requests -----

  /** The phases a history passes through, one prefix at a time. */
  lemma {:induction false} PrefixHasPhase(h: seq<Record>, i: nat)
    requires PhaseOf(h).Some? && i < |h|
    ensures PhaseOf(h[..i]).Some? && MayPend(h[i].route, PhaseOf(h[..i]).value)
    ensures PhaseOf(h[..i + 1]) == Some(PhaseAfter(h[i].route, h[i].response))
  {
    var before := h[..|h| - 1];
    if i < |h| - 1 {
      PrefixHasPhase(before, i);
      assert before[..i] == h[..i] && before[..i + 1] == h[..i + 1];
    } else {
      assert h[..i + 1] == h;
    }
  }

  lemma {:induction false} PhasesClimb(h: seq<Record>, i: nat, k: nat)
    requires PhaseOf(h).Some? && i <= k <= |h|
    ensures PhaseOf(h[..i]).Some? && PhaseOf(h[..k]).Some?
    ensures Rank(PhaseOf(h[..i]).value) <= Rank(PhaseOf(h[..k]).value)
    decreases k
  {
    if i < k {
      PhasesClimb(h, i, k - 1);
      PrefixHasPhase(h, k - 1);
    } else if k < |h| {
      PrefixHasPhase(h, k);
    } else {
      assert h[..k] == h;
    }
  }

  function Routes(h: seq<Record>): seq<Route> {
    if h == [] then [] else Routes(h[..|h| - 1]) + [h[|h| - 1].route]
  }

  function Executes(n: nat): seq<Route> {
    if n == 0 then [] else Executes(n - 1) + [ExecuteRoute]
  }

  function Opening(decided: bool): seq<Route> {
    if decided then [PrepareRoute, DecideRoute, AdmitRoute, ClaimRoute, StartRoute]
    else [PrepareRoute, AdmitRoute, ClaimRoute, StartRoute]
  }

  /** prepare, decide at most once, admit, claim, start, execute n times, advance. */
  function Language(decided: bool, n: nat): seq<Route> {
    Opening(decided) + Executes(n) + [AdvanceRoute]
  }

  /** The word spelt so far, for each phase a history can reach. */
  function Spelt(p: Phase, decided: bool, n: nat): seq<Route> {
    match p
    case Planning => []
    case Prepared => [PrepareRoute]
    case Approval => [PrepareRoute, DecideRoute]
    case Admitted => if decided then [PrepareRoute, DecideRoute, AdmitRoute] else [PrepareRoute, AdmitRoute]
    case Claim =>
      if decided then [PrepareRoute, DecideRoute, AdmitRoute, ClaimRoute]
      else [PrepareRoute, AdmitRoute, ClaimRoute]
    case Started => Opening(decided)
    case Advance => Language(decided, n)
    case _ => Opening(decided) + Executes(n)
  }

  lemma ExecutesOn(n: nat)
    ensures Executes(1) == [ExecuteRoute] && Executes(n + 1) == Executes(n) + [ExecuteRoute]
  {
  }

  lemma SpellExecute(before: Phase, decided: bool, n: nat) returns (n': nat)
    requires before.Started? || before.Executing?
    ensures n' > 0 && Opening(decided) + Executes(n') == Spelt(before, decided, n) + [ExecuteRoute]
  {
    hide Executes, Opening, Language;
    n' := if before.Started? then 1 else n + 1;
    ExecutesOn(n);
  }

  lemma SpellAdmit(before: Phase, decided: bool, n: nat)
    requires before.Prepared? || before.Approval?
    ensures Spelt(Admitted, before.Approval?, n) == Spelt(before, decided, n) + [AdmitRoute]
  {
    hide Executes, Opening, Language;
  }

  /** One more record spells one more route. */
  lemma SpellOn(before: Phase, r: Record, decided: bool, n: nat) returns (decided': bool, n': nat)
    requires MayPend(r.route, before)
    ensures Spelt(PhaseAfter(r.route, r.response), decided', n') == Spelt(before, decided, n) + [r.route]
    ensures r.route.ExecuteRoute? ==> n' > 0
    ensures r.route.AdvanceRoute? ==> n' == n
    ensures r.route.DecideRoute? ==> decided'
  {
    hide Executes;
    decided', n' := decided, n;
    match r.route
    case PrepareRoute =>
    case DecideRoute => decided' := true;
    case AdmitRoute =>
      decided' := before.Approval?;
      SpellAdmit(before, decided, n);
    case ClaimRoute =>
    case StartRoute =>
    case ExecuteRoute => n' := SpellExecute(before, decided, n);
    case AdvanceRoute =>
  }

  lemma {:induction false} HistorySpells(h: seq<Record>) returns (decided: bool, n: nat)
    requires PhaseOf(h).Some?
    ensures Routes(h) == Spelt(PhaseOf(h).value, decided, n)
    ensures !PhaseOf(h).value.NoChange? && !PhaseOf(h).value.Converge?
    ensures PhaseOf(h).value.Approval? ==> decided
    ensures 6 <= Rank(PhaseOf(h).value) ==> n > 0
  {
    decided, n := false, 0;
    if h != [] {
      hide Spelt;
      decided, n := HistorySpells(h[..|h| - 1]);
      decided, n := SpellOn(PhaseOf(h[..|h| - 1]).value, h[|h| - 1], decided, n);
    }
  }

  lemma {:induction false} RoutesCount(h: seq<Record>)
    ensures |Routes(h)| == |h|
    ensures forall i :: 0 <= i < |h| ==> Routes(h)[i] == h[i].route
  {
    if h != [] { RoutesCount(h[..|h| - 1]); }
  }

  lemma {:induction false} ExecutesCount(n: nat)
    ensures |Executes(n)| == n && forall i :: 0 <= i < n ==> Executes(n)[i] == ExecuteRoute
  {
    if n > 0 { ExecutesCount(n - 1); }
  }

  lemma SpeltIsPrefix(p: Phase, decided: bool, n: nat)
    requires !p.NoChange? && !p.Converge? && (p.Approval? ==> decided)
    ensures Spelt(p, decided, n) <= Language(decided, n)
    ensures p.Advance? ==> Spelt(p, decided, n) == Language(decided, n)
    ensures Rank(p) < 6 ==> Spelt(p, decided, n) == Spelt(p, decided, 0)
    ensures Rank(p) >= 5 ==> |Spelt(p, decided, n)| >= 4
    ensures Rank(p) >= 6 ==> |Spelt(p, decided, n)| >= 4 + n
  {
    ExecutesCount(n);
    hide Executes;
  }

  /** The accepted routes of a coherent journal are a prefix of a word of the language; with at most
      128 records, at most 124 of them are executes. */
  lemma HistoryLanguage(j: Journal) returns (decided: bool, n: nat)
    requires Coherent(j)
    ensures Routes(j.history) <= Language(decided, n) && |Routes(j.history)| == |j.history|
    ensures Rank(j.phase) == 8 || Rank(j.phase) == 9 ==> Routes(j.history) == Language(decided, n)
    ensures 0 < n <= MAXIMUM_REQUEST_RECORDS - 4
  {
    hide ValidCoordinates, PhaseFits, ValidPending, ValidResult, NotYet, Matches, DistinctKeys, RecordKeys,
         Spelt, Language, Routes, PhaseOf;
    decided, n := HistorySpells(j.history);
    RoutesCount(j.history);
    SpeltIsPrefix(PhaseOf(j.history).value, decided, n);
    if Rank(PhaseOf(j.history).value) < 6 {
      n := 1;
      SpeltIsPrefix(PhaseOf(j.history).value, decided, 1);
    }
  }

  lemma ExecutesInOrder(h: seq<Record>, i: nat, k: nat)
    requires PhaseOf(h).Some? && i < k < |h| && h[i].route.ExecuteRoute?
    ensures h[k].route.ExecuteRoute? ==> h[i].response.coordinatorStatus == Some(Progressed)
    ensures h[k].route.AdvanceRoute? && k == i + 1 ==> h[i].response.coordinatorStatus == Some(Completed)
  {
    PrefixHasPhase(h, i);
    PrefixHasPhase(h, k);
    PhasesClimb(h, i + 1, k);
    hide PhaseOf;
  }

  /** Between executes the run only progressed, and an advancement follows a completed execute. */
  lemma ExecutesProgress(j: Journal, i: nat, k: nat)
    requires Coherent(j) && i < k < |j.history|
    requires j.history[i].route.ExecuteRoute?
    ensures j.history[k].route.ExecuteRoute? ==> j.history[i].response.coordinatorStatus == Some(Progressed)
    ensures j.history[k].route.AdvanceRoute? && k == i + 1 ==>
              && j.history[i].response.coordinatorStatus == Some(Completed)
              && j.history[i].response.runStatus == Some(Succeeded)
  {
    hide ValidJournal, NotYet, DistinctKeys, RecordKeys, PhaseOf;
    ExecutesInOrder(j.history, i, k);
    assert Matches(j.coords, j.history[i]);
  }

  // ----- converged -----

  lemma EndsInAdvance(h: seq<Record>, decided: bool, n: nat)
    requires Routes(h) == Language(decided, n) && n > 0
    ensures |h| >= 6 && h[|h| - 2].route.ExecuteRoute? && h[|h| - 1].route.AdvanceRoute?
  {
    RoutesCount(h);
    ExecutesCount(n);
    var l := Language(decided, n);
    assert l[|l| - 1] == AdvanceRoute && l[|l| - 2] == ExecuteRoute;
  }

  /** An advanced or converged journal ends in a completed, succeeded execute followed by the
      advancement from exactly the plan's base pointer to its desired pointer and revision, and
      that advancement was sent and applied. */
  lemma ConvergedIsSound(w: World) returns (sent: nat)
    requires Inv(w) && w.durable.Some? && 8 <= Rank(w.durable.value.phase) <= 9
    ensures sent < |w.sent|
    ensures var c, h := w.durable.value.coords, w.durable.value.history;
      && Recorded(c) && c.claimGeneration.Some? && |h| >= 6
      && var last, before := h[|h| - 1], h[|h| - 2];
      && before.route.ExecuteRoute?
      && before.response.coordinatorStatus == Some(Completed) && before.response.runStatus == Some(Succeeded)
      && last.route.AdvanceRoute? && last.key in w.applied
      && w.sent[sent].route.AdvanceRoute?
      && w.sent[sent].body == AdvanceBody(
           last.key, c.planId.value, c.claimGeneration.value,
           Pointer(c.baseGraph.value, c.baseProjection.value),
           Pointer(c.desiredGraph.value, c.desiredProjection.value), c.desiredRevision.value)
  {
    hide ValidJournal, NotYet, DistinctKeys, Fits, Agree, SentOnce, PhaseOf;
    var j := w.durable.value;
    assert Explains(w, j);
    var h := j.history;
    var decided, n := HistoryLanguage(j);
    EndsInAdvance(h, decided, n);
    hide Language, Routes;
    ExecutesProgress(j, |h| - 2, |h| - 1);
    assert Matches(j.coords, h[|h| - 1]);
    assert h[|h| - 1].key in RecordKeys(h);
    sent := AcceptedWasSent(w, |h| - 1);
  }

  // ----- effects -----

  function EffectsAttempted(h: seq<Record>): int {
    if h == [] then 0
    else
      var r := h[|h| - 1];
      EffectsAttempted(h[..|h| - 1])
        + if r.route.ExecuteRoute? && r.response.effects.Some? then r.response.effects.value else 0
  }

  function ExecutesIn(routes: seq<Route>): nat {
    if routes == [] then 0
    else ExecutesIn(routes[..|routes| - 1]) + if routes[|routes| - 1].ExecuteRoute? then 1 else 0
  }

  lemma {:induction false} EffectsPerExecute(c: Coordinates, h: seq<Record>)
    requires forall i :: 0 <= i < |h| ==> Matches(c, h[i])
    ensures 0 <= EffectsAttempted(h) <= ExecutesIn(Routes(h))
  {
    if h != [] {
      EffectsPerExecute(c, h[..|h| - 1]);
      assert Matches(c, h[|h| - 1]);
      var routes := Routes(h);
      assert routes[..|routes| - 1] == Routes(h[..|h| - 1]);
    }
  }

  lemma {:induction false} PrefixExecutes(decided: bool, n: nat, m: nat)
    requires m <= |Language(decided, n)|
    ensures var opening := |Opening(decided)|;
      ExecutesIn(Language(decided, n)[..m]) ==
        if m <= opening then 0 else if m <= opening + n then m - opening else n
  {
    var l := Language(decided, n);
    ExecutesCount(n);
    if m > 0 {
      assert l[..m][..m - 1] == l[..m - 1];
      PrefixExecutes(decided, n, m - 1);
    }
  }

  /** One operation makes at most 124 accepted executes and attempts at most that many effects. */
  lemma EffectBudget(j: Journal)
    requires Coherent(j)
    ensures 0 <= EffectsAttempted(j.history) <= ExecutesIn(Routes(j.history)) <= MAXIMUM_REQUEST_RECORDS - 4
  {
    var decided, n := HistoryLanguage(j);
    EffectsPerExecute(j.coords, j.history);
    PrefixExecutes(decided, n, |j.history|);
    assert Routes(j.history) == Language(decided, n)[..|j.history|];
  }

  // ----- one accepted request -----

  /** What folding a bound response into the journal keeps and where it leads. */
  lemma FoldShows(j: Journal, response: Fields, j': Journal)
    requires Coherent(j) && Folds(j, response, j')
    ensures Coherent(j') && Frozen(j.coords, j'.coords)
    ensures j'.pending.None? && |j'.history| == |j.history| + 1 && j'.target == j.target
    ensures !j.pending.value.route.PrepareRoute? ==> j'.coords.approvalId == j.coords.approvalId
    ensures var r := ResponseCoordinates(j.pending.value.route, response);
      r.Ok? && j'.phase == PhaseAfter(j.pending.value.route, r.value)
  {
    var projection := ResponseCoordinates(j.pending.value.route, response).value;
    AcceptMovesForward(j, response, projection);
    AcceptKeepsCoherent(j, response, projection);
    ResponseAdds(j, response, projection);
    hide Coherent, Frozen, ResponseIsBound, ResponseCoordinates, Matches, ValidCoordinates, PhaseFits, NotYet;
  }

  lemma PreparationShows(j: Journal, response: Fields, j': Journal)
    requires Folds(j, response, j') && j.pending.value.route.PrepareRoute? && j.coords == NoCoordinates
    ensures j'.phase.Prepared? && j'.pending.None? && j'.target == j.target
    ensures ResponseCoordinates(PrepareRoute, response) == Ok(j'.coords)
  {
  }

  /** A journal that started its run has accepted at least four requests. */
  lemma StartedHistory(j: Journal)
    requires Coherent(j) && 5 <= Rank(j.phase) <= 6
    ensures |j.history| >= 4
  {
    hide ValidJournal, NotYet, Matches, DistinctKeys, Spelt, Routes, PhaseOf;
    var decided, n := HistorySpells(j.history);
    RoutesCount(j.history);
    SpeltIsPrefix(PhaseOf(j.history).value, decided, n);
  }

  /** Where the admission and the claim stand in what a history spells. */
  lemma SpeltAdmits(p: Phase, decided: bool, n: nat)
    requires 3 <= Rank(p) && !p.NoChange?
    ensures var word := Spelt(p, decided, n);
      var i := if |word| > 1 && word[1].DecideRoute? then 2 else 1;
      && i < |word| && word[i].AdmitRoute?
      && (4 <= Rank(p) ==> i + 1 < |word| && word[i + 1].ClaimRoute?)
  {
    hide Executes;
  }

  lemma SpeltEarly(p: Phase, decided: bool, n: nat)
    requires Rank(p) <= 5
    ensures |Spelt(p, decided, n)| <= 5
  {
  }

  /** Up to the start an operation has accepted at most five requests. */
  lemma EarlyHistory(j: Journal)
    requires Coherent(j) && Rank(j.phase) <= 5
    ensures |j.history| <= 5
  {
    hide ValidJournal, NotYet, Matches, DistinctKeys, Spelt, Routes, PhaseOf;
    var decided, n := HistorySpells(j.history);
    RoutesCount(j.history);
    SpeltEarly(PhaseOf(j.history).value, decided, n);
  }

  lemma AdmittedHasApproval(j: Journal)
    requires Coherent(j) && 3 <= Rank(j.phase) <= 9
    ensures j.coords.approvalId.Some?
  {
    hide ValidJournal, NotYet, DistinctKeys, Spelt, Routes, PhaseOf;
    var decided, n := HistorySpells(j.history);
    RoutesCount(j.history);
    SpeltAdmits(PhaseOf(j.history).value, decided, n);
    var i: nat :| i < |j.history| && j.history[i].route.AdmitRoute?;
    assert Matches(j.coords, j.history[i]);
  }

  lemma ClaimedHasGeneration(j: Journal)
    requires Coherent(j) && 4 <= Rank(j.phase) <= 9
    ensures j.coords.claimGeneration.Some? && j.coords.claimGeneration.value > 0
  {
    hide ValidJournal, NotYet, DistinctKeys, Spelt, Routes, PhaseOf;
    var decided, n := HistorySpells(j.history);
    RoutesCount(j.history);
    SpeltAdmits(PhaseOf(j.history).value, decided, n);
    var i: nat :| i < |j.history| && j.history[i].route.ClaimRoute?;
    assert Matches(j.coords, j.history[i]);
  }
}
