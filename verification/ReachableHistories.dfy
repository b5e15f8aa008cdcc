/** The histories a run can reach are exactly the words of the protocol's language that fit the budget. */
module ReachableHistories {
  import opened Wrappers
  import opened PublicValues
  import opened JournalFormat
  import opened PublicResponses
  import opened DurableProtocol
  import opened ProtocolTheorems
  import opened PublicReads

  /** Any coordinate text. */
  const X := Name("x")
  const TARGET := Target([], X)
  const SOURCE := Source(X, 0, [])
  const CURRENT := Pointer(X, X)

  // ----- a cooperative server -----

  function ItemFor(r: Route, c: Coordinates): Option<Word> {
    match r
    case PrepareRoute => None
    case DecideRoute => c.approvalId
    case AdmitRoute => c.planId
    case ClaimRoute => c.executionRequest
    case _ => c.runId
  }

  /** The coordinates a request on a route is made of are there. */
  predicate Requestable(r: Route, c: Coordinates) {
    && (!r.PrepareRoute? ==> Recorded(c) && c.approvalId.Some?)
    && (r.StartRoute? || r.ExecuteRoute? || r.AdvanceRoute? ==> c.claimGeneration.Some?)
  }

  /** The body a client sends on a route once the coordinates it needs are there. */
  function BodyFor(r: Route, key: Key, c: Coordinates): (b: Body)
    requires Requestable(r, c)
    ensures b.key == key
  {
    match r
    case PrepareRoute => PrepareBody(key, Some(Graph([])), CURRENT, None, 0, X)
    case DecideRoute => DecideBody(key, c.sessionId.value, Approved)
    case AdmitRoute => AdmitBody(key, c.sessionId.value, c.approvalId.value, [])
    case ClaimRoute => ClaimBody(key, 1800)
    case StartRoute => StartBody(key, c.claimGeneration.value)
    case ExecuteRoute => ExecuteBody(key, c.claimGeneration.value, 1)
    case AdvanceRoute =>
      AdvanceBody(key, c.planId.value, c.claimGeneration.value,
                  Pointer(c.baseGraph.value, c.baseProjection.value),
                  Pointer(c.desiredGraph.value, c.desiredProjection.value), c.desiredRevision.value)
  }

  /** What a server answers to it; an execute completes or progresses. */
  function ResponseFor(r: Route, c: Coordinates, completes: bool): Fields
    requires r.AdvanceRoute? ==> Recorded(c)
  {
    match r
    case PrepareRoute => map[WorkspaceId := Text(X), PlanId := Text(X), ApprovalRequestId := Text(X)]
    case DecideRoute => map[RequestId := OfText(c.approvalId), State := Text(Approved)]
    case AdmitRoute => map[ExecutionRequestId := Text(X)]
    case ClaimRoute =>
      map[ExecutionRequestId := OfText(c.executionRequest), RunId := Text(X), RunStatus := Text(Word.Claimed),
          ClaimGeneration := Int(1)]
    case StartRoute =>
      map[ExecutionRequestId := OfText(c.executionRequest), RunId := OfText(c.runId),
          RunStatus := Text(Word.Running), ClaimGeneration := OfInt(c.claimGeneration)]
    case ExecuteRoute =>
      if completes then
        map[RunId := OfText(c.runId), RunStatus := Text(Succeeded), CoordinatorStatus := Text(Completed),
            EffectsAttempted := Int(1)]
      else
        map[RunId := OfText(c.runId), RunStatus := Text(Word.Running), CoordinatorStatus := Text(Progressed),
            EffectsAttempted := Int(1), ActivityId := Text(X)]
    case AdvanceRoute =>
      map[FromGraphId := OfText(c.baseGraph), FromProjectionId := OfText(c.baseProjection),
          ToGraphId := OfText(c.desiredGraph), ToProjectionId := OfText(c.desiredProjection),
          DesiredRevision := OfInt(c.desiredRevision)]
  }

  /** Where the exchange leads. */
  function PhaseThen(r: Route, completes: bool): Phase {
    match r
    case PrepareRoute => Prepared
    case DecideRoute => Approval
    case AdmitRoute => Admitted
    case ClaimRoute => Claim
    case StartRoute => Started
    case ExecuteRoute => if completes then Executed else Executing
    case AdvanceRoute => Advance
  }

  /** The journal waits for nothing and has what the next request needs. */
  predicate Open(j: Journal) {
    && j.pending.None? && j.target == TARGET && j.desired == SOURCE
    && (!j.phase.Planning? ==> Recorded(j.coords) && j.coords.approvalId.Some?)
  }

  function RequestFor(r: Route, key: Key, c: Coordinates): Pending
    requires Requestable(r, c)
  {
    PendingOf(r, ItemFor(r, c), BodyFor(r, key, c), RoleOf(r), X, if r.PrepareRoute? then Some(SOURCE) else None)
  }

  /** The request can be made, and the answer is bound to it and leads on. */
  predicate Exchanges(j: Journal, r: Route, key: Key, completes: bool)
  {
    && Requestable(r, j.coords)
    && var p, response := RequestFor(r, key, j.coords), ResponseFor(r, j.coords, completes);
    && ValidRequest(p, TARGET, SOURCE, j.coords)
    && ResponseIsBound(response, p, p.digest.body, j.coords, X) == Ok(true)
    && ResponseCoordinates(r, response).Ok?
    && PhaseAfter(r, ResponseCoordinates(r, response).value) == PhaseThen(r, completes)
  }

  lemma PrepareExchanges(j: Journal, key: Key, completes: bool)
    requires Open(j) && ValidCoordinates(j.coords) && PhaseFits(j.phase, j.coords) && MayPend(PrepareRoute, j.phase)
    ensures Exchanges(j, PrepareRoute, key, completes)
  {
  }

  lemma DecideExchanges(j: Journal, key: Key, completes: bool)
    requires Open(j) && ValidCoordinates(j.coords) && PhaseFits(j.phase, j.coords) && MayPend(DecideRoute, j.phase)
    ensures Exchanges(j, DecideRoute, key, completes)
  {
  }

  lemma AdmitExchanges(j: Journal, key: Key, completes: bool)
    requires Open(j) && ValidCoordinates(j.coords) && PhaseFits(j.phase, j.coords) && MayPend(AdmitRoute, j.phase)
    ensures Exchanges(j, AdmitRoute, key, completes)
  {
  }

  lemma ClaimExchanges(j: Journal, key: Key, completes: bool)
    requires Open(j) && ValidCoordinates(j.coords) && PhaseFits(j.phase, j.coords) && MayPend(ClaimRoute, j.phase)
    ensures Exchanges(j, ClaimRoute, key, completes)
  {
    hide ValidCoordinates;
  }

  lemma StartExchanges(j: Journal, key: Key, completes: bool)
    requires Open(j) && ValidCoordinates(j.coords) && PhaseFits(j.phase, j.coords) && MayPend(StartRoute, j.phase)
    ensures Exchanges(j, StartRoute, key, completes)
  {
    hide Recorded;
  }

  lemma ExecuteExchanges(j: Journal, key: Key, completes: bool)
    requires Open(j) && ValidCoordinates(j.coords) && PhaseFits(j.phase, j.coords) && MayPend(ExecuteRoute, j.phase)
    ensures Exchanges(j, ExecuteRoute, key, completes)
  {
    var p := RequestFor(ExecuteRoute, key, j.coords);
    assert ValidRequest(p, TARGET, SOURCE, j.coords);
    hide ValidRequest, PendingOf;
    assert p.path.item == j.coords.runId && p.digest.body == BodyFor(ExecuteRoute, key, j.coords);
    if completes {
      ExecuteCompletes(p, j.coords);
    } else {
      ExecuteProgresses(p, j.coords);
    }
  }

  lemma ExecuteCompletes(p: Pending, c: Coordinates)
    requires c.runId.Some? && IsText(c.runId.value) && p.path.item == c.runId
    ensures ExecutionIsBound(ResponseFor(ExecuteRoute, c, true), p, 1) == Ok(true)
    ensures var projection := ResponseCoordinates(ExecuteRoute, ResponseFor(ExecuteRoute, c, true));
      projection.Ok? && projection.value.coordinatorStatus == Some(Completed)
  {
    hide Recorded;
  }

  lemma ExecuteProgresses(p: Pending, c: Coordinates)
    requires c.runId.Some? && IsText(c.runId.value) && p.path.item == c.runId
    ensures ExecutionIsBound(ResponseFor(ExecuteRoute, c, false), p, 1) == Ok(true)
    ensures var projection := ResponseCoordinates(ExecuteRoute, ResponseFor(ExecuteRoute, c, false));
      projection.Ok? && projection.value.coordinatorStatus == Some(Progressed)
  {
  }

  lemma AdvanceExchanges(j: Journal, key: Key, completes: bool)
    requires Open(j) && ValidCoordinates(j.coords) && PhaseFits(j.phase, j.coords) && MayPend(AdvanceRoute, j.phase)
    ensures Exchanges(j, AdvanceRoute, key, completes)
  {
    hide ValidRequest, ResponseIsBound, ResponseCoordinates, ResponseFor;
    AdvanceRequestable(j, key);
    AdvanceAnswered(RequestFor(AdvanceRoute, key, j.coords), key, j.coords, completes);
  }

  lemma AdvanceRequestable(j: Journal, key: Key)
    requires Open(j) && ValidCoordinates(j.coords) && PhaseFits(j.phase, j.coords) && j.phase.Executed?
    ensures ValidRequest(RequestFor(AdvanceRoute, key, j.coords), TARGET, SOURCE, j.coords)
  {
  }

  lemma AdvanceAnswered(p: Pending, key: Key, c: Coordinates, completes: bool)
    requires Recorded(c) && c.approvalId.Some? && c.claimGeneration.Some? && ValidCoordinates(c)
    requires p.route.AdvanceRoute?
    ensures var response := ResponseFor(AdvanceRoute, c, completes);
      && ResponseIsBound(response, p, BodyFor(AdvanceRoute, key, c), c, X) == Ok(true)
      && ResponseCoordinates(AdvanceRoute, response).Ok?
  {
    hide ValidCoordinates, ResponseFor;
    AdvanceReads(c, completes);
  }

  lemma AdvanceReads(c: Coordinates, completes: bool)
    requires Recorded(c) && ValidCoordinates(c)
    ensures var response := ResponseFor(AdvanceRoute, c, completes);
      && Get(response, FromGraphId) == Text(c.baseGraph.value)
      && Get(response, FromProjectionId) == Text(c.baseProjection.value)
      && Get(response, ToGraphId) == Text(c.desiredGraph.value) && IsText(c.desiredGraph.value)
      && Get(response, ToProjectionId) == Text(c.desiredProjection.value) && IsText(c.desiredProjection.value)
      && Get(response, DesiredRevision) == Int(c.desiredRevision.value) && c.desiredRevision.value >= 0
  {
  }

  /** In a phase that allows a route, its exchange can happen. */
  lemma Answerable(j: Journal, r: Route, key: Key, completes: bool)
    requires Open(j) && ValidCoordinates(j.coords) && PhaseFits(j.phase, j.coords) && MayPend(r, j.phase)
    ensures Exchanges(j, r, key, completes)
  {
    hide Exchanges;
    match r
    case PrepareRoute => PrepareExchanges(j, key, completes);
    case DecideRoute => DecideExchanges(j, key, completes);
    case AdmitRoute => AdmitExchanges(j, key, completes);
    case ClaimRoute => ClaimExchanges(j, key, completes);
    case StartRoute => StartExchanges(j, key, completes);
    case ExecuteRoute => ExecuteExchanges(j, key, completes);
    case AdvanceRoute => AdvanceExchanges(j, key, completes);
  }

  // ----- one exchange in a run -----

  ghost predicate Reaches(t: seq<World>, j: Journal) {
    IsRun(t) && t[|t| - 1].durable == Some(j)
  }

  lemma ReachedIsCoherent(t: seq<World>, j: Journal)
    requires Reaches(t, j)
    ensures |t| > 0 && Inv(t[|t| - 1]) && Coherent(j) && ValidJournal(j)
    ensures ValidCoordinates(j.coords) && PhaseFits(j.phase, j.coords)
  {
    RunKeepsInv(t, |t| - 1);
    assert Explains(t[|t| - 1], j);
  }

  lemma Draw(t: seq<World>, j: Journal) returns (t': seq<World>, key: Key)
    requires Reaches(t, j) && j.pending.None?
    ensures Reaches(t', j) && t <= t' && |t'| == |t| + 1 > 1 && Fresh(t'[|t|], key)
    ensures key == t[|t| - 1].minted && t'[|t|] == t[|t| - 1].(minted := key + 1)
  {
    ReachedIsCoherent(t, j);
    var w := t[|t| - 1];
    key := w.minted;
    var drawn := w.(minted := key + 1);
    NextKeyIsFresh(w);
    ExtendRun(t, Mint, drawn);
    t' := t + [drawn];
  }

  lemma WrittenAhead(t: seq<World>, j: Journal, p: Pending) returns (t': seq<World>)
    requires Reaches(t, j) && j.pending.None? && |j.history| < MAXIMUM_REQUEST_RECORDS
    requires |t| > 0 && Fresh(t[|t| - 1], p.key) && p.body == Retained(p.digest.body)
    requires ValidRequest(p, j.target, j.desired, j.coords) && MayPend(p.route, j.phase)
    ensures Reaches(t', j.(pending := Some(p)))
  {
    hide ValidRequest, ValidJournal, Fresh, Inv, Coherent, ValidCoordinates, PhaseFits;
    ReachedIsCoherent(t, j);
    WriteAheadIsValid(j, p);
    var w := Stored(t[|t| - 1], j.(pending := Some(p)), true);
    ExtendRun(t, WriteAhead(p, true), w);
    t' := t + [w];
  }

  lemma Delivered(t: seq<World>, j: Journal, p: Pending) returns (t': seq<World>)
    requires Reaches(t, j) && j.pending == Some(p) && Sha256(p.digest.body) == p.digest
    ensures Reaches(t', j) && |t'| > 0 && p.key in t'[|t'| - 1].applied
  {
    var w := t[|t| - 1];
    var w' := w.(sent := w.sent + [RequestOf(p, p.digest.body)], applied := w.applied + {p.key});
    ExtendRun(t, Send(p.digest.body, true), w');
    t' := t + [w'];
  }

  /** The request is drawn, journalled, sent and applied. */
  lemma Announce(t: seq<World>, j: Journal, r: Route, completes: bool) returns (t': seq<World>, key: Key)
    requires Reaches(t, j) && Open(j) && MayPend(r, j.phase) && |j.history| < MAXIMUM_REQUEST_RECORDS
    ensures Requestable(r, j.coords) && Exchanges(j, r, key, completes)
    ensures PhaseFits(j.phase, j.coords) && Reaches(t', j.(pending := Some(RequestFor(r, key, j.coords))))
    ensures |t'| > 0 && key in t'[|t'| - 1].applied
  {
    hide Reaches, ValidJournal, ValidRequest, ResponseIsBound, ResponseCoordinates, ResponseFor, Fresh,
         ValidCoordinates, Inv, Coherent, BodyFor, PhaseFits;
    ReachedIsCoherent(t, j);
    t', key := Draw(t, j);
    Answerable(j, r, key, completes);
    var p := RequestFor(r, key, j.coords);
    t' := WrittenAhead(t', j, p);
    t' := Delivered(t', j.(pending := Some(p)), p);
  }

  /** The answer is folded in. */
  lemma Answer(t: seq<World>, j: Journal, r: Route, key: Key, completes: bool)
      returns (t': seq<World>, j': Journal, record: Record)
    requires Open(j) && PhaseFits(j.phase, j.coords) && MayPend(r, j.phase)
    requires Requestable(r, j.coords) && Exchanges(j, r, key, completes)
    requires Reaches(t, j.(pending := Some(RequestFor(r, key, j.coords))))
    requires |t| > 0 && key in t[|t| - 1].applied
    ensures Reaches(t', j') && j'.pending.None? && j'.target == TARGET && j'.desired == SOURCE
    ensures j'.history == j.history + [record] && record.route == r && j'.phase == PhaseThen(r, completes)
    ensures !r.PrepareRoute? ==> Open(j')
    ensures r.PrepareRoute? ==> Unrecorded(j'.coords) && j'.coords.planId.Some? && j'.coords.approvalId.Some?
  {
    hide ValidJournal, ValidRequest, ResponseIsBound, Inv, Coherent, IsRun, Matches;
    var p, response := RequestFor(r, key, j.coords), ResponseFor(r, j.coords, completes);
    var announced := j.(pending := Some(p));
    var projection := ResponseCoordinates(r, response).value;
    j' := Accepted(announced, p, projection);
    record := Record(p.route, p.key, p.digest, projection);
    var w := Stored(t[|t| - 1], j', true);
    ExtendRun(t, Accept(response, true), w);
    t' := t + [w];
    ReachedIsCoherent(t, announced);
    FoldShows(announced, response, j');
    if !r.PrepareRoute? { StaysRecorded(j.coords, j'.coords); }
  }

  lemma StaysRecorded(c: Coordinates, c': Coordinates)
    requires Recorded(c) && Frozen(c, c')
    ensures Recorded(c')
  {
  }

  /** The client takes the plan's coordinates over. */
  lemma Take(t: seq<World>, j: Journal) returns (t': seq<World>, j': Journal)
    requires Reaches(t, j) && j.phase.Prepared? && j.pending.None? && j.target == TARGET && j.desired == SOURCE
    requires Unrecorded(j.coords) && j.coords.planId.Some? && j.coords.approvalId.Some?
    ensures Reaches(t', j') && Open(j') && j'.phase.Prepared? && j'.history == j.history
  {
    hide ValidJournal, Coherent, Inv, IsRun, Unrecorded, Bookkeeping;
    ReachedIsCoherent(t, j);
    var c := Recording(j.coords);
    RecordedFits(j, c);
    j' := j.(coords := c);
    var w := Stored(t[|t| - 1], j', true);
    ExtendRun(t, Book(j', true), w);
    t' := t + [w];
  }

  lemma Recording(c: Coordinates) returns (c': Coordinates)
    requires Unrecorded(c) && c.planId.Some? && ValidCoordinates(c)
    ensures ValidCoordinates(c') && Records(c, c') && c'.approvalId == c.approvalId
  {
    c' := c.(sessionId := Some(X), baseGraph := Some(X), baseProjection := Some(X),
             desiredGraph := Some(X), desiredProjection := Some(X), desiredRevision := Some(0));
  }

  /** One more accepted request, on any route the phase allows. */
  lemma Exchange(t: seq<World>, j: Journal, r: Route, completes: bool)
      returns (t': seq<World>, j': Journal, record: Record)
    requires Reaches(t, j) && Open(j) && MayPend(r, j.phase) && |j.history| < MAXIMUM_REQUEST_RECORDS
    ensures Reaches(t', j') && Open(j')
    ensures j'.history == j.history + [record] && record.route == r && j'.phase == PhaseThen(r, completes)
  {
    hide Exchanges, Reaches;
    var announced, key := Announce(t, j, r, completes);
    t', j', record := Answer(announced, j, r, key, completes);
    if r.PrepareRoute? { t', j' := Take(t', j'); }
  }

  // ----- every word -----

  lemma LetterAt(decided: bool, n: nat, m: nat)
    requires m < |Language(decided, n)|
    ensures Language(decided, n)[m] ==
            if m < |Opening(decided)| then Opening(decided)[m]
            else if m < |Opening(decided)| + n then ExecuteRoute else AdvanceRoute
    ensures |Language(decided, n)| == |Opening(decided)| + n + 1
  {
    ExecutesCount(n);
  }

  /** The phase after the first `m` letters. */
  function PhaseAfterWord(decided: bool, n: nat, m: nat): Phase
    requires m <= |Language(decided, n)|
  {
    if m == 0 then Planning else PhaseThen(Language(decided, n)[m - 1], m == |Opening(decided)| + n)
  }

  lemma NextIsAllowed(decided: bool, n: nat, m: nat)
    requires n > 0 && m < |Language(decided, n)|
    ensures MayPend(Language(decided, n)[m], PhaseAfterWord(decided, n, m))
  {
    LetterAt(decided, n, m);
    if m > 0 { LetterAt(decided, n, m - 1); }
    hide Language;
  }

  lemma RoutesGrow(h: seq<Record>, r: Record)
    ensures Routes(h + [r]) == Routes(h) + [r.route]
  {
    assert (h + [r])[..|h|] == h;
  }

  /** A run that spells the first `m` letters of a word. */
  lemma {:induction false} Spell(decided: bool, n: nat, m: nat) returns (t: seq<World>, j: Journal)
    requires n > 0 && m <= |Language(decided, n)| && m <= MAXIMUM_REQUEST_RECORDS
    ensures Reaches(t, j) && Open(j) && Routes(j.history) == Language(decided, n)[..m] && |j.history| == m
    ensures j.phase == PhaseAfterWord(decided, n, m)
  {
    hide Language, Reaches, PhaseAfterWord;
    if m == 0 {
      t, j := Begin();
      StartsPlanning(decided, n);
    } else {
      t, j := Spell(decided, n, m - 1);
      NextIsAllowed(decided, n, m - 1);
      var letter := Language(decided, n)[m - 1];
      var before, record := j, *;
      t, j, record := Exchange(t, j, letter, m == |Opening(decided)| + n);
      RoutesGrow(before.history, record);
      assert Language(decided, n)[..m] == Language(decided, n)[..m - 1] + [letter];
      EndsIn(decided, n, m);
    }
  }

  lemma StartsPlanning(decided: bool, n: nat)
    ensures PhaseAfterWord(decided, n, 0) == Planning
  {
  }

  lemma EndsIn(decided: bool, n: nat, m: nat)
    requires 0 < m <= |Language(decided, n)|
    ensures PhaseAfterWord(decided, n, m) == PhaseThen(Language(decided, n)[m - 1], m == |Opening(decided)| + n)
  {
  }

  lemma Begin() returns (t: seq<World>, j: Journal)
    ensures Reaches(t, j) && Open(j) && j.history == [] && j.phase.Planning?
  {
    j := NewJournal(0, TARGET, SOURCE);
    var w := Stored(InitialWorld, j, true);
    ExtendRun([InitialWorld], Create(j, true), w);
    t := [InitialWorld] + [w];
  }

  /** A word some run's accepted routes spell. */
  ghost predicate Reachable(word: seq<Route>) {
    exists t, j :: Reaches(t, j) && Routes(j.history) == word
  }

  /** The reachable histories are exactly the prefixes of the language within the budget: the journal
      reaches nothing else, and against a server that answers it reaches all of them. */
  lemma LanguageIsExact(word: seq<Route>)
    ensures Reachable(word) <==>
            |word| <= MAXIMUM_REQUEST_RECORDS && exists decided, n: nat :: n > 0 && word <= Language(decided, n)
  {
    hide Language, Routes, Reaches, Open;
    if Reachable(word) {
      var t, j :| Reaches(t, j) && Routes(j.history) == word;
      ReachedIsCoherent(t, j);
      var decided, n := HistoryLanguage(j);
      WithinBudget(j);
      assert n > 0 && word <= Language(decided, n);
    }
    if decided, n: nat :|
      |word| <= MAXIMUM_REQUEST_RECORDS && n > 0 && word <= Language(decided, n)
    {
      var t, j := Spell(decided, n, |word|);
      assert word == Language(decided, n)[..|word|];
    }
  }

  lemma WithinBudget(j: Journal)
    requires ValidJournal(j)
    ensures |j.history| <= MAXIMUM_REQUEST_RECORDS
  {
  }
}
