/** The protocol between one operation's journal file and an untrusted server, as steps over what
    outlives the client process: the journal file, the requests handed to the transport, the
    idempotency keys the server has applied, and the key factory.

    A process that dies needs no step of its own: it only ends the taking of steps, so every state of
    a run is a state it may leave behind.  A power loss is a step: it may bring back any journal the
    file has held since a write was last reported stored, because a write that raised, or that the
    process did not survive, may have been seen by later processes without having been synced. */
module DurableProtocol {
  import opened Wrappers
  import opened PublicValues
  import opened JournalFormat
  import opened PublicResponses

  datatype Request = Request(route: Route, path: Path, role: Role, key: Key, body: Body)

  type Version = Option<Journal>

  /** `past` holds what a power loss may leave in the journal file. */
  datatype World = World(durable: Version, past: set<Version>, sent: seq<Request>, applied: set<Key>, minted: Key)

  const InitialWorld := World(None, {None}, [], {}, 0)

  /** A write of the journal file is reported stored, or it is not and yet it shows. */
  datatype Action =
    | Create(journal: Journal, reported: bool)
    | Mint
    | WriteAhead(pending: Pending, reported: bool)
    | Send(body: Body, took: bool)
    | Accept(response: Fields, reported: bool)
    | Book(journal: Journal, reported: bool)
    | PowerLoss(found: Version)

  /** The world after a write of the journal file. */
  function Stored(w: World, j: Journal, reported: bool): World {
    w.(durable := Some(j), past := if reported then {Some(j)} else w.past + {Some(j)})
  }

  function RequestOf(p: Pending, body: Body): Request {
    Request(p.route, p.path, p.role, p.key, body)
  }

  function RecordKeys(h: seq<Record>): set<Key> { set r | r in h :: r.key }

  function SentKeys(sent: seq<Request>): set<Key> { set s | s in sent :: s.key }

  function PendingKeys(j: Journal): set<Key> {
    if j.pending.Some? then {j.pending.value.key} else {}
  }

  /** The keys a journal knows of. */
  function KeysOf(v: Version): set<Key> {
    if v.Some? then RecordKeys(v.value.history) + PendingKeys(v.value) else {}
  }

  /** A key the factory has handed out and nothing has used yet. */
  predicate Fresh(w: World, k: Key) {
    k < w.minted && k !in w.applied && k !in SentKeys(w.sent) && forall v :: v in w.past ==> k !in KeysOf(v)
  }

  // ----- what may be written besides requests and responses -----

  predicate Unrecorded(c: Coordinates) {
    && c.sessionId.None? && c.baseGraph.None? && c.baseProjection.None?
    && c.desiredGraph.None? && c.desiredProjection.None? && c.desiredRevision.None?
  }

  /** The plan's own coordinates, taken together with a plan already known by its id. */
  predicate Records(c: Coordinates, c': Coordinates) {
    && Unrecorded(c) && Recorded(c') && c.planId == c'.planId
    && c' == c.(sessionId := c'.sessionId, baseGraph := c'.baseGraph, baseProjection := c'.baseProjection,
                desiredGraph := c'.desiredGraph, desiredProjection := c'.desiredProjection,
                desiredRevision := c'.desiredRevision)
  }

  /** A write that neither announces a request nor takes in a response. */
  predicate Bookkeeping(j: Journal, j': Journal) {
    && j' == j.(coords := j'.coords, phase := j'.phase, last := j'.last)
    && (j'.coords == j.coords || Records(j.coords, j'.coords))
    && (|| j'.phase == j.phase
        || (j.phase.Prepared? && j.pending.None? && (j'.phase.NoChange? || j'.phase.Attention?))
        || (j.phase.Advance? && j'.phase.Converge?))
  }

  // ----- steps -----

  predicate Step(w: World, a: Action, w': World) {
    match a
    case Create(j, reported) =>
      && w.durable.None?
      && ValidJournal(j) && j == NewJournal(j.ref, j.target, j.desired)
      && w' == Stored(w, j, reported)
    case Mint =>
      w' == w.(minted := w.minted + 1)
    case WriteAhead(p, reported) =>
      && w.durable.Some?
      && var j := w.durable.value;
      && j.pending.None? && |j.history| < MAXIMUM_REQUEST_RECORDS
      && Fresh(w, p.key)
      && p.body == Retained(p.digest.body)
      && ValidJournal(j.(pending := Some(p)))
      && w' == Stored(w, j.(pending := Some(p)), reported)
    case Send(body, took) =>
      && w.durable.Some? && w.durable.value.pending.Some?
      && var p := w.durable.value.pending.value;
      && Sha256(body) == p.digest
      && w' == w.(sent := w.sent + [RequestOf(p, body)],
                  applied := if took then w.applied + {p.key} else w.applied)
    case Accept(response, reported) =>
      // the server reports success only for a request it has applied
      && w.durable.Some? && w.durable.value.pending.Some?
      && var j := w.durable.value;
      && var p := j.pending.value;
      && p.key in w.applied
      && ResponseIsBound(response, p, p.digest.body, j.coords, j.target.workspace) == Ok(true)
      && ResponseCoordinates(p.route, response).Ok?
      && w' == Stored(w, Accepted(j, p, ResponseCoordinates(p.route, response).value), reported)
    case Book(j', reported) =>
      && w.durable.Some? && Bookkeeping(w.durable.value, j') && ValidJournal(j')
      && w' == Stored(w, j', reported)
    case PowerLoss(found) =>
      found in w.past && w' == w.(durable := found, past := {found})
  }

  predicate Writes(a: Action) { a.Create? || a.WriteAhead? || a.Accept? || a.Book? }

  /** A write that could have been reported stored could also have shown without being reported. */
  lemma StepUnreported(w: World, a: Action, j: Journal)
    requires Writes(a) && a.reported && Step(w, a, Stored(w, j, true))
    ensures Step(w, a.(reported := false), Stored(w, j, false))
  {
    hide ValidJournal, ResponseIsBound, ResponseCoordinates, Bookkeeping, Fresh;
  }

  ghost predicate Next(w: World, w': World) {
    exists a :: Step(w, a, w')
  }

  /** A step while the power stays on. */
  ghost predicate QuietNext(w: World, w': World) {
    exists a :: Step(w, a, w') && !a.PowerLoss?
  }

  /** A run: the states of one operation from before its creation, over any number of client
      processes, crashes, power losses, lost responses and arbitrary answers. */
  ghost predicate IsRun(t: seq<World>) {
    && |t| > 0 && t[0] == InitialWorld
    && forall i {:trigger t[i]} :: 0 < i < |t| ==> Next(t[i - 1], t[i])
  }

  lemma ExtendRun(t: seq<World>, a: Action, w: World)
    requires IsRun(t) && Step(t[|t| - 1], a, w)
    ensures IsRun(t + [w])
  {
    var t' := t + [w];
    forall i {:trigger t'[i]} | 0 < i < |t'|
      ensures Next(t'[i - 1], t'[i])
    {
      if i < |t| { assert t'[i] == t[i]; }
    }
  }

  // ----- the invariant -----

  /** The phase a history leads to, if its requests were each sent in a phase that allows them. */
  function PhaseOf(h: seq<Record>): Option<Phase> {
    if h == [] then Some(Planning)
    else
      var r := h[|h| - 1];
      var before := PhaseOf(h[..|h| - 1]);
      if before.Some? && MayPend(r.route, before.value) then Some(PhaseAfter(r.route, r.response))
      else None
  }

  /** The journalled phase: the history's, or where the client settled from there. */
  predicate Settled(reached: Phase, p: Phase) {
    || p == reached
    || (reached.Prepared? && (p.NoChange? || p.Attention?))
    || (reached.Advance? && p.Converge?)
  }

  /** An accepted request was the one its coordinates call for, and its response is what they hold. */
  predicate Matches(c: Coordinates, r: Record) {
    && r.digest.body.key == r.key
    && match r.route
       case PrepareRoute =>
         && r.digest.body.PrepareBody?
         && r.response.planId.Some? && c.planId == r.response.planId && c.approvalId == r.response.approvalId
       case DecideRoute =>
         && c.sessionId.Some?
         && r.digest.body == DecideBody(r.key, c.sessionId.value, Approved)
         && r.response.approvalState == Some(Approved)
       case AdmitRoute =>
         && c.sessionId.Some? && c.approvalId.Some?
         && r.digest.body == AdmitBody(r.key, c.sessionId.value, c.approvalId.value, [])
         && r.response.executionRequest.Some? && c.executionRequest == r.response.executionRequest
       case ClaimRoute =>
         && r.digest.body.ClaimBody?
         && r.response.runId.Some? && c.runId == r.response.runId
         && r.response.claimGeneration.Some? && r.response.claimGeneration.value > 0
         && c.claimGeneration == r.response.claimGeneration
       case StartRoute =>
         && c.claimGeneration.Some?
         && r.digest.body == StartBody(r.key, c.claimGeneration.value)
         && r.response.runStatus == Some(Running)
       case ExecuteRoute =>
         && c.claimGeneration.Some? && c.runId.Some?
         && r.digest.body == ExecuteBody(r.key, c.claimGeneration.value, 1)
         && r.response.runId == c.runId
         && r.response.runStatus.Some? && r.response.coordinatorStatus.Some?
         && r.response.effects.Some? && 0 <= r.response.effects.value <= 1
         && (r.response.coordinatorStatus == Some(Completed) ==> r.response.runStatus == Some(Succeeded))
       case AdvanceRoute =>
         && Recorded(c) && c.claimGeneration.Some?
         && r.digest.body == AdvanceBody(
              r.key, c.planId.value, c.claimGeneration.value,
              Pointer(c.baseGraph.value, c.baseProjection.value),
              Pointer(c.desiredGraph.value, c.desiredProjection.value), c.desiredRevision.value)
         && r.response.advancedGraph == c.desiredGraph
         && r.response.advancedProjection == c.desiredProjection
         && r.response.advancedRevision == c.desiredRevision
  }

  /** Coordinates that a later phase brings are still absent. */
  predicate NotYet(p: Phase, c: Coordinates) {
    && (Recorded(c) || Unrecorded(c))
    && (Rank(p) <= 2 || p.NoChange? ==> c.executionRequest.None?)
    && (Rank(p) <= 3 || p.NoChange? ==> c.runId.None? && c.claimGeneration.None?)
    && (Rank(p) != 8 && Rank(p) != 9 ==>
          c.advancedGraph.None? && c.advancedProjection.None? && c.advancedRevision.None?)
  }

  predicate DistinctKeys(h: seq<Record>) {
    forall i, k :: 0 <= i < k < |h| ==> h[i].key != h[k].key
  }

  predicate Coherent(j: Journal) {
    && ValidJournal(j)
    && PhaseOf(j.history).Some? && Settled(PhaseOf(j.history).value, j.phase)
    && NotYet(j.phase, j.coords)
    && (forall i :: 0 <= i < |j.history| ==> Matches(j.coords, j.history[i]))
    && DistinctKeys(j.history)
    && (j.pending.Some? ==>
          && |j.history| < MAXIMUM_REQUEST_RECORDS
          && j.pending.value.body == Retained(j.pending.value.digest.body)
          && j.pending.value.key !in RecordKeys(j.history))
  }

  /** The transmissions fit a journal: those under its pending key are its pending request, and those
      under a key it has recorded are of that route and digest. */
  predicate Fits(sent: seq<Request>, j: Journal) {
    && (j.pending.Some? ==>
          var p := j.pending.value;
          forall i :: 0 <= i < |sent| && sent[i].key == p.key ==> sent[i] == RequestOf(p, p.digest.body))
    && forall i, k :: 0 <= i < |sent| && 0 <= k < |j.history| && sent[i].key == j.history[k].key
         ==> sent[i].route == j.history[k].route && Sha256(sent[i].body) == j.history[k].digest
  }

  /** A journal the file may hold, against the server and the key factory. */
  predicate Explains(w: World, j: Journal) {
    && Coherent(j)
    && RecordKeys(j.history) <= w.applied
    && (forall k :: k in PendingKeys(j) ==> k < w.minted)
    && Fits(w.sent, j)
  }

  /** Two journals give one key the same meaning. */
  predicate Agree(j: Journal, j': Journal) {
    j.pending.Some? ==>
      var p := j.pending.value;
      && (j'.pending.Some? && j'.pending.value.key == p.key ==> j'.pending.value == p)
      && forall k :: 0 <= k < |j'.history| && j'.history[k].key == p.key
           ==> j'.history[k].route == p.route && j'.history[k].digest == p.digest
  }

  /** Every transmission under a key is the same request. */
  predicate SentOnce(sent: seq<Request>) {
    forall i, k :: 0 <= i < |sent| && 0 <= k < |sent| && sent[i].key == sent[k].key ==> sent[i] == sent[k]
  }

  predicate Inv(w: World) {
    && w.durable in w.past
    && w.applied <= SentKeys(w.sent)
    && (forall k :: k in SentKeys(w.sent) ==> k < w.minted)
    && SentOnce(w.sent)
    && (forall v :: v in w.past && v.Some? ==> Explains(w, v.value))
    && forall v, v' :: v in w.past && v' in w.past && v.Some? && v'.Some? ==> Agree(v.value, v'.value)
  }

  /** Every journal the file may hold knows every key that was sent. */
  predicate Accounted(w: World) {
    forall v :: v in w.past ==> SentKeys(w.sent) <= KeysOf(v)
  }

  /** The journal in the file knows every key that was sent. */
  predicate AccountedNow(w: World) { SentKeys(w.sent) <= KeysOf(w.durable) }

  // ----- every step keeps it -----

  /** Coordinates that never change once they are set. */
  predicate Kept<T(==)>(o: Option<T>, o': Option<T>) { o.Some? ==> o' == o }

  predicate Frozen(c: Coordinates, c': Coordinates) {
    && Kept(c.planId, c'.planId) && Kept(c.sessionId, c'.sessionId)
    && Kept(c.baseGraph, c'.baseGraph) && Kept(c.baseProjection, c'.baseProjection)
    && Kept(c.desiredGraph, c'.desiredGraph) && Kept(c.desiredProjection, c'.desiredProjection)
    && Kept(c.desiredRevision, c'.desiredRevision)
    && Kept(c.approvalId, c'.approvalId) && Kept(c.executionRequest, c'.executionRequest)
    && Kept(c.runId, c'.runId) && Kept(c.claimGeneration, c'.claimGeneration)
    && Kept(c.advancedGraph, c'.advancedGraph) && Kept(c.advancedProjection, c'.advancedProjection)
    && Kept(c.advancedRevision, c'.advancedRevision)
  }

  /** The parts of a coherent journal that a response to `p` is read against. */
  predicate Awaits(j: Journal, p: Pending, r: Route) {
    && j.pending == Some(p) && p.route == r
    && ValidCoordinates(j.coords) && PhaseFits(j.phase, j.coords) && NotYet(j.phase, j.coords)
    && ValidPending(p, j.phase, j.target, j.desired, j.coords)
    && p.body == Retained(p.digest.body)
  }

  /** `j'` is `j` after the bound response to its pending request was folded in. */
  predicate Folds(j: Journal, response: Fields, j': Journal) {
    && j.pending.Some?
    && var p := j.pending.value;
    && ResponseIsBound(response, p, p.digest.body, j.coords, j.target.workspace) == Ok(true)
    && ResponseCoordinates(p.route, response).Ok?
    && j' == Accepted(j, p, ResponseCoordinates(p.route, response).value)
  }

  /** What a response adds to the coordinates is new, and fits the phase it leads to. */
  predicate Adds(j: Journal, p: Pending, projection: Coordinates) {
    var c' := Merge(j.coords, projection);
    var phase' := PhaseAfter(p.route, projection);
    && ValidCoordinates(c') && PhaseFits(phase', c') && NotYet(phase', c')
    && Frozen(j.coords, c')
    && (!p.route.PrepareRoute? ==> c'.approvalId == j.coords.approvalId)
    && Matches(c', Record(p.route, p.key, p.digest, projection))
  }

  predicate Answers(j: Journal, p: Pending, response: Fields, projection: Coordinates) {
    && ResponseIsBound(response, p, p.digest.body, j.coords, j.target.workspace) == Ok(true)
    && ResponseCoordinates(p.route, response) == Ok(projection)
  }

  lemma PrepareAdds(j: Journal, p: Pending, response: Fields, projection: Coordinates)
    requires Awaits(j, p, PrepareRoute) && Answers(j, p, response, projection)
    ensures Adds(j, p, projection)
  {
  }

  lemma DecideAdds(j: Journal, p: Pending, response: Fields, projection: Coordinates)
    requires Awaits(j, p, DecideRoute) && Answers(j, p, response, projection)
    ensures Adds(j, p, projection)
  {
  }

  lemma AdmitAdds(j: Journal, p: Pending, response: Fields, projection: Coordinates)
    requires Awaits(j, p, AdmitRoute) && Answers(j, p, response, projection)
    ensures Adds(j, p, projection)
  {
  }

  lemma ClaimAdds(j: Journal, p: Pending, response: Fields, projection: Coordinates)
    requires Awaits(j, p, ClaimRoute) && Answers(j, p, response, projection)
    ensures Adds(j, p, projection)
  {
  }

  lemma StartAdds(j: Journal, p: Pending, response: Fields, projection: Coordinates)
    requires Awaits(j, p, StartRoute) && Answers(j, p, response, projection)
    ensures Adds(j, p, projection)
  {
  }

  /** What a bound execute response says, whichever of its operators accepted it. */
  predicate ExecutionOf(projection: Coordinates, run: Word) {
    && projection == NoCoordinates.(
         runId := Some(run), runStatus := projection.runStatus,
         coordinatorStatus := projection.coordinatorStatus, effects := projection.effects,
         activityId := projection.activityId)
    && projection.runStatus.Some? && projection.coordinatorStatus.Some? && projection.effects.Some?
    && FineText(projection.runStatus) && FineText(projection.coordinatorStatus)
    && FineText(projection.activityId)
    && 0 <= projection.effects.value <= 1
    && (projection.coordinatorStatus == Some(Completed) ==> projection.runStatus == Some(Succeeded))
    && (projection.coordinatorStatus == Some(Progressed) ==> projection.runStatus == Some(Running))
  }

  /** The coordinates of an execute response are its members, read as texts and an integer. */
  lemma ExecutionReads(response: Fields, projection: Coordinates)
    requires ResponseCoordinates(ExecuteRoute, response) == Ok(projection)
    ensures projection.runId.Some? && Get(response, RunId) == Text(projection.runId.value)
    ensures projection.runStatus.Some? && Get(response, RunStatus) == Text(projection.runStatus.value)
    ensures projection.coordinatorStatus.Some?
    ensures Get(response, CoordinatorStatus) == Text(projection.coordinatorStatus.value)
    ensures projection.effects.Some? && Get(response, EffectsAttempted) == Int(projection.effects.value)
    ensures FineText(projection.runStatus) && FineText(projection.coordinatorStatus) && FineText(projection.activityId)
    ensures projection == NoCoordinates.(
              runId := projection.runId, runStatus := projection.runStatus,
              coordinatorStatus := projection.coordinatorStatus, effects := projection.effects,
              activityId := projection.activityId)
  {
  }

  lemma ExecutionSays(response: Fields, p: Pending, run: Word, projection: Coordinates)
    requires p.path.item == Some(run)
    requires ExecutionIsBound(response, p, 1) == Ok(true)
    requires ResponseCoordinates(ExecuteRoute, response) == Ok(projection)
    ensures ExecutionOf(projection, run)
  {
    hide ResponseCoordinates;
    ExecutionReads(response, projection);
  }

  lemma ExecutionAdds(j: Journal, p: Pending, projection: Coordinates)
    requires Awaits(j, p, ExecuteRoute) && ExecutionOf(projection, j.coords.runId.value)
    ensures Adds(j, p, projection)
  {
    hide Matches, Frozen, PhaseFits, NotYet, PhaseAfter;
    ExecutionFits(j, p, projection);
    ExecutionMatches(j, p, projection);
  }

  lemma ExecutionFits(j: Journal, p: Pending, projection: Coordinates)
    requires Awaits(j, p, ExecuteRoute) && ExecutionOf(projection, j.coords.runId.value)
    ensures var c', phase' := Merge(j.coords, projection), PhaseAfter(p.route, projection);
      PhaseFits(phase', c') && NotYet(phase', c')
  {
    hide ValidCoordinates, ValidRequest, Retained;
  }

  lemma ExecutionMatches(j: Journal, p: Pending, projection: Coordinates)
    requires Awaits(j, p, ExecuteRoute) && ExecutionOf(projection, j.coords.runId.value)
    ensures Frozen(j.coords, Merge(j.coords, projection))
    ensures Matches(Merge(j.coords, projection), Record(p.route, p.key, p.digest, projection))
  {
  }

  lemma ExecuteAdds(j: Journal, p: Pending, response: Fields, projection: Coordinates)
    requires Awaits(j, p, ExecuteRoute) && Answers(j, p, response, projection)
    ensures Adds(j, p, projection)
  {
    ExecutionSays(response, p, j.coords.runId.value, projection);
    ExecutionAdds(j, p, projection);
  }

  /** A bound advancement names the pointer and revision that were asked for. */
  predicate AdvancementOf(projection: Coordinates, body: Body) {
    && body.AdvanceBody?
    && IsText(body.desired.graph) && IsText(body.desired.projection) && body.revision >= 0
    && projection == NoCoordinates.(
         advancedGraph := Some(body.desired.graph), advancedProjection := Some(body.desired.projection),
         advancedRevision := Some(body.revision))
  }

  lemma AdvancementAdds(j: Journal, p: Pending, projection: Coordinates)
    requires Awaits(j, p, AdvanceRoute) && AdvancementOf(projection, p.body)
    ensures Adds(j, p, projection)
  {
    hide Matches, Kept;
    AdvancementMatches(j, p, projection);
  }

  lemma AdvancementMatches(j: Journal, p: Pending, projection: Coordinates)
    requires Awaits(j, p, AdvanceRoute) && AdvancementOf(projection, p.body)
    ensures Frozen(j.coords, Merge(j.coords, projection))
    ensures Matches(Merge(j.coords, projection), Record(p.route, p.key, p.digest, projection))
  {
  }

  lemma AdvanceAdds(j: Journal, p: Pending, response: Fields, projection: Coordinates)
    requires Awaits(j, p, AdvanceRoute) && Answers(j, p, response, projection)
    ensures Adds(j, p, projection)
  {
    hide ResponseIsBound, ResponseCoordinates, Adds, AdvancementOf, ValidPending, ValidCoordinates, PhaseFits, NotYet;
    AdvancementSays(j, p, response, projection);
    AdvancementAdds(j, p, projection);
  }

  lemma AdvancementSays(j: Journal, p: Pending, response: Fields, projection: Coordinates)
    requires Awaits(j, p, AdvanceRoute) && Answers(j, p, response, projection)
    ensures AdvancementOf(projection, p.body)
  {
    hide NotYet, PhaseFits;
  }

  /** On every route, a bound response takes a coherent journal to one whose coordinates fit. */
  lemma ResponseAdds(j: Journal, response: Fields, projection: Coordinates)
    requires Coherent(j) && j.pending.Some? && Answers(j, j.pending.value, response, projection)
    ensures Adds(j, j.pending.value, projection) && MayPend(j.pending.value.route, j.phase)
  {
    var p := j.pending.value;
    assert Awaits(j, p, p.route);
    match p.route
    case PrepareRoute => PrepareAdds(j, p, response, projection);
    case DecideRoute => DecideAdds(j, p, response, projection);
    case AdmitRoute => AdmitAdds(j, p, response, projection);
    case ClaimRoute => ClaimAdds(j, p, response, projection);
    case StartRoute => StartAdds(j, p, response, projection);
    case ExecuteRoute => ExecuteAdds(j, p, response, projection);
    case AdvanceRoute => AdvanceAdds(j, p, response, projection);
  }

  /** What matched a record still does when coordinates are only added. */
  lemma MatchesKept(c: Coordinates, c': Coordinates, r: Record)
    requires Matches(c, r) && Frozen(c, c') && c'.approvalId == c.approvalId
    ensures Matches(c', r)
  {
  }

  lemma PlanningHasNoHistory(h: seq<Record>)
    requires PhaseOf(h) == Some(Planning)
    ensures h == []
  {
  }

  lemma RecordKeysGrow(h: seq<Record>, r: Record)
    ensures RecordKeys(h + [r]) == RecordKeys(h) + {r.key}
  {
    assert r in h + [r];
    assert forall x :: x in h ==> x in h + [r];
  }

  lemma SentKeysGrow(sent: seq<Request>, s: Request)
    ensures SentKeys(sent + [s]) == SentKeys(sent) + {s.key}
  {
    assert s in sent + [s];
    assert forall x :: x in sent ==> x in sent + [s];
  }

  /** The validator accepts every journal a bound response leads to. */
  lemma AcceptedIsValid(j: Journal, response: Fields, projection: Coordinates)
    requires Coherent(j) && j.pending.Some? && Answers(j, j.pending.value, response, projection)
    ensures ValidJournal(Accepted(j, j.pending.value, projection))
  {
    ResponseAdds(j, response, projection);
    if j.pending.value.route.PrepareRoute? && j.last.Some? {
      assert j.coords == NoCoordinates;
    }
  }

  lemma AcceptedMatches(j: Journal, response: Fields, projection: Coordinates, i: nat)
    requires Coherent(j) && j.pending.Some? && Answers(j, j.pending.value, response, projection)
    requires i <= |j.history|
    ensures Matches(Merge(j.coords, projection), Accepted(j, j.pending.value, projection).history[i])
  {
    ResponseAdds(j, response, projection);
    if i < |j.history| {
      if j.pending.value.route.PrepareRoute? {
        PlanningHasNoHistory(j.history);
      } else {
        MatchesKept(j.coords, Merge(j.coords, projection), j.history[i]);
      }
    }
  }

  lemma AcceptKeepsCoherent(j: Journal, response: Fields, projection: Coordinates)
    requires Coherent(j) && j.pending.Some? && Answers(j, j.pending.value, response, projection)
    ensures Coherent(Accepted(j, j.pending.value, projection))
  {
    var p := j.pending.value;
    var j' := Accepted(j, p, projection);
    AcceptedIsValid(j, response, projection);
    ResponseAdds(j, response, projection);
    forall i | 0 <= i < |j'.history|
      ensures Matches(j'.coords, j'.history[i])
    {
      AcceptedMatches(j, response, projection, i);
    }
    assert j'.history[..|j'.history| - 1] == j.history;
    FreshKeyIsDistinct(j.history, j'.history[|j.history|]);
  }

  lemma FreshKeyIsDistinct(h: seq<Record>, r: Record)
    requires DistinctKeys(h) && r.key !in RecordKeys(h)
    ensures DistinctKeys(h + [r])
  {
    assert forall i :: 0 <= i < |h| ==> h[i].key in RecordKeys(h);
  }

  lemma BookSettles(j: Journal, j': Journal)
    requires Coherent(j) && Bookkeeping(j, j') && ValidJournal(j')
    ensures Frozen(j.coords, j'.coords) && j'.coords.approvalId == j.coords.approvalId
    ensures Settled(PhaseOf(j.history).value, j'.phase) && NotYet(j'.phase, j'.coords)
  {
    hide Matches, PhaseOf, DistinctKeys, RecordKeys, ValidResult, ValidPending;
  }

  lemma BookKeepsCoherent(j: Journal, j': Journal)
    requires Coherent(j) && Bookkeeping(j, j') && ValidJournal(j')
    ensures Coherent(j')
  {
    hide ValidJournal, Matches, Frozen, NotYet, Settled, PhaseOf, DistinctKeys;
    BookSettles(j, j');
    forall i | 0 <= i < |j'.history|
      ensures Matches(j'.coords, j'.history[i])
    {
      MatchesKept(j.coords, j'.coords, j.history[i]);
    }
  }

  /** A write keeps the invariant if what it writes fits and means the same by every key. */
  lemma StoringKeepsInv(w: World, j: Journal, reported: bool)
    requires Inv(w) && Explains(w, j)
    requires forall v :: v in w.past && v.Some? ==> Agree(j, v.value) && Agree(v.value, j)
    ensures Inv(Stored(w, j, reported))
  {
    hide Coherent, Fits, SentOnce;
    var w' := Stored(w, j, reported);
    assert Agree(j, j) by { AgreesWithItself(w, j); }
    forall v | v in w'.past && v.Some?
      ensures Explains(w', v.value)
    {
    }
  }

  lemma AgreesWithItself(w: World, j: Journal)
    requires Explains(w, j)
    ensures Agree(j, j)
  {
    hide ValidJournal, PhaseOf, Settled, NotYet, Matches, Fits;
    assert forall k :: 0 <= k < |j.history| ==> j.history[k].key in RecordKeys(j.history);
  }

  lemma AcceptKeepsInv(w: World, response: Fields, reported: bool, w': World)
    requires Inv(w) && Step(w, Accept(response, reported), w')
    ensures Inv(w')
  {
    hide Coherent, Matches, ResponseIsBound, ResponseCoordinates, PhaseAfter, Merge, SentOnce;
    var j := w.durable.value;
    var p := j.pending.value;
    var projection := ResponseCoordinates(p.route, response).value;
    AcceptKeepsCoherent(j, response, projection);
    RecordKeysGrow(j.history, Record(p.route, p.key, p.digest, projection));
    assert Explains(w, j);
    StoringKeepsInv(w, w'.durable.value, reported);
  }

  lemma WriteAheadKeepsInv(w: World, p: Pending, reported: bool, w': World)
    requires Inv(w) && Step(w, WriteAhead(p, reported), w')
    ensures Inv(w')
  {
    hide ValidJournal, Matches, SentOnce, PhaseOf, Settled, NotYet, DistinctKeys;
    var j := w.durable.value;
    assert Explains(w, j);
    assert forall i :: 0 <= i < |w.sent| ==> w.sent[i].key in SentKeys(w.sent);
    forall v | v in w.past && v.Some?
      ensures Agree(j.(pending := Some(p)), v.value) && Agree(v.value, j.(pending := Some(p)))
    {
      FreshAgrees(w, j, p, v.value);
    }
    StoringKeepsInv(w, j.(pending := Some(p)), reported);
  }

  lemma FreshAgrees(w: World, j: Journal, p: Pending, v: Journal)
    requires p.key !in KeysOf(Some(v)) && Agree(v, j)
    ensures Agree(j.(pending := Some(p)), v) && Agree(v, j.(pending := Some(p)))
  {
    assert forall k :: 0 <= k < |v.history| ==> v.history[k].key in RecordKeys(v.history);
  }

  lemma SendKeepsInv(w: World, body: Body, took: bool, w': World)
    requires Inv(w) && Step(w, Send(body, took), w')
    ensures Inv(w')
  {
    hide Coherent, Fits, Agree, SentOnce, SentKeys, RecordKeys;
    var j := w.durable.value;
    var r := RequestOf(j.pending.value, body);
    SentKeysGrow(w.sent, r);
    assert Explains(w, j);
    SentOnceMore(w.sent, j);
    forall v | v in w.past && v.Some?
      ensures Explains(w', v.value)
    {
      assert Agree(j, v.value) && Agree(v.value, j);
      SendFits(w.sent, j, v.value);
    }
    assert r.key in PendingKeys(j);
  }

  lemma SendFits(sent: seq<Request>, j: Journal, v: Journal)
    requires j.pending.Some? && Agree(j, v) && Agree(v, j) && Fits(sent, v)
    ensures Fits(sent + [RequestOf(j.pending.value, j.pending.value.digest.body)], v)
  {
  }

  lemma SentOnceMore(sent: seq<Request>, j: Journal)
    requires j.pending.Some? && SentOnce(sent) && Fits(sent, j)
    ensures SentOnce(sent + [RequestOf(j.pending.value, j.pending.value.digest.body)])
  {
  }

  /** Only the pending request and the history of a journal matter here. */
  lemma FitsAlike(sent: seq<Request>, j: Journal, j': Journal)
    requires j'.pending == j.pending && j'.history == j.history
    ensures Fits(sent, j') == Fits(sent, j) && forall v :: Agree(j', v) == Agree(j, v) && Agree(v, j') == Agree(v, j)
  {
  }

  lemma BookKeepsInv(w: World, j': Journal, reported: bool, w': World)
    requires Inv(w) && Step(w, Book(j', reported), w')
    ensures Inv(w')
  {
    hide Coherent, ValidJournal, SentOnce, Fits, Agree;
    var j := w.durable.value;
    assert Explains(w, j);
    BookKeepsCoherent(j, j');
    assert PendingKeys(j') == PendingKeys(j);
    FitsAlike(w.sent, j, j');
    StoringKeepsInv(w, j', reported);
  }

  lemma CreateKeepsInv(w: World, j: Journal, reported: bool, w': World)
    requires Inv(w) && Step(w, Create(j, reported), w')
    ensures Inv(w')
  {
    hide SentOnce;
    StoringKeepsInv(w, j, reported);
  }

  lemma StepKeepsInv(w: World, a: Action, w': World)
    requires Inv(w) && Step(w, a, w')
    ensures Inv(w')
  {
    match a
    case Create(j, reported) => CreateKeepsInv(w, j, reported, w');
    case Mint =>
    case WriteAhead(p, reported) => WriteAheadKeepsInv(w, p, reported, w');
    case Send(body, took) => SendKeepsInv(w, body, took, w');
    case Accept(response, reported) => AcceptKeepsInv(w, response, reported, w');
    case Book(j', reported) => BookKeepsInv(w, j', reported, w');
    case PowerLoss(found) =>
  }

  /** The next key is one the factory has never handed out. */
  lemma NextKeyIsFresh(w: World)
    requires Inv(w)
    ensures Fresh(w.(minted := w.minted + 1), w.minted)
  {
    hide Coherent, Fits, Agree, SentOnce;
    forall v | v in w.past && v.Some?
      ensures w.minted !in KeysOf(v)
    {
      assert Explains(w, v.value);
    }
  }

  // ----- accounting, and what it takes -----

  /** Every journal the file may hold knows the pending request's key. */
  predicate Announced(w: World) {
    && w.durable.Some? && w.durable.value.pending.Some?
    && forall v :: v in w.past ==> w.durable.value.pending.value.key in KeysOf(v)
  }

  lemma StoringKeepsAccounted(w: World, j: Journal, reported: bool)
    requires Accounted(w) && SentKeys(w.sent) <= KeysOf(Some(j))
    ensures Accounted(Stored(w, j, reported))
  {
  }

  lemma SendingAccounts(w: World, w': World, r: Request)
    requires Accounted(w) && w'.past == w.past && w'.sent == w.sent + [r]
    ensures Accounted(w') <==> forall v :: v in w.past ==> r.key in KeysOf(v)
  {
    SentKeysGrow(w.sent, r);
  }

  /** Every step keeps the keys accounted for, except to send a request that some journal the file may
      hold does not know of. */
  lemma StepKeepsAccounted(w: World, a: Action, w': World)
    requires Inv(w) && Accounted(w) && Step(w, a, w')
    ensures Accounted(w') <==> (a.Send? ==> Announced(w))
  {
    hide Coherent, ValidJournal, ResponseIsBound, ResponseCoordinates, Explains, Agree, SentOnce, Fresh, SentKeys;
    assert SentKeys(w.sent) <= KeysOf(w.durable);
    match a
    case Create(j, reported) => StoringKeepsAccounted(w, j, reported);
    case Mint =>
    case WriteAhead(p, reported) => StoringKeepsAccounted(w, w.durable.value.(pending := Some(p)), reported);
    case Send(body, took) => SendingAccounts(w, w', RequestOf(w.durable.value.pending.value, body));
    case Accept(response, reported) =>
      var j := w.durable.value;
      var j' := w'.durable.value;
      RecordKeysGrow(j.history, j'.history[|j.history|]);
      StoringKeepsAccounted(w, j', reported);
    case Book(j', reported) => StoringKeepsAccounted(w, j', reported);
    case PowerLoss(found) =>
  }

  /** Every step but a power loss keeps every sent key in the journal, reported stored or not; a power
      loss does if and only if the journal it leaves knows them all. */
  lemma StepKeepsAccountedNow(w: World, a: Action, w': World)
    requires Inv(w) && AccountedNow(w) && Step(w, a, w')
    ensures AccountedNow(w') <==> (a.PowerLoss? ==> SentKeys(w.sent) <= KeysOf(a.found))
  {
    hide Coherent, ValidJournal, ResponseIsBound, ResponseCoordinates, Explains, Agree, SentOnce, Fresh, SentKeys;
    match a
    case Send(body, took) => SentKeysGrow(w.sent, RequestOf(w.durable.value.pending.value, body));
    case Accept(response, reported) =>
      var j := w.durable.value;
      RecordKeysGrow(j.history, w'.durable.value.history[|j.history|]);
    case _ =>
  }
}
