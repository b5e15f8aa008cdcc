/** The private journal of one client invocation and the validator every read and write of the
    journal file goes through. */
module JournalFormat {
  import opened Wrappers
  import opened PublicValues

  const MAXIMUM_REQUEST_RECORDS := 128
  const MAXIMUM_DESIRED_BYTES := 65_536

  /** A random UUID, drawn from a factory that never repeats itself. */
  type Key = nat

  datatype Phase =
    | Planning | Prepared | NoChange | Approval | Admitted | Claim | Started
    | Executing | Executed | Advance | Converge | Attention

  datatype Route =
    | PrepareRoute | DecideRoute | AdmitRoute | ClaimRoute | StartRoute | ExecuteRoute | AdvanceRoute

  datatype Role = Operator | Approver | Worker

  datatype Target = Target(endpoint: seq<nat>, workspace: Word)

  /** A reference to the desired graph file.  Digests are injective, so they are the digested bytes. */
  datatype Source = Source(path: Word, size: nat, digest: seq<nat>)

  /** The graph a desired file holds, determined by its bytes. */
  datatype Graph = Graph(bytes: seq<nat>)

  datatype Pointer = Pointer(graph: Word, projection: Word)

  datatype Coordinates = Coordinates(
    planId: Option<Word>, sessionId: Option<Word>,
    baseGraph: Option<Word>, baseProjection: Option<Word>,
    desiredGraph: Option<Word>, desiredProjection: Option<Word>, desiredRevision: Option<int>,
    approvalId: Option<Word>, approvalState: Option<Word>,
    executionRequest: Option<Word>, runId: Option<Word>, claimGeneration: Option<int>,
    runStatus: Option<Word>, coordinatorStatus: Option<Word>, effects: Option<int>,
    activityId: Option<Word>,
    advancedGraph: Option<Word>, advancedProjection: Option<Word>, advancedRevision: Option<int>)

  const NoCoordinates := Coordinates(
    None, None, None, None, None, None, None, None, None, None,
    None, None, None, None, None, None, None, None, None)

  datatype Body =
    | PrepareBody(key: Key, graph: Option<Graph>, current: Pointer, wanted: Option<Pointer>,
                  revision: int, title: Word)
    | DecideBody(key: Key, session: Word, decision: Word)
    | AdmitBody(key: Key, session: Word, approval: Word, readiness: seq<Word>)
    | ClaimBody(key: Key, lease: int)
    | StartBody(key: Key, generation: int)
    | ExecuteBody(key: Key, generation: int, maxEffects: int)
    | AdvanceBody(key: Key, plan: Word, generation: int, current: Pointer, desired: Pointer,
                  revision: int)

  /** The digest of the canonical encoding of a body: injective, so it carries the body itself. */
  datatype Digest = Sha256(body: Body)

  datatype Path = Path(workspace: Word, item: Option<Word>)

  datatype Pending = Pending(route: Route, path: Path, role: Role, key: Key, body: Body,
                             digest: Digest, source: Option<Source>)

  /** An accepted request; `response` holds the coordinates taken from its response. */
  datatype Record = Record(route: Route, key: Key, digest: Digest, response: Coordinates)

  datatype TargetKey = Kind | NodeId | RuntimeId | EdgeId

  datatype Change = Change(activity: Word, operation: Word, target: map<TargetKey, Word>)

  datatype ClientResult = ClientResult(
    status: Word, ref: Key, workspace: Word,
    plan: Option<Word>, approval: Option<Word>, run: Option<Word>,
    execution: Word, advancement: Word,
    scope: Option<Word>, destructive: Option<bool>, changes: seq<Change>,
    nextCommand: Option<Word>, nextRead: Option<Word>)

  datatype Journal = Journal(ref: Key, target: Target, desired: Source, phase: Phase,
                             pending: Option<Pending>, coords: Coordinates,
                             history: seq<Record>, last: Option<ClientResult>)

  /** Position of a phase on the way from planning to converged; the two last are dead ends. */
  function Rank(p: Phase): nat {
    match p
    case Planning => 0
    case Prepared => 1
    case Approval => 2
    case Admitted => 3
    case Claim => 4
    case Started => 5
    case Executing => 6
    case Executed => 7
    case Advance => 8
    case Converge => 9
    case NoChange => 10
    case Attention => 11
  }

  function RoleOf(r: Route): Role {
    match r
    case PrepareRoute | AdmitRoute => Operator
    case DecideRoute => Approver
    case _ => Worker
  }

  /** `_PENDING_PHASES`. */
  predicate MayPend(r: Route, p: Phase) {
    match r
    case PrepareRoute => p.Planning?
    case DecideRoute => p.Prepared?
    case AdmitRoute => p.Prepared? || p.Approval?
    case ClaimRoute => p.Admitted?
    case StartRoute => p.Claim?
    case ExecuteRoute => p.Started? || p.Executing?
    case AdvanceRoute => p.Executed?
  }

  // ----- the validator -----

  predicate FineText(o: Option<Word>) { o.Some? ==> IsText(o.value) }

  predicate FineInt(o: Option<int>) { o.Some? ==> o.value >= 0 }

  predicate ValidCoordinates(c: Coordinates) {
    && FineText(c.planId) && FineText(c.sessionId)
    && FineText(c.baseGraph) && FineText(c.baseProjection)
    && FineText(c.desiredGraph) && FineText(c.desiredProjection) && FineInt(c.desiredRevision)
    && FineText(c.approvalId) && FineText(c.approvalState)
    && FineText(c.executionRequest) && FineText(c.runId) && FineInt(c.claimGeneration)
    && FineText(c.runStatus) && FineText(c.coordinatorStatus) && FineInt(c.effects)
    && FineText(c.activityId)
    && FineText(c.advancedGraph) && FineText(c.advancedProjection) && FineInt(c.advancedRevision)
  }

  predicate Recorded(c: Coordinates) {
    && c.planId.Some? && c.sessionId.Some? && c.baseGraph.Some? && c.baseProjection.Some?
    && c.desiredGraph.Some? && c.desiredProjection.Some? && c.desiredRevision.Some?
  }

  predicate PhaseFits(p: Phase, c: Coordinates) {
    && (p.Planning? ==> c == NoCoordinates)
    && (!p.Planning? && !p.Attention? ==> c.planId.Some?)
    && (2 <= Rank(p) <= 10 ==> Recorded(c))
    && (p.Approval? ==> c.approvalId.Some? && c.approvalState.Some?)
    && (3 <= Rank(p) <= 9 ==> c.executionRequest.Some?)
    && (4 <= Rank(p) <= 9 ==> c.runId.Some? && c.claimGeneration.Some?)
    && (5 <= Rank(p) <= 9 ==> c.runStatus.Some?)
    && (6 <= Rank(p) <= 9 ==> c.coordinatorStatus.Some? && c.effects.Some?)
    && (8 <= Rank(p) <= 9 ==>
          c.advancedGraph.Some? && c.advancedProjection.Some? && c.advancedRevision.Some?)
    && (7 <= Rank(p) <= 9 ==> c.runStatus == Some(Succeeded) && c.coordinatorStatus == Some(Completed))
    && (p.Started? ==> c.runStatus == Some(Running))
    && (p.Executing? ==> c.runStatus == Some(Running) && c.coordinatorStatus == Some(Progressed))
    && (8 <= Rank(p) <= 9 ==>
          && c.advancedGraph == c.desiredGraph && c.advancedProjection == c.desiredProjection
          && c.advancedRevision == c.desiredRevision)
  }

  predicate ValidPointer(p: Pointer) { IsText(p.graph) && IsText(p.projection) }

  /** Everything `_validate_pending` checks besides the phase. */
  predicate ValidRequest(p: Pending, target: Target, desired: Source, c: Coordinates) {
    && p.role == RoleOf(p.route)
    && p.body.key == p.key
    && p.path.workspace == target.workspace
    && (p.route.PrepareRoute? <==> p.path.item.None?)
    && (p.route.PrepareRoute? || p.source.None?)
    && match p.route
       case PrepareRoute =>
         && p.body.PrepareBody? && p.body.graph.None?
         && p.source == Some(desired)
         && ValidPointer(p.body.current)
         && (p.body.wanted.Some? ==> ValidPointer(p.body.wanted.value))
         && p.body.revision >= 0
         && IsText(p.body.title)
       case DecideRoute =>
         && p.body.DecideBody?
         && p.path.item == c.approvalId
         && Some(p.body.session) == c.sessionId
         && p.body.decision == Approved
       case AdmitRoute =>
         && p.body.AdmitBody?
         && p.path.item == c.planId
         && Some(p.body.session) == c.sessionId
         && Some(p.body.approval) == c.approvalId
         && p.body.readiness == []
       case ClaimRoute =>
         && p.body.ClaimBody?
         && p.path.item == c.executionRequest
         && 1 <= p.body.lease <= 86_400
       case StartRoute =>
         && p.body.StartBody?
         && p.path.item == c.runId
         && Some(p.body.generation) == c.claimGeneration
       case ExecuteRoute =>
         && p.body.ExecuteBody?
         && p.path.item == c.runId
         && Some(p.body.generation) == c.claimGeneration
         && p.body.maxEffects == 1
       case AdvanceRoute =>
         && p.body.AdvanceBody?
         && p.path.item == c.runId
         && Some(p.body.plan) == c.planId
         && Some(p.body.generation) == c.claimGeneration
         && Some(p.body.current.graph) == c.baseGraph
         && Some(p.body.current.projection) == c.baseProjection
         && Some(p.body.desired.graph) == c.desiredGraph
         && Some(p.body.desired.projection) == c.desiredProjection
         && Some(p.body.revision) == c.desiredRevision
  }

  predicate ValidChange(c: Change) {
    && IsText(c.activity) && IsText(c.operation)
    && Kind in c.target && forall k | k in c.target :: IsText(c.target[k])
  }

  predicate ValidResult(r: ClientResult, ref: Key, target: Target, c: Coordinates) {
    && r.ref == ref && r.workspace == target.workspace
    && r.status in {Planned, Word.Running, NoChanges, Converged, AttentionRequired}
    && r.execution in {NotStarted, Word.Running, Succeeded, Blocked, Failed, Unsupported, Uncertain, Unverified}
    && r.advancement in {NotAttempted, Advanced, Unchanged, Unverified}
    && |r.changes| <= MAXIMUM_REQUEST_RECORDS
    && (forall i | 0 <= i < |r.changes| :: ValidChange(r.changes[i]))
    && FineText(r.nextCommand) && FineText(r.nextRead) && FineText(r.scope)
    && (r.plan.Some? ==> r.plan == c.planId)
    && (r.approval.Some? ==> r.approval == c.approvalId)
    && (r.run.Some? ==> r.run == c.runId)
  }

  predicate ValidPending(p: Pending, phase: Phase, target: Target, desired: Source, c: Coordinates) {
    MayPend(p.route, phase) && ValidRequest(p, target, desired, c)
  }

  /** `_validate_journal`. */
  predicate ValidJournal(j: Journal) {
    && IsText(j.target.workspace)
    && j.desired.size <= MAXIMUM_DESIRED_BYTES
    && ValidCoordinates(j.coords)
    && PhaseFits(j.phase, j.coords)
    && (j.pending.Some? ==> ValidPending(j.pending.value, j.phase, j.target, j.desired, j.coords))
    && |j.history| <= MAXIMUM_REQUEST_RECORDS
    && (j.last.Some? ==> ValidResult(j.last.value, j.ref, j.target, j.coords))
  }

  // ----- construction -----

  /** `_new_journal`. */
  function NewJournal(ref: Key, target: Target, desired: Source): Journal {
    Journal(ref, target, desired, Planning, None, NoCoordinates, [], None)
  }

  /** The part of a body that is kept in the journal: the graph of a preparation is not. */
  function Retained(b: Body): Body {
    if b.PrepareBody? then b.(graph := None) else b
  }

  /** The pending request `_mutate` builds. */
  function PendingOf(route: Route, item: Option<Word>, body: Body, role: Role, workspace: Word,
                     source: Option<Source>): Pending {
    Pending(route, Path(workspace, item), role, body.key, Retained(body), Sha256(body), source)
  }

  /** `coordinates.update(projection)`. */
  function Merge(c: Coordinates, p: Coordinates): Coordinates {
    Coordinates(
      Over(c.planId, p.planId), Over(c.sessionId, p.sessionId),
      Over(c.baseGraph, p.baseGraph), Over(c.baseProjection, p.baseProjection),
      Over(c.desiredGraph, p.desiredGraph), Over(c.desiredProjection, p.desiredProjection),
      Over(c.desiredRevision, p.desiredRevision),
      Over(c.approvalId, p.approvalId), Over(c.approvalState, p.approvalState),
      Over(c.executionRequest, p.executionRequest), Over(c.runId, p.runId),
      Over(c.claimGeneration, p.claimGeneration), Over(c.runStatus, p.runStatus),
      Over(c.coordinatorStatus, p.coordinatorStatus), Over(c.effects, p.effects),
      Over(c.activityId, p.activityId), Over(c.advancedGraph, p.advancedGraph),
      Over(c.advancedProjection, p.advancedProjection), Over(c.advancedRevision, p.advancedRevision))
  }

  function Over<T>(old_: Option<T>, new_: Option<T>): Option<T> {
    if new_.Some? then new_ else old_
  }
}
