/** The durable topology client: every call loads the journal, writes each request ahead of sending
    it, and folds each bound response into the journal.

    Reads, responses, disk faults and crashes are arbitrary (`:= *`), so what is proved holds
    whatever the server answers and wherever the process stops.  Between calls the power may fail
    (`Environment.LosePower`); then the file may hold an earlier journal than the last one read. */
module TopologyWorkflow {
  import opened Wrappers
  import opened PublicValues
  import opened JournalFormat
  import opened PublicResponses
  import opened DurableProtocol
  import opened ProtocolTheorems
  import opened PublicReads

  /** What outlives a client process: the journal file, the server and the key factory, with the
      states they have been through, and since when the power has stayed on. */
  class Environment {
    var world: World
    ghost var trace: seq<World>
    ghost var since: nat

    ghost predicate Valid()
      reads this
    {
      IsRun(trace) && trace[|trace| - 1] == world && since < |trace| && Quiet(trace, since)
    }

    constructor ()
      ensures Valid() && world == InitialWorld
    {
      world := InitialWorld;
      trace := [InitialWorld];
      since := 0;
    }

    lemma Knows()
      requires Valid()
      ensures trace != [] && trace[|trace| - 1] == world && Inv(world)
      ensures world.durable.Some? ==> Coherent(world.durable.value)
    {
      hide Inv, Next, Quiet;
      RunKeepsInv(trace, |trace| - 1);
      if world.durable.Some? { DurableIsCoherent(trace, |trace| - 1); }
    }

    lemma HistoryBound()
      requires Valid()
      ensures world.durable.Some? ==>
        && |world.durable.value.history| <= MAXIMUM_REQUEST_RECORDS
        && (world.durable.value.pending.Some? ==> |world.durable.value.history| < MAXIMUM_REQUEST_RECORDS)
    {
      hide Inv, IsRun, Quiet;
      Knows();
    }

    /** Whatever was called since, an operation that had ended has sent nothing more. */
    lemma EndedSendsNothing(before: seq<World>)
      requires Valid() && before <= trace && since < |before|
      ensures Ended(before[|before| - 1]) ==> world.sent == before[|before| - 1].sent && Ended(world)
    {
      hide IsRun, Quiet, EndedVersion;
      var n := |before| - 1;
      assert trace[n] == before[n];
      if Ended(before[n]) {
        QuietFurtherOn(trace, since, n);
        EndStatesAbsorb(trace, n, |trace| - 1);
      }
    }

    /** While the power stays on, a journal that knew every key that was sent still does: so since the
        beginning, if the power has never failed. */
    lemma Accounts(before: seq<World>)
      requires Valid() && before <= trace && since < |before|
      ensures AccountedNow(before[|before| - 1]) || since == 0 ==>
        AccountedNow(world) && AppliedOnce(world, world.durable)
    {
      hide IsRun, Quiet, AccountedNow, AppliedOnce;
      var n := |before| - 1;
      assert trace[n] == before[n];
      if AccountedNow(before[n]) {
        QuietFurtherOn(trace, since, n);
        ExactlyOnce(trace, n, |trace| - 1);
      }
      if since == 0 { ExactlyOnce(trace, 0, |trace| - 1); }
    }

    lemma AccountsNow()
      requires Valid()
      ensures AccountedNow(world) || since == 0 ==> AccountedNow(world) && AppliedOnce(world, world.durable)
    {
      hide IsRun, Quiet, AccountedNow, AppliedOnce;
      Accounts(trace);
    }

    method Take(ghost a: Action, w: World)
      requires Valid() && Step(world, a, w) && !a.PowerLoss?
      modifies this
      ensures Valid() && world == w && trace == old(trace) + [w] && since == old(since)
      ensures w.sent == old(world).sent || Announced(old(world)) ==> Careful(old(trace)) ==> Careful(trace)
    {
      hide Step;
      ExtendRun(trace, a, w);
      assert QuietNext(world, w);
      QuietGrows(trace, since, w);
      CarefulGrows(trace, w);
      world, trace := w, trace + [w];
    }

    /** Other processes that take part go on for a while. */
    method Others()
      requires Valid()
      modifies this
      ensures Valid() && old(trace) <= trace && since == old(since)
    {
      hide Step, IsRun, Quiet, Careful, Announced;
      var n: int := *;
      for i := 0 to if n < 0 then 0 else n
        invariant Valid() && old(trace) <= trace && since == old(since)
      {
        var a: Action := *;
        var w: World := *;
        if Step(world, a, w) && !a.PowerLoss? { Take(a, w); }
      }
    }

    /** The power fails: the file holds some journal it has held since one was reported stored. */
    method LosePower(found: Version)
      requires Valid() && found in world.past
      modifies this
      ensures Valid() && world == old(world).(durable := found, past := {found})
      ensures trace == old(trace) + [world] && since == |old(trace)|
      ensures Careful(old(trace)) ==> Careful(trace)
      ensures AccountedNow(world) <==> SentKeys(old(world).sent) <= KeysOf(found)
    {
      hide SentKeys, KeysOf, Careful, Announced;
      var w := world.(durable := found, past := {found});
      ExtendRun(trace, PowerLoss(found), w);
      CarefulGrows(trace, w);
      since := |trace|;
      world, trace := w, trace + [w];
    }
  }

  /** The place of a route in the order of the protocol. */
  function Stage(r: Route): nat {
    match r
    case PrepareRoute => 0
    case DecideRoute => 1
    case AdmitRoute => 2
    case ClaimRoute => 3
    case StartRoute => 4
    case ExecuteRoute => 5
    case AdvanceRoute => 6
  }

  /** The requests sent between two states follow the protocol's order within these stages: none is
      sent twice but executes. */
  ghost predicate Climbs(sent: seq<Request>, sent': seq<Request>, lo: nat, hi: nat) {
    && sent <= sent'
    && (forall i :: |sent| <= i < |sent'| ==> lo <= Stage(sent'[i].route) <= hi)
    && forall i :: |sent| < i < |sent'| ==> Follows(sent'[i - 1].route, sent'[i].route)
  }

  predicate Follows(r: Route, r': Route) { Stage(r) < Stage(r') || (r.ExecuteRoute? && r'.ExecuteRoute?) }

  /** One part after another climbs on, if the later starts where the earlier has left off. */
  lemma ClimbsOn(a: seq<Request>, b: seq<Request>, c: seq<Request>, lo: nat, mid: nat, mid': nat, hi: nat,
                 least: nat, most: nat)
    requires Climbs(a, b, lo, mid) && Climbs(b, c, mid', hi)
    requires a == b || (least <= lo && mid <= most)
    requires b == c || (least <= mid' && hi <= most)
    requires a == b || b == c || mid < mid' || mid == mid' == 5
    ensures Climbs(a, c, least, most)
  {
    assert forall i :: 0 <= i < |b| ==> c[i] == b[i];
    if |a| < |b| < |c| { assert Follows(c[|b| - 1].route, c[|b|].route); }
  }

  lemma OneClimbs(a: seq<Request>, b: seq<Request>, stage: nat)
    requires a == b || (|b| == |a| + 1 && a <= b && Stage(b[|a|].route) == stage)
    ensures Climbs(a, b, stage, stage) && (a == b || stage <= 6) && Climbs(a, b, stage, 6)
  {
  }

  lemma StaysPut(sent: seq<Request>, lo: nat, hi: nat)
    ensures Climbs(sent, sent, lo, hi)
  {
  }

  lemma ClimbsFrom(sent: seq<Request>, sent': seq<Request>, lo: nat, hi: nat, least: nat)
    requires Climbs(sent, sent', lo, hi) && least <= lo
    ensures Climbs(sent, sent', least, hi)
  {
  }

  /** The first stage a journal may still go through, when it waits for nothing. */
  function NextStage(j: Journal, awaiting: bool): nat {
    if awaiting then 1
    else if j.coords.executionRequest.None? then 2
    else if j.coords.runId.None? then 3
    else if Rank(j.phase) <= 4 then 4
    else if Rank(j.phase) <= 6 then 5
    else if j.phase.Executed? then 6
    else 7
  }

  /** How a part of a call ends when it raises nothing: it goes on, or halts the call with a result. */
  datatype Flow<+T> = Go(value: T) | Halt(result: ClientResult)

  /** A read of the current graph that shows the desired pointer. */
  ghost predicate ShowsDesired(observed: Fields, c: Coordinates) {
    && c.desiredGraph.Some? && c.desiredProjection.Some?
    && Get(observed, GraphId) == Text(c.desiredGraph.value)
    && Get(observed, ProjectionId) == Text(c.desiredProjection.value)
  }

  /** The pointer a plan starts from. */
  predicate IsBase(p: Option<Pointer>, c: Coordinates) {
    c.baseGraph.Some? && c.baseProjection.Some? && p == Some(Pointer(c.baseGraph.value, c.baseProjection.value))
  }

  lemma CoherentIsValid(j: Journal)
    requires Coherent(j)
    ensures ValidJournal(j)
  {
  }

  lemma PendingHasRoom(j: Journal)
    requires Coherent(j) && j.pending.Some?
    ensures |j.history| < MAXIMUM_REQUEST_RECORDS
  {
  }

  /** The body kept in the journal is the one the digest stands for, but for a preparation's graph. */
  lemma PendingIsRetained(j: Journal)
    requires Coherent(j) && j.pending.Some?
    ensures var p := j.pending.value;
      if p.route.PrepareRoute? then p.body.PrepareBody? && p.source.Some? else Sha256(p.body) == p.digest
  {
    hide PhaseOf, Matches, DistinctKeys, ValidCoordinates, ValidResult, PhaseFits, RecordKeys;
  }

  /** Recording the plan's coordinates in a journal just prepared. */
  lemma PreparedRecords(j: Journal, plan: Fields)
    requires Coherent(j) && j.phase.Prepared? && j.pending.None? && Unrecorded(j.coords)
    requires PlanAgrees(j.coords, plan) && RecordPlan(j.coords, plan).Ok?
    ensures var c := RecordPlan(j.coords, plan).value;
      && ValidJournal(j.(coords := c)) && Bookkeeping(j, j.(coords := c))
      && PlanAgrees(c, plan) && c.approvalId == j.coords.approvalId
  {
    hide ValidJournal, PlanAgrees, RecordPlan, Bookkeeping;
    CoherentIsValid(j);
    PreparedHasPlan(j);
    RecordPlanRecords(j.coords, plan);
    RecordedFits(j, RecordPlan(j.coords, plan).value);
  }

  /** The request to advance fits every recorded journal of a claimed run. */
  lemma AdvanceFits(j: Journal, plan: Fields, planId: Word, key: Key)
    requires Recorded(j.coords) && PlanAgrees(j.coords, plan) && j.coords.planId == Some(planId)
    requires j.coords.runId.Some? && j.coords.claimGeneration.Some? && IntegerOf(Get(plan, DesiredRevision), 0).Ok?
    ensures var c := j.coords;
      var body := AdvanceBody(
        key, planId, c.claimGeneration.value, Pointer(c.baseGraph.value, c.baseProjection.value),
        Pointer(c.desiredGraph.value, c.desiredProjection.value), IntegerOf(Get(plan, DesiredRevision), 0).value);
      ValidRequest(PendingOf(AdvanceRoute, c.runId, body, Worker, j.target.workspace, None), j.target, j.desired, c)
  {
    hide PlanAgrees;
    PlanNames(j.coords, plan);
  }

  /** The converged journal of an advanced one, and its result. */
  lemma ConvergingSays(j: Journal)
    requires Coherent(j) && j.phase.Advance? && j.pending.None?
    ensures var converged := j.(phase := Converge);
      var r := StatusFromJournal(converged, false, None, None, None, [], None);
      && r.Ok? && r.value.status == Converged
      && ValidJournal(converged.(last := Some(r.value))) && Bookkeeping(j, converged.(last := Some(r.value)))
  {
    hide ValidJournal;
    CoherentIsValid(j);
    ConvergedIsValid(j, StatusFromJournal(j.(phase := Converge), false, None, None, None, [], None).value);
  }

  /** The first stage a journal may go through. */
  function FirstStage(j: Journal, awaiting: bool): nat {
    if j.pending.Some? then Stage(j.pending.value.route) else NextStage(j, awaiting)
  }

  /** How many requests a journal lacks up to the claim. */
  function Lacking(j: Journal, awaiting: bool): nat {
    (if awaiting then 1 else 0) + (if j.coords.executionRequest.None? then 1 else 0)
    + if j.coords.runId.None? then 1 else 0
  }

  lemma FirstStageIs(j: Journal, awaiting: bool)
    requires j.pending.Some? ==> !j.pending.value.route.PrepareRoute?
    ensures 1 <= FirstStage(j, awaiting)
    ensures 2 <= FirstStage(j, awaiting) || awaiting || (j.pending.Some? && j.pending.value.route.DecideRoute?)
  {
  }

  /** The execution goes on with room for the rest, or is complete. */
  predicate GoesOn(j: Journal) {
    j.phase.Executed? || (j.phase.Executing? && |j.history| <= MAXIMUM_REQUEST_RECORDS - 2)
  }

  predicate Waiting(w: World) { w.durable.Some? && w.durable.value.pending.Some? }

  /** A journal `apply` can take to its end: the profile's, with this plan and an approval, nothing settled
      and no run begun. */
  predicate Appliable(v: Version, profile: Target, plan: Word) {
    && v.Some? && plan != Name("")
    && var j := v.value;
    && j.target == profile && j.coords.planId == Some(plan) && j.coords.approvalId.Some?
    && 1 <= Rank(j.phase) <= 3
  }

  lemma AppliableSays(v: Version, profile: Target, plan: Word)
    requires Appliable(v, profile, plan)
    ensures plan != Name("") && v.Some? && v.value.target == profile
    ensures v.value.coords.planId == Some(plan) && v.value.coords.approvalId.Some? && 1 <= Rank(v.value.phase) <= 3
  {
  }

  lemma RunStays(c: Coordinates, c': Coordinates)
    requires Frozen(c, c')
    ensures Kept(c.runId, c'.runId) && Kept(c.claimGeneration, c'.claimGeneration)
    ensures Kept(c.executionRequest, c'.executionRequest)
  {
  }

  lemma DesiredReads(observed: Fields, c: Coordinates)
    requires c.desiredGraph.Some? && c.desiredProjection.Some?
    ensures ShowsDesired(observed, c) <==>
            && Get(observed, GraphId) == OfText(c.desiredGraph)
            && Get(observed, ProjectionId) == OfText(c.desiredProjection)
  {
  }

  lemma RecordPlanReads(c: Coordinates, plan: Fields)
    ensures RecordPlan(c, plan).Ok? ==> IntegerOf(Get(plan, DesiredRevision), 0).Ok?
  {
  }

  /** A journal's coordinates are complete once they name a session, and must be for it to wait. */
  lemma SessionMeansRecorded(j: Journal)
    requires Coherent(j) && j.coords.planId.Some?
    ensures j.coords.sessionId.Some? ==> Recorded(j.coords)
    ensures j.coords.sessionId.None? ==> j.pending.None?
  {
    hide Matches, PhaseOf;
  }

  /** A journal that is being carried out goes through the stage of its phase next. */
  lemma PhaseIsStage(j: Journal)
    requires Coherent(j) && 2 <= Rank(j.phase) <= 9
    ensures var rank := Rank(j.phase);
      NextStage(j, false) == if rank <= 5 then rank else if rank <= 7 then rank - 1 else 7
  {
    hide Matches, PhaseOf, DistinctKeys, RecordKeys, ValidPending, ValidResult, ValidCoordinates, Recorded;
  }

  lemma ExecuteIsWithinRun(j: Journal)
    requires Coherent(j) && j.pending.Some? && j.pending.value.route.ExecuteRoute?
    ensures j.coords.executionRequest.Some? && j.coords.runId.Some?
  {
    hide Matches, PhaseOf, DistinctKeys, RecordKeys, ValidRequest, ValidResult, ValidCoordinates, Recorded;
  }

  /** A folded response leads to a later stage of the protocol; an execute may lead to another. */
  lemma FoldMovesOn(j: Journal, j': Journal, projection: Coordinates)
    requires Coherent(j) && j.pending.Some? && !j.pending.value.route.PrepareRoute?
    requires Coherent(j') && Frozen(j.coords, j'.coords)
    requires j'.phase == PhaseAfter(j.pending.value.route, projection)
    ensures var route := j.pending.value.route;
      && !j'.phase.Converge? && !j'.phase.NoChange?
      && (!route.ExecuteRoute? ==> j'.phase == PhaseAfter(route, NoCoordinates))
      && (Stage(route) < NextStage(j', false) || Stage(route) == NextStage(j', false) == 5)
  {
    hide Coherent, Frozen;
    if j'.phase.Attention? {
      ExecuteIsWithinRun(j);
      RunStays(j.coords, j'.coords);
    } else {
      PhaseIsStage(j');
    }
  }

  lemma ProperIsBound(response: Fields, j: Journal)
    requires j.pending.Some? && Proper(response, j)
    ensures var p := j.pending.value;
      && ResponseIsBound(response, p, p.digest.body, j.coords, j.target.workspace) == Ok(true)
      && ResponseCoordinates(p.route, response).Ok?
  {
  }

  datatype DiskFault = NoFault | DiskError | PowerCut

  datatype Delivery = Response(fields: Fields) | Refused | Lost | Killed

  datatype ReadFault = Denied | Unreachable | Malformed | Halted

  function ErrorOf(f: ReadFault): Error {
    match f
    case Denied => AuthorizationError
    case Unreachable => TransportError
    case Malformed => InputError
    case Halted => Crash
  }

  /** What the client's `except (ClientInputError, ClientTransportError)` catches. */
  predicate Caught(e: Error) { e.InputError? || e.TransportError? }

  /** A plan detail the client can work with. */
  predicate Usable(plan: Fields, c: Coordinates) { PlanAgrees(c, plan) && RecordPlan(c, plan).Ok? }

  /** An approval that agrees with the plan and stands, or can still be decided. */
  predicate Decidable(approval: Fields, plan: Fields, approvalId: Word, j: Journal) {
    && ApprovalAgrees(plan, approvalId, approval) == Ok(true)
    && (|| Get(approval, State) == Text(Approved)
        || (&& Get(approval, State) == Text(Awaiting) && j.phase.Prepared?
            && (j.pending.None? || j.pending.value.route.DecideRoute?)))
  }

  /** A bound answer to the pending request; an execute completes, or progresses while the budget
      leaves room to go on. */
  predicate Proper(response: Fields, j: Journal)
    requires j.pending.Some?
  {
    var p := j.pending.value;
    && ResponseIsBound(response, p, p.digest.body, j.coords, j.target.workspace) == Ok(true)
    && ResponseCoordinates(p.route, response).Ok?
    && (p.route.ExecuteRoute? ==>
          var phase := PhaseAfter(p.route, ResponseCoordinates(p.route, response).value);
          phase.Executed? || (phase.Executing? && |j.history| <= MAXIMUM_REQUEST_RECORDS - 3))
  }

  class TopologyClient {
    const env: Environment
    const ref: Key
    const profile: Target
    var journal: Journal
    ghost var planRead: Option<PlanView>
    ghost var approvalRead: Option<Fields>
    ghost var pointerRead: Option<Pointer>
    ghost var currentRead: Option<Fields>
    ghost var currentReadAfter: nat
    /** The lock was taken, the disk or the power failed, a read or a request went unanswered, or an
        answer was no help. */
    ghost var troubled: bool

    constructor (env: Environment, ref: Key, profile: Target, journal: Journal)
      ensures this.env == env && this.ref == ref && this.profile == profile && !troubled
    {
      this.env, this.ref, this.profile, this.journal := env, ref, profile, journal;
      planRead, approvalRead, pointerRead, currentRead, currentReadAfter := None, None, None, None, 0;
      troubled := false;
    }

    /** The loaded journal is the one in the file. */
    ghost predicate Loaded()
      reads this, env
    {
      env.Valid() && env.world.durable == Some(journal) && journal.target == profile
    }

    /** The loaded journal differs from the one in the file by bookkeeping only. */
    ghost predicate Booked()
      reads this, env
    {
      && env.Valid() && env.world.durable.Some? && journal.target == profile
      && Bookkeeping(env.world.durable.value, journal) && ValidJournal(journal)
    }

    /** The environment goes on from where it was, with the power on. */
    twostate predicate Proceeds()
      reads this, env
    {
      && env.Valid() && old(env.trace) <= env.trace && env.since == old(env.since)
      && (old(troubled) ==> troubled)
    }

    /** No request is sent that some journal the file may hold does not know of. */
    twostate predicate StaysCareful()
      reads this, env
    {
      Careful(old(env.trace)) ==> Careful(env.trace)
    }

    /** The journal accounts for every request, if it did before or the power has never failed: the server
        has applied what the journal has accepted, and at most the pending request besides. */
    twostate predicate StaysAccounted()
      reads this, env
    {
      AccountedNow(old(env.world)) || env.since == 0 ==>
        AccountedNow(env.world) && AppliedOnce(env.world, env.world.durable)
    }

    /** The journal is converged, and a read of the current graph made after the last request sent has
        shown the desired pointer. */
    ghost predicate SawDesired()
      reads this, env
    {
      && journal.phase.Converge? && journal.pending.None?
      && currentRead.Some? && currentReadAfter == |env.world.sent| && ShowsDesired(currentRead.value, journal.coords)
    }

    lemma LoadedIsCoherent()
      requires Loaded()
      ensures Coherent(journal) && Booked()
    {
      hide Inv, IsRun, Quiet, Coherent;
      env.Knows();
      CoherentIsValid(journal);
    }

    // ----- the store, the key factory and the transport -----

    /** `JournalStore.write`: after a fault the file holds the old or the new journal, and after a fault
        past the renaming a power loss may still bring the old one back. */
    method Put(ghost a: Action) returns (r: Result<()>)
      requires env.Valid() && env.world.durable.Some? && Writes(a) && a.reported
      requires ValidJournal(journal) ==> Step(env.world, a, Stored(env.world, journal, true))
      modifies this`troubled, env
      ensures Proceeds() && StaysCareful()
      ensures r.Ok? ==> ValidJournal(journal) && env.world == Stored(old(env.world), journal, true)
      ensures r.Raise? ==> env.world == old(env.world) || env.world == Stored(old(env.world), journal, false)
      ensures r == Raise(JournalInvalid) <==> !ValidJournal(journal)
      ensures r == Raise(JournalInvalid) ==> env.world == old(env.world)
      ensures r.Raise? && r != Raise(JournalInvalid) ==> r.error.JournalUnavailable? || r.error.Crash?
      ensures ValidJournal(journal) && !troubled ==> r.Ok?
    {
      hide ValidJournal, Careful, IsRun, Quiet, Announced, Step;
      if !ValidJournal(journal) { return Raise(JournalInvalid); }
      var before: DiskFault := *;
      var after: DiskFault := *;
      troubled := troubled || before != NoFault || after != NoFault;
      if before == DiskError { return Raise(JournalUnavailable); }
      if before == PowerCut { return Raise(Crash); }
      if after == NoFault {
        env.Take(a, Stored(env.world, journal, true));
        return Ok(());
      }
      StepUnreported(env.world, a, journal);
      env.Take(a.(reported := false), Stored(env.world, journal, false));
      return Raise(if after == DiskError then JournalUnavailable else Crash);
    }

    /** Writes bookkeeping only. */
    method Save() returns (r: Result<()>)
      requires Booked()
      modifies this`troubled, env
      ensures Proceeds() && StaysCareful()
      ensures r.Ok? ==> env.world == Stored(old(env.world), journal, true)
      ensures r.Raise? ==> env.world == old(env.world) || env.world == Stored(old(env.world), journal, false)
      ensures r.Raise? ==> r.error.JournalUnavailable? || r.error.Crash?
      ensures !troubled ==> r.Ok?
    {
      hide ValidJournal, Careful, IsRun, Quiet, Bookkeeping;
      r := Put(Book(journal, true));
    }

    /** `JournalStore.create`. */
    method Initialize() returns (r: Result<()>)
      requires env.Valid() && env.world.durable.None?
      requires journal == NewJournal(journal.ref, journal.target, journal.desired)
      modifies this`troubled, env
      ensures Proceeds() && StaysCareful()
      ensures r.Ok? ==> ValidJournal(journal) && env.world == Stored(old(env.world), journal, true)
      ensures r.Raise? ==> env.world == old(env.world) || env.world == Stored(old(env.world), journal, false)
      ensures r == Raise(JournalInvalid) <==> !ValidJournal(journal)
    {
      hide ValidJournal, Careful, IsRun, Quiet, Announced;
      if !ValidJournal(journal) { return Raise(JournalInvalid); }
      var before: DiskFault := *;
      var after: DiskFault := *;
      troubled := troubled || before != NoFault || after != NoFault;
      if before == DiskError { return Raise(JournalUnavailable); }
      if before == PowerCut { return Raise(Crash); }
      env.Take(Create(journal, after == NoFault), Stored(env.world, journal, after == NoFault));
      if after == DiskError { return Raise(JournalUnavailable); }
      if after == PowerCut { return Raise(Crash); }
      return Ok(());
    }

    method NewKey() returns (k: Key)
      requires env.Valid()
      modifies env
      ensures Proceeds() && StaysCareful()
      ensures env.world == old(env.world).(minted := env.world.minted) && Fresh(env.world, k)
    {
      hide Inv, Careful, IsRun, Quiet, Fresh, Announced;
      env.Knows();
      k := env.world.minted;
      NextKeyIsFresh(env.world);
      env.Take(Mint, env.world.(minted := k + 1));
    }

    method Load() returns (r: Result<()>)
      requires env.Valid()
      modifies this`journal, this`troubled
      ensures Proceeds()
      ensures r.Ok? ==> Loaded()
      ensures r.Raise? ==> !r.error.JournalInvalid?
      ensures !troubled && env.world.durable.Some? && env.world.durable.value.target == profile ==> r.Ok?
    {
      var halted: DiskFault := *;
      troubled := troubled || halted != NoFault;
      if halted == PowerCut { return Raise(Crash); }
      if halted == DiskError || env.world.durable.None? { return Raise(JournalUnavailable); }
      journal := env.world.durable.value;
      if journal.target != profile { return Raise(JournalUnavailable); }
      return Ok(());
    }

    // ----- public reads -----

    method ReadWorkspace() returns (r: Result<Fields>)
      modifies this`troubled
      ensures r.Raise? ==> !r.error.JournalInvalid?
      ensures troubled == (old(troubled) || r.Raise?)
    {
      var answered: bool := *;
      var fields: Fields := *;
      var fault: ReadFault := *;
      troubled := troubled || !answered;
      if answered { return Ok(fields); }
      return Raise(ErrorOf(fault));
    }

    /** `_pointer(self._workspace(), "current")`; it helps if it is where the plan starts from. */
    method ReadPointer() returns (r: Result<Option<Pointer>>)
      modifies this`troubled, this`pointerRead
      ensures r.Raise? ==> !r.error.JournalInvalid?
      ensures r.Ok? ==> pointerRead == r.value
      ensures (old(troubled) ==> troubled) && (!troubled ==> r.Ok? && IsBase(r.value, journal.coords))
    {
      var workspace :- ReadWorkspace();
      var current := CurrentPointer(workspace);
      troubled := troubled || current.Raise? || !IsBase(current.value, journal.coords);
      if current.Ok? { pointerRead := current.value; }
      return current;
    }

    /** `read.current-graph`; it helps if it shows the desired pointer. */
    method ReadCurrent() returns (r: Result<Fields>)
      modifies this`troubled, this`currentRead, this`currentReadAfter
      ensures r.Ok? ==> currentRead == Some(r.value) && currentReadAfter == |env.world.sent|
      ensures r.Raise? ==> !r.error.JournalInvalid?
      ensures (old(troubled) ==> troubled) && (!troubled ==> r.Ok? && ShowsDesired(r.value, journal.coords))
    {
      r := ReadWorkspace();
      if r.Ok? {
        currentRead, currentReadAfter := Some(r.value), |env.world.sent|;
        troubled := troubled || !ShowsDesired(r.value, journal.coords);
      }
    }

    /** `_plan_detail` followed by `_validate_plan`. */
    method CheckedPlan(planId: Word) returns (r: Result<PlanView>)
      modifies this`troubled, this`planRead
      ensures r.Ok? ==> PlanAgrees(journal.coords, r.value.fields) && planRead == Some(r.value)
      ensures r.Raise? ==> !r.error.JournalInvalid?
      ensures (old(troubled) ==> troubled) && (!troubled ==> r.Ok? && Usable(r.value.fields, journal.coords))
    {
      var fields :- ReadWorkspace();
      var activities: Option<seq<Option<Activity>>> := *;
      planRead := Some(PlanView(fields, activities));
      troubled := troubled || !Usable(fields, journal.coords);
      if !PlanAgrees(journal.coords, fields) { return Raise(InputError); }
      return Ok(PlanView(fields, activities));
    }

    /** `_approval_detail` followed by `_validate_approval`. */
    method CheckedApproval(plan: Fields, approvalId: Word) returns (r: Result<Fields>)
      modifies this`troubled, this`approvalRead
      ensures r.Ok? ==> ApprovalAgrees(plan, approvalId, r.value) == Ok(true) && approvalRead == Some(r.value)
      ensures r.Raise? ==> !r.error.JournalInvalid?
      ensures (old(troubled) ==> troubled) && (!troubled ==> r.Ok? && Decidable(r.value, plan, approvalId, journal))
    {
      var fields :- ReadWorkspace();
      approvalRead := Some(fields);
      troubled := troubled || !Decidable(fields, plan, approvalId, journal);
      var agrees :- ApprovalAgrees(plan, approvalId, fields);
      if !agrees { return Raise(InputError); }
      return Ok(fields);
    }

    // ----- requests -----

    /** `_attention` as far as it stays in memory. */
    method Note(execution: Word, advancement: Word, nextRead: Word) returns (r: ClientResult)
      requires Booked()
      requires ReportableExecution(execution) && ReportableAdvancement(advancement) && IsText(nextRead)
      modifies this`journal
      ensures Booked() && journal == old(journal).(last := Some(r))
      ensures r.status == AttentionRequired && About(r, journal)
      ensures r.execution == execution && r.advancement == advancement && r.nextRead == Some(nextRead)
    {
      hide ValidJournal, IsRun, Quiet;
      AttentionIsValid(journal, execution, advancement, nextRead);
      StatusSays(journal, true, Some(execution), Some(advancement), Some(nextRead), [], None);
      r := AttentionResult(journal, execution, advancement, nextRead);
      journal := journal.(last := Some(r));
    }

    /** `_attention`, journalled. */
    method Attention(execution: Word, advancement: Word, nextRead: Word) returns (r: Result<ClientResult>)
      requires Booked()
      requires ReportableExecution(execution) && ReportableAdvancement(advancement) && IsText(nextRead)
      modifies this`journal, this`troubled, env
      ensures Proceeds() && StaysCareful() && env.world.sent == old(env.world.sent)
      ensures journal == old(journal).(last := journal.last)
      ensures r.Raise? ==> !r.error.JournalInvalid?
      ensures r.Ok? ==>
        && r.value.status == AttentionRequired && About(r.value, journal) && journal.last == Some(r.value)
        && r.value.execution == execution && r.value.advancement == advancement && r.value.nextRead == Some(nextRead)
        && env.world.durable == Some(journal)
    {
      hide ValidJournal, Careful, IsRun, Quiet, Bookkeeping, About;
      var result := Note(execution, advancement, nextRead);
      var _ :- Save();
      return Ok(result);
    }

    /** A journalled attention that ends the call. */
    method Attend<T>(execution: Word, advancement: Word, nextRead: Word) returns (r: Result<Flow<T>>)
      requires Loaded()
      requires ReportableExecution(execution) && ReportableAdvancement(advancement) && IsText(nextRead)
      modifies this`journal, this`troubled, env
      ensures Proceeds() && StaysCareful() && env.world.sent == old(env.world.sent)
      ensures r.Raise? ==> !r.error.JournalInvalid?
      ensures r.Ok? ==> r.value.Halt? && r.value.result.status == AttentionRequired
    {
      hide ValidJournal, Careful, IsRun, Quiet, Coherent;
      LoadedIsCoherent();
      var result :- Attention(execution, advancement, nextRead);
      return Ok(Halt(result));
    }

    /** One call of the transport.  Only a server that applied the request answers it with success. */
    method Transmit(body: Body) returns (r: Result<Option<Fields>>)
      requires Loaded() && journal.pending.Some? && Sha256(body) == journal.pending.value.digest
      modifies this`troubled, env
      ensures Proceeds() && (Announced(old(env.world)) ==> StaysCareful())
      ensures env.world.durable == old(env.world.durable) && env.world.past == old(env.world.past)
      ensures env.world.sent == old(env.world.sent)
           || env.world.sent == old(env.world.sent) + [RequestOf(journal.pending.value, body)]
      ensures r.Raise? ==> !r.error.JournalInvalid?
      ensures r.Ok? ==> |env.world.sent| == |old(env.world.sent)| + 1
      ensures r.Ok? && r.value.Some? ==> journal.pending.value.key in env.world.applied
      ensures !troubled ==> r.Ok? && r.value.Some? && Proper(r.value.value, journal)
    {
      hide Careful, Announced, IsRun, Quiet, Proper;
      var p := journal.pending.value;
      var delivery: Delivery := *;
      var took: bool := *;
      troubled := troubled || !delivery.Response? || !Proper(delivery.fields, journal);
      if delivery.Killed? && !took { return Raise(Crash); }
      var applies := took || delivery.Response?;
      env.Take(Send(body, applies), env.world.(
        sent := env.world.sent + [RequestOf(p, body)],
        applied := if applies then env.world.applied + {p.key} else env.world.applied));
      match delivery
      case Killed => return Raise(Crash);
      case Refused => return Raise(AuthorizationError);
      case Lost => return Ok(None);
      case Response(fields) => return Ok(Some(fields));
    }

    /** The rest of `_dispatch_pending` for a bound response: fold it into the journal and write it. */
    method Fold(response: Fields) returns (r: Result<()>)
      requires Loaded() && journal.pending.Some? && journal.pending.value.key in env.world.applied
      requires var p := journal.pending.value;
        ResponseIsBound(response, p, p.digest.body, journal.coords, profile.workspace) == Ok(true)
      modifies this`journal, this`troubled, env
      ensures Proceeds() && StaysCareful() && env.world.sent == old(env.world.sent)
      ensures r.Raise? ==> !r.error.JournalInvalid?
      ensures r.Ok? ==> Loaded() && Folds(old(journal), response, journal)
      ensures !troubled && ResponseCoordinates(old(journal).pending.value.route, response).Ok? ==> r.Ok?
    {
      hide Coherent, ResponseIsBound, ResponseCoordinates, ValidJournal, Careful, IsRun, Quiet;
      LoadedIsCoherent();
      var p := journal.pending.value;
      var projection :- ResponseCoordinates(p.route, response);
      // the source tests the budget here once more: a pending request always has room
      PendingHasRoom(journal);
      AcceptedIsValid(journal, response, projection);
      journal := Accepted(journal, p, projection);
      var _ :- Put(Accept(response, true));
      return Ok(());
    }

    /** The report on a request that may or may not have taken effect; it is not journalled. */
    method Unsettled() returns (r: ClientResult)
      requires Loaded() && journal.pending.Some?
      modifies this`journal
      ensures r.status == AttentionRequired
    {
      hide Coherent, ValidJournal, IsRun, Quiet;
      LoadedIsCoherent();
      var p := journal.pending.value;
      var running := p.route.StartRoute? || p.route.ExecuteRoute?;
      var execution := if running then Unverified else NotStarted;
      var advancement := if p.route.AdvanceRoute? then Unverified else NotAttempted;
      r := Note(execution, advancement, NextRead(journal.coords));
    }

    /** `_dispatch_pending`. */
    method DispatchPending(body: Body) returns (r: Result<Flow<Fields>>)
      requires Loaded() && journal.pending.Some? && Sha256(body) == journal.pending.value.digest
      modifies this`journal, this`troubled, env
      ensures Proceeds() && (Announced(old(env.world)) ==> StaysCareful())
      ensures env.world.sent == old(env.world.sent)
           || env.world.sent == old(env.world.sent) + [RequestOf(old(journal).pending.value, body)]
      ensures r.Raise? ==> !r.error.JournalInvalid?
      ensures r.Ok? && r.value.Halt? ==>
        r.value.result.status == AttentionRequired && env.world.durable == old(env.world.durable)
      ensures r.Ok? && r.value.Go? ==>
        && Loaded() && |env.world.sent| == |old(env.world.sent)| + 1
        && Folds(old(journal), r.value.value, journal)
      ensures !troubled ==> r.Ok? && r.value.Go? && Proper(r.value.value, old(journal))
    {
      hide Coherent, ResponseIsBound, ResponseCoordinates, ValidJournal, Careful, Announced, IsRun, Quiet, Proper,
           Folds;
      var answer :- Transmit(body);
      if answer.Some? {
        if !troubled { ProperIsBound(answer.value, journal); }
        var bound :- ResponseIsBound(answer.value, journal.pending.value, body, journal.coords, profile.workspace);
        if bound {
          var _ :- Fold(answer.value);
          return Ok(Go(answer.value));
        }
      }
      var result := Unsettled();
      return Ok(Halt(result));
    }

    /** Journals a request ahead of sending it, in a phase the validator allows. */
    method Announce(pending: Pending) returns (r: Result<()>)
      requires Loaded() && journal.pending.None? && |journal.history| < MAXIMUM_REQUEST_RECORDS
      requires Fresh(env.world, pending.key) && pending.body == Retained(pending.digest.body)
      requires ValidRequest(pending, journal.target, journal.desired, journal.coords)
      modifies this`journal, this`troubled, env
      ensures Proceeds() && StaysCareful() && env.world.sent == old(env.world.sent)
      ensures r == Raise(JournalInvalid) <==> !MayPend(pending.route, old(journal).phase)
      ensures r.Ok? ==>
        && Loaded() && Coherent(journal) && journal == old(journal).(pending := Some(pending))
        && Announced(env.world)
      ensures !troubled && MayPend(pending.route, old(journal).phase) ==> r.Ok?
    {
      hide Coherent, ValidJournal, ValidRequest, Careful, Announced, IsRun, Quiet, Fresh, MayPend;
      LoadedIsCoherent();
      WriteAheadIsValid(journal, pending);
      journal := journal.(pending := Some(pending));
      var _ :- Put(WriteAhead(pending, true));
      LoadedIsCoherent();
      ReportedIsAnnounced(env.world);
      return Ok(());
    }

    /** `_mutate`: the request is journalled before it is sent. */
    method Mutate(route: Route, item: Option<Word>, body: Body, role: Role, source: Option<Source>)
      returns (r: Result<Flow<Fields>>)
      requires Loaded() && journal.pending.None? && Fresh(env.world, body.key)
      requires ValidRequest(PendingOf(route, item, body, role, profile.workspace, source),
                            journal.target, journal.desired, journal.coords)
      modifies this`journal, this`troubled, env
      ensures Proceeds() && StaysCareful()
      ensures env.world.sent == old(env.world.sent)
           || (&& env.world.sent == old(env.world.sent) +
                    [RequestOf(PendingOf(route, item, body, role, profile.workspace, source), body)]
               && |old(journal).history| < MAXIMUM_REQUEST_RECORDS && MayPend(route, old(journal).phase))
      ensures r == Raise(JournalInvalid) ==> !MayPend(route, old(journal).phase)
      ensures !MayPend(route, old(journal).phase) ==> !(r.Ok? && r.value.Go?)
      ensures r.Ok? && r.value.Halt? ==> r.value.result.status == AttentionRequired
      ensures r.Ok? && r.value.Go? ==>
        && Loaded() && |env.world.sent| == |old(env.world.sent)| + 1
        && var announced := old(journal).(
             pending := Some(PendingOf(route, item, body, role, profile.workspace, source)));
        && Coherent(announced) && Folds(announced, r.value.value, journal)
      ensures !troubled && MayPend(route, old(journal).phase) && |old(journal).history| < MAXIMUM_REQUEST_RECORDS ==>
        && r.Ok? && r.value.Go?
        && Proper(r.value.value,
                  old(journal).(pending := Some(PendingOf(route, item, body, role, profile.workspace, source))))
    {
      hide Coherent, ValidJournal, ValidRequest, Folds, Proper, Careful, Announced, IsRun, Quiet, Fresh, MayPend;
      if |journal.history| >= MAXIMUM_REQUEST_RECORDS {
        r := Attend(NotStarted, NotAttempted, NextRead(journal.coords));
        return;
      }
      // `_canonical_digest` refuses a body whose encoding is over its bound
      var oversized: bool := *;
      troubled := troubled || oversized;
      if oversized { return Raise(InputError); }
      var _ :- Announce(PendingOf(route, item, body, role, profile.workspace, source));
      r := DispatchPending(body);
    }

    /** `_read_desired`. */
    method ReadDesired(path: Word) returns (r: Result<(Source, Graph)>)
      ensures r.Ok? ==> r.value == (Source(path, r.value.0.size, r.value.0.digest), Graph(r.value.0.digest))
      ensures r.Ok? ==> r.value.0.size <= MAXIMUM_DESIRED_BYTES
      ensures r.Raise? ==> !r.error.JournalInvalid?
    {
      var bytes: seq<nat> := *;
      var readable: bool := *;
      if !readable || |bytes| > MAXIMUM_DESIRED_BYTES { return Raise(InputError); }
      return Ok((Source(path, |bytes|, bytes), Graph(bytes)));
    }

    /** `_replay_pending`: sends the journalled request again, or nothing. */
    method ReplayPending() returns (r: Result<Flow<Fields>>)
      requires Loaded() && journal.pending.Some?
      modifies this`journal, this`troubled, env
      ensures Proceeds() && (Announced(old(env.world)) ==> StaysCareful())
      ensures env.world.sent == old(env.world.sent)
           || (var p := old(journal).pending.value;
               env.world.sent == old(env.world.sent) + [RequestOf(p, p.digest.body)])
      ensures r.Raise? ==> !r.error.JournalInvalid?
      ensures r.Ok? && r.value.Halt? ==> r.value.result.status == AttentionRequired
      ensures r.Ok? && r.value.Go? ==>
        && Loaded() && |env.world.sent| == |old(env.world.sent)| + 1
        && Folds(old(journal), r.value.value, journal)
      ensures !troubled && !old(journal).pending.value.route.PrepareRoute? ==>
        r.Ok? && r.value.Go? && Proper(r.value.value, old(journal))
    {
      hide Coherent, ValidJournal, Folds, Proper, Careful, Announced, IsRun, Quiet, ValidRequest;
      LoadedIsCoherent();
      PendingIsRetained(journal);
      var pending := journal.pending.value;
      var body := pending.body;
      if pending.route.PrepareRoute? {
        var path :- TextOf(Text(pending.source.value.path));
        var desired :- ReadDesired(path);
        if Some(desired.0) != pending.source {
          r := Attend(Unverified, NotAttempted, Word.ReadWorkspace);
          return;
        }
        body := body.(graph := Some(desired.1));
      }
      if Sha256(body) != pending.digest {
        r := Attend(Unverified, NotAttempted, NextRead(journal.coords));
        return;
      }
      r := DispatchPending(body);
    }

    // ----- plan -----

    lemma SettlingSays(before: Journal, plan: PlanView, approval: Option<Fields>, status: Word)
      requires Coherent(before) && before.phase.Prepared? && before.pending.None? && Unrecorded(before.coords)
      requires PlanAgrees(before.coords, plan.fields) && RecordPlan(before.coords, plan.fields).Ok?
      requires PlanChanges(plan).Ok? && ApprovalFits(before.coords, plan.fields, approval)
      ensures var changes := PlanChanges(plan).value;
        var r := PlanResult(before.ref, before.target.workspace, plan.fields, approval, status, changes);
        && r.Ok? && r.value.changes == changes && r.value.plan == RecordPlan(before.coords, plan.fields).value.planId
        && (r.value.status != AttentionRequired ==> r.value.status == Standing(PreparedPhase(status)))
        && var settled := SettledJournal(before, RecordPlan(before.coords, plan.fields).value, status, r.value);
        && (ValidJournal(settled) <==> |plan.activities.value| <= MAXIMUM_REQUEST_RECORDS)
        && Bookkeeping(before, settled)
      ensures PlanAgrees(RecordPlan(before.coords, plan.fields).value, plan.fields)
    {
      hide Coherent, ValidJournal, PlanAgrees, ApprovalFits;
      CoherentIsValid(before);
      PreparedHasPlan(before);
      RecordPlanRecords(before.coords, plan.fields);
      SettledIsValid(before, plan, approval, status);
    }

    /** The end of `_finish_prepare`: settle on a phase and journal the result. */
    method Settle(plan: PlanView, approval: Option<Fields>, status: Word, ghost before: Journal)
      returns (r: Result<ClientResult>)
      requires env.Valid() && env.world.durable == Some(before) && Coherent(before)
      requires before.phase.Prepared? && before.pending.None? && Unrecorded(before.coords)
      requires PlanAgrees(before.coords, plan.fields) && RecordPlan(before.coords, plan.fields).Ok?
      requires journal == before.(coords := RecordPlan(before.coords, plan.fields).value)
      requires PlanChanges(plan).Ok? && ApprovalFits(before.coords, plan.fields, approval)
      modifies this`journal, this`troubled, env
      ensures Proceeds() && StaysCareful() && env.world.sent == old(env.world.sent)
      ensures r == Raise(JournalInvalid) <==> |plan.activities.value| > MAXIMUM_REQUEST_RECORDS
      ensures r.Ok? ==>
        && env.world.durable == Some(journal) && r.value.changes == PlanChanges(plan).value
        && journal.phase == PreparedPhase(status) && PlanAgrees(journal.coords, plan.fields)
        && journal.last == Some(r.value) && r.value.plan == journal.coords.planId
        && (r.value.status != AttentionRequired ==> r.value.status == Standing(journal.phase))
    {
      hide Coherent, ValidJournal, PlanAgrees, ApprovalFits, RecordPlan, PlanResult, Unrecorded, Bookkeeping, IsRun,
           Quiet, Careful, Standing;
      var changes := PlanChanges(plan).value;
      SettlingSays(before, plan, approval, status);
      journal := journal.(phase := PreparedPhase(status));
      var result := PlanResult(journal.ref, journal.target.workspace, plan.fields, approval, status, changes).value;
      journal := journal.(last := Some(result));
      assert journal == SettledJournal(before, journal.coords, status, result);
      var _ :- Put(Book(journal, true));
      return Ok(result);
    }

    /** The part of `_finish_prepare` that reads the plan and its changes. */
    method ReadPrepared(planId: Word) returns (r: Result<Flow<PlanView>>)
      requires Loaded()
      modifies this`journal, this`troubled, this`planRead, env
      ensures Proceeds() && StaysCareful() && env.world.sent == old(env.world.sent)
      ensures r.Raise? ==> !r.error.JournalInvalid?
      ensures r.Ok? && r.value.Halt? ==> r.value.result.status == AttentionRequired
      ensures r.Ok? && r.value.Go? ==>
        && env.world == old(env.world) && journal == old(journal)
        && planRead == Some(r.value.value)
        && PlanAgrees(journal.coords, r.value.value.fields) && PlanChanges(r.value.value).Ok?
    {
      hide Coherent, ValidJournal, PlanAgrees, IsRun, Quiet, Careful;
      var plan := CheckedPlan(planId);
      var changes := if plan.Ok? then PlanChanges(plan.value) else Raise(plan.error);
      if changes.Ok? { return Ok(Go(plan.value)); }
      if !Caught(changes.error) { return Raise(changes.error); }
      r := Attend(Unverified, NotAttempted, ReadPlanDetail);
      return;
    }

    /** The part of `_finish_prepare` that reads the approval, if the plan has one. */
    method ReadApproval(plan: Fields) returns (r: Result<Flow<Option<Fields>>>)
      requires Booked()
      modifies this`journal, this`troubled, this`approvalRead, env
      ensures Proceeds() && StaysCareful() && env.world.sent == old(env.world.sent)
      ensures r.Raise? ==> !r.error.JournalInvalid?
      ensures r.Ok? && r.value.Halt? ==> r.value.result.status == AttentionRequired
      ensures r.Ok? && r.value.Go? ==>
        && env.world == old(env.world) && journal == old(journal)
        && ApprovalFits(journal.coords, plan, r.value.value)
    {
      hide ValidJournal, ApprovalAgrees, IsRun, Quiet, Careful;
      if journal.coords.approvalId.None? { return Ok(Go(None)); }
      var read := CheckedApproval(plan, journal.coords.approvalId.value);
      if read.Ok? { return Ok(Go(Some(read.value))); }
      if !Caught(read.error) { return Raise(read.error); }
      var result :- Attention(Unverified, NotAttempted, ReadApprovalDetail);
      return Ok(Halt(result));
    }

    lemma PreparedShows(prepared: Fields)
      requires Loaded() && journal.phase.Prepared? && journal.pending.None?
      requires ResponseCoordinates(PrepareRoute, prepared) == Ok(journal.coords)
      ensures Coherent(journal) && Unrecorded(journal.coords) && TextOf(Get(prepared, PlanId)).Ok?
      ensures journal.coords.planId == Some(TextOf(Get(prepared, PlanId)).value)
    {
      hide Coherent, ResponseCoordinates, IsRun, Quiet;
      LoadedIsCoherent();
      PreparedCoordinates(prepared, journal.coords);
    }

    /** The part of `_finish_prepare` that takes the plan's coordinates over, in memory only. */
    method RecordPrepared(prepared: Fields) returns (r: Result<Flow<(Word, PlanView)>>)
      requires Loaded() && journal.phase.Prepared? && journal.pending.None?
      requires ResponseCoordinates(PrepareRoute, prepared) == Ok(journal.coords)
      modifies this`journal, this`troubled, this`planRead, env
      ensures Proceeds() && StaysCareful() && env.world.sent == old(env.world.sent)
      ensures r.Raise? ==> !r.error.JournalInvalid?
      ensures r.Ok? && r.value.Halt? ==> r.value.result.status == AttentionRequired
      ensures r.Ok? && r.value.Go? ==>
        && var plan := r.value.value.1;
        && env.world == old(env.world) && Booked() && planRead == Some(plan)
        && PlanAgrees(old(journal).coords, plan.fields) && PlanChanges(plan).Ok?
        && RecordPlan(old(journal).coords, plan.fields) == Ok(journal.coords)
        && journal == old(journal).(coords := journal.coords)
        && Coherent(old(journal)) && Unrecorded(old(journal).coords)
        && PlanAgrees(journal.coords, plan.fields) && journal.coords.approvalId == old(journal).coords.approvalId
    {
      hide Coherent, ValidJournal, PlanAgrees, RecordPlan, PlanChanges, ResponseCoordinates, IsRun, Quiet, Careful,
           Unrecorded, Bookkeeping;
      PreparedShows(prepared);
      var status :- TextOf(Get(prepared, Field.Status));
      if status !in {NoChanges, ReviewBlocked, ApprovalRequired} {
        r := Attend(NotStarted, NotAttempted, Word.ReadWorkspace);
        return;
      }
      var planId := TextOf(Get(prepared, PlanId)).value;
      // the folded response has put this id there already
      journal := journal.(coords := journal.coords.(planId := Some(planId)));
      assert journal == old(journal);
      var plan :- ReadPrepared(planId);
      if plan.Halt? { return Ok(Halt(plan.result)); }
      var coords :- RecordPlan(journal.coords, plan.value.fields);
      PreparedRecords(journal, plan.value.fields);
      journal := journal.(coords := coords);
      return Ok(Go((status, plan.value)));
    }

    /** `_finish_prepare`. */
    method FinishPrepare(prepared: Fields) returns (r: Result<ClientResult>)
      requires Loaded() && journal.phase.Prepared? && journal.pending.None?
      requires ResponseCoordinates(PrepareRoute, prepared) == Ok(journal.coords)
      modifies this`journal, this`troubled, this`planRead, this`approvalRead, env
      ensures Proceeds() && StaysCareful() && env.world.sent == old(env.world.sent)
      ensures r == Raise(JournalInvalid) ==>
        planRead.Some? && planRead.value.activities.Some?
        && |planRead.value.activities.value| > MAXIMUM_REQUEST_RECORDS
      ensures r.Ok? && r.value.status != AttentionRequired ==>
        && env.world.durable == Some(journal) && journal.last == Some(r.value)
        && r.value.status == Standing(journal.phase) && r.value.plan == journal.coords.planId
        && planRead.Some? && PlanAgrees(journal.coords, planRead.value.fields)
        && PlanChanges(planRead.value) == Ok(r.value.changes)
    {
      hide Coherent, ValidJournal, PlanAgrees, RecordPlan, ResponseCoordinates, IsRun, ApprovalAgrees, Unrecorded,
           Bookkeeping;
      ghost var before := journal;
      var recorded :- RecordPrepared(prepared);
      if recorded.Halt? { return Ok(recorded.result); }
      var (status, plan) := recorded.value;
      var approval :- ReadApproval(plan.fields);
      if approval.Halt? { return Ok(approval.result); }
      r := Settle(plan, approval.value, status, before);
    }

    /** The request of `plan`: the desired graph against the workspace's pointers as they are read now. */
    method PlanRequest(path: Word, title: Word) returns (r: Result<(Source, Body)>)
      requires env.Valid()
      modifies this`troubled, env
      ensures Proceeds() && StaysCareful()
      ensures env.world == old(env.world).(minted := env.world.minted)
      ensures r.Raise? ==> !r.error.JournalInvalid?
      ensures r.Ok? ==> Fresh(env.world, r.value.1.key) && r.value.0.size <= MAXIMUM_DESIRED_BYTES
      ensures r.Ok? ==>
        ValidRequest(PendingOf(PrepareRoute, None, r.value.1, Operator, profile.workspace, Some(r.value.0)),
                     profile, r.value.0, NoCoordinates)
    {
      hide IsRun, Quiet, Careful, Fresh, CurrentPointer;
      var desired :- ReadDesired(path);
      var workspace :- ReadWorkspace();
      var current :- CurrentPointer(workspace);
      if current.None? { return Raise(InputError); }
      var wanted :- DesiredPointer(workspace);
      var revision :- IntegerOf(Get(workspace, DesiredRevision), 0);
      var heading :- TextOf(Text(title));
      var key := NewKey();
      return Ok((desired.0, PrepareBody(key, Some(desired.1), current.value, wanted, revision, heading)));
    }

    /** `plan` under the operation's lock, with no journal there yet. */
    method Prepare(source: Source, body: Body) returns (r: Result<ClientResult>)
      requires env.Valid() && env.world.durable.None? && Fresh(env.world, body.key)
      requires source.size <= MAXIMUM_DESIRED_BYTES
      requires ValidRequest(PendingOf(PrepareRoute, None, body, Operator, profile.workspace, Some(source)),
                            profile, source, NoCoordinates)
      modifies this`journal, this`troubled, this`planRead, this`approvalRead, env
      ensures Proceeds() && StaysCareful()
      ensures Climbs(old(env.world.sent), env.world.sent, 0, 0)
      ensures |env.world.sent| <= |old(env.world.sent)| + 1
      ensures r == Raise(JournalInvalid) ==>
        || !IsText(profile.workspace)
        || (&& planRead.Some? && planRead.value.activities.Some?
            && |planRead.value.activities.value| > MAXIMUM_REQUEST_RECORDS)
      ensures r.Ok? && r.value.status != AttentionRequired ==>
        && env.world.durable == Some(journal) && journal.last == Some(r.value)
        && r.value.status == Standing(journal.phase) && r.value.plan == journal.coords.planId
        && planRead.Some? && PlanAgrees(journal.coords, planRead.value.fields)
        && PlanChanges(planRead.value) == Ok(r.value.changes)
    {
      hide Coherent, ValidJournal, ValidRequest, PlanAgrees, PlanChanges, IsRun, Quiet, Careful, Folds,
           ResponseCoordinates;
      journal := NewJournal(ref, profile, source);
      ghost var created := journal;
      NewJournalIsValid(ref, profile, source);
      var _ :- Initialize();
      var prepared :- Mutate(PrepareRoute, None, body, Operator, Some(source));
      if prepared.Halt? { return Ok(prepared.result); }
      PreparationShows(created.(pending := Some(
        PendingOf(PrepareRoute, None, body, Operator, profile.workspace, Some(source)))),
        prepared.value, journal);
      r := FinishPrepare(prepared.value);
    }

    /** `plan`, for the operation reference the identity factory drew. */
    method Plan(path: Word, title: Word) returns (r: Result<ClientResult>)
      requires env.Valid()
      modifies this`journal, this`troubled, this`planRead, this`approvalRead, env
      ensures Proceeds() && StaysCareful()
      ensures StaysAccounted()
      ensures Climbs(old(env.world.sent), env.world.sent, 0, 0)
      ensures |env.world.sent| <= |old(env.world.sent)| + 1
      ensures old(env.world.durable).Some? ==>
        env.world.durable == old(env.world.durable) && env.world.sent == old(env.world.sent) && r.Raise?
      ensures r == Raise(JournalInvalid) ==>
        || !IsText(profile.workspace)
        || (&& planRead.Some? && planRead.value.activities.Some?
            && |planRead.value.activities.value| > MAXIMUM_REQUEST_RECORDS)
      ensures r.Ok? && r.value.status != AttentionRequired ==>
        && env.world.durable == Some(journal) && journal.last == Some(r.value)
        && r.value.status == Standing(journal.phase) && r.value.plan == journal.coords.planId
        && planRead.Some? && PlanAgrees(journal.coords, planRead.value.fields)
        && PlanChanges(planRead.value) == Ok(r.value.changes)
    {
      hide Coherent, ValidJournal, ValidRequest, PlanAgrees, PlanChanges, IsRun, Quiet, Careful, Folds,
           ResponseCoordinates, AccountedNow, AppliedOnce, Fresh, Climbs;
      StaysPut(env.world.sent, 0, 0);
      var request := PlanRequest(path, title);
      env.Accounts(old(env.trace));
      if request.Raise? { return Raise(request.error); }
      // another process may hold the operation's lock
      var locked: bool := *;
      if locked || env.world.durable.Some? { return Raise(JournalUnavailable); }
      r := Prepare(request.value.0, request.value.1);
      env.Accounts(old(env.trace));
    }

    lemma PreparingIsFirst()
      requires Loaded() && journal.pending.Some? && journal.pending.value.route.PrepareRoute?
      ensures journal.phase.Planning? && journal.coords == NoCoordinates
    {
      hide IsRun, Quiet;
      LoadedIsCoherent();
    }

    /** `resume_prepare` on the loaded journal. */
    method ReplayPreparation() returns (r: Result<ClientResult>)
      requires Loaded() && journal.pending.Some? && journal.pending.value.route.PrepareRoute?
      modifies this`journal, this`troubled, this`planRead, this`approvalRead, env
      ensures Proceeds() && (Announced(old(env.world)) ==> StaysCareful())
      ensures Climbs(old(env.world.sent), env.world.sent, 0, 0)
      ensures |env.world.sent| <= |old(env.world.sent)| + 1
      ensures r == Raise(JournalInvalid) ==>
        planRead.Some? && planRead.value.activities.Some?
        && |planRead.value.activities.value| > MAXIMUM_REQUEST_RECORDS
      ensures r.Ok? && r.value.status != AttentionRequired ==>
        && env.world.durable == Some(journal) && journal.last == Some(r.value)
        && r.value.status == Standing(journal.phase) && r.value.plan == journal.coords.planId
        && planRead.Some? && PlanAgrees(journal.coords, planRead.value.fields)
        && PlanChanges(planRead.value) == Ok(r.value.changes)
    {
      hide Coherent, ValidJournal, PlanAgrees, PlanChanges, IsRun, Quiet, Careful, Announced, Folds,
           ResponseCoordinates;
      PreparingIsFirst();
      ghost var loaded := journal;
      var prepared :- ReplayPending();
      if prepared.Halt? { return Ok(prepared.result); }
      PreparationShows(loaded, prepared.value, journal);
      r := FinishPrepare(prepared.value);
    }

    /** `resume_prepare`. */
    method ResumePrepare() returns (r: Result<ClientResult>)
      requires env.Valid()
      modifies this`journal, this`troubled, this`planRead, this`approvalRead, env
      ensures Proceeds() && (Announced(old(env.world)) ==> StaysCareful())
      ensures StaysAccounted()
      ensures Climbs(old(env.world.sent), env.world.sent, 0, 0)
      ensures |env.world.sent| <= |old(env.world.sent)| + 1
      ensures r == Raise(JournalInvalid) ==>
        planRead.Some? && planRead.value.activities.Some?
        && |planRead.value.activities.value| > MAXIMUM_REQUEST_RECORDS
      ensures r.Ok? && r.value.status != AttentionRequired ==>
        && env.world.durable == Some(journal) && journal.last == Some(r.value)
        && r.value.status == Standing(journal.phase) && r.value.plan == journal.coords.planId
        && planRead.Some? && PlanAgrees(journal.coords, planRead.value.fields)
        && PlanChanges(planRead.value) == Ok(r.value.changes)
    {
      hide Coherent, ValidJournal, PlanAgrees, PlanChanges, IsRun, Quiet, Careful, Announced, Folds,
           ResponseCoordinates, AccountedNow, AppliedOnce, Climbs;
      StaysPut(env.world.sent, 0, 0);
      env.AccountsNow();
      var locked: bool := *;
      if locked { return Raise(JournalUnavailable); }
      var _ :- Load();
      if journal.pending.None? || !journal.pending.value.route.PrepareRoute? { return Raise(InputError); }
      r := ReplayPreparation();
      env.Accounts(old(env.trace));
    }

    // ----- status -----

    /** The run's listed entries and, behind them, its events (`_page`, which is modelled by itself). */
    method ReadRuns() returns (r: Result<seq<Fields>>)
      modifies this`troubled
      ensures r.Raise? ==> !r.error.JournalInvalid?
      ensures old(troubled) ==> troubled
    {
      var _ :- ReadWorkspace();
      var items: seq<Fields> := *;
      return Ok(items);
    }

    /** The reads of `_public_status`, up to the one that fails. */
    method Look() returns (s: Survey)
      modifies this`troubled, this`planRead, this`currentRead, this`currentReadAfter
      ensures s.fault.Some? ==> !s.fault.value.JournalInvalid?
      ensures old(troubled) ==> troubled
      ensures s.advancement.Some? && journal.coords.desiredGraph.Some? ==>
        currentRead.Some? && currentReadAfter == |env.world.sent| && ShowsDesired(currentRead.value, journal.coords)
    {
      hide Coherent, ValidJournal, ApprovalAgrees, PlanAgrees, PlanChanges, IsRun, Matching;
      s := NothingSeen;
      var workspace := ReadWorkspace();
      if workspace.Raise? { s := s.(fault := Some(workspace.error)); return; }
      var pointer := CurrentPointer(workspace.value);
      if pointer.Raise? { s := s.(fault := Some(InputError)); return; }
      var current := pointer.value;
      var c := journal.coords;
      var planFields: Option<Fields> := None;
      if c.planId.Some? {
        var plan := CheckedPlan(c.planId.value);
        if plan.Raise? { s := s.(fault := Some(plan.error)); return; }
        var changes := PlanChanges(plan.value);
        if changes.Raise? { s := s.(fault := Some(InputError)); return; }
        s := s.(changes := changes.value);
        planFields := Some(plan.value.fields);
      }
      if c.approvalId.Some? {
        if planFields.None? { s := s.(fault := Some(InputError)); return; }
        var approval := ReadWorkspace();
        if approval.Raise? { s := s.(fault := Some(approval.error)); return; }
        s := s.(approval := Some(approval.value));
        var agrees := ApprovalAgrees(planFields.value, c.approvalId.value, approval.value);
        if agrees != Ok(true) {
          s := s.(fault := Some(if agrees.Raise? then UncaughtTypeError else InputError));
          return;
        }
        var settled := Among(Get(approval.value, State), {Awaiting, Approved});
        if settled.Raise? { s := s.(fault := Some(UncaughtTypeError)); return; }
        s := s.(problem := !settled.value);
      }
      if c.runId.Some? {
        var items := ReadRuns();
        if items.Raise? { s := s.(fault := Some(items.error)); return; }
        var matching := Matching(items.value, c.runId.value);
        if |matching| != 1 { s := s.(mismatched := true); return; }
        var execution := RunExecution(Get(matching[0], Field.Status));
        if execution.Raise? { s := s.(fault := Some(UncaughtTypeError)); return; }
        s := s.(execution := Some(execution.value));
        var events := ReadRuns();
        if events.Raise? { s := s.(fault := Some(events.error)); return; }
      }
      if c.desiredGraph.Some? {
        var observed := ReadCurrent();
        if observed.Raise? { s := s.(fault := Some(observed.error)); return; }
        var graph := TextOf(Get(observed.value, GraphId));
        var projection := TextOf(Get(observed.value, ProjectionId));
        if graph.Raise? || projection.Raise? { s := s.(fault := Some(InputError)); return; }
        current := Some(Pointer(graph.value, projection.value));
      }
      if c.desiredGraph.Some? && c.desiredProjection.Some?
         && current == Some(Pointer(c.desiredGraph.value, c.desiredProjection.value)) {
        s := s.(advancement := Some(Advanced));
      }
    }

    /** `_status_from_journal`. */
    method Report(attention: bool, execution: Option<Word>, advancement: Option<Word>, nextRead: Option<Word>,
                  changes: seq<Change>, approval: Option<Fields>) returns (r: Result<ClientResult>)
      ensures r == StatusFromJournal(journal, attention, execution, advancement, nextRead, changes, approval)
      ensures r.Raise? ==> r.error.InputError?
      ensures r.Ok? ==>
        && About(r.value, journal)
        && r.value.status ==
             if attention || journal.phase.Attention? then AttentionRequired else Standing(journal.phase)
    {
      StatusSays(journal, attention, execution, advancement, nextRead, changes, approval);
      return StatusFromJournal(journal, attention, execution, advancement, nextRead, changes, approval);
    }

    /** `_public_status`: what the public reads show, without touching the journal file. */
    method PublicStatus() returns (r: Result<ClientResult>)
      requires ValidJournal(journal)
      modifies this`troubled, this`planRead, this`currentRead, this`currentReadAfter
      ensures r.Raise? ==> !r.error.JournalInvalid?
      ensures r.Ok? ==> About(r.value, journal)
      ensures r.Ok? && r.value.status != AttentionRequired ==>
        && r.value.status == Standing(journal.phase) && journal.pending.None? && !journal.phase.Attention?
        && (8 <= Rank(journal.phase) <= 9 ==>
              && currentRead.Some? && currentReadAfter == |env.world.sent|
              && ShowsDesired(currentRead.value, journal.coords))
      ensures r.Ok? && r.value.status == Converged ==> SawDesired()
      ensures old(troubled) ==> troubled
    {
      hide ValidJournal, ShowsDesired, StatusFromJournal;
      ConvergedHasPlan(journal);
      var s := Look();
      var next := NextRead(journal.coords);
      if s.mismatched {
        r := Report(true, Some(Unverified), Some(Unverified), Some(ReadPlanRuns), [], None);
        return;
      }
      if s.fault.Some? {
        if !Caught(s.fault.value) { return Raise(s.fault.value); }
        var unsure := journal.pending.Some?;
        r := Report(true, if unsure then Some(Unverified) else s.execution,
                    if unsure then Some(Unverified) else s.advancement, Some(next), s.changes, s.approval);
        return;
      }
      if journal.pending.Some? {
        var route := journal.pending.value.route;
        r := Report(true, if route.StartRoute? || route.ExecuteRoute? then Some(Unverified) else s.execution,
                    if route.AdvanceRoute? then Some(Unverified) else s.advancement, Some(next), s.changes, s.approval);
        return;
      }
      var attention :=
        || s.problem
        || s.execution == Some(Failed) || s.execution == Some(Unverified)
        || (8 <= Rank(journal.phase) <= 9 && s.advancement != Some(Advanced));
      r := Report(attention, s.execution, s.advancement, if attention then Some(next) else None, s.changes, s.approval);
    }

    /** `status`: takes no lock and sends nothing.  Other processes may go on meanwhile, so what it reports
        is about the journal the file held at `loadedAt`. */
    method Status() returns (r: Result<ClientResult>, ghost loadedAt: nat)
      requires env.Valid()
      modifies this, env
      ensures Proceeds()
      ensures r.Raise? ==> !r.error.JournalInvalid?
      ensures r.Ok? ==>
        && |old(env.trace)| - 1 <= loadedAt < |env.trace| && env.trace[loadedAt].durable == Some(journal)
        && About(r.value, journal)
      ensures r.Ok? && r.value.status != AttentionRequired ==>
        && r.value.status == Standing(journal.phase) && journal.pending.None? && !journal.phase.Attention?
        && (8 <= Rank(journal.phase) <= 9 ==> currentRead.Some? && ShowsDesired(currentRead.value, journal.coords))
    {
      hide Coherent, ValidJournal, IsRun, Quiet, ShowsDesired;
      env.Others();
      loadedAt := |env.trace| - 1;
      var loaded := Load();
      if loaded.Raise? { return Raise(loaded.error), loadedAt; }
      LoadedIsCoherent();
      CoherentIsValid(journal);
      env.Others();
      r := PublicStatus();
      env.Others();
    }

    // ----- apply -----

    /** The journal is loaded, waits for nothing, and agrees with the plan that was read. */
    ghost predicate Ready(plan: Fields)
      reads this, env
    {
      Loaded() && journal.pending.None? && Recorded(journal.coords) && PlanAgrees(journal.coords, plan)
    }

    /** Requests go out in the order of the protocol, within these stages and within the budget. */
    twostate predicate Sends(lo: nat, hi: nat)
      reads this, env
    {
      && Proceeds()
      && Climbs(old(env.world.sent), env.world.sent, lo, hi)
      && |env.world.sent| - |old(env.world.sent)| <= MAXIMUM_REQUEST_RECORDS - |old(journal).history|
    }

    /** A part of `apply` went through: every request it sent was accepted. */
    twostate predicate Went(plan: Fields)
      reads this, env
    {
      && Ready(plan)
      && journal.coords.planId == old(journal).coords.planId
      && journal.coords.approvalId == old(journal).coords.approvalId
      && |env.world.sent| - |old(env.world.sent)| == |journal.history| - |old(journal).history|
    }

    /** What the stages of `apply` read off a ready journal. */
    lemma ReadyShows(plan: Fields)
      requires Ready(plan)
      ensures Coherent(journal) && |journal.history| <= MAXIMUM_REQUEST_RECORDS && !journal.phase.Planning?
      ensures Rank(journal.phase) <= 5 ==> |journal.history| <= 5
      ensures Get(plan, SessionId) == OfText(journal.coords.sessionId)
      ensures Required(journal.coords.sessionId).Ok? && Required(journal.coords.planId).Ok?
      ensures FineText(journal.coords.executionRequest) && FineText(journal.coords.runId)
      ensures FineText(journal.coords.approvalId)
      ensures !journal.phase.Attention? && !journal.phase.NoChange? ==>
        && (journal.coords.executionRequest.None? <==> Rank(journal.phase) <= 2)
        && (journal.coords.runId.None? <==> Rank(journal.phase) <= 3)
        && (Rank(journal.phase) >= 3 ==> journal.coords.approvalId.Some?)
        && (Rank(journal.phase) >= 4 ==>
              journal.coords.claimGeneration.Some? && journal.coords.claimGeneration.value > 0)
    {
      hide IsRun, Quiet, PhaseOf, Matches;
      LoadedIsCoherent();
      SessionIsPlans(journal.coords, plan);
      if Rank(journal.phase) <= 5 { EarlyHistory(journal); }
      if 3 <= Rank(journal.phase) <= 9 { AdmittedHasApproval(journal); }
      if 4 <= Rank(journal.phase) <= 9 { ClaimedHasGeneration(journal); }
    }

    /** One request of `apply` and its folded response. */
    method Request(route: Route, item: Option<Word>, body: Body, role: Role, ghost plan: Fields)
      returns (r: Result<Flow<Fields>>)
      requires Ready(plan) && !route.PrepareRoute? && Fresh(env.world, body.key)
      requires ValidRequest(PendingOf(route, item, body, role, profile.workspace, None),
                            journal.target, journal.desired, journal.coords)
      modifies this`journal, this`troubled, env
      ensures Sends(Stage(route), Stage(route)) && StaysCareful()
      ensures |env.world.sent| <= |old(env.world.sent)| + 1
      ensures env.world.sent != old(env.world.sent) ==> MayPend(route, old(journal).phase)
      ensures r == Raise(JournalInvalid) ==> !MayPend(route, old(journal).phase)
      ensures r.Ok? && r.value.Halt? ==> r.value.result.status == AttentionRequired
      ensures r.Ok? && r.value.Go? ==>
        && Went(plan) && |journal.history| == |old(journal).history| + 1
        && Kept(old(journal).coords.runId, journal.coords.runId)
        && Kept(old(journal).coords.claimGeneration, journal.coords.claimGeneration)
        && MayPend(route, old(journal).phase)
        && ResponseCoordinates(route, r.value.value).Ok?
        && journal.phase == PhaseAfter(route, ResponseCoordinates(route, r.value.value).value)
      ensures !troubled && MayPend(route, old(journal).phase) && |old(journal).history| < MAXIMUM_REQUEST_RECORDS ==>
        && r.Ok? && r.value.Go?
        && (route.ExecuteRoute? ==> GoesOn(journal))
    {
      hide Coherent, ValidJournal, ValidRequest, IsRun, Quiet, Careful, PlanAgrees, Recorded, ResponseIsBound,
           ResponseCoordinates, Fresh, Frozen;
      ReadyShows(plan);
      ghost var before := journal;
      r := Mutate(route, item, body, role, None);
      if r.Ok? && r.value.Go? {
        var pending := PendingOf(route, item, body, role, profile.workspace, None);
        FoldShows(before.(pending := Some(pending)), r.value.value, journal);
        PlanStays(before.coords, journal.coords, plan);
        RunStays(before.coords, journal.coords);
      }
    }

    /** The approval part of `apply`: goes on with whether a decision is still to be made. */
    method CheckApproval(plan: Fields, planId: Word, approvePlan: Option<Word>, approveDestructive: Option<Word>)
      returns (r: Result<Flow<bool>>)
      requires Loaded()
      modifies this`journal, this`troubled, this`approvalRead, env
      ensures Proceeds() && StaysCareful() && env.world.sent == old(env.world.sent)
      ensures r.Raise? ==> !r.error.JournalInvalid?
      ensures r.Ok? && r.value.Halt? ==> r.value.result.status == AttentionRequired
      ensures r.Ok? && r.value.Go? ==> env.world == old(env.world) && journal == old(journal)
      ensures r.Ok? && r.value.Go? && journal.coords.approvalId.Some? ==>
        approvalRead.Some? && Consented(approvalRead.value, planId, approvePlan, approveDestructive)
      ensures r.Ok? && r.value.Go? && r.value.value ==>
        && journal.coords.approvalId.Some? && approvalRead.Some?
        && Get(approvalRead.value, State) == Text(Awaiting)
        && (!troubled ==> journal.phase.Prepared?)
      ensures !troubled && old(journal).coords.approvalId.Some? ==>
        && approvalRead.Some?
        && (Consented(approvalRead.value, planId, approvePlan, approveDestructive) ==> r.Ok? && r.value.Go?)
    {
      hide Coherent, ValidJournal, IsRun, Quiet, Careful, ApprovalAgrees, VerdictOf, Consented, Decidable;
      if journal.coords.approvalId.None? { return Ok(Go(false)); }
      var pending := if journal.pending.Some? then Some(journal.pending.value.route) else None;
      var read := CheckedApproval(plan, journal.coords.approvalId.value);
      if read.Raise? {
        if !Caught(read.error) { return Raise(read.error); }
        r := Attend(Unverified, NotAttempted, ReadApprovalDetail);
        return;
      }
      VerdictNeedsConsent(read.value, planId, approvePlan, approveDestructive, pending);
      ConsentIsEnough(read.value, planId, approvePlan, approveDestructive, pending);
      var verdict :- VerdictOf(read.value, planId, approvePlan, approveDestructive, pending);
      if !verdict.Doubtful? { return Ok(Go(verdict.ToDecide?)); }
      r := Attend(NotStarted, NotAttempted, ReadApprovalDetail);
    }

    /** The progress part of `apply`: a run that was begun must look as far on as the journal says. */
    method CheckProgress() returns (r: Result<Flow<()>>, ghost observed: Option<ClientResult>)
      requires Loaded()
      modifies this`journal, this`troubled, this`planRead, this`currentRead, this`currentReadAfter, env
      ensures Proceeds() && StaysCareful() && env.world.sent == old(env.world.sent)
      ensures r.Raise? ==> !r.error.JournalInvalid?
      ensures r.Ok? && r.value.Halt? ==> r.value.result.status == AttentionRequired
      ensures r.Ok? && r.value.Go? ==> env.world == old(env.world) && journal == old(journal)
      ensures r.Ok? && r.value.Go? && journal.coords.runId.Some? ==>
        && observed.Some? && About(observed.value, journal)
        && (journal.pending.None? ==> observed.value.status == Standing(journal.phase))
        && (7 <= Rank(journal.phase) <= 9 ==> observed.value.execution == Succeeded)
        && (8 <= Rank(journal.phase) <= 9 ==> observed.value.advancement == Advanced)
      ensures !troubled && old(journal).coords.runId.None? ==> r.Ok? && r.value.Go?
    {
      hide Coherent, ValidJournal, IsRun, Quiet, Careful, About, Standing, ShowsDesired;
      observed := None;
      LoadedIsCoherent();
      CoherentIsValid(journal);
      if journal.coords.runId.None? { return Ok(Go(())), observed; }
      var status := PublicStatus();
      if status.Raise? { return Raise(status.error), observed; }
      observed := Some(status.value);
      if journal.pending.None? && status.value.status == AttentionRequired { return Ok(Halt(status.value)), observed; }
      if 7 <= Rank(journal.phase) <= 9 && status.value.execution != Succeeded {
        r := Attend(Unverified, NotAttempted, ReadPlanRuns);
        return;
      }
      if 8 <= Rank(journal.phase) <= 9 && status.value.advancement != Advanced {
        r := Attend(Succeeded, Unverified, ReadCurrentGraph);
        return;
      }
      return Ok(Go(())), observed;
    }

    /** The decision: sent in phase prepared, and refused by the validator in any later one. */
    method Decide(plan: Fields) returns (r: Result<Flow<()>>)
      requires Ready(plan) && journal.coords.approvalId.Some?
      modifies this`journal, this`troubled, env
      ensures Sends(1, 1) && StaysCareful()
      ensures r == Raise(JournalInvalid) ==> !old(journal).phase.Prepared?
      ensures r.Ok? && r.value.Halt? ==> r.value.result.status == AttentionRequired
      ensures r.Ok? && r.value.Go? ==>
        && Went(plan) && old(journal).phase.Prepared? && journal.phase.Approval?
        && |journal.history| == |old(journal).history| + 1
      ensures !troubled && old(journal).phase.Prepared? ==> r.Ok? && r.value.Go?
    {
      hide Coherent, ValidJournal, IsRun, Quiet, Careful, PlanAgrees, ResponseCoordinates, Fresh;
      ReadyShows(plan);
      var session := TextOf(Get(plan, SessionId)).value;
      var key := NewKey();
      var body := DecideBody(key, session, Approved);
      var decided :- Request(DecideRoute, journal.coords.approvalId, body, Approver, plan);
      if decided.Halt? { return Ok(Halt(decided.result)); }
      return Ok(Go(()));
    }

    /** The admission, unless there is an execution request already. */
    method Admit(plan: Fields, planId: Word) returns (r: Result<Flow<()>>)
      requires Ready(plan) && journal.coords.planId == Some(planId)
      requires !journal.phase.NoChange? && !journal.phase.Attention?
      modifies this`journal, this`troubled, env
      ensures Sends(2, 2) && StaysCareful()
      ensures old(journal).coords.executionRequest.Some? || old(journal).coords.approvalId.None? ==>
        env.world.sent == old(env.world.sent)
      ensures old(journal).coords.executionRequest.None? && old(journal).coords.approvalId.None? ==> r.Raise?
      ensures r.Raise? ==> !r.error.JournalInvalid?
      ensures r.Ok? && r.value.Halt? ==> r.value.result.status == AttentionRequired
      ensures r.Ok? && r.value.Go? ==>
        && Went(plan) && Rank(journal.phase) >= 3 && !journal.phase.NoChange? && !journal.phase.Attention?
        && if old(journal).coords.executionRequest.Some? then journal == old(journal)
           else journal.phase.Admitted? && |journal.history| == |old(journal).history| + 1
      ensures !troubled && old(journal).coords.approvalId.Some? ==> r.Ok? && r.value.Go?
    {
      hide Coherent, ValidJournal, IsRun, Quiet, Careful, PlanAgrees, ResponseCoordinates, Fresh;
      ReadyShows(plan);
      if journal.coords.executionRequest.Some? { return Ok(Go(())); }
      var session := TextOf(Get(plan, SessionId)).value;
      var approval :- Required(journal.coords.approvalId);
      var key := NewKey();
      var admitted :- Request(AdmitRoute, Some(planId), AdmitBody(key, session, approval, []), Operator, plan);
      if admitted.Halt? { return Ok(Halt(admitted.result)); }
      return Ok(Go(()));
    }

    /** The claim, unless there is a run already. */
    method ClaimRun(plan: Fields) returns (r: Result<Flow<()>>)
      requires Ready(plan) && Rank(journal.phase) >= 3
      requires !journal.phase.NoChange? && !journal.phase.Attention?
      modifies this`journal, this`troubled, env
      ensures Sends(3, 3) && StaysCareful()
      ensures old(journal).coords.runId.Some? ==> env.world.sent == old(env.world.sent)
      ensures r.Raise? ==> !r.error.JournalInvalid?
      ensures r.Ok? && r.value.Halt? ==> r.value.result.status == AttentionRequired
      ensures r.Ok? && r.value.Go? ==>
        && Went(plan) && 4 <= Rank(journal.phase) <= 9
        && if old(journal).coords.runId.Some? then journal == old(journal)
           else journal.phase.Claim? && |journal.history| == |old(journal).history| + 1
      ensures !troubled ==> r.Ok? && r.value.Go?
    {
      hide Coherent, ValidJournal, IsRun, Quiet, Careful, PlanAgrees, ResponseCoordinates, Fresh;
      ReadyShows(plan);
      if journal.coords.runId.Some? { return Ok(Go(())); }
      var request := Required(journal.coords.executionRequest).value;
      var key := NewKey();
      var claimed :- Request(ClaimRoute, Some(request), ClaimBody(key, 1800), Worker, plan);
      if claimed.Halt? { return Ok(Halt(claimed.result)); }
      return Ok(Go(()));
    }

    /** The start of a claimed run. */
    method StartRun(plan: Fields) returns (r: Result<Flow<()>>)
      requires Ready(plan) && 4 <= Rank(journal.phase) <= 9
      modifies this`journal, this`troubled, env
      ensures Sends(4, 4) && StaysCareful()
      ensures !old(journal).phase.Claim? ==> env.world.sent == old(env.world.sent)
      ensures r.Raise? ==> !r.error.JournalInvalid?
      ensures r.Ok? && r.value.Halt? ==> r.value.result.status == AttentionRequired
      ensures r.Ok? && r.value.Go? ==>
        && Went(plan)
        && if old(journal).phase.Claim? then journal.phase.Started? && |journal.history| == |old(journal).history| + 1
           else journal == old(journal)
      ensures !troubled ==> r.Ok? && r.value.Go?
    {
      hide Coherent, ValidJournal, IsRun, Quiet, Careful, PlanAgrees, ResponseCoordinates, Fresh;
      ReadyShows(plan);
      var run := Required(journal.coords.runId).value;
      // a claimed run has a positive generation
      var generation := IntegerOf(OfInt(journal.coords.claimGeneration), 1).value;
      if Rank(journal.phase) > 4 { return Ok(Go(())); }
      var key := NewKey();
      var started :- Request(StartRoute, Some(run), StartBody(key, generation), Worker, plan);
      if started.Halt? { return Ok(Halt(started.result)); }
      return Ok(Go(()));
    }

    /** One request to execute: goes on with what the coordinator reports. */
    method Execute(plan: Fields, run: Word, generation: int) returns (r: Result<Flow<Word>>)
      requires Ready(plan) && 5 <= Rank(journal.phase) <= 6
      requires journal.coords.runId == Some(run) && journal.coords.claimGeneration == Some(generation)
      modifies this`journal, this`troubled, env
      ensures Sends(5, 5) && StaysCareful() && |env.world.sent| <= |old(env.world.sent)| + 1
      ensures r.Raise? ==> !r.error.JournalInvalid?
      ensures r.Ok? && r.value.Halt? ==> r.value.result.status == AttentionRequired
      ensures r.Ok? && r.value.Go? ==>
        && Went(plan) && |journal.history| == |old(journal).history| + 1
        && journal.coords.runId == Some(run) && journal.coords.claimGeneration == Some(generation)
        && journal.phase == if r.value.value == Completed then Executed
                            else if r.value.value == Progressed then Executing else Phase.Attention
      ensures !troubled && |old(journal).history| < MAXIMUM_REQUEST_RECORDS ==> r.Ok? && r.value.Go? && GoesOn(journal)
    {
      hide Coherent, ValidJournal, IsRun, Quiet, Careful, PlanAgrees, ResponseCoordinates, Fresh, Recorded;
      var key := NewKey();
      var executed :- Request(ExecuteRoute, Some(run), ExecuteBody(key, generation, 1), Worker, plan);
      if executed.Halt? { return Ok(Halt(executed.result)); }
      ExecutionLeads(executed.value);
      var status := TextOf(Get(executed.value, CoordinatorStatus)).value;
      return Ok(Go(status));
    }

    /** One round of the execution loop: goes on with whether the coordinator completed. */
    method ExecuteOnce(plan: Fields, run: Word, generation: int) returns (r: Result<Flow<bool>>)
      requires Ready(plan) && 5 <= Rank(journal.phase) <= 6
      requires journal.coords.runId == Some(run) && journal.coords.claimGeneration == Some(generation)
      modifies this`journal, this`troubled, env
      ensures Sends(5, 5) && StaysCareful() && |env.world.sent| <= |old(env.world.sent)| + 1
      ensures r.Raise? ==> !r.error.JournalInvalid?
      ensures r.Ok? && r.value.Halt? ==> r.value.result.status == AttentionRequired
      ensures r.Ok? && r.value.Go? ==>
        && Went(plan) && |journal.history| == |old(journal).history| + 1
        && journal.coords.runId == Some(run) && journal.coords.claimGeneration == Some(generation)
        && journal.phase == if r.value.value then Executed else Executing
      ensures !troubled && |old(journal).history| < MAXIMUM_REQUEST_RECORDS ==> r.Ok? && r.value.Go? && GoesOn(journal)
    {
      hide Coherent, ValidJournal, IsRun, Quiet, Careful, PlanAgrees, Recorded, Climbs;
      var status :- Execute(plan, run, generation);
      if status.Halt? { return Ok(Halt(status.result)); }
      if status.value == Completed { return Ok(Go(true)); }
      if status.value == Progressed { return Ok(Go(false)); }
      r := Attend(StalledExecution(status.value), NotAttempted, ReadRunEvents);
      return;
    }

    /** The execution loop: one effect at a time until the coordinator completes or stalls. */
    method ExecuteRun(plan: Fields) returns (r: Result<Flow<()>>)
      requires Ready(plan) && 5 <= Rank(journal.phase) <= 9
      modifies this`journal, this`troubled, env
      ensures Sends(5, 5) && StaysCareful()
      ensures 7 <= Rank(old(journal).phase) ==> env.world.sent == old(env.world.sent)
      ensures r.Raise? ==> !r.error.JournalInvalid?
      ensures r.Ok? && r.value.Halt? ==> r.value.result.status == AttentionRequired
      ensures r.Ok? && r.value.Go? ==>
        Went(plan) && if 7 <= Rank(old(journal).phase) then journal == old(journal) else journal.phase.Executed?
      ensures !troubled && |old(journal).history| <= MAXIMUM_REQUEST_RECORDS - 2 ==>
        && r.Ok? && r.value.Go?
        && (Rank(old(journal).phase) < 7 ==> |journal.history| < MAXIMUM_REQUEST_RECORDS)
    {
      hide Coherent, ValidJournal, IsRun, Quiet, Careful, PlanAgrees, Recorded;
      ReadyShows(plan);
      if 7 <= Rank(journal.phase) { return Ok(Go(())); }
      StartedHistory(journal);
      var run := Required(journal.coords.runId).value;
      var generation := IntegerOf(OfInt(journal.coords.claimGeneration), 1).value;
      for i := 0 to MAXIMUM_REQUEST_RECORDS
        invariant Went(plan) && Sends(5, 5) && StaysCareful() && 5 <= Rank(journal.phase) <= 6
        invariant journal.coords.runId == Some(run) && journal.coords.claimGeneration == Some(generation)
        invariant |journal.history| >= 4 + i
        invariant !troubled && |old(journal).history| <= MAXIMUM_REQUEST_RECORDS - 2 ==>
          |journal.history| <= MAXIMUM_REQUEST_RECORDS - 2
      {
        var completed :- ExecuteOnce(plan, run, generation);
        if completed.Halt? { return Ok(Halt(completed.result)); }
        if completed.value { return Ok(Go(())); }
      }
      // the request budget is spent before the loop is
      ReadyShows(plan);
      assert false;
    }

    /** The current pointer, read now, has to be where the plan starts from. */
    method FindBase() returns (r: Result<Flow<Pointer>>)
      requires Loaded()
      modifies this`journal, this`troubled, this`pointerRead, env
      ensures Proceeds() && StaysCareful() && env.world.sent == old(env.world.sent)
      ensures r.Raise? ==> !r.error.JournalInvalid?
      ensures r.Ok? && r.value.Halt? ==> r.value.result.status == AttentionRequired
      ensures r.Ok? && r.value.Go? ==>
        && env.world == old(env.world) && journal == old(journal)
        && pointerRead == Some(r.value.value) && IsBase(pointerRead, journal.coords)
      ensures !troubled ==> r.Ok? && r.value.Go?
    {
      hide Coherent, ValidJournal, IsRun, Quiet, Careful;
      var pointer := ReadPointer();
      if pointer.Raise? {
        if !Caught(pointer.error) { return Raise(pointer.error); }
        r := Attend(Succeeded, Unverified, ReadCurrentGraph);
        return;
      }
      if !IsBase(pointer.value, journal.coords) {
        r := Attend(if pointer.value.None? then NotStarted else Succeeded, Unverified, ReadCurrentGraph);
        return;
      }
      return Ok(Go(pointer.value.value));
    }

    /** The request to advance from the base pointer. */
    method AdvanceFrom(plan: Fields, planId: Word, base: Pointer) returns (r: Result<Flow<()>>)
      requires Ready(plan) && journal.coords.planId == Some(planId) && 7 <= Rank(journal.phase) <= 9
      requires IsBase(Some(base), journal.coords)
      modifies this`journal, this`troubled, env
      ensures Sends(6, 6) && StaysCareful()
      ensures !old(journal).phase.Executed? ==> env.world.sent == old(env.world.sent)
      ensures r == Raise(JournalInvalid) ==> !old(journal).phase.Executed?
      ensures r.Ok? && r.value.Halt? ==> r.value.result.status == AttentionRequired
      ensures r.Ok? && r.value.Go? ==>
        && Went(plan) && journal.phase.Advance? && old(journal).phase.Executed?
        && |journal.history| == |old(journal).history| + 1
      ensures (!troubled && old(journal).phase.Executed? && |old(journal).history| < MAXIMUM_REQUEST_RECORDS
              && IntegerOf(Get(plan, DesiredRevision), 0).Ok?) ==> r.Ok? && r.value.Go?
    {
      hide Coherent, ValidJournal, IsRun, Quiet, Careful, PlanAgrees, ResponseCoordinates, Fresh, ValidRequest,
           GoesOn, Climbs;
      ReadyShows(plan);
      StaysPut(env.world.sent, 6, 6);
      var c := journal.coords;
      var generation := IntegerOf(OfInt(c.claimGeneration), 1).value;
      var revision :- IntegerOf(Get(plan, DesiredRevision), 0);
      var key := NewKey();
      AdvanceFits(journal, plan, planId, key);
      var desired := Pointer(c.desiredGraph.value, c.desiredProjection.value);
      var body := AdvanceBody(key, planId, generation, base, desired, revision);
      var advanced :- Request(AdvanceRoute, c.runId, body, Worker, plan);
      if advanced.Halt? { return Ok(Halt(advanced.result)); }
      return Ok(Go(()));
    }

    /** The advancement from the plan's base pointer, unless the journal has it already. */
    method AdvanceGraph(plan: Fields, planId: Word) returns (r: Result<Flow<()>>)
      requires Ready(plan) && journal.coords.planId == Some(planId) && 7 <= Rank(journal.phase) <= 9
      modifies this`journal, this`troubled, this`pointerRead, env
      ensures Sends(6, 6) && StaysCareful()
      ensures !old(journal).phase.Executed? ==> env.world.sent == old(env.world.sent)
      ensures env.world.sent != old(env.world.sent) ==> IsBase(pointerRead, old(journal).coords)
      ensures r == Raise(JournalInvalid) ==> old(journal).phase.Converge?
      ensures r.Ok? && r.value.Halt? ==> r.value.result.status == AttentionRequired
      ensures r.Ok? && r.value.Go? ==>
        && Went(plan) && journal.phase.Advance? && !old(journal).phase.Converge?
        && |journal.history| == |old(journal).history| + (if old(journal).phase.Executed? then 1 else 0)
      ensures (!troubled && !old(journal).phase.Converge? && |old(journal).history| < MAXIMUM_REQUEST_RECORDS
              && IntegerOf(Get(plan, DesiredRevision), 0).Ok?) ==> r.Ok? && r.value.Go?
    {
      hide Coherent, ValidJournal, IsRun, Quiet, Careful, PlanAgrees, Recorded, Climbs;
      ReadyShows(plan);
      StaysPut(env.world.sent, 6, 6);
      if journal.phase.Advance? { return Ok(Go(())); }
      var base :- FindBase();
      if base.Halt? { return Ok(Halt(base.result)); }
      r := AdvanceFrom(plan, planId, base.value);
    }

    /** The end of `apply`: converged once a read shows the desired pointer. */
    method Observe(plan: Fields) returns (r: Result<ClientResult>)
      requires Ready(plan) && journal.phase.Advance?
      modifies this`journal, this`troubled, this`currentRead, this`currentReadAfter, env
      ensures Proceeds() && StaysCareful() && env.world.sent == old(env.world.sent)
      ensures r.Raise? ==> !r.error.JournalInvalid?
      ensures r.Ok? ==> r.value.status == AttentionRequired || r.value.status == Converged
      ensures r.Ok? && r.value.status == Converged ==> SawDesired() && env.world.durable == Some(journal)
      ensures !troubled ==> r.Ok? && r.value.status == Converged
    {
      hide Coherent, ValidJournal, PlanAgrees, IsRun, Quiet, Careful, SawDesired, ShowsDesired, StatusFromJournal,
           Bookkeeping;
      LoadedIsCoherent();
      PlanNames(journal.coords, plan);
      var observed := ReadCurrent();
      if observed.Raise? {
        if !Caught(observed.error) { return Raise(observed.error); }
        r := Attention(Succeeded, Unverified, ReadCurrentGraph);
        return;
      }
      DesiredReads(observed.value, journal.coords);
      if Get(observed.value, GraphId) != Get(plan, DesiredGraphId)
         || Get(observed.value, ProjectionId) != Get(plan, DesiredProjectionId) {
        r := Attention(NotStarted, Unverified, ReadCurrentGraph);
        return;
      }
      ConvergingSays(journal);
      journal := journal.(phase := Converge);
      var result := StatusFromJournal(journal, false, None, None, None, [], None).value;
      journal := journal.(last := Some(result));
      var _ :- Save();
      Shows(observed.value);
      return Ok(result);
    }

    lemma Shows(observed: Fields)
      requires journal.phase.Converge? && journal.pending.None? && Recorded(journal.coords)
      requires currentRead == Some(observed) && currentReadAfter == |env.world.sent|
      requires ShowsDesired(observed, journal.coords)
      ensures SawDesired()
    {
    }

    /** The requests of `apply` up to the claim: on success, each exactly if the journal lacks it. */
    method Begin(plan: Fields, planId: Word, awaiting: bool) returns (r: Result<Flow<()>>)
      requires Ready(plan) && journal.coords.planId == Some(planId)
      requires !journal.phase.NoChange? && !journal.phase.Attention?
      requires awaiting ==> journal.coords.approvalId.Some?
      modifies this`journal, this`troubled, env
      ensures Sends(NextStage(old(journal), awaiting), 3) && StaysCareful()
      ensures old(journal).coords.approvalId.None? ==> env.world.sent == old(env.world.sent)
      ensures r == Raise(JournalInvalid) ==> awaiting && !old(journal).phase.Prepared?
      ensures r.Ok? && r.value.Halt? ==> r.value.result.status == AttentionRequired
      ensures r.Ok? && r.value.Go? ==>
        && Went(plan) && 4 <= Rank(journal.phase) <= 9
        && if old(journal).coords.runId.Some? then journal == old(journal)
           else journal.phase.Claim? && |journal.history| == |old(journal).history| + Lacking(old(journal), awaiting)
      ensures !troubled && old(journal).coords.approvalId.Some? && (awaiting ==> old(journal).phase.Prepared?) ==>
        r.Ok? && r.value.Go?
    {
      hide Coherent, ValidJournal, IsRun, Quiet, Careful, PlanAgrees, Recorded, Bookkeeping, Climbs,
           Environment.Valid, Ready, Loaded;
      ReadyShows(plan);
      ghost var least := NextStage(journal, awaiting);
      ghost var start := env.world.sent;
      StaysPut(start, least, 1);
      if awaiting {
        var decided := Decide(plan);
        ClimbsOn(start, start, env.world.sent, least, 1, 1, 1, least, 3);
        if decided.Raise? { return Raise(decided.error); }
        if decided.value.Halt? { return Ok(Halt(decided.value.result)); }
        ReadyShows(plan);
      }
      ghost var middle := env.world.sent;
      var admitted := Admit(plan, planId);
      ClimbsOn(start, middle, env.world.sent, least, 1, 2, 2, least, 2);
      ClimbsOn(start, start, env.world.sent, least, 1, least, 2, least, 3);
      if admitted.Raise? { return Raise(admitted.error); }
      if admitted.value.Halt? { return Ok(Halt(admitted.value.result)); }
      ReadyShows(plan);
      middle := env.world.sent;
      r := ClaimRun(plan);
      ClimbsOn(start, middle, env.world.sent, least, 2, 3, 3, least, 3);
    }

    /** The start and the execution of a claimed run. */
    method RunPlan(plan: Fields) returns (r: Result<Flow<()>>)
      requires Ready(plan) && 4 <= Rank(journal.phase) <= 9
      modifies this`journal, this`troubled, env
      ensures Sends(NextStage(old(journal), false), 5) && StaysCareful()
      ensures 7 <= Rank(old(journal).phase) ==> env.world.sent == old(env.world.sent)
      ensures r.Raise? ==> !r.error.JournalInvalid?
      ensures r.Ok? && r.value.Halt? ==> r.value.result.status == AttentionRequired
      ensures r.Ok? && r.value.Go? ==>
        Went(plan) && if 7 <= Rank(old(journal).phase) then journal == old(journal) else journal.phase.Executed?
      ensures !troubled && old(journal).phase.Claim? ==>
        r.Ok? && r.value.Go? && |journal.history| < MAXIMUM_REQUEST_RECORDS
    {
      hide Coherent, ValidJournal, IsRun, Quiet, Careful, PlanAgrees, Recorded, Bookkeeping, Climbs;
      ReadyShows(plan);
      ghost var least := NextStage(journal, false);
      ghost var start := env.world.sent;
      StaysPut(start, least, 4);
      var started := StartRun(plan);
      ghost var middle := env.world.sent;
      ClimbsOn(start, start, middle, least, 4, 4, 4, least, 5);
      if started.Raise? { return Raise(started.error); }
      if started.value.Halt? { return Ok(Halt(started.value.result)); }
      ReadyShows(plan);
      ClimbsOn(start, start, middle, least, 4, 4, 4, least, 4);
      r := ExecuteRun(plan);
      ClimbsOn(start, middle, env.world.sent, least, 4, 5, 5, least, 5);
    }

    /** The requests of `apply` from the start to the advancement. */
    method Finish(plan: Fields, planId: Word) returns (r: Result<Flow<()>>)
      requires Ready(plan) && journal.coords.planId == Some(planId) && 4 <= Rank(journal.phase) <= 9
      modifies this`journal, this`troubled, this`pointerRead, env
      ensures Sends(NextStage(old(journal), false), 6) && StaysCareful()
      ensures r == Raise(JournalInvalid) ==> old(journal).phase.Converge?
      ensures r.Ok? && r.value.Halt? ==> r.value.result.status == AttentionRequired
      ensures r.Ok? && r.value.Go? ==> Went(plan) && journal.phase.Advance? && !old(journal).phase.Converge?
      ensures !troubled && old(journal).phase.Claim? && IntegerOf(Get(plan, DesiredRevision), 0).Ok? ==>
        r.Ok? && r.value.Go?
    {
      hide Coherent, ValidJournal, IsRun, Quiet, Careful, PlanAgrees, Recorded, Bookkeeping, Climbs, IntegerOf;
      ReadyShows(plan);
      ghost var least := NextStage(journal, false);
      ghost var start := env.world.sent;
      StaysPut(start, least, 5);
      var ran := RunPlan(plan);
      ghost var middle := env.world.sent;
      ClimbsOn(start, start, middle, least, 5, least, 5, least, 6);
      if ran.Raise? { return Raise(ran.error); }
      if ran.value.Halt? { return Ok(Halt(ran.value.result)); }
      ReadyShows(plan);
      r := AdvanceGraph(plan, planId);
      ClimbsOn(start, middle, env.world.sent, least, 5, 6, 6, least, 6);
    }

    /** All the requests of `apply`. */
    method March(plan: Fields, planId: Word, awaiting: bool) returns (r: Result<Flow<()>>)
      requires Ready(plan) && journal.coords.planId == Some(planId)
      requires !journal.phase.NoChange? && !journal.phase.Attention?
      requires awaiting ==> journal.coords.approvalId.Some?
      modifies this`journal, this`troubled, this`pointerRead, env
      ensures Sends(NextStage(old(journal), awaiting), 6) && StaysCareful()
      ensures old(journal).coords.approvalId.None? ==> env.world.sent == old(env.world.sent)
      ensures r == Raise(JournalInvalid) ==>
        (awaiting && !old(journal).phase.Prepared?) || old(journal).phase.Converge?
      ensures r.Ok? && r.value.Halt? ==> r.value.result.status == AttentionRequired
      ensures r.Ok? && r.value.Go? ==> Went(plan) && journal.phase.Advance? && !old(journal).phase.Converge?
      ensures (!troubled && Rank(old(journal).phase) <= 4 && old(journal).coords.approvalId.Some?
              && (awaiting ==> old(journal).phase.Prepared?) && IntegerOf(Get(plan, DesiredRevision), 0).Ok?) ==>
        r.Ok? && r.value.Go?
    {
      hide Coherent, ValidJournal, IsRun, Quiet, Careful, PlanAgrees, Recorded, Bookkeeping, Climbs;
      ReadyShows(plan);
      ghost var least := NextStage(journal, awaiting);
      ghost var start := env.world.sent;
      StaysPut(start, least, 3);
      var begun := Begin(plan, planId, awaiting);
      ghost var middle := env.world.sent;
      ClimbsOn(start, start, middle, least, 3, least, 3, least, 6);
      if begun.Raise? { return Raise(begun.error); }
      if begun.value.Halt? { return Ok(Halt(begun.value.result)); }
      ReadyShows(plan);
      ghost var next := NextStage(journal, false);
      r := Finish(plan, planId);
      ClimbsOn(start, middle, env.world.sent, least, 3, next, 6, least, 6);
    }

    /** `apply` once the journal waits for nothing. */
    method Drive(plan: Fields, planId: Word, awaiting: bool) returns (r: Result<ClientResult>)
      requires Ready(plan) && journal.coords.planId == Some(planId)
      requires awaiting ==> journal.coords.approvalId.Some?
      modifies this`journal, this`troubled, this`pointerRead, this`currentRead, this`currentReadAfter, env
      ensures Sends(NextStage(old(journal), awaiting), 6) && StaysCareful()
      ensures old(journal).coords.approvalId.None? ==> env.world.sent == old(env.world.sent)
      ensures r == Raise(JournalInvalid) ==>
        (awaiting && !old(journal).phase.Prepared?) || old(journal).phase.Converge?
      ensures old(journal).phase.Converge? && r.Ok? ==> r.value.status == AttentionRequired
      ensures r.Ok? ==> r.value.status in {AttentionRequired, NoChanges, Converged}
      ensures r.Ok? && r.value.status == NoChanges ==> old(journal).phase.NoChange?
      ensures r.Ok? && r.value.status == Converged ==> SawDesired() && env.world.durable == Some(journal)
      ensures (!troubled && Rank(old(journal).phase) <= 4 && old(journal).coords.approvalId.Some?
              && (awaiting ==> old(journal).phase.Prepared?) && IntegerOf(Get(plan, DesiredRevision), 0).Ok?) ==>
        r.Ok? && r.value.status == Converged
    {
      hide Coherent, ValidJournal, IsRun, Quiet, Careful, PlanAgrees, Recorded, Bookkeeping, SawDesired, Climbs;
      ReadyShows(plan);
      StaysPut(env.world.sent, NextStage(journal, awaiting), 6);
      if journal.phase.NoChange? {
        return StatusFromJournal(journal, false, None, None, None, [], None);
      }
      if journal.phase.Attention? {
        return StatusFromJournal(journal, true, None, None, None, [], None);
      }
      var marched :- March(plan, planId, awaiting);
      if marched.Halt? { return Ok(marched.result); }
      r := Observe(plan);
    }

    /** The plan `apply` works on: read, checked, and recorded if its coordinates are not yet. */
    method SettlePlan(planId: Word) returns (r: Result<Flow<Fields>>)
      requires Loaded() && journal.coords.planId == Some(planId)
      modifies this`journal, this`troubled, this`planRead, env
      ensures Proceeds() && StaysCareful() && env.world.sent == old(env.world.sent)
      ensures r.Raise? ==> !r.error.JournalInvalid?
      ensures r.Ok? && r.value.Halt? ==> r.value.result.status == AttentionRequired
      ensures r.Ok? && r.value.Go? ==>
        && Loaded() && Recorded(journal.coords) && PlanAgrees(journal.coords, r.value.value)
        && journal == old(journal).(coords := journal.coords)
        && journal.coords.planId == Some(planId) && journal.coords.approvalId == old(journal).coords.approvalId
        && journal.coords.runId == old(journal).coords.runId
        && (journal.pending.Some? ==> env.world == old(env.world))
      ensures !troubled ==> r.Ok? && r.value.Go? && IntegerOf(Get(r.value.value, DesiredRevision), 0).Ok?
    {
      hide ValidJournal, IsRun, Quiet, Careful, PlanAgrees, RecordPlan, Matches, Coherent;
      LoadedIsCoherent();
      var plan := CheckedPlan(planId);
      if plan.Raise? {
        if !Caught(plan.error) { return Raise(plan.error); }
        r := Attend(Unverified, NotAttempted, ReadPlanDetail);
        return;
      }
      RecordPlanReads(journal.coords, plan.value.fields);
      SessionMeansRecorded(journal);
      if journal.coords.sessionId.None? {
        var coords :- RecordPlan(journal.coords, plan.value.fields);
        RecordingIsBooked(journal, plan.value.fields);
        journal := journal.(coords := coords);
        var _ :- Save();
      }
      return Ok(Go(plan.value.fields));
    }

    /** The replay part of `apply`: at most the journalled request is sent; afterwards the journal waits for
        nothing. */
    method Recover(plan: Fields) returns (r: Result<Flow<()>>)
      requires Loaded() && Recorded(journal.coords) && PlanAgrees(journal.coords, plan)
      requires journal.pending.Some? ==> !journal.pending.value.route.PrepareRoute?
      modifies this`journal, this`troubled, env
      ensures Proceeds() && ((old(journal).pending.Some? ==> Announced(old(env.world))) ==> StaysCareful())
      ensures StaysAccounted()
      ensures env.world.sent == old(env.world.sent)
           || (old(journal).pending.Some?
               && var p := old(journal).pending.value;
                  env.world.sent == old(env.world.sent) + [RequestOf(p, p.digest.body)])
      ensures r.Raise? ==> !r.error.JournalInvalid?
      ensures r.Ok? && r.value.Halt? ==> r.value.result.status == AttentionRequired
      ensures r.Ok? && r.value.Go? ==> Went(plan)
      ensures r.Ok? && r.value.Go? && old(journal).pending.None? ==>
        journal == old(journal) && env.world == old(env.world)
      ensures r.Ok? && r.value.Go? && old(journal).pending.Some? ==>
        var route := old(journal).pending.value.route;
        && !journal.phase.Converge? && !journal.phase.NoChange?
        && (!route.ExecuteRoute? ==> journal.phase == PhaseAfter(route, NoCoordinates))
        && (Stage(route) < NextStage(journal, false) || Stage(route) == NextStage(journal, false) == 5)
      ensures !troubled ==> r.Ok? && r.value.Go?
    {
      hide Coherent, ValidJournal, IsRun, Quiet, Careful, Announced, PlanAgrees, Recorded, Folds, ResponseCoordinates,
           Frozen, AccountedNow, AppliedOnce;
      env.Accounts(old(env.trace));
      LoadedIsCoherent();
      if journal.pending.None? { return Ok(Go(())); }
      ghost var before := journal;
      var recovered := ReplayPending();
      env.Accounts(old(env.trace));
      if recovered.Raise? { return Raise(recovered.error); }
      if recovered.value.Halt? { return Ok(Halt(recovered.value.result)); }
      var response := recovered.value.value;
      FoldShows(before, response, journal);
      PlanStays(before.coords, journal.coords, plan);
      var route := before.pending.value.route;
      FoldMovesOn(before, journal, ResponseCoordinates(route, response).value);
      return Ok(Go(()));
    }

    lemma ConvergedWaitsForNothing()
      requires Loaded() && journal.phase.Converge?
      ensures journal.pending.None?
    {
      hide IsRun, Quiet;
      LoadedIsCoherent();
    }

    /** What a loaded journal that waits for a request has. */
    lemma PendingShows()
      requires Loaded() && (journal.pending.Some? ==> !journal.pending.value.route.PrepareRoute?)
      ensures journal.coords.approvalId.None? ==> journal.pending.None?
      ensures journal.pending.Some? ==> MayPend(journal.pending.value.route, journal.phase)
    {
      hide IsRun, Quiet, PhaseOf, Matches, DistinctKeys, RecordKeys, ValidCoordinates, ValidResult;
      LoadedIsCoherent();
      if 3 <= Rank(journal.phase) <= 9 { AdmittedHasApproval(journal); }
    }

    lemma EarlyHasNoRun()
      requires Loaded()
      ensures Rank(journal.phase) <= 3 ==> journal.coords.runId.None?
    {
      hide IsRun, Quiet;
      LoadedIsCoherent();
    }

    lemma PlanIsText()
      requires Loaded()
      ensures journal.coords.planId.Some? ==> IsText(journal.coords.planId.value)
      ensures 1 <= Rank(journal.phase) && journal.pending.Some? ==> !journal.pending.value.route.PrepareRoute?
    {
      hide IsRun, Quiet;
      LoadedIsCoherent();
    }

    /** The accepted requests are a whole word of the protocol. */
    ghost predicate WholeWord()
      reads this
    {
      exists decided, n: nat :: n > 0 && Routes(journal.history) == Language(decided, n)
    }

    /** A converged operation has gone through a whole word of the protocol. */
    lemma ConvergedHistory()
      requires env.Valid() && env.world.durable == Some(journal) && SawDesired()
      ensures WholeWord()
    {
      hide IsRun, Quiet, Inv, Coherent;
      env.Knows();
      var decided, n := HistoryLanguage(journal);
    }

    /** `apply` once its reads are made: replay what is pending, then drive on. */
    method Resume(plan: Fields, planId: Word, awaiting: bool) returns (r: Result<ClientResult>)
      requires Loaded() && Recorded(journal.coords) && PlanAgrees(journal.coords, plan)
      requires journal.coords.planId == Some(planId)
      requires journal.pending.Some? ==> !journal.pending.value.route.PrepareRoute?
      requires awaiting ==> journal.coords.approvalId.Some?
      modifies this`journal, this`troubled, this`pointerRead, this`currentRead, this`currentReadAfter, env
      ensures Sends(FirstStage(old(journal), awaiting), 6)
      ensures (old(journal).pending.Some? ==> Announced(old(env.world))) ==> StaysCareful()
      ensures StaysAccounted()
      ensures old(journal).coords.approvalId.None? ==> env.world.sent == old(env.world.sent)
      ensures r == Raise(JournalInvalid) ==>
        (awaiting && !old(journal).phase.Prepared?) || old(journal).phase.Converge?
      ensures old(journal).phase.Converge? && r.Ok? ==> r.value.status == AttentionRequired
      ensures r.Ok? ==> r.value.status in {AttentionRequired, NoChanges, Converged}
      ensures r.Ok? && r.value.status == NoChanges ==> old(journal).phase.NoChange?
      ensures r.Ok? && r.value.status == Converged ==> SawDesired() && env.world.durable == Some(journal)
      ensures (!troubled && Rank(old(journal).phase) <= 3 && old(journal).coords.approvalId.Some?
              && (awaiting ==> old(journal).phase.Prepared?) && IntegerOf(Get(plan, DesiredRevision), 0).Ok?) ==>
        r.Ok? && r.value.status == Converged
    {
      hide Coherent, ValidJournal, IsRun, Quiet, Careful, Announced, PlanAgrees, Recorded, Bookkeeping, SawDesired,
           Climbs, NextStage, AccountedNow, AppliedOnce;
      env.HistoryBound();
      PendingShows();
      if journal.phase.Converge? { ConvergedWaitsForNothing(); }
      ghost var start, least := env.world.sent, FirstStage(journal, awaiting);
      var pending := journal.pending;
      var recovered := Recover(plan);
      ghost var middle := env.world.sent;
      env.Accounts(old(env.trace));
      OneClimbs(start, middle, least);
      if recovered.Raise? { return Raise(recovered.error); }
      if recovered.value.Halt? { return Ok(recovered.value.result); }
      ghost var next := NextStage(journal, awaiting && pending.None?);
      r := Drive(plan, planId, awaiting && pending.None?);
      ClimbsOn(start, middle, env.world.sent, least, least, next, 6, least, 6);
      env.Accounts(old(env.trace));
    }

    /** The reads of `apply`: goes on with the plan, and whether a decision is still to be made. */
    method Examine(planId: Word, approvePlan: Option<Word>, approveDestructive: Option<Word>)
      returns (r: Result<Flow<(Fields, bool)>>)
      requires Loaded() && journal.coords.planId == Some(planId)
      modifies this`journal, this`troubled, this`planRead, this`approvalRead, this`currentRead,
        this`currentReadAfter, env
      ensures Proceeds() && StaysCareful() && env.world.sent == old(env.world.sent)
      ensures r.Raise? ==> !r.error.JournalInvalid?
      ensures r.Ok? && r.value.Halt? ==> r.value.result.status == AttentionRequired
      ensures r.Ok? && r.value.Go? ==>
        && Loaded() && Recorded(journal.coords) && PlanAgrees(journal.coords, r.value.value.0)
        && journal == old(journal).(coords := journal.coords)
        && journal.coords.planId == Some(planId) && journal.coords.approvalId == old(journal).coords.approvalId
        && (journal.pending.Some? ==> env.world == old(env.world))
      ensures r.Ok? && r.value.Go? && journal.coords.approvalId.Some? ==>
        approvalRead.Some? && Consented(approvalRead.value, planId, approvePlan, approveDestructive)
      ensures r.Ok? && r.value.Go? && r.value.value.1 ==>
        && journal.coords.approvalId.Some? && Get(approvalRead.value, State) == Text(Awaiting)
        && (!troubled ==> journal.phase.Prepared?)
      ensures (!troubled && Rank(old(journal).phase) <= 3 && old(journal).coords.approvalId.Some?
              && approvalRead.Some? && Consented(approvalRead.value, planId, approvePlan, approveDestructive)) ==>
        r.Ok? && r.value.Go? && IntegerOf(Get(r.value.value.0, DesiredRevision), 0).Ok?
    {
      hide Coherent, ValidJournal, IsRun, Quiet, Careful, Announced, PlanAgrees, Recorded, Bookkeeping, Consented,
           Standing, About;
      EarlyHasNoRun();
      var plan :- SettlePlan(planId);
      if plan.Halt? { return Ok(Halt(plan.result)); }
      var awaiting :- CheckApproval(plan.value, planId, approvePlan, approveDestructive);
      if awaiting.Halt? { return Ok(Halt(awaiting.result)); }
      var progress;
      ghost var observed;
      progress, observed := CheckProgress();
      if progress.Raise? { return Raise(progress.error); }
      if progress.value.Halt? { return Ok(Halt(progress.value.result)); }
      return Ok(Go((plan.value, awaiting.value)));
    }

    /** `apply` on a loaded journal whose plan the caller has confirmed. */
    method Perform(planId: Word, approvePlan: Option<Word>, approveDestructive: Option<Word>)
      returns (r: Result<ClientResult>)
      requires Loaded() && journal.coords.planId == Some(planId)
      requires journal.pending.Some? ==> !journal.pending.value.route.PrepareRoute?
      modifies this`journal, this`troubled, this`planRead, this`approvalRead, this`pointerRead, this`currentRead,
        this`currentReadAfter, env
      ensures Sends(1, 6)
      ensures (old(journal).pending.Some? ==> Announced(old(env.world))) ==> StaysCareful()
      ensures StaysAccounted()
      ensures env.world.sent != old(env.world.sent) ==>
        approvalRead.Some? && Consented(approvalRead.value, planId, approvePlan, approveDestructive)
      ensures Sends(2, 6) || (approvalRead.Some? && Get(approvalRead.value, State) == Text(Awaiting))
              || (old(journal).pending.Some? && old(journal).pending.value.route.DecideRoute?)
      ensures r == Raise(JournalInvalid) ==>
        || old(journal).phase.Converge?
        || (approvalRead.Some? && Get(approvalRead.value, State) == Text(Awaiting) && !old(journal).phase.Prepared?)
      ensures old(journal).phase.Converge? && r.Ok? ==> r.value.status == AttentionRequired
      ensures r.Ok? ==> r.value.status in {AttentionRequired, NoChanges, Converged}
      ensures r.Ok? && r.value.status == NoChanges ==> old(journal).phase.NoChange?
      ensures r.Ok? && r.value.status == Converged ==> SawDesired() && env.world.durable == Some(journal) && WholeWord()
      ensures Ended(old(env.world)) ==> env.world.sent == old(env.world.sent)
      ensures (!troubled && Rank(old(journal).phase) <= 3 && old(journal).coords.approvalId.Some?
              && approvalRead.Some? && Consented(approvalRead.value, planId, approvePlan, approveDestructive)) ==>
        r.Ok? && r.value.status == Converged
    {
      hide Coherent, ValidJournal, IsRun, Quiet, Careful, Announced, PlanAgrees, Recorded, Bookkeeping, SawDesired,
           Consented, Climbs, FirstStage,
           AccountedNow, AppliedOnce, WholeWord, EndedVersion;
      env.HistoryBound();
      ghost var start := env.world.sent;
      StaysPut(start, 1, 6);
      StaysPut(start, 2, 6);
      var examined := Examine(planId, approvePlan, approveDestructive);
      env.Accounts(old(env.trace));
      if examined.Raise? { return Raise(examined.error); }
      if examined.value.Halt? { return Ok(examined.value.result); }
      var (plan, awaiting) := examined.value.value;
      ghost var least := FirstStage(journal, awaiting);
      FirstStageIs(journal, awaiting);
      r := Resume(plan, planId, awaiting);
      env.EndedSendsNothing(old(env.trace));
      if r.Ok? && r.value.status == Converged { ConvergedHistory(); }
      ClimbsFrom(start, env.world.sent, least, 6, 1);
      if 2 <= least { ClimbsFrom(start, env.world.sent, least, 6, 2); }
    }

    /** The checks of `apply` on the loaded journal. */
    method Check(executePlan: Word) returns (r: Result<()>)
      ensures r.Raise? ==> r.error.InputError?
      ensures r.Ok? <==>
        && (journal.pending.Some? ==> !journal.pending.value.route.PrepareRoute?)
        && journal.coords.planId == Some(executePlan) && IsText(executePlan)
    {
      var pending := journal.pending;
      if pending.Some? && pending.value.route.PrepareRoute? { return Raise(InputError); }
      var planId :- Required(journal.coords.planId);
      if executePlan != planId { return Raise(InputError); }
      return Ok(());
    }

    /** The lock and the checks of `apply` on the loaded journal: the caller confirms the plan in it. */
    method Confirm(executePlan: Word) returns (r: Result<()>)
      requires env.Valid()
      modifies this`journal, this`troubled
      ensures old(troubled) ==> troubled
      ensures r.Raise? ==> !r.error.JournalInvalid?
      ensures r.Ok? ==>
        && Loaded() && env.world.durable == Some(journal) && journal.coords.planId == Some(executePlan)
        && (journal.pending.Some? ==> !journal.pending.value.route.PrepareRoute?)
      ensures !troubled && Appliable(env.world.durable, profile, executePlan) ==> r.Ok?
    {
      hide Coherent, ValidJournal, IsRun, Quiet, Appliable;
      ghost var appliable := Appliable(env.world.durable, profile, executePlan);
      if appliable { AppliableSays(env.world.durable, profile, executePlan); }
      if executePlan == Name("") { return Raise(InputError); }
      // another process may hold the operation's lock
      var locked: bool := *;
      troubled := troubled || locked;
      if locked { return Raise(JournalUnavailable); }
      var _ :- Load();
      PlanIsText();
      r := Check(executePlan);
    }

    /** `apply`.

        Requests are sent only when the caller confirmed the very plan that is journalled and consented to
        the approval that was read; a decision only while that approval is awaited, or to replay one; all
        in the order of the protocol and within the budget.  An operation that has ended sends nothing;
        one that has converged is not even reported as such again.  From a journal without a run, with
        that consent and without trouble, it converges. */
    method Apply(executePlan: Word, approvePlan: Option<Word>, approveDestructive: Option<Word>)
      returns (r: Result<ClientResult>)
      requires env.Valid()
      modifies this, env
      ensures Proceeds() && Climbs(old(env.world.sent), env.world.sent, 1, 6)
      ensures !Waiting(old(env.world)) || Announced(old(env.world)) ==> StaysCareful()
      ensures StaysAccounted()
      ensures env.world.sent != old(env.world.sent) ==>
        && old(env.world.durable).Some?
        && old(env.world.durable).value.coords.planId == Some(executePlan)
        && approvalRead.Some? && Consented(approvalRead.value, executePlan, approvePlan, approveDestructive)
      ensures Climbs(old(env.world.sent), env.world.sent, 2, 6)
              || (approvalRead.Some? && Get(approvalRead.value, State) == Text(Awaiting))
              || (Waiting(old(env.world)) && old(env.world.durable).value.pending.value.route.DecideRoute?)
      ensures old(env.world.durable).Some? ==>
        |env.world.sent| - |old(env.world.sent)|
          <= MAXIMUM_REQUEST_RECORDS - |old(env.world.durable).value.history|
      ensures Ended(old(env.world)) ==> env.world.sent == old(env.world.sent)
      ensures r == Raise(JournalInvalid) ==>
        && old(env.world.durable).Some?
        && var phase := old(env.world.durable).value.phase;
        || phase.Converge?
        || (approvalRead.Some? && Get(approvalRead.value, State) == Text(Awaiting) && !phase.Prepared?)
      ensures old(env.world.durable).Some? && old(env.world.durable).value.phase.Converge? && r.Ok? ==>
        r.value.status == AttentionRequired
      ensures r.Ok? ==> r.value.status in {AttentionRequired, NoChanges, Converged}
      ensures r.Ok? && r.value.status == NoChanges ==>
        old(env.world.durable).Some? && old(env.world.durable).value.phase.NoChange?
      ensures r.Ok? && r.value.status == Converged ==>
        SawDesired() && env.world.durable == Some(journal) && WholeWord()
      ensures (!troubled && Appliable(old(env.world.durable), profile, executePlan)
              && approvalRead.Some? && Consented(approvalRead.value, executePlan, approvePlan, approveDestructive)) ==>
        r.Ok? && r.value.status == Converged
    {
      hide Coherent, ValidJournal, IsRun, Quiet, Careful, Announced, SawDesired, Consented, WholeWord, EndedVersion,
           Climbs, AccountedNow, AppliedOnce, Loaded, Appliable;
      env.HistoryBound();
      ghost var appliable := Appliable(env.world.durable, profile, executePlan);
      if appliable { AppliableSays(env.world.durable, profile, executePlan); }
      env.AccountsNow();
      StaysPut(env.world.sent, 1, 6);
      StaysPut(env.world.sent, 2, 6);
      var _ :- Confirm(executePlan);
      r := Perform(executePlan, approvePlan, approveDestructive);
    }
  }
}
