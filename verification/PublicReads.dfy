/** What the client computes from public reads and from its own journal: the checks of a plan and an
    approval against the journal, the projected changes, and the results it reports. */
module PublicReads {
  import opened Wrappers
  import opened PublicValues
  import opened JournalFormat
  import opened PublicResponses
  import opened DurableProtocol

  /** A plan as the server shows it.  An activity that is not an object, or lacks its operation or
      target, is `None`; a payload without a list of activities is `None` as a whole. */
  datatype PlanView = PlanView(fields: Fields, activities: Option<seq<Option<Activity>>>)

  datatype Activity = Activity(id: Json, operation: Json, target: map<TargetKey, Json>)

  // ----- plan -----

  predicate TextAgrees(o: Option<Word>, v: Json) { o.Some? ==> Equal(v, Text(o.value)) }

  /** `_validate_plan`: coordinates already known must be the plan's. */
  predicate PlanAgrees(c: Coordinates, plan: Fields) {
    && TextAgrees(c.planId, Get(plan, PlanId)) && TextAgrees(c.sessionId, Get(plan, SessionId))
    && TextAgrees(c.baseGraph, Get(plan, BaseGraphId))
    && TextAgrees(c.baseProjection, Get(plan, BaseProjectionId))
    && TextAgrees(c.desiredGraph, Get(plan, DesiredGraphId))
    && TextAgrees(c.desiredProjection, Get(plan, DesiredProjectionId))
    && (c.desiredRevision.Some? ==> Equal(Get(plan, DesiredRevision), Int(c.desiredRevision.value)))
  }

  /** `_record_plan_coordinates`. */
  function RecordPlan(c: Coordinates, plan: Fields): (r: Result<Coordinates>)
    ensures r.Raise? ==> r.error == InputError
  {
    var id :- TextOf(Get(plan, PlanId));
    var session :- TextOf(Get(plan, SessionId));
    var baseGraph :- TextOf(Get(plan, BaseGraphId));
    var baseProjection :- TextOf(Get(plan, BaseProjectionId));
    var desiredGraph :- TextOf(Get(plan, DesiredGraphId));
    var desiredProjection :- TextOf(Get(plan, DesiredProjectionId));
    var revision :- IntegerOf(Get(plan, DesiredRevision), 0);
    Ok(c.(planId := Some(id), sessionId := Some(session),
          baseGraph := Some(baseGraph), baseProjection := Some(baseProjection),
          desiredGraph := Some(desiredGraph), desiredProjection := Some(desiredProjection),
          desiredRevision := Some(revision)))
  }

  lemma RecordPlanRecords(c: Coordinates, plan: Fields)
    requires PlanAgrees(c, plan) && c.planId.Some? && ValidCoordinates(c)
    requires RecordPlan(c, plan).Ok?
    ensures TextOf(Get(plan, PlanId)).Ok?
    ensures var c' := RecordPlan(c, plan).value;
      && ValidCoordinates(c') && Recorded(c') && PlanAgrees(c', plan)
      && c'.planId == c.planId && c'.approvalId == c.approvalId && c'.runId == c.runId
      && (Unrecorded(c) ==> Records(c, c')) && (Recorded(c) ==> c' == c)
  {
  }

  lemma SessionIsPlans(c: Coordinates, plan: Fields)
    requires Recorded(c) && PlanAgrees(c, plan)
    ensures Get(plan, SessionId) == OfText(c.sessionId)
  {
  }

  /** Frozen coordinates keep agreeing with the plan. */
  lemma PlanStays(c: Coordinates, c': Coordinates, plan: Fields)
    requires Recorded(c) && Frozen(c, c') && PlanAgrees(c, plan)
    ensures Recorded(c') && PlanAgrees(c', plan)
    ensures c'.planId == c.planId && c'.sessionId == c.sessionId
    ensures c'.desiredGraph == c.desiredGraph && c'.desiredProjection == c.desiredProjection
  {
  }

  function ChangeOf(a: Option<Activity>): Result<Change> {
    if a.None? then Raise(InputError)
    else
      var target := a.value.target;
      if exists k | k in target :: TextOf(target[k]).Raise? then Raise(InputError)
      else if Kind !in target then Raise(InputError)
      else
        var id :- TextOf(a.value.id);
        var operation :- TextOf(a.value.operation);
        Ok(Change(id, operation, map k | k in target :: target[k].w))
  }

  function ChangesOf(activities: seq<Option<Activity>>): (r: Result<seq<Change>>)
    ensures r.Ok? ==>
      && |r.value| == |activities|
      && forall i | 0 <= i < |activities| :: ChangeOf(activities[i]) == Ok(r.value[i]) && ValidChange(r.value[i])
    ensures r.Raise? ==> r.error == InputError && exists a | a in activities :: ChangeOf(a).Raise?
  {
    if activities == [] then Ok([])
    else
      var before :- ChangesOf(activities[..|activities| - 1]);
      var last :- ChangeOf(activities[|activities| - 1]);
      Ok(before + [last])
  }

  /** `_plan_changes`. */
  function PlanChanges(plan: PlanView): Result<seq<Change>> {
    if plan.activities.None? then Raise(InputError) else ChangesOf(plan.activities.value)
  }

  // ----- approval -----

  /** `_validate_approval`, with its comparisons in their order. */
  function ApprovalAgrees(plan: Fields, approvalId: Word, approval: Fields): Result<bool> {
    var scope := Get(approval, RequiredScope);
    var destructive := Get(approval, Destructive);
    if !Equal(Get(approval, RequestId), Text(approvalId))
       || !Equal(Get(approval, SessionId), Get(plan, SessionId)) then Ok(false)
    else
      var known :- Among(scope, {PlanApprove, PlanApproveDestructive});
      Ok(known && destructive.Bool? && destructive.b == (scope == Text(PlanApproveDestructive)))
  }

  /** `_pointer(workspace, "current")`; the inner option is the missing pointer. */
  function CurrentPointer(workspace: Fields): (r: Result<Option<Pointer>>)
    ensures r.Raise? ==> r.error == InputError
    ensures r.Ok? && r.value.Some? ==> ValidPointer(r.value.value)
  {
    var graph := Get(workspace, CurrentGraphId);
    var projection := Get(workspace, CurrentProjectionId);
    if graph == Null then
      if projection == Null then Ok(None) else Raise(InputError)
    else
      var g :- TextOf(graph);
      var p :- TextOf(projection);
      Ok(Some(Pointer(g, p)))
  }

  // ----- results -----

  /** `_next_read`. */
  function NextRead(c: Coordinates): Word {
    if c.runId.Some? then ReadRunEvents
    else if c.planId.Some? then ReadPlanDetail
    else ReadWorkspace
  }

  /** The status a journal stands for when nothing calls for attention. */
  function Standing(p: Phase): Word {
    if p.NoChange? then NoChanges
    else if p.Converge? then Converged
    else if 4 <= Rank(p) <= 8 then Word.Running
    else Planned
  }

  /** `_status_from_journal`. */
  function StatusFromJournal(j: Journal, attention: bool, execution: Option<Word>, advancement: Option<Word>,
                             nextRead: Option<Word>, changes: seq<Change>, approval: Option<Fields>)
    : (r: Result<ClientResult>)
    ensures r.Raise? ==> r.error == InputError
  {
    var status := if attention || j.phase.Attention? then AttentionRequired else Standing(j.phase);
    var scope :- if approval.Some? then OptionOf(TextOf(Get(approval.value, RequiredScope))) else Ok(None);
    var destructive :- if approval.Some? then OptionOf(BooleanOf(Get(approval.value, Destructive))) else Ok(None);
    Ok(ClientResult(
      status, j.ref, j.target.workspace, j.coords.planId, j.coords.approvalId, j.coords.runId,
      if execution.Some? then execution.value
      else if 7 <= Rank(j.phase) <= 9 then Succeeded
      else if 4 <= Rank(j.phase) <= 6 then Word.Running
      else NotStarted,
      if advancement.Some? then advancement.value
      else if 8 <= Rank(j.phase) <= 9 then Advanced
      else if j.phase.NoChange? then Unchanged
      else NotAttempted,
      scope, destructive, changes,
      if status == Planned then Some(CpkApply) else None, nextRead))
  }

  /** A result about this journal's operation. */
  predicate About(r: ClientResult, j: Journal) {
    && r.ref == j.ref && r.workspace == j.target.workspace
    && r.plan == j.coords.planId && r.approval == j.coords.approvalId && r.run == j.coords.runId
  }

  /** What every status result says. */
  lemma StatusSays(j: Journal, attention: bool, execution: Option<Word>, advancement: Option<Word>,
                   nextRead: Option<Word>, changes: seq<Change>, approval: Option<Fields>)
    ensures var r := StatusFromJournal(j, attention, execution, advancement, nextRead, changes, approval);
      r.Ok? ==>
        && About(r.value, j) && r.value.changes == changes && r.value.nextRead == nextRead
        && r.value.status == if attention || j.phase.Attention? then AttentionRequired else Standing(j.phase)
  {
  }

  function OptionOf<T>(r: Result<T>): Result<Option<T>> {
    if r.Ok? then Ok(Some(r.value)) else Raise(r.error)
  }

  /** The result `_attention` journals and reports. */
  function AttentionResult(j: Journal, execution: Word, advancement: Word, nextRead: Word): ClientResult {
    StatusFromJournal(j, true, Some(execution), Some(advancement), Some(nextRead), [], None).value
  }

  /** `_plan_result`. */
  function PlanResult(ref: Key, workspace: Word, plan: Fields, approval: Option<Fields>, status: Word,
                      changes: seq<Change>): Result<ClientResult>
  {
    var scope :- if approval.Some? then OptionOf(TextOf(Get(approval.value, RequiredScope))) else Ok(None);
    var destructive :- if approval.Some? then OptionOf(BooleanOf(Get(approval.value, Destructive))) else Ok(None);
    var id :- TextOf(Get(plan, PlanId));
    var request :- if approval.Some? then OptionOf(TextOf(Get(approval.value, RequestId))) else Ok(None);
    Ok(ClientResult(
      if status == NoChanges then NoChanges
      else if status == ReviewBlocked then AttentionRequired
      else Planned,
      ref, workspace, Some(id), request, None,
      NotStarted, if status == NoChanges then Unchanged else NotAttempted,
      scope, destructive, changes,
      if status == ApprovalRequired then Some(CpkApply) else None, Some(ReadPlanDetail)))
  }

  /** The phase `_finish_prepare` settles on. */
  function PreparedPhase(status: Word): Phase {
    if status == NoChanges then NoChange
    else if status == ReviewBlocked then Phase.Attention
    else Prepared
  }

  // ----- workflow and validator -----

  /** The words a result may carry as execution and advancement. */
  predicate ReportableExecution(w: Word) {
    w in {NotStarted, Word.Running, Succeeded, Blocked, Failed, Unsupported, Uncertain, Unverified}
  }

  predicate ReportableAdvancement(w: Word) {
    w in {NotAttempted, Advanced, Unchanged, Unverified}
  }

  /** The validator accepts the result of an attention, on any valid journal. */
  lemma AttentionIsValid(j: Journal, execution: Word, advancement: Word, nextRead: Word)
    requires ValidJournal(j)
    requires ReportableExecution(execution) && ReportableAdvancement(advancement) && IsText(nextRead)
    ensures ValidJournal(j.(last := Some(AttentionResult(j, execution, advancement, nextRead))))
  {
  }

  /** The validator accepts a new journal exactly for a workspace id that is a coordinate text. */
  lemma NewJournalIsValid(ref: Key, target: Target, desired: Source)
    requires desired.size <= MAXIMUM_DESIRED_BYTES
    ensures ValidJournal(NewJournal(ref, target, desired)) <==> IsText(target.workspace)
  {
  }

  lemma ConvergedHasPlan(j: Journal)
    requires ValidJournal(j)
    ensures 2 <= Rank(j.phase) <= 10 ==> Recorded(j.coords)
  {
  }

  /** The validator accepts a request the workflow builds exactly in the phases the request belongs to. */
  lemma WriteAheadIsValid(j: Journal, p: Pending)
    requires ValidJournal(j) && ValidRequest(p, j.target, j.desired, j.coords)
    ensures ValidJournal(j.(pending := Some(p))) <==> MayPend(p.route, j.phase)
  {
  }

  /** The journal `_finish_prepare` settles on. */
  function SettledJournal(j: Journal, c: Coordinates, status: Word, result: ClientResult): Journal {
    j.(coords := c, phase := PreparedPhase(status), last := Some(result))
  }

  /** An approval was read and agrees with the journalled one. */
  predicate ApprovalFits(c: Coordinates, plan: Fields, approval: Option<Fields>) {
    approval.Some? ==>
      c.approvalId.Some? && ApprovalAgrees(plan, c.approvalId.value, approval.value) == Ok(true)
  }

  lemma ApprovalReads(c: Coordinates, plan: Fields, approval: Fields)
    requires ApprovalFits(c, plan, Some(approval)) && ValidCoordinates(c)
    ensures c.approvalId.Some? && TextOf(Get(approval, RequestId)) == Ok(c.approvalId.value)
    ensures TextOf(Get(approval, RequiredScope)).Ok? && BooleanOf(Get(approval, Destructive)).Ok?
  {
  }

  lemma PlanReads(c: Coordinates, plan: Fields)
    requires PlanAgrees(c, plan) && c.planId.Some? && TextOf(Get(plan, PlanId)).Ok?
    ensures TextOf(Get(plan, PlanId)).value == c.planId.value
  {
  }

  lemma PlanResultIsValid(j: Journal, plan: Fields, approval: Option<Fields>, status: Word, changes: seq<Change>)
    requires j.coords.planId.Some? && PlanAgrees(j.coords, plan) && TextOf(Get(plan, PlanId)).Ok?
    requires ValidCoordinates(j.coords) && ApprovalFits(j.coords, plan, approval)
    requires forall i | 0 <= i < |changes| :: ValidChange(changes[i])
    ensures PlanResult(j.ref, j.target.workspace, plan, approval, status, changes).Ok?
    ensures var result := PlanResult(j.ref, j.target.workspace, plan, approval, status, changes).value;
      ValidResult(result, j.ref, j.target, j.coords) <==> |changes| <= MAXIMUM_REQUEST_RECORDS
  {
    hide PlanAgrees, ApprovalFits, ValidCoordinates, ValidChange;
    PlanReads(j.coords, plan);
    if approval.Some? { ApprovalReads(j.coords, plan, approval.value); }
  }

  lemma PreparedHasPlan(j: Journal)
    requires ValidJournal(j) && j.phase.Prepared?
    ensures j.coords.planId.Some? && ValidCoordinates(j.coords)
  {
  }

  /** What an accepted preparation leaves in the coordinates. */
  lemma PreparedCoordinates(prepared: Fields, c: Coordinates)
    requires ResponseCoordinates(PrepareRoute, prepared) == Ok(c)
    ensures Unrecorded(c) && TextOf(Get(prepared, PlanId)).Ok?
    ensures c.planId == Some(TextOf(Get(prepared, PlanId)).value)
  {
  }

  /** Recording the plan's coordinates keeps a prepared journal valid. */
  lemma RecordedFits(j: Journal, c: Coordinates)
    requires ValidJournal(j) && j.phase.Prepared? && j.pending.None?
    requires ValidCoordinates(c) && Records(j.coords, c)
    ensures ValidJournal(j.(coords := c)) && Bookkeeping(j, j.(coords := c))
  {
  }

  /** A coherent journal without a session is a prepared one that waits for nothing. */
  lemma RecordingIsBooked(j: Journal, plan: Fields)
    requires Coherent(j) && j.coords.planId.Some? && j.coords.sessionId.None?
    requires PlanAgrees(j.coords, plan) && RecordPlan(j.coords, plan).Ok?
    ensures var c := RecordPlan(j.coords, plan).value;
      && ValidJournal(j.(coords := c)) && Bookkeeping(j, j.(coords := c))
      && Recorded(c) && PlanAgrees(c, plan) && c.planId == j.coords.planId
  {
    RecordPlanRecords(j.coords, plan);
  }

  lemma SettledFits(j: Journal, c: Coordinates, status: Word, result: ClientResult)
    requires ValidJournal(j) && j.phase.Prepared? && j.pending.None?
    requires ValidCoordinates(c) && Recorded(c)
    requires c.planId == j.coords.planId && c.approvalId == j.coords.approvalId && c.runId == j.coords.runId
    ensures ValidJournal(SettledJournal(j, c, status, result)) <==> ValidResult(result, j.ref, j.target, j.coords)
  {
  }

  /** The validator accepts a settled preparation exactly when its plan has at most 128 activities. */
  lemma SettledIsValid(j: Journal, plan: PlanView, approval: Option<Fields>, status: Word)
    requires ValidJournal(j) && j.phase.Prepared? && j.pending.None?
    requires PlanAgrees(j.coords, plan.fields) && RecordPlan(j.coords, plan.fields).Ok?
    requires PlanChanges(plan).Ok? && ApprovalFits(j.coords, plan.fields, approval)
    ensures PlanResult(j.ref, j.target.workspace, plan.fields, approval, status, PlanChanges(plan).value).Ok?
    ensures
      var c := RecordPlan(j.coords, plan.fields).value;
      var result := PlanResult(j.ref, j.target.workspace, plan.fields, approval, status, PlanChanges(plan).value).value;
      ValidJournal(SettledJournal(j, c, status, result)) <==> |plan.activities.value| <= MAXIMUM_REQUEST_RECORDS
  {
    hide PlanResult, PlanAgrees, RecordPlan, ChangesOf, ApprovalAgrees, ValidJournal, ValidResult;
    var c := RecordPlan(j.coords, plan.fields).value;
    var changes := PlanChanges(plan).value;
    assert j.coords.planId.Some? && ValidCoordinates(j.coords) by { PreparedHasPlan(j); }
    RecordPlanRecords(j.coords, plan.fields);
    PlanResultIsValid(j, plan.fields, approval, status, changes);
    SettledFits(j, c, status, PlanResult(j.ref, j.target.workspace, plan.fields, approval, status, changes).value);
  }

  /** The validator accepts the converged journal of every coherent advanced one. */
  lemma ConvergedIsValid(j: Journal, result: ClientResult)
    requires ValidJournal(j) && j.phase.Advance? && j.pending.None?
    requires StatusFromJournal(j.(phase := Converge), false, None, None, None, [], None) == Ok(result)
    ensures ValidJournal(j.(phase := Converge, last := Some(result)))
    ensures result.status == Converged && result.execution == Succeeded && result.advancement == Advanced
  {
    hide ValidPending, ValidChange, ValidCoordinates, Recorded;
  }

  // ----- execution and advancement -----

  /** The coordinator status of an accepted execute response, and the phase it led to. */
  lemma ExecutionLeads(response: Fields)
    requires ResponseCoordinates(ExecuteRoute, response).Ok?
    ensures TextOf(Get(response, CoordinatorStatus)).Ok?
    ensures var status := TextOf(Get(response, CoordinatorStatus)).value;
      PhaseAfter(ExecuteRoute, ResponseCoordinates(ExecuteRoute, response).value) ==
        if status == Completed then Executed else if status == Progressed then Executing else Phase.Attention
  {
  }

  /** How `apply` reports an execution that neither completed nor progressed. */
  function StalledExecution(status: Word): (w: Word)
    ensures ReportableExecution(w)
  {
    if status == InFlight then Word.Running
    else if status in {Blocked, Failed, Unsupported, Uncertain} then status
    else Unverified
  }

  /** A plan that agrees with recorded coordinates names exactly them. */
  lemma PlanNames(c: Coordinates, plan: Fields)
    requires Recorded(c) && PlanAgrees(c, plan)
    ensures Get(plan, PlanId) == OfText(c.planId)
    ensures Get(plan, BaseGraphId) == OfText(c.baseGraph)
    ensures Get(plan, BaseProjectionId) == OfText(c.baseProjection)
    ensures Get(plan, DesiredGraphId) == OfText(c.desiredGraph)
    ensures Get(plan, DesiredProjectionId) == OfText(c.desiredProjection)
    ensures IntegerOf(Get(plan, DesiredRevision), 0).Ok? ==>
              c.desiredRevision == Some(IntegerOf(Get(plan, DesiredRevision), 0).value)
  {
  }

  // ----- runs of a plan -----

  /** The listed runs with the given id. */
  function Matching(items: seq<Fields>, run: Word): seq<Fields> {
    if items == [] then []
    else
      Matching(items[..|items| - 1], run)
        + if Equal(Get(items[|items| - 1], RunId), Text(run)) then [items[|items| - 1]] else []
  }

  /** How `_public_status` reads the status of the run it found. */
  function RunExecution(status: Json): Result<Word> {
    if Equal(status, Text(Succeeded)) then Ok(Succeeded)
    else if Equal(status, Text(Failed)) then Ok(Failed)
    else
      var moving :- Among(status, {Queued, Word.Claimed, Word.Running});
      Ok(if moving then Word.Running else Unverified)
  }

  /** What reading the whole public state of an operation found, as far as it got. */
  datatype Survey = Survey(fault: Option<Error>, mismatched: bool, execution: Option<Word>,
                           advancement: Option<Word>, changes: seq<Change>,
                           approval: Option<Fields>, problem: bool)

  const NothingSeen := Survey(None, false, None, None, [], None, false)

  /** `_pointer(workspace, "desired")`, which reads as the current one does. */
  function DesiredPointer(workspace: Fields): Result<Option<Pointer>> {
    CurrentPointer(map[CurrentGraphId := Get(workspace, DesiredGraphId),
                       CurrentProjectionId := Get(workspace, DesiredProjectionId)])
  }

  // ----- consent -----

  datatype Verdict = Stands | ToDecide | Doubtful

  /** What `apply` makes of an approval that agrees with the plan, given the caller's approvals and
      the route of the pending request. */
  function VerdictOf(approval: Fields, planId: Word, approvePlan: Option<Word>, approveDestructive: Option<Word>,
                     pending: Option<Route>): (r: Result<Verdict>)
    ensures r.Raise? ==> r.error == InputError
  {
    if Equal(Get(approval, State), Text(Awaiting)) then
      var destructive :- BooleanOf(Get(approval, Destructive));
      var supplied := if destructive then approveDestructive else approvePlan;
      var wrong := if destructive then approvePlan else approveDestructive;
      if supplied != Some(planId) || wrong.Some? then Raise(InputError)
      else if pending == None || pending == Some(DecideRoute) then Ok(ToDecide)
      else Ok(Doubtful)
    else if Equal(Get(approval, State), Text(Approved)) then Ok(Stands)
    else Ok(Doubtful)
  }

  /** The consent a decision needs: the approval already stands, or the caller names this very plan
      for an approval of its kind and no plan for the other kind. */
  predicate Consented(approval: Fields, planId: Word, approvePlan: Option<Word>, approveDestructive: Option<Word>) {
    || Get(approval, State) == Text(Approved)
    || (&& Get(approval, State) == Text(Awaiting)
        && (Get(approval, Destructive) == Bool(true) ==>
              approveDestructive == Some(planId) && approvePlan.None?)
        && (Get(approval, Destructive) == Bool(false) ==>
              approvePlan == Some(planId) && approveDestructive.None?)
        && Get(approval, Destructive).Bool?)
  }

  /** `apply` goes on towards a decision or past it only with that consent, and whenever it has it,
      nothing but a pending request of another route stops it. */
  lemma VerdictMeansConsent(approval: Fields, planId: Word, approvePlan: Option<Word>,
                            approveDestructive: Option<Word>, pending: Option<Route>)
    requires pending == None || pending == Some(DecideRoute)
    ensures var r := VerdictOf(approval, planId, approvePlan, approveDestructive, pending);
      Consented(approval, planId, approvePlan, approveDestructive) <==> r == Ok(Stands) || r == Ok(ToDecide)
  {
  }

  lemma VerdictNeedsConsent(approval: Fields, planId: Word, approvePlan: Option<Word>,
                            approveDestructive: Option<Word>, pending: Option<Route>)
    ensures var r := VerdictOf(approval, planId, approvePlan, approveDestructive, pending);
      && (r == Ok(Stands) || r == Ok(ToDecide) ==> Consented(approval, planId, approvePlan, approveDestructive))
      && (r == Ok(ToDecide) ==> Get(approval, State) == Text(Awaiting))
  {
  }

  /** With that consent nothing stops it but a pending request of another route under an approval that is
      still awaited. */
  lemma ConsentIsEnough(approval: Fields, planId: Word, approvePlan: Option<Word>,
                        approveDestructive: Option<Word>, pending: Option<Route>)
    ensures var r := VerdictOf(approval, planId, approvePlan, approveDestructive, pending);
      && Consented(approval, planId, approvePlan, approveDestructive)
      && (Get(approval, State) == Text(Approved) || pending == None || pending == Some(DecideRoute)) ==>
        r == Ok(Stands) || r == Ok(ToDecide)
  {
  }
}
