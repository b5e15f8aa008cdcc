/** What the client makes of a response to a mutation: whether it answers the request that was
    sent, which coordinates it contributes, and the phase it leads to. */
module PublicResponses {
  import opened Wrappers
  import opened PublicValues
  import opened JournalFormat

  /** `_response_is_bound`; `body` is the body that was sent. */
  function ResponseIsBound(response: Fields, p: Pending, body: Body, c: Coordinates, workspace: Word)
    : (r: Result<bool>)
    ensures r.Raise? ==> r.error == UncaughtTypeError && p.route.ExecuteRoute?
  {
    match p.route
    case PrepareRoute =>
      Ok(Equal(Get(response, WorkspaceId), Text(workspace)))
    case DecideRoute =>
      Ok(Equal(Get(response, RequestId), OfText(p.path.item)) && Equal(Get(response, State), Text(Approved)))
    case AdmitRoute =>
      Ok(IsTextValue(Get(response, ExecutionRequestId)))
    case ClaimRoute =>
      Ok(&& Equal(Get(response, ExecutionRequestId), OfText(p.path.item))
         && IsTextValue(Get(response, RunId))
         && Equal(Get(response, RunStatus), Text(Word.Claimed))
         && IsPositive(Get(response, ClaimGeneration)))
    case StartRoute =>
      Ok(&& Equal(Get(response, ExecutionRequestId), OfText(c.executionRequest))
         && Equal(Get(response, RunId), OfText(p.path.item))
         && Equal(Get(response, RunStatus), Text(Word.Running))
         && Equal(Get(response, ClaimGeneration), if body.StartBody? then Int(body.generation) else Null))
    case ExecuteRoute =>
      ExecutionIsBound(response, p, if body.ExecuteBody? then body.maxEffects else -1)
    case AdvanceRoute =>
      Ok(&& body.AdvanceBody?
         && Equal(Get(response, FromGraphId), Text(body.current.graph))
         && Equal(Get(response, FromProjectionId), Text(body.current.projection))
         && Equal(Get(response, ToGraphId), Text(body.desired.graph))
         && Equal(Get(response, ToProjectionId), Text(body.desired.projection))
         && Equal(Get(response, DesiredRevision), Int(body.revision)))
  }

  /** The execute case, with the operators tried in the order of the source. */
  function ExecutionIsBound(response: Fields, p: Pending, maxEffects: int): Result<bool> {
    var status := Get(response, CoordinatorStatus);
    var run := Get(response, RunStatus);
    var activity := Get(response, ActivityId);
    var effects := Get(response, EffectsAttempted);
    if !Equal(Get(response, RunId), OfText(p.path.item)) then Ok(false)
    else if !(effects.Int? && 0 <= effects.i <= maxEffects) then Ok(false)
    else if status == Text(Completed) && run == Text(Succeeded) && activity == Null then Ok(true)
    else
      var moving :- Among(status, {Progressed, InFlight});
      if moving && run == Text(Word.Running) && IsTextValue(activity) then Ok(true)
      else if status == Text(Failed) && run == Text(Failed) then Ok(true)
      else if status == Text(Unsupported) && run == Text(Failed) && effects.i == 1 && IsTextValue(activity) then
        Ok(true)
      else
        var doubtful :- Among(status, {Uncertain, Blocked});
        if !doubtful then Ok(false) else Among(run, {Word.Running, Failed})
  }

  predicate IsTextValue(v: Json) { v.Text? && IsText(v.w) }

  predicate IsPositive(v: Json) { v.Int? && v.i > 0 }

  /** `_response_coordinates`. */
  function ResponseCoordinates(route: Route, response: Fields): (r: Result<Coordinates>)
    ensures r.Raise? ==> r.error == InputError
  {
    match route
    case PrepareRoute =>
      var plan :- TextOf(Get(response, PlanId));
      if ApprovalRequestId in response then
        var approval :- TextOf(response[ApprovalRequestId]);
        Ok(NoCoordinates.(planId := Some(plan), approvalId := Some(approval)))
      else Ok(NoCoordinates.(planId := Some(plan)))
    case DecideRoute =>
      var state :- TextOf(Get(response, State));
      Ok(NoCoordinates.(approvalState := Some(state)))
    case AdmitRoute =>
      var request :- TextOf(Get(response, ExecutionRequestId));
      Ok(NoCoordinates.(executionRequest := Some(request)))
    case ClaimRoute =>
      var run :- TextOf(Get(response, RunId));
      var generation :- IntegerOf(Get(response, ClaimGeneration), 1);
      Ok(NoCoordinates.(runId := Some(run), claimGeneration := Some(generation)))
    case StartRoute =>
      var status :- TextOf(Get(response, RunStatus));
      Ok(NoCoordinates.(runStatus := Some(status)))
    case ExecuteRoute =>
      var run :- TextOf(Get(response, RunId));
      var status :- TextOf(Get(response, RunStatus));
      var coordinator :- TextOf(Get(response, CoordinatorStatus));
      var effects :- IntegerOf(Get(response, EffectsAttempted), 0);
      var base := NoCoordinates.(runId := Some(run), runStatus := Some(status),
                                 coordinatorStatus := Some(coordinator), effects := Some(effects));
      if Get(response, ActivityId) == Null then Ok(base)
      else
        var activity :- TextOf(Get(response, ActivityId));
        Ok(base.(activityId := Some(activity)))
    case AdvanceRoute =>
      var graph :- TextOf(Get(response, ToGraphId));
      var projection :- TextOf(Get(response, ToProjectionId));
      var revision :- IntegerOf(Get(response, DesiredRevision), 0);
      Ok(NoCoordinates.(advancedGraph := Some(graph), advancedProjection := Some(projection),
                        advancedRevision := Some(revision)))
  }

  /** `_phase_after`, for a response whose coordinates were taken. */
  function PhaseAfter(route: Route, projection: Coordinates): Phase {
    match route
    case PrepareRoute => Prepared
    case DecideRoute => Approval
    case AdmitRoute => Admitted
    case ClaimRoute => Claim
    case StartRoute => Started
    case ExecuteRoute =>
      if projection.coordinatorStatus == Some(Completed) then Executed
      else if projection.coordinatorStatus == Some(Progressed) then Executing
      else Attention
    case AdvanceRoute => Advance
  }

  /** The journal `_dispatch_pending` writes after it accepted a response. */
  function Accepted(j: Journal, p: Pending, projection: Coordinates): Journal {
    j.(history := j.history + [Record(p.route, p.key, p.digest, projection)],
       coords := Merge(j.coords, projection),
       pending := None,
       phase := PhaseAfter(p.route, projection))
  }
}
