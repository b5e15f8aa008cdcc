/** Values that cross the public HTTP boundary, and the errors the client raises.

    A response is untrusted JSON: any field may be missing, null or of the wrong type.  Texts are
    interned: every text the client compares with has a constructor of its own, and `Name` stands
    for all others. */
module PublicValues {
  import opened Wrappers

  /** The exceptions of the client.  `JournalInvalid` and `JournalUnavailable` are the two uses of
      `JournalError` (the validator, everything else), `UncaughtTypeError` is the error of testing
      an unhashable value for membership, and `Crash` stops the process where it stands. */
  datatype Error =
    | AuthorizationError | TransportError | InputError
    | JournalInvalid | JournalUnavailable
    | UncaughtTypeError | Crash

  datatype Result<+T> = Ok(value: T) | Raise(error: Error) {
    predicate IsFailure() { Raise? }
    function PropagateFailure<U>(): Result<U>
      requires Raise?
    {
      Raise(error)
    }
    function Extract(): T
      requires Ok?
    {
      value
    }
  }

  datatype Word =
    // coordinator and run statuses
    | Completed | Progressed | InFlight | Failed | Unsupported | Uncertain | Blocked
    | Succeeded | Running | Claimed | Queued
    // approvals and preparations
    | Approved | Awaiting | PlanApprove | PlanApproveDestructive
    | NoChanges | ReviewBlocked | ApprovalRequired
    // fields of a client result
    | Planned | Converged | AttentionRequired
    | NotStarted | Unverified | NotAttempted | Advanced | Unchanged
    | CpkApply | ReadWorkspace | ReadPlanDetail | ReadApprovalDetail
    | ReadPlanRuns | ReadRunEvents | ReadCurrentGraph
    // anything else, as its UTF-8 bytes
    | Name(text: string)

  /** A coordinate text is non-empty and takes at most 512 bytes. */
  predicate IsText(w: Word) {
    w.Name? ==> 0 < |w.text| <= 512
  }

  datatype Json = Null | Bool(b: bool) | Int(i: int) | Float(r: real) | Text(w: Word) | Nested(content: nat)

  datatype Field =
    | WorkspaceId | PlanId | SessionId | BaseGraphId | BaseProjectionId | DesiredGraphId
    | DesiredProjectionId | DesiredRevision
    | ApprovalRequestId | RequestId | State | RequiredScope | Destructive | Status
    | ExecutionRequestId | RunId | RunStatus | ClaimGeneration
    | CoordinatorStatus | EffectsAttempted | ActivityId
    | FromGraphId | FromProjectionId | ToGraphId | ToProjectionId
    | GraphId | ProjectionId | CurrentGraphId | CurrentProjectionId

  type Fields = map<Field, Json>

  /** `value.get(name)`: a missing member reads as null. */
  function Get(m: Fields, f: Field): Json {
    if f in m then m[f] else Null
  }

  function Number(v: Json): Option<real> {
    match v
    case Bool(b) => Some(if b then 1.0 else 0.0)
    case Int(i) => Some(i as real)
    case Float(r) => Some(r)
    case _ => None
  }

  /** The `==` of the source: booleans, integers and floats compare by value. */
  predicate Equal(a: Json, b: Json) {
    if Number(a).Some? && Number(b).Some? then Number(a).value == Number(b).value
    else a == b
  }

  function OfText(o: Option<Word>): Json {
    if o.Some? then Text(o.value) else Null
  }

  function OfInt(o: Option<int>): Json {
    if o.Some? then Int(o.value) else Null
  }

  /** `_text` and `_text_coordinate`. */
  function TextOf(v: Json): Result<Word> {
    if v.Text? && IsText(v.w) then Ok(v.w) else Raise(InputError)
  }

  function Required(o: Option<Word>): Result<Word> {
    TextOf(OfText(o))
  }

  /** `_integer`: a boolean or a float is not an integer here. */
  function IntegerOf(v: Json, minimum: int): Result<int> {
    if v.Int? && minimum <= v.i then Ok(v.i) else Raise(InputError)
  }

  function BooleanOf(v: Json): Result<bool> {
    if v.Bool? then Ok(v.b) else Raise(InputError)
  }

  /** `value in {...}`: a container is unhashable. */
  function Among(v: Json, words: set<Word>): Result<bool> {
    if v.Nested? then Raise(UncaughtTypeError) else Ok(v.Text? && v.w in words)
  }
}
