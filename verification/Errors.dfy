/** Errors as the worker tells them apart: Go error chains, and the classifications of rollout.go and consumer.go. */
module Errors {

  datatype ApiReason =
    | NotFound | AlreadyExists | Conflict | Invalid
    | Timeout | ServerTimeout | ServiceUnavailable | TooManyRequests | InternalError | OtherReason

  /** What `fmt.Errorf` says around a wrapped error. */
  datatype Note =
    | ClaimingStage | PublishingStarted | DeployingResources | PublishingDeployed | WaitingForRollout
    | NotReadyOnPort | PublishingPending | PersistingResult | PublishingService | PublishingProgress
    | AttemptsExhausted | OtherNote(text: string)

  /** Errors no test looks for. */
  datatype Problem =
    | UndecodableEvent | MissingDeploymentId | MissingBaseDomain | MissingImageTag | UndecodableResult
    | IncompleteCredentials | BadQuantity | DeletionTimedOut | OtherProblem(text: string)

  /** `Wrapped` is `fmt.Errorf` with `%w`; `UrlError` is `*url.Error`, which wraps an error too. */
  datatype Error =
    | LeaseBusy
    | Ownership
    | RolloutTimeout
    | RolloutFailed
    | DeadlineExceeded
    | Canceled
    | Api(reason: ApiReason)
    | NetError
    | Plain(problem: Problem)
    | UrlError(inner: Error)
    | Wrapped(note: Note, inner: Error)

  /** What `errors.Is`, `errors.As` and the `apierrors` tests look for. */
  datatype Class =
    | BusyLease | OwnershipRefusal | TimeoutVerdict | FailedVerdict
    | Deadline | TransientApi | NetworkFailure | UrlFailure

  /** The classes of one link; a deadline and a URL error are `net.Error` values themselves. */
  function LinkClasses(e: Error): set<Class> {
    match e
    case LeaseBusy => {BusyLease}
    case Ownership => {OwnershipRefusal}
    case RolloutTimeout => {TimeoutVerdict}
    case RolloutFailed => {FailedVerdict}
    case DeadlineExceeded => {Deadline, NetworkFailure}
    case Api(reason) =>
      if reason.Timeout? || reason.ServerTimeout? || reason.ServiceUnavailable? || reason.TooManyRequests? || reason.InternalError?
      then {TransientApi} else {}
    case NetError => {NetworkFailure}
    case UrlError(_) => {NetworkFailure, UrlFailure}
    case _ => {}
  }

  /** All classes found along the chain. */
  function Classes(e: Error): set<Class> {
    LinkClasses(e) + if e.Wrapped? || e.UrlError? then Classes(e.inner) else {}
  }

  /** `isRetriableDeployError`, test by test. */
  predicate Retriable(e: Error) {
    if OwnershipRefusal in Classes(e) then false
    else if TimeoutVerdict in Classes(e) then false
    else if FailedVerdict in Classes(e) then false
    else if Deadline in Classes(e) then true
    else if TransientApi in Classes(e) then true
    else if NetworkFailure in Classes(e) then true
    else UrlFailure in Classes(e)
  }

  /** `isTransientRolloutCheckError`, for an error that is not nil. */
  predicate TransientCheck(e: Error) {
    FailedVerdict !in Classes(e)
  }

  /** `!errors.Is(err, errOrchestrationLeaseBusy)`: whether a retry counts as an attempt. */
  predicate Counts(e: Error) {
    BusyLease !in Classes(e)
  }

  /** Every URL error is a network error, so the last test of the classification never decides. */
  lemma {:induction false} UrlErrorsAreNetErrors(e: Error)
    ensures UrlFailure in Classes(e) ==> NetworkFailure in Classes(e)
    ensures Deadline in Classes(e) ==> NetworkFailure in Classes(e)
  {
    if e.Wrapped? || e.UrlError? { UrlErrorsAreNetErrors(e.inner); }
  }

  /** A retriable error is exactly one with a transient cause and no verdict: an ownership refusal or a rollout
      verdict is never retried, whatever else its chain holds; and wrapping changes nothing. */
  lemma RetriableIffTransientWithoutVerdict(e: Error)
    ensures Retriable(e) <==>
            Classes(e) !! {OwnershipRefusal, TimeoutVerdict, FailedVerdict}
            && (TransientApi in Classes(e) || NetworkFailure in Classes(e))
    ensures forall note :: Retriable(Wrapped(note, e)) == Retriable(e) && Counts(Wrapped(note, e)) == Counts(e)
  {
    UrlErrorsAreNetErrors(e);
    forall note ensures Classes(Wrapped(note, e)) == Classes(e) {}
  }

  /** Which errors by themselves are retriable: a network failure, a deadline, and of the API's answers exactly a timeout on
      either side, an unavailable service, too many requests and an internal error. */
  lemma RetriableByThemselves(e: Error)
    requires !e.Wrapped? && !e.UrlError?
    ensures Retriable(e) <==>
            e in {NetError, DeadlineExceeded, Api(Timeout), Api(ServerTimeout), Api(ServiceUnavailable), Api(TooManyRequests), Api(InternalError)}
    ensures Counts(e) <==> e != LeaseBusy
    ensures TransientCheck(e) <==> e != RolloutFailed
  {
  }

  /** A URL error is retriable unless it wraps a verdict or an ownership refusal, whatever else it wraps. */
  lemma UrlErrorsAreRetriable(inner: Error)
    ensures Retriable(UrlError(inner)) <==> Classes(inner) !! {OwnershipRefusal, TimeoutVerdict, FailedVerdict}
  {
  }

  /** What an error says once everything wrapped around it is taken off. */
  function Root(e: Error): Error {
    if e.Wrapped? then Root(e.inner) else e
  }

  /** Wrapping changes neither what an error is taken for nor whether it is retried. */
  lemma {:induction false} RootDecides(e: Error)
    ensures Classes(e) == Classes(Root(e)) && Retriable(e) == Retriable(Root(e)) && Counts(e) == Counts(Root(e))
  {
    if e.Wrapped? { RootDecides(e.inner); }
  }
}
