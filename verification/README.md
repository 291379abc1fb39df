# Verified model of the orchestration service

The orchestration service takes `build.succeeded` events from RabbitMQ, brings a Kubernetes namespace, deployment, service
and ingress to the state the event asks for, waits for the rollout, and publishes `deploy.succeeded` or `deploy.failed`. A
ledger in Postgres holds a leased row per deployment, so that several workers can share one queue. This project models that
service in Dafny and proves what the protocol keeps, over every run.

## How it is built

* `StageLedger` holds the ledger as the mutable table it is; each of its methods is proved against a function on rows
  (`ClaimRows`, `RenewRows`, `SetRows`, `ReleaseRows`).
* `Delivery` is one delivery of `consumer.go` as a machine: which external call comes next, and where each answer leads.
  `DeployConsumer` is the worker as imperative code, effect by effect, proved to follow that machine for every answer.
* `Fleet` runs any number of such machines against one ledger (through the same functions on rows), one broker and one
  clock. A call may succeed, fail, or take effect and fail; a worker may crash between any two calls; and the broker may at any
  time take a delivery back and hand it to somebody else while its worker goes on. `FleetInvariant` and `FleetTheorems` hold of every such run. `LeaseSafety` and `LeaseTiming` add, as regimes of
  a run, the assumptions that leases rest on; `CounterRuns` takes each of them away in turn and shows what then goes wrong.
* `Decisions` says, answer by answer and without the machine's own helpers, where a delivery goes next and what it then says.
  `AckMeaning` and `EventOrder` are about the calls of one delivery, `Retries` about the deliveries of one message.
* `Cluster` is the Kubernetes API: resource versions, immutable selectors, creation races, requests that break before or
  after taking effect. `ApiServer` is one client's session, in which anybody else may change the cluster between two
  requests. `Reconciler` is `Deploy` and all its parts against such a session; `Desired` says what a deploy leaves.
  `Ownership` is about any number of deploys whose requests interleave.
* `Names`, `Events`, `Errors`, `Requests`, `Config`, `PortEnv` and `Rollout` are the files and functions of those names, each
  loop written as a loop.

## What the proofs found

* **A recorded outcome can be undone.** The writes of the ledger check neither state nor holder. A run that fails after its
  outcome is on record releases the row, and the next run may publish the opposite; on the last attempt no next run is needed:
  the same delivery overwrites COMPLETED with FAILED and publishes both outcomes (`CounterRuns.FailedPublishContradicts`,
  `FailedReplayContradicts`, `FailedClaimContradicts`, `HalfFailedRecordIsUndone`, each for every attempt limit).
  `EventOrder.BothOutcomesExactly` says exactly when one delivery publishes both, `Retries.OwnOutcomeIsRewrittenExactly` exactly
  when a delivery writes the row again after its own outcome, `Retries.StrayWritesExactly` exactly when it writes a row it does
  not hold, and `LeaseTiming.OutcomeAgreement` under which assumptions nothing of this happens.
* **A late renewal shortens a lease.** `Renew` overwrites the expiry with a time read before the statement runs. Renewals that
  take up to a margin are harmless to holders that keep that margin (`LeaseSafety.LeaseExclusion`); one unit more, for any
  margin, admits a second holder (`CounterRuns.DelayedRenewalAdmitsTwo`).
* **The late-ready branch never ends in a success.** `consumer.go:240-242` cancels the context it then hands to the ledger,
  so the record fails and the delivery is retried (`AckMeaning.LateReadyIsAlwaysRetried`).
* **`deploy.failed` can go out without a record.** The update of a row that does not exist matches nothing and reports no
  error. That happens exactly when no claim was ever committed (`FleetTheorems.WritesReachRowsOnceClaimed`,
  `CounterRuns.UnclaimedFailureIsUnrecorded`); write-ahead recording holds of every other outcome.
* **The rejected-update path of `ensureDeployment` cannot succeed.** By then the object carries a resource version, with which
  the API server refuses to create it; the deployment has been deleted and stays away
  (`Reconciler.KubernetesClient.RecreateDeployment`).
* **Limits and leases wrap.** `MAX_DELIVERY_ATTEMPTS` is cut to 32 bits without a check from above; a wrapped limit makes every
  failure the last one (`Config.AcceptedNumbersWrap`, `TwoToThe31Wraps`, `WrappedLimitNeverRetries`). The default lease is a
  64-bit sum: with `K8S_ROLLOUT_TIMEOUT=2562047h47m` it is negative, and a lease that is not positive excludes nobody
  (`LongestTimeoutWrapsTheLease`, `OnlyPositiveLeasesExclude`).
* **Projects can share a namespace**, exactly when as much of their slugs as fits beside the prefix is the same
  (`Names.NamespacesMeet`): long slugs that agree on what fits, a slug that fits with a longer one that is cut right after it,
  and every two projects when the prefix fills the label. `Deploy` then refuses the second project. Hosts join two slugs by a
  dash, which slugs may hold themselves, so services of different projects can share one (`Names.HostsMeet`).
* **Ownership rests on namespaces not being deleted**: they keep their labels in every run exactly if none is on its way out at
  the start (`Ownership.NamespacesAreKeptExactly`), and whenever one is, a deploy of its project can end up writing in a
  namespace of another (`DyingNamespaceChangesHands`).
* The service's own README gives `K8S_ROLLOUT_TIMEOUT=5m`; the code's default is 20 minutes (`config.go:62`), and that is what
  the model uses. The lease theorems hold of either.

## Model

| member | source | states |
|---|---|---|
| StageLedger.PostgresStageLedger.Claim | ledger.go:73-112 | the new table and the answer are the claim of the row at the sampled time; nothing is written when the database refuses, and a lost commit answer leaves the claim made |
| StageLedger.PostgresStageLedger.Renew | ledger.go:113-116 | overwrites the expiry of a row in progress, whoever holds it, and nothing else |
| StageLedger.PostgresStageLedger.Set | ledger.go:117-124 | overwrites state, result and lease of an existing row without any guard; a missing row is no error |
| StageLedger.PostgresStageLedger.Complete | ledger.go:125-127 | `Set` to COMPLETED |
| StageLedger.PostgresStageLedger.Fail | ledger.go:128-130 | `Set` to FAILED |
| StageLedger.PostgresStageLedger.Release | ledger.go:131-134 | puts an existing row back in progress without a lease, whatever its state and holder |
| StageLedger.ClaimGrantsExclusively | ledger.go:81-111 | a claim acquires exactly when neither an outcome nor a live lease stands in its way; it then adds one attempt and bars other claims exactly until its lease runs out; otherwise it changes nothing |
| StageLedger.ClaimAnswers | ledger.go:79-111 | for every row and time: the answer, and every field of the row left behind |
| StageLedger.WritesMean | ledger.go:113-134 | for every row: every field that a renewal, a write and a release leave behind; rows that do not exist are not made, and other rows are not touched |
| StageLedger.OperationsKeepRowsOk | migrations/001_stage_ledger.sql:4-5 | every operation keeps rows well formed: a positive attempt, and on a terminal row no lease and a bundle of the matching kind |
| DeployConsumer.Consumer.ProcessDelivery | consumer.go:144-172 | for every answer of ledger, cluster and broker the delivery makes exactly the calls of the machine and ends finished: acknowledged, or negatively acknowledged with the right requeue flag |
| DeployConsumer.Consumer.HandleMessage | consumer.go:174-264 | returns the action that matches where the machine stands, for every answer; only admitted messages are requeued |
| DeployConsumer.Consumer.RunStage | consumer.go:206-264 | the handler from its claim on follows the machine |
| DeployConsumer.Consumer.AwaitRollout | consumer.go:230-263 | the rollout, the late check under a cancelled context and the pending event follow the machine |
| DeployConsumer.Consumer.PublishRolloutSuccess | consumer.go:266-288 | success is recorded, then published, then announced; an acknowledgement needs a live context |
| DeployConsumer.Consumer.CompleteFailure | consumer.go:290-317 | failure is recorded, then published, then announced, or the delivery is requeued with the error of the step that failed |
| DeployConsumer.Consumer.PublishStored | consumer.go:332-353 | the stored pair is published again; an undecodable result is dropped |
| DeployConsumer.Consumer.ScheduleRetry | consumer.go:390-428 | counts, exhausts, announces, requeues and releases as the machine does |
| DeployConsumer.Consumer.EmitExhausted | consumer.go:492-503 | the last failure is recorded and published before the dead letter |
| DeployConsumer.Consumer.CopyToDLQ | consumer.go:429-442 | the dead letter carries the attempt and the reason |
| Delivery.RetryCopy | consumer.go:413-421 | the retry copy has the body and origin of the message and the new attempt number |
| Delivery.DeadCopy | consumer.go:432-441 | the dead letter has the body and origin of the message and the given attempt number |
| Delivery.CopiesKeepTheirHeaders | consumer.go:413-435 | both copies carry their reason and keep every header but that and the attempt number |
| Decisions.FirstThing | consumer.go:174-194 | a message that is not admitted is dropped for the reason it was refused, and any other is claimed |
| Decisions.ClaimDecides | consumer.go:193-204 | where each answer of a claim leads |
| Decisions.DeployDecides | consumer.go:217-223 | a deploy that fails is retried exactly if its error holds a transient cause and neither an ownership refusal nor a verdict, and otherwise recorded as failed at once, for the target of the request and with that error |
| Decisions.RolloutDecides | consumer.go:234-263 | a ready rollout is recorded, one that ran into a deadline looked at again, and any other failure retried or recorded by its classes, a failed rollout with the hint at the port |
| Decisions.LateCheckDecides | consumer.go:236-251 | the late check takes the rollout for finished exactly if it is ready, or in a real cluster after any error but a failed rollout; then a success is to be recorded under a cancelled context, and else the rollout is pending |
| Decisions.StepsDecide | consumer.go:206-228 | the events on the way lead on if confirmed, and to a retry that names them if not |
| Decisions.ClosingDecides | consumer.go:266-317 | record, service event, progress event, in this order, and where a failure of each leads, in the handler and after the last attempt |
| Decisions.RetryDecides | consumer.go:390-412 | a failure takes the next number unless a busy lease is among its causes; at the limit it is recorded for the target of its request and with its cause, below it announced and put back |
| Decisions.RetryStepsDecide | consumer.go:408-442 | what a retry then does, under which number, on which queue, and where its answers lead |
| Decisions.AttemptIsTheHeader | consumer.go:454-464 | the attempt number is the header if that is an integer, and zero otherwise |
| Decisions.CallsSayWhatTheyMean | events.go:79-252 | key, mark, event, target and error of everything published |
| Decisions.CallsAreAboutTheMessage | consumer.go:144-290 | deployment, request, target and bundle of every other call, and how a delivery ends |
| AckMeaning.AckMeans | consumer.go:206-353 | an acknowledged delivery has handed its message on, or has an outcome on record with its pair confirmed as its last two calls, or has published exactly the rollout-pending event and written no outcome |
| AckMeaning.LateReadyIsAlwaysRetried | consumer.go:238-242 | a delivery whose late check took the rollout for ready is only ever acknowledged after handing its message on |
| EventOrder.EventsComeInOrder | consumer.go:206-353 | whatever its answers and however far it has come, requeued or not, a delivery hands the broker nothing, started, or started and deployed; then nothing, the pending event, or the events of one bundle that is on file, the service event first; and after its handler nothing, the retrying event with the next number, or the events of a failure |
| EventOrder.BothOutcomesExactly | consumer.go:278-503 | one delivery hands the broker both a success and a failure if and only if a publish that closes a success is not confirmed, its failure uses up the last attempt, and the failure write that follows reports no error |
| Retries.RoundPutsBackOrGivesUp | consumer.go:390-428 | a failed delivery whose handling works makes exactly the calls of a retry, or exactly those of giving up; it puts back one copy in the first case and none in the second |
| Retries.AttemptsCountFailures | consumer.go:390-400 | along the life of a message its attempt number is the number of counted failures so far, stays below the limit, and a copy is put back exactly while the limit is not reached |
| Retries.FailuresAreBounded | consumer.go:395-400 | a message fails at most MaxAttempts times, busy leases in between not counted; its life ends exactly at that number, with a failure write that reported no error (it reaches the row exactly if some claim was committed, see `WritesReachRowsOnceClaimed`), its pair published and the dead letter sent |
| Retries.FailureWaitsOnItsQueue | consumer.go:401-421 | wherever a message is put back, busy leases in between or not, it waits on queue min(k, n), k the failures counted so far, and on the first queue before there are any |
| Retries.WaitsAreTheBackoffs | consumer.go:401-421 | a message that always fails has waited the sum of the backoffs of its attempts, the last queue serving all later ones |
| Retries.FailingClaimsExhaustTheAttempts | consumer.go:194-197 | every admitted message can live such a life to any length up to the limit: its claim fails every time |
| Retries.StrayWritesExactly | consumer.go:193-200 | a delivery whose claim fails or finds an outcome writes the row if and only if that claim or a publish of the replay fails and the retry of that failure gets to its write: the attempts used up, or else the retry announced and the copy put back |
| Retries.OwnOutcomeIsRewrittenExactly | consumer.go:273-314 | a delivery that has itself recorded an outcome writes the row again if and only if one of its two closing publishes fails and the retry of that failure gets to its write |
| FleetInvariant.StepKeepsInv | consumer.go:144-503 | every step of every worker, clock and broker keeps the invariant that the theorems below rest on, crashes and deliveries taken back while their worker goes on included |
| FleetTheorems.NoMessageIsLost | consumer.go:144-172 | in every reachable state a produced message has a copy on a queue, as a dead letter, or in the hands of a worker that has not passed it on, or a delivery of this very message has ended with both closing events of a filed outcome confirmed, or with its pending event confirmed; only refused messages whose dead letter failed may vanish or be about to |
| FleetTheorems.AttemptsStayInRange | consumer.go:391-400 | every message on a queue or in a worker's hands carries an attempt in [0, MaxAttempts); dead letters at most MaxAttempts |
| FleetTheorems.RetriesGoToDeclaredQueues | consumer.go:377-421 | every retry copy goes to a declared queue and arrives there when it takes effect, so none is confirmed and lost |
| FleetTheorems.BusyDeliveriesTouchNothing | consumer.go:201-202 | a delivery met by a live lease changes no row, keeps its number, and can only requeue and acknowledge: it never exhausts, records or releases |
| FleetTheorems.RowsAreTruthful | ledger.go:81-134 | the attempt of a row is the number of claims that acquired it, its result the bundle last written, and a terminal row has no lease and the bundle of its state |
| FleetTheorems.ReplaysAreFaithful | consumer.go:199-200 | a claim that finds an outcome goes on to publish the pair last recorded; decoding never fails |
| FleetTheorems.OutcomesAreFiledFirst | consumer.go:266-314 | a service event is handed to the broker only as part of a bundle the ledger accepted before; it is on record unless it is a failure that found no row |
| FleetTheorems.WritesReachRowsOnceClaimed | ledger.go:122-123 | an outcome write reaches its row if and only if some claim of the deployment was ever committed; a success always does |
| FleetTheorems.OutcomesAreTouchedExactlyBy | ledger.go:117-134 | in any reachable state a step changes a recorded outcome if and only if it is a release of its row or a write of another bundle that takes effect, whoever makes it |
| LeaseSafety.LeaseExclusion | ledger.go:91-116 | if rows are written only by holders within their lease, at most one run per deployment is within its lease, stale renewals and claims that read the clock early notwithstanding |
| LeaseSafety.OutcomesAreFinal | ledger.go:96-134 | then a row that is COMPLETED or FAILED never changes again |
| LeaseSafety.OneStoryPerDeployment | consumer.go:266-353 | then all service events ever handed to the broker for a deployment are the one on its row |
| LeaseTiming.RecordsFallWithinTheLease | consumer.go:206-297 | if calls keep their deadlines, an outcome written inside the handler is written by rollout timeout plus 90 seconds after the claim, so within a lease two minutes longer than the timeout even if every renewal fails |
| LeaseTiming.WritersAreWithin | consumer.go:354-428 | with renewals, whoever may still write the row is within its lease, the release in `scheduleRetry` included |
| LeaseTiming.TimelyRunsAreLeased | consumer.go:354-428 | a run that keeps its deadlines, whose renewals read the clock once their tick is due and are committed within the margin, and whose claims and closing publishes are reliable, is one in which only holders write |
| LeaseTiming.OutcomeAgreement | consumer.go:193-317 | in every such run a deployment has one holder at a time, a row that holds an outcome never changes again, published or not, and the broker never hears both outcomes |
| LeaseTiming.DefaultLeaseHasSlack | config.go:80 | a lease of rollout timeout plus two minutes leaves the slack this needs |
| LeaseTiming.DeadlinesAre | consumer.go:206-428 | the deadline of the context of every call, and the period of renewals |
| CounterRuns.FailedPublishContradicts | consumer.go:278-283 | without reliable closing publishes both outcomes of a deployment are published and its COMPLETED row becomes FAILED, by the next run or, on the last attempt, by the same delivery |
| CounterRuns.FailedReplayContradicts | consumer.go:346-351 | the same when a replay is not confirmed |
| CounterRuns.FailedClaimContradicts | consumer.go:194-197 | the same when a redelivery's claim fails and its retry releases a row it never held |
| CounterRuns.HalfFailedRecordIsUndone | ledger.go:117-124 | a write that takes effect and fails is undone by its own retry, inside the lease |
| CounterRuns.LateWriterContradicts | ledger.go:117-124 | a run that outlives its lease overwrites the outcome of its successor |
| CounterRuns.StrayReleaseAdmitsTwo | ledger.go:131-134 | a release by a run that holds nothing admits a second holder, where more than one attempt is allowed |
| CounterRuns.DelayedRenewalAdmitsTwo | ledger.go:113-116 | for every margin, renewals committed up to one unit of time later than it admit a second holder, so the delay bound of `LeaseExclusion` is tight |
| CounterRuns.UnclaimedFailureIsUnrecorded | consumer.go:395-398 | for every attempt limit, claims that all fail lead to a published failure that no row holds |
| Errors.RetriableIffTransientWithoutVerdict | rollout.go:121-151 | an error is retriable exactly if its chain holds a transient or network cause and no ownership refusal or rollout verdict; wrapping changes neither this nor whether a retry counts |
| Errors.UrlErrorsAreNetErrors | rollout.go:138-150 | URL errors and deadlines are network errors, so the last test of the classification never decides |
| Errors.RetriableByThemselves | rollout.go:121-151 | of errors that wrap nothing, exactly network failures, deadlines, and five answers of the API are retriable |
| Errors.UrlErrorsAreRetriable | rollout.go:138-151 | a URL error is retriable exactly unless it wraps a verdict or an ownership refusal |
| Errors.RootDecides | rollout.go:121-151 | what `fmt.Errorf` wraps around an error changes neither its classes nor whether it is retried |
| Events.IdentityDecodable | events.go:254-257 | the hashed text determines deployment and status, and is determined by them, for arbitrary identifiers |
| Events.StatusInjective | events.go:79-85 | distinct statuses, retry numbers included, have distinct texts |
| Events.IdentityTexts | events.go:12-25 | the text that is hashed, status by status |
| Events.DigitsAreDecimal | events.go:79-81 | a retry number is written in decimal without leading zeros |
| Requests.AdmittedExactly | consumer.go:174-192 | an event is admitted exactly if its deployment id and image tag are not blank and a base domain is set, and what is missing first is the reason of a refusal; the request (names.go:34-52) carries ids as they are, tag and commit trimmed, each slug or else its id, and the configured port or else 3000; the target is named by just these slugs |
| Requests.TrimSpaceSplits | names.go:46-47 | trimming takes away exactly the spaces at either end |
| Names.SanitizeDNSLabel | names.go:102-130 | the loop computes: join the maximal [a-z0-9] runs with single dashes, fall back, cut to 63, trim |
| Names.NormalizeIsCanonical | names.go:102-138 | the result is a non-empty DNS label (RFC 1123, section 2.1; length by RFC 1035, section 2.3.1) with no double dash |
| Names.NormalizeFixesCanonical | names.go:102-138 | canonical labels are left alone |
| Names.NormalizeIdempotent | names.go:102-138 | normalising again, even with another fallback, changes nothing |
| Names.CanonicalMeans | names.go:102-138 | canonical, character by character: one to 63 of a-z, 0-9 and dash, no dash at an end, no two together |
| Names.NormalizeKeepsLetters | names.go:102-138 | a label keeps the letters and digits of its text in order from the first, all of them if the text has at most 63 characters; a text without any gives the fallback |
| Names.NormalizeIgnoresCase | names.go:103 | a label does not depend on the case of its text |
| Names.ComposedIsCanonical | names.go:73-89 | every composed name is canonical, whatever the user text |
| Names.TargetNamesAreCanonical | names.go:54-89 | all names of a target are canonical, and building from normalised slugs equals building from raw ones; there is no target exactly when the base domain is blank |
| Names.FittingNamesReadPlainly | names.go:73-89 | names of canonical slugs that fit read prefix-project, app-service and service-project.domain |
| Names.CleanDomainsStay | names.go:82 | a base domain that is clean is used as it is |
| Names.DomainsIgnoreCase | names.go:82 | base domains that differ in case only are one |
| Names.ComposedShows | names.go:73-89 | a composed name is its first part, beside it as much of the second as fits, without a dash at the cut |
| Names.NamespacesMeet | names.go:73-75 | two projects, whatever their slugs and the prefix, share a namespace if and only if what fits of their normalised slugs is the same |
| Names.ResourcesMeet | names.go:77-79 | the same for two services of a project and their resource names |
| Names.NamespacesSeparateProjects | names.go:73-75 | so canonical slugs that fit share a namespace if and only if they are equal |
| Names.LongSlugsCollide | names.go:132-138 | slugs that agree on what fits share a namespace |
| Names.FittingSlugCollides | names.go:132-138 | a slug that fits with one character to spare shares its namespace with a longer one that continues it after a dash |
| Names.LongPrefixesMergeAll | names.go:132-138 | with a prefix of 62 or 63 characters every two projects share one |
| Names.HostsMeet | names.go:81-89 | two services share a host if and only if their slugs, joined by a dash and cut, read the same |
| Names.DashedSlugsShareAHost | names.go:81-89 | so services of different projects can, when a slug holds a dash |
| Config.EnvDurationsOrDefault | config.go:110-125 | the loop yields the whole schedule if every part is a positive duration, and the fallback otherwise |
| Config.BackoffsArePositive | config.go:110-125 | backoff i is what part i of the text parses to if every part is a positive duration, and otherwise the fallback is used as a whole; so the backoffs are never empty and always positive |
| Config.SplitThenJoin | config.go:115 | splitting at commas is undone by joining, and no part holds a comma |
| Config.AcceptedNumbersWrap | config.go:135-146 | an accepted number is used unchanged exactly if it is below 2^31, and the setting is positive exactly if its low 32 bits are |
| Config.LoadedConfigIsOk | config.go:61-108 | of every environment: the attempt limit is positive exactly unless it wraps, the lease exactly if it is set or the rollout timeout leaves room for two more minutes in 64 bits, and timeout and backoffs always |
| Config.DefaultSettings | config.go:61-108 | the settings with nothing set |
| Config.SettingsAreUsed | config.go:135-159 | a timeout, a lease and a limit that are set well are used as they are |
| Config.LongestTimeoutWrapsTheLease | config.go:80 | with K8S_ROLLOUT_TIMEOUT=2562047h47m the default lease is negative |
| Config.OnlyPositiveLeasesExclude | ledger.go:91-111 | a claim bars others at the moment it is made if and only if the lease is positive; otherwise it never does |
| Config.LoadedLeaseHasSlack | config.go:80 | with the lease not set, the loaded settings leave the slack for agreement if and only if the sum does not wrap |
| Rollout.RolloutConditionError | rollout.go:81-101 | reports a failure exactly if some condition says so |
| Rollout.DeploymentRolloutComplete | rollout.go:103-120 | complete exactly if available, observed, and updated, total and available all equal the wanted replicas |
| Rollout.WaitForRollout | rollout.go:39-79 | the answer is that of the first poll that decides anything, or of the context once it is done; polling is bounded by it |
| Rollout.WaitMeans | rollout.go:47-77 | what ended the wait, and the answer it gives, case by case |
| Rollout.CompleteMeansEveryPod | rollout.go:103-120 | where the status counts pods, complete means exactly: as many pods as wanted, every one of them current and available |
| Rollout.SuccessIsSound | rollout.go:39-79 | success is reported only at a poll without failure, with a status not older than the specification, and every pod current and available; no earlier poll saw a failure |
| Rollout.AnswersMeanWhatTheySay | consumer.go:234-263 | the worker turns a complete rollout into a success; once the deadline of the rollout has passed, any other answer, a failed rollout too, into the late check; and before that a failed rollout into a failure, and a poll error into a retry or a failure by its class |
| PortEnv.PlatformPortEnv | reconciler.go:262-282 | the loop computes the first occurrences of the user's names followed by the two port variables |
| PortEnv.KeptInOrder | reconciler.go:267-277 | what is kept is the in-order subsequence of exactly the first occurrences of unreserved names |
| PortEnv.NamesAreUnique | reconciler.go:262-282 | no name comes twice |
| PortEnv.LookupAgrees | reconciler.go:262-282 | a lookup finds the platform's port under the reserved names and otherwise what a first-match lookup of the input finds |
| Reconciler.KubernetesClient.EnsureNamespace | reconciler.go:60-98 | succeeds only knowing the namespace to be the project's, create race included; an existing one is not changed; with nothing in its way it refuses exactly what belongs to somebody else, and then changes nothing |
| Reconciler.KubernetesClient.EnsureRegistryPullSecret | reconciler.go:100-148 | the secret in use holds the credentials and keeps its labels; only that object changes; with nothing in its way it succeeds exactly if the credentials are whole and the name is free for them |
| Reconciler.KubernetesClient.RecreateDeployment | reconciler.go:284-322 | success leaves the wanted deployment; with a resource version set it never succeeds, and leaves none |
| Reconciler.KubernetesClient.AwaitDeletion | reconciler.go:300-319 | the wait ends well only once the deployment is gone; otherwise with the failed read, the end of the context, or a deadline |
| Reconciler.KubernetesClient.UpdateSecret | reconciler.go:121-130 | success stores the credentials under the labels that were there; a version conflict is the last word only after five reads and updates; with nothing in its way it succeeds exactly for a secret of the right type |
| Reconciler.KubernetesClient.UpdateDeployment | reconciler.go:241-252 | success stores the wanted object; a version conflict is the last word only after five reads and updates; with nothing in its way and an equal selector it succeeds; and, nobody interfering, a deployment with that selector stays, whatever fails |
| Reconciler.KubernetesClient.UpdateService | reconciler.go:351-364 | the same for the service, which keeps what the server allotted to it |
| Reconciler.KubernetesClient.UpdateIngress | reconciler.go:421-429 | the same for the ingress |
| Reconciler.KubernetesClient.EnsureDeployment | reconciler.go:150-260 | success leaves the deployment as wanted, from any state; only that object changes; nobody interfering, a deployment that selects by the same service is never taken away, whatever fails; with nothing in its way it succeeds exactly if the quantities parse; an error says what the last request said |
| Reconciler.KubernetesClient.EnsureService | reconciler.go:324-372 | success leaves the service as wanted with what the server allotted to it; only that object changes |
| Reconciler.KubernetesClient.EnsureIngress | reconciler.go:374-437 | success leaves the ingress as wanted; only that object changes |
| Reconciler.KubernetesClient.Deploy | reconciler.go:28-58 | success, nobody interfering, leaves everything as wanted; no other object changes, also on failure; with nothing in its way it succeeds if and only if the names can be built, the namespace is free or the project's, and the settings allow it, and a foreign namespace is refused with an ownership error and no change; nobody interfering, a deployment that selects by the same service is never taken away, whatever fails; and an error reports what went wrong last: the failure of the last request, or else the settings, a foreign namespace just read, or a context that ended the wait for a deletion |
| Reconciler.ReportsDecideRetry | reconciler.go:36-55 | an error caused by a broken request is retried exactly if that request's own is; any other only if a deadline passed while a deletion was waited for; an ownership refusal is reported only of a foreign namespace just read, or of a broken request that says so itself |
| Reconciler.WaitEndMeans | reconciler.go:312-318 | the wait for a deletion ends by the first look at which the context is done, and by how it is done then, and otherwise by its own deadline |
| Desired.DeployedIsCoherent | reconciler.go:150-437 | what is left is of one piece, under the labels of the request, and as the settings say: selectors carried by the pods; one port from ingress to container, probes and environment; image, name, replicas and resources; the pull secret exactly if a name and whole credentials are set, and then with these credentials; class and certificate of the ingress |
| Desired.CanDeployMeans | reconciler.go:36-58 | what stands in the way of a deploy, in full: a foreign namespace, credentials set in part, a secret of another type, quantities that do not parse |
| Desired.RegistryMeans | reconciler.go:469-485 | credentials are whole, absent, or in part |
| Desired.SecondDeployChangesNothing | reconciler.go:28-58 | a second successful deploy of the same request changes no object, its own or another's, but for versions |
| Desired.StepsFurnish | reconciler.go:40-57 | the steps, each within its own object, do not disturb one another |
| ApiServer.Session.Serve | reconciler.go:36-38 | every request of a session keeps to the ownership rule: writes only in a namespace already seen to be the project's, under its labels |
| Ownership.NamespacesKeepTheirProject | reconciler.go:60-98 | over any interleaving of such sessions a namespace never changes its labels |
| Ownership.WritesCarryTheirNamespacesProject | names.go:91-100 | everything any of them wrote carries the project label of its namespace, also after a create race |
| Ownership.OneProjectPerNamespace | reconciler.go:80-86 | only sessions of one project ever ask to write in a namespace |
| Ownership.NamespacesAreKeptExactly | reconciler.go:60-98 | namespaces keep their labels in every run if and only if none is on its way out at the start |
| Ownership.DyingNamespaceChangesHands | reconciler.go:63-66 | from every start in which a namespace of some project is on its way out, with deploys of that project and of another, there is a run in which it changes hands between check and write |

## Left out

* Connecting to RabbitMQ, declaring exchanges and queues, publisher confirms and returned messages: publishing is confirmed,
  or fails, before or after taking effect.
* The HTTP health server, signals, logging, `main.go` and the construction of the Kubernetes client.
* SQL, transactions and the driver: a ledger operation is one step on a map. A claim reads the clock earlier, as in the code.
* A consumer without a ledger, a channel or a publisher: only tests build one.
* JSON, SHA-256 and base64: messages, bundles and credentials are values, and identities are the texts that are hashed.
  Encoding never fails.
* Timestamps inside events, error message texts and their truncation. Replays are wrapped in the same notes as first
  publishes, which no classification sees.
* 32-bit narrowing of attempt headers and of the time-to-live of retry queues; the attempt limit is narrowed, as in the code.
* A failure on a message that has no target is reported with a blank one; only admitted messages get that far.
* `time.ParseDuration`, `strconv.Atoi` and quantity parsing are parameters; settings outside the protocol are left out.
* Lower-casing maps ASCII and the two other letters that lower to ASCII; in labels all other characters are separators either
  way, but in the base domain other capital letters stay as they are. Names are taken as sequences of characters.
* Probe periods, update strategy, progress deadline and similar constants of the desired objects.
* Reconciler.KubernetesClient.Deploy: does not model what the API server validates beyond versions and fixed fields. It refuses
  labels over 63 characters or with other characters than a label may have (a deployment id such as "a/b"), ports above 65535,
  and the like; the model's success with nothing in its way takes such values.
* Status, generations and server defaults of cluster objects other than the address of a service; deletion of a namespace does
  not delete what is in it.
* Reconciler.KubernetesClient.EnsureDeployment: does not follow the rejected-update path to a success, because the API server
  refuses to create an object that carries a resource version.
* Reconciler.KubernetesClient.RecreateDeployment: does not model the 60-second timer as time; the wait ends after any number
  of ticks or with the context.
* Rollout.WaitForRollout: does not model the poll interval as time; the context is done from some look on.
* Liveness: that the broker delivers, the clock advances and messages are eventually settled. The retry bound takes its place.
