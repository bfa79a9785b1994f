# Pod instance stats, termination wait and authentication gate

This project models three decision cores of the Cloud Foundry API
server that runs on Kubernetes:

- **Instance stats** (`PodRepo.FetchPodStatsByAppGUID`). It takes a process type and a
  desired instance count N. It returns one `PodStatsRecord{Type, Index, State}` for each
  slot 0..N-1. The state is `RUNNING`, `STARTING` or `DOWN`. It is derived from the pod
  of the app whose `CF_INSTANCE_INDEX` claims the slot, and from that pod's container
  statuses.
- **Termination wait** (`PodRepo.WatchForPodsTermination`). It waits until no pod
  carries the app's GUID label in the namespace. The result is `(true, nil)`. If the
  caller's context is cancelled first, the result is `(false, error)`.
- **Authentication gate** (`AuthenticationMiddleware.Middleware`).
  - The paths `/` and `/v3` go straight to the next handler.
  - Every other request has its `Authorization` header parsed. The caller's identity is
    then resolved. Each failure is classified into the not-authenticated, invalid-auth
    or unknown-error response.

Files:

- `wrappers.dfy`: `Option` and `Result`.
- `pod_repository.dfy`, module `Repositories`:
  - state derivation, the stats aggregation and the termination wait;
  - their specifications, and the test scenarios stated as lemmas.
- `authentication_middleware.dfy`, module `Apis`: the gate as a pure function `Serve`.
  `Serve` returns the response and the ordered list of calls made into the parser and
  the identity provider.

Modelling decisions:

- **Listing pods.** The cluster list call is an input: either the pods of the cluster
  or a list error. The model applies the label selector itself: same namespace, same app
  GUID label.
  - `FetchPodStatsByAppGUID` is imperative. It fills a map from index to pod, then
    appends one record per slot.
  - Its contract is the relation `IsPodStats`. When several matching pods claim the
    same slot, the slot takes the state of one of them. The contract leaves open which
    one.
- **State derivation.** The rule follows the repository's tests:
  - no pod, or a pod with no container status yet, gives `DOWN`;
  - some container that is running and ready gives `RUNNING`;
  - anything else gives `STARTING`.
  - The pod phase is carried in the model but does not decide the state
    (`PhaseDoesNotDecide`).
- **Termination wait.** It is a loop over a finite trace of observations. Each
  observation is either `Check(pods)` (a look at the cluster) or `Cancelled`.
  - The first check that finds no matching pod ends the wait with `(true, no error)`.
  - A cancellation that comes first ends it with `(false, Canceled)`.
  - When the trace holds neither, the result is `None`: still waiting.
  - There is no shortcut for an empty first listing: pod_repository_test.go:280-290
    expects `(false, error)` for a GUID with no pods when the context is cancelled after
    200 ms.
- **Authentication gate.**
  - The parser and the identity provider are function-valued fields of the
    `AuthenticationMiddleware` datatype.
  - An `AuthError` exposes the two classifiers `IsNotAuthenticated` and `IsInvalidAuth`
    as booleans. Both may hold at once.
  - Rebinding the request with a new context becomes the request carried by the `Next`
    response.

## Model

| member | source | states |
|---|---|---|
| `Repositories.AnyRunningAndReady` | api/repositories/pod_repository_test.go:59-69 | true exactly when some container status is both running and ready |
| `Repositories.DeriveState` | api/repositories/pod_repository_test.go:152-206 | DOWN exactly when there is no pod or it has no container status; RUNNING exactly when some container runs and is ready; STARTING exactly when statuses exist but none runs and is ready |
| `Repositories.PhaseDoesNotDecide` | api/repositories/pod_repository_test.go:166-176 | changing a pod's phase never changes its derived state |
| `Repositories.RunningAndReadyIsRunning` | api/repositories/pod_repository_test.go:59-69 | a pod whose single container is running and ready is RUNNING |
| `Repositories.NoStatusesIsDown` | api/repositories/pod_repository_test.go:107-111 | a pod without container statuses is DOWN, the same as a missing pod |
| `Repositories.RunningNotReadyIsStarting` | api/repositories/pod_repository_test.go:166-176 | a pending pod whose single container runs but is not ready is STARTING |
| `Repositories.FetchPodStatsByAppGUID` | api/repositories/pod_repository_test.go:96-113 | a list error is returned unchanged; otherwise exactly `instances` records, record k has index k and the requested process type, and its state is DOWN when no matching pod claims k, else the derived state of a matching pod claiming k |
| `Repositories.PodStatsCoverSlots` | api/repositories/pod_repository_test.go:126-148 | the record indices are exactly {0..instances-1}, pairwise distinct, all with the requested process type |
| `Repositories.UniqueClaimDecides` | api/repositories/pod_repository_test.go:100-106 | a slot claimed by exactly one matching pod carries that pod's derived state |
| `Repositories.UnclaimedSlotIsDown` | api/repositories/pod_repository_test.go:142-146 | a desired slot no matching pod claims is DOWN |
| `Repositories.OnlyMatchingPodsCount` | api/repositories/pod_repository_test.go:77-79 | pods of another app GUID or namespace never change which answers are correct |
| `Repositories.AllRequiredPodsExist` | api/repositories/pod_repository_test.go:87-114 | with 2 instances, a running ready pod at 0, a status-less pod at 1 and a foreign pod at 0, the only answer is [(web,0,RUNNING),(web,1,DOWN)], whose states read "RUNNING" and "DOWN" |
| `Repositories.SomePodsMissing` | api/repositories/pod_repository_test.go:117-150 | with 3 instances and the same pods, the only answer is [(web,0,RUNNING),(web,1,DOWN),(web,2,DOWN)], whose states read "RUNNING", "DOWN", "DOWN" |
| `Repositories.PendingPodIsStarting` | api/repositories/pod_repository_test.go:152-206 | adding a pending pod at 2 whose container runs but is not ready makes slot 2 STARTING (read "STARTING") and leaves slots 0 and 1 as before |
| `Repositories.MatchingCount` | api/repositories/pod_repository_test.go:295-305 | the number of pods under the namespace and app-label selector is at most the number of pods and is zero exactly when none matches |
| `Repositories.ForeignPodNotCounted` | api/repositories/pod_repository_test.go:272-277 | a pod of another app does not change the matching count |
| `Repositories.Verdict` | api/repositories/pod_repository_test.go:266-268 | a decisive observation gives terminated exactly for an empty check, and an error exactly for cancellation |
| `Repositories.AwaitTermination` | api/repositories/pod_repository_test.go:257-290 | undecided exactly when no observation is decisive; otherwise the verdict of the first decisive observation |
| `Repositories.WatchForPodsTermination` | api/repositories/pod_repository_test.go:257-290 | the loop over the observations returns the outcome `AwaitTermination` specifies |
| `Repositories.TerminatedIffNoError` | api/repositories/pod_repository_test.go:266-268 | once decided, terminated is true exactly when there is no error |
| `Repositories.CancelFirstFails` | api/repositories/pod_repository_test.go:280-290 | a cancellation before any empty check yields (false, Canceled) |
| `Repositories.EmptyCheckFirstSucceeds` | api/repositories/pod_repository_test.go:258-277 | an empty check before any cancellation yields (true, no error) |
| `Repositories.DecisionIsFinal` | api/repositories/pod_repository_test.go:257-290 | observations after the decision never change the result |
| `Repositories.PodsDeletedTerminates` | api/repositories/pod_repository_test.go:257-270 | two matching pods that are deleted one after the other end the wait with (true, no error) |
| `Repositories.NoMatchingPodsTerminates` | api/repositories/pod_repository_test.go:272-278 | a check that finds only other apps' pods ends the wait with (true, no error) |
| `Repositories.CancelledBeforeCheckFails` | api/repositories/pod_repository_test.go:280-291 | cancellation before any check yields (false, error) even though no pod matches |
| `Apis.ExemptEndpoints` | api/apis/authentication_middleware.go:24-34 | a new middleware exempts exactly the paths "/" and "/v3" |
| `Apis.ExemptPathPassesThrough` | api/apis/authentication_middleware.go:38-41 | an exempt path is forwarded unchanged with no collaborator call, whatever the parser and identity provider |
| `Apis.OtherPathsAreAuthenticated` | api/apis/authentication_middleware.go:38-43 | every other path (e.g. "/v3/apps") first has its Authorization header parsed |
| `Apis.ParseErrorClassified` | api/apis/authentication_middleware.go:43-58 | a parse error stops after one parse call; not-authenticated exactly when IsNotAuthenticated holds, invalid-auth exactly when only IsInvalidAuth holds, unknown error otherwise |
| `Apis.IdentityErrorClassified` | api/apis/authentication_middleware.go:60-72 | after a successful parse the provider gets one call with a context carrying the parsed info; invalid-auth exactly when IsInvalidAuth holds, unknown error otherwise (NotAuthenticated included) |
| `Apis.NextIffAuthenticated` | api/apis/authentication_middleware.go:36-76 | next is reached exactly when the path is exempt or both the parse and the identity lookup succeed, and then receives the request with the parsed info in its context |
| `Apis.IdentityOnlyAfterParse` | api/apis/authentication_middleware.go:43-62 | the identity provider is called exactly when the path is not exempt and the parse succeeded |

## Left out

- The Kubernetes client, envtest, namespace creation, pod creation and status updates, `BuildPrivilegedClient`, `NewPodRepo` and the `PodRepo` struct. The pod list is an input value.
- Parsing of `CF_INSTANCE_INDEX`. The index is an already parsed `nat`. Nothing in the model covers unparsable values.
- Repositories.FetchPodStatsByAppGUID: when several matching pods claim one slot, the contract only says that the state comes from one of them. The method body keeps the last matching pod listed; the contract does not promise it. Pods whose index is at least N take no slot.
- Repositories.DeriveState: for pods with several containers, the model says RUNNING when some container runs and is ready; no test fixes this.
- Repositories.FetchPodStatsByAppGUID: the desired instance count is a `nat`. A negative Go `int` is not modelled.
- Goroutines, `time.Sleep`, real context cancellation and the timing of checks. These become the order of observations in the trace.
- The list-then-watch mechanics of the wait: resume version, tracked set, watch events. Also a watch error from a broken subscription. Only the decision over observed pod sets is modelled.
- Writing HTTP responses and their bodies, headers and logging. Also `http.Handler` wrapping, and the internals of `authorization.Parse`, `GetIdentity`, `IsNotAuthenticated` and `IsInvalidAuth`. These become abstract outcome values.
- Canonicalisation of header names by `Header.Get`. The request carries the `Authorization` value directly.
- Context values other than the auth info.
- api/apis/whoami_handler.go is not part of this model. It only looks up the context, calls the identity provider and encodes JSON.
