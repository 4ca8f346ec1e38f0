# ClusterOrbit gateway: a verified model

This project models the four protocols at the heart of the ClusterOrbit
gateway (`app/gateway/internal`) and proves what they promise.

* **The asynchronous node drain** (`kubebackend/drain.go`). `EvictAll.dfy` is
  one call of `evictAll` as a transition system: the feeder, up to five workers
  on an unbuffered channel, the buffered `accepted` channel, the poller, and the
  cancel that the first failure triggers. An action is one channel operation,
  one API reply, one timer or one job update; the API server may answer
  anything. `DrainSystem.dfy` puts every drain of a backend side by side, with
  the job registry of `DrainRegistry.dfy`, status polls and the clock.
  `EvictAllCompletion.dfy` and `DrainCompletion.dfy` say when they succeed.
  `Backoff.dfy` is the retry loop of one eviction, `Pods.dfy` the classification
  of pods.
* **The two-person approval flow** (`api/approval.go`, `api/approval_http.go`).
  `Approval.dfy` is the store; `ApprovalProtocol.dfy` the HTTP handlers as
  processes that interleave over it between any two store or backend calls,
  behind the gates of `Policy.dfy`; `BackendErrors.dfy` is what the backends
  answer them. `ApprovalRecords.dfy` is what is left on record, `LazyExpiry.dfy`
  compares the store, which expires a request when somebody looks, with a machine
  that expires it at its deadline.
* **The token-bucket limiter** (`api/ratelimit.go`). `RateLimit.dfy` is the
  limiter with its map of mutable buckets; `TokenBuckets.dfy` and
  `RateBounds.dfy` say exactly which calls it admits, and what eviction costs.
* **The snapshot transform and workload IDs** (`kubebackend/transform.go`,
  `api/validate.go`). `Snapshot.dfy` says what a snapshot is, `Transform.dfy`
  is the passes that compute it, `SnapshotLaws.dfy` what follows, and
  `SnapshotMeaning.dfy` what it says of each listed object; `Names.dfy` is the
  printer, the parser and the name grammar of IDs.

A run is a sequence of actions, each enabled in its turn; every result below is
about all inputs, all runs or all reachable states. Some fields of the
transition systems are history only: what the API server saw, the calls of
`fail`, what happened to a request. No action is enabled by them.

Where the code does not do what one might expect, the model follows the code:

* The first backoff of `evictPod` is not capped, only the doubled ones are;
  `Backoff.WaitClosedForm` gives the closed form and when it covers the first.
* `Complete` decides between failed and succeeded by the error's text
  (`ApprovalProtocol.RecordedAsFailed` says exactly when it records a failure).
  The backends of this repository never fail without a text
  (`BackendErrors.BackendsSpeak`), so with them a call is recorded as failed
  exactly when it broke (`ApprovalProtocol.BrokenIsRecordedAsFailed`); only a
  foreign `ClusterBackend` could have a failure recorded as a success.
* Of two owned pods with one namespace and name the one listed last decides
  which workload both count for. `SnapshotLaws.OrderShowsExactly` says for which
  clusters some order of the pods shows in the snapshot; Kubernetes' unique names
  exclude it.
* A bucket that is forgotten before it has refilled comes back full.
  `RateBounds.EvictionShowsExactly` says for which settings this can change a
  decision; `RateBounds.ExactAdmissionSince` says which calls are allowed whatever
  the settings: those that fit every window since the key last had no bucket.

## Model

| member | source | states |
|---|---|---|
| EvictAll.ActionKeepsPods | app/gateway/internal/kubebackend/drain.go:198-320 | One channel operation, reply or update moves pods between places and loses none; only a pod received while an equal reference is pending merges with it |
| EvictAll.ListingCounts | app/gateway/internal/kubebackend/drain.go:304-317 | The pods recorded by one update are the pods found gone, each once |
| EvictAll.InvKept | app/gateway/internal/kubebackend/drain.go:198-320 | Every action, in every interleaving, keeps: control state, first failure wins, causes are genuine, evidence for each pod's place, pod conservation |
| EvictAll.ReachableInv | app/gateway/internal/kubebackend/drain.go:198-320 | The same over whole runs, from any pods and any deadline |
| EvictAll.NilMeansEveryPodGone | app/gateway/internal/kubebackend/drain.go:198-320 | If evictAll returns nil, every pod had an accepted eviction (2xx, 404, 410) and was then missing from a listing requested later; recorded pods are a permutation of the given ones |
| EvictAll.EachPodInOnePlace | app/gateway/internal/kubebackend/drain.go:213-250 | At every reachable step each given pod is in exactly one place: unsent, one worker's hand, buffered, pending, being recorded, recorded, or failed |
| EvictAll.FirstErrorIsReturned | app/gateway/internal/kubebackend/drain.go:202-211 | The error kept is that of the first call of fail; no later action replaces it or turns it into nil |
| EvictAll.ErrorHasItsCause | app/gateway/internal/kubebackend/drain.go:229-250 | A failed drain names one of its pods, or the poller, with a cause that happened: the deadline; a refusal of that pod (not 2xx, 404, 410, 429); an eviction of it that was sent and got no answer; a failed listing. 429 alone never fails it |
| EvictAll.SendNeverBlocks | app/gateway/internal/kubebackend/drain.go:213-239 | The accepted channel always has room, so a worker with an accepted pod can send whatever the poller does |
| EvictAll.WorkerMoves | app/gateway/internal/kubebackend/drain.go:225-242 | A worker that has not left, with work to take or the channel closed, can always change the state |
| EvictAll.NoDeadlock | app/gateway/internal/kubebackend/drain.go:198-251 | Until evictAll returns, some process or pending reply can change the state, even if the deadline never passes |
| EvictAll.CancelledSendsNothing | app/gateway/internal/kubebackend/drain.go:230-234 | Once ctx has ended it stays ended, and no further eviction reaches the API server |
| EvictAll.CauseSurvives | app/gateway/internal/kubebackend/drain.go:206-241 | What justified a failure still justifies it later in the run |
| EvictAll.CancelledRunsDown | app/gateway/internal/kubebackend/drain.go:198-320 | Once ctx has ended every action that changes the state decreases one measure; only an idle tick changes nothing |
| EvictAll.CancelledRunIsShort | app/gateway/internal/kubebackend/drain.go:198-320 | After the cancel at most 3n + 35 more actions change the state, in any order |
| EvictAll.CancelledReturns | app/gateway/internal/kubebackend/drain.go:198-320 | From every reachable state after the cancel a run leads to the return |
| EvictAllCompletion.ListingIsNoticed | app/gateway/internal/kubebackend/drain.go:298-319 | A pending pod that a listing lacks leaves pending to be recorded, and one that it has stays pending |
| EvictAllCompletion.RecordedInOrder | app/gateway/internal/kubebackend/drain.go:304-317 | The pods found gone are recorded all, in the order of namespace and name |
| EvictAllCompletion.HelpedDrainSucceeds | app/gateway/internal/kubebackend/drain.go:198-320 | From every reachable state in which nothing has failed, a run in which the server accepts evictions and each listing lacks some pending pod leads to a nil return with every pod recorded |
| EvictAllCompletion.HelpedRunIsShort | app/gateway/internal/kubebackend/drain.go:198-320 | Any such run, in any order, changes the state at most 8n + 10 times from the start |
| EvictAllCompletion.HelpedRunEndsInNil | app/gateway/internal/kubebackend/drain.go:198-320 | ... and where no such action can change the state any more, evictAll has returned nil |
| EvictAllCompletion.NilMeansNoTrouble | app/gateway/internal/kubebackend/drain.go:229-241 | A nil return means that no eviction was refused but for now (429), none stayed without an answer, and no listing failed |
| EvictAllCompletion.AtMostFiveInFlight | app/gateway/internal/kubebackend/drain.go:220-239 | min(5, n) workers; until ctx ends the evictions sent and not answered are at most five |
| Pods.ClassifyPod | app/gateway/internal/kubebackend/drain.go:355-392 | The pod's own namespace (default if empty), name and UID; evicted, skipped or blocked by its fields alone, which one pass over the owners decides |
| Pods.OneRefOnePod | app/gateway/internal/kubebackend/drain.go:328-366 | Two named pods are one to the drain exactly when namespace (after the default), name and UID agree |
| Pods.KeysAreTexts | app/gateway/internal/kubebackend/drain.go:143-158 | Each class lists namespace/name of its pods in the order of the listing |
| Pods.OwnerOrderIrrelevant | app/gateway/internal/kubebackend/drain.go:355-392 | Pods that differ only in the order or repetition of their owners are treated alike |
| Pods.ClassesPartitionTheListing | app/gateway/internal/kubebackend/drain.go:143-158 | Every named pod lands in exactly one of skipped, unmanaged, evictable |
| Backoff.WaitClosedForm | app/gateway/internal/kubebackend/drain.go:404-425 | The i-th wait is min(first * 2^i, max) from the second on, and from the first on exactly when first <= max |
| Backoff.AttemptsBounded | app/gateway/internal/kubebackend/drain.go:397-430 | Attempts before the deadline are at most k + timeout / max + 1 when k doublings reach the cap |
| Backoff.EvictPod | app/gateway/internal/kubebackend/drain.go:397-430 | For every sequence of replies and latencies: it retries exactly on 429, its outcome is that of the last reply and of the time it comes at (all waits and calls before it), and it obeys that bound for every k |
| Backoff.WorkerRunsTheLoop | app/gateway/internal/kubebackend/drain.go:229-241 | Every run of the retry loop is a run of an evictAll worker, which ends where the loop's outcome says; a loop entered after the deadline, making no attempt, is one from any state |
| DrainRegistry.Registry.constructor | app/gateway/internal/kubebackend/drain.go:26-61 | A backend starts with no jobs |
| DrainRegistry.Registry.StartDrain | app/gateway/internal/kubebackend/drain.go:26-61 | Wrong cluster and invalid node change nothing; an unfinished job of the node is joined; otherwise stale jobs are dropped and a pending job is added |
| DrainRegistry.Registry.PruneDrainJobs | app/gateway/internal/kubebackend/drain.go:69-76 | Exactly the finished jobs last updated before the cutoff are dropped |
| DrainRegistry.Registry.DrainStatus | app/gateway/internal/kubebackend/drain.go:81-94 | A job is shown under its own cluster and node only |
| DrainRegistry.Registry.Update | app/gateway/internal/kubebackend/drain.go:106-115 | An update of an unknown job changes nothing; of a known one, that job and its time only |
| DrainSystem.InvKept | app/gateway/internal/kubebackend/drain.go:26-180 | Every action of every drain keeps: each running worker has its record, worker and record agree, one unfinished job per node |
| DrainSystem.ReachableInv | app/gateway/internal/kubebackend/drain.go:26-180 | The same over whole runs of concurrent starts, workers and clock |
| DrainSystem.SucceededDrainIsComplete | app/gateway/internal/kubebackend/drain.go:143-180 | A succeeded job cordoned its node, saw no pod blocked and every evictable one accepted and then gone by namespace, name and UID; it lists the skipped ones in order, its Evicted is a permutation of the evictable ones' namespace/name, and nothing remains |
| DrainSystem.SucceedFindsNothingLeft | app/gateway/internal/kubebackend/drain.go:171-179 | Remaining is already 0 before the succeeding update sets it |
| DrainSystem.RemainingIsExact | app/gateway/internal/kubebackend/drain.go:169-179 | Once set, Remaining is evictable minus evicted, on failed drains too |
| DrainSystem.ClampNeverBites | app/gateway/internal/kubebackend/drain.go:313-316 | No update records more pods than remain, so the clamp at zero never takes effect |
| DrainSystem.EvictionsAreGated | app/gateway/internal/kubebackend/drain.go:130-171 | In the trace of any drain, pruned or not, an eviction is sent only after a successful cordon and a classification of the whole list with no pod blocked, only under the namespace, name and UID of an evictable pod, and, pods being distinct, never of a skipped one |
| DrainSystem.FailedDrainSaysWhy | app/gateway/internal/kubebackend/drain.go:130-176 | A failed job's error is the cordon, the listing, exactly the pods that would be lost, or what evictAll returned, as it happened; no other job has an error |
| DrainSystem.ReturnedIsQuiet | app/gateway/internal/kubebackend/drain.go:243-251 | After evictAll has returned nothing of it can move but the deadline, because every worker and the poller have been joined |
| DrainSystem.DoneTouchesNothing | app/gateway/internal/kubebackend/drain.go:171-180 | So a worker that wrote its terminal phase touches its record no more |
| DrainSystem.JoinedJobIsUnique | app/gateway/internal/kubebackend/drain.go:36-42 | In every reachable state a node has at most one unfinished job, so the job joined does not depend on map order |
| DrainSystem.WorkerFindsItsJob | app/gateway/internal/kubebackend/drain.go:106-180 | A worker that is not done finds its job registered and unfinished, and can change its state by a move other than the deadline |
| DrainSystem.EndedDrainIsShort | app/gateway/internal/kubebackend/drain.go:126-180 | Once a drain's context has ended, on a node listing at most n pods, at most `Left` more moves change its worker, in any order: at most 4n + 20 from the beginning |
| DrainSystem.EndedDrainFinishes | app/gateway/internal/kubebackend/drain.go:126-180 | From every sound state of such a worker a run of moves leads to its terminal phase being written |
| DrainCompletion.HelpedDrainSucceeds | app/gateway/internal/kubebackend/drain.go:126-180 | From every reachable state of all drains, one that has not failed, on a node with no pod blocked, has a run with the server's help to phase succeeded |
| DrainCompletion.StartedDrainCanSucceed | app/gateway/internal/kubebackend/drain.go:26-180 | In particular every drain that is started, within 9n + 20 moves for a node of n pods |
| DrainCompletion.HelpedDrainIsShort | app/gateway/internal/kubebackend/drain.go:126-180 | No helped run of a worker is longer than that |
| DrainSystem.RecordLifecycle | app/gateway/internal/kubebackend/drain.go:63-115 | A step moves phases only pending, running, succeeded or failed, keeps ID, node and start time, and stamps every change; a finished record never changes; only finished jobs last updated more than an hour ago are dropped |
| DrainSystem.FinishedJobStaysPollable | app/gateway/internal/kubebackend/drain.go:19-76 | Over any further run a finished job's record is unchanged and stays for at least an hour |
| Approval.InsertInOrder | app/gateway/internal/api/approval.go:172-177 | Inserting by CreatedAt, then ID, keeps a listing in order |
| Approval.ApprovalStore.constructor | app/gateway/internal/api/approval.go:89-102 | A store starts empty with its TTL |
| Approval.ApprovalStore.Park | app/gateway/internal/api/approval.go:126-145 | The store is swept, then holds the new pending request, which expires one TTL from now |
| Approval.ApprovalStore.Get | app/gateway/internal/api/approval.go:148-157 | The request after expiry, or none; nothing else changes |
| Approval.ApprovalStore.Sweep | app/gateway/internal/api/approval.go:185-205 | Overdue requests expire, and exactly those resolved more than an hour and more than the TTL ago are deleted, whatever the map order |
| Approval.ApprovalStore.List | app/gateway/internal/api/approval.go:162-179 | Every held request of the cluster exactly once, by CreatedAt and then ID |
| Approval.ApprovalStore.Approve | app/gateway/internal/api/approval.go:220-238 | Unknown, resolved and self-approved requests are refused; otherwise the request becomes approved |
| Approval.ApprovalStore.Reject | app/gateway/internal/api/approval.go:242-257 | Unknown and resolved requests are refused; otherwise the request becomes rejected |
| Approval.ApprovalStore.Complete | app/gateway/internal/api/approval.go:262-278 | A known request of any phase becomes failed or succeeded by the error text |
| ApprovalProtocol.StepKeepsInv | app/gateway/internal/api/approval_http.go:15-170 | Every step of every handler, the clock, and every read keep the protocol's invariant |
| ApprovalProtocol.ReachableInv | app/gateway/internal/api/approval_http.go:15-170 | The invariant over whole runs of concurrent handlers |
| ApprovalProtocol.HistoryIsLawful | app/gateway/internal/api/approval_http.go:103-170 | In every reachable state each parked request's history is lawful, its stored fields are as parked, and its phase is the last one entered |
| ApprovalProtocol.LawfulMeans | app/gateway/internal/api/approval.go:22-34 | A lawful history runs the captured mutation at most once, after an approval by someone other than the requester before the deadline, never when rejected or expired, and follows the phase graph |
| ApprovalProtocol.HistoryOnlyGrows | app/gateway/internal/api/approval_http.go:15-170 | No action rewrites a history |
| ApprovalProtocol.FinishStep | app/gateway/internal/api/approval_http.go:142-148 | Complete finds its record, still approved, though it checks neither, and the invariant is kept |
| ApprovalProtocol.CompleteFindsApproved | app/gateway/internal/api/approval_http.go:134-148 | No handler ever answers 500, and a handler about to complete holds the stored approved record |
| ApprovalProtocol.ApprovedHasOneHandler | app/gateway/internal/api/approval.go:181-196 | A request is approved exactly while one handler, and only one, is executing or completing it |
| ApprovalProtocol.OnlyPermittedMutationsRun | app/gateway/internal/api/handlers.go:351-534 | Whatever reaches the backend satisfies the policy rules: inline only if it needs no approval, else exactly as captured when parked; it runs in the cluster it was asked for, and what was parked is what the requester of record asked for |
| ApprovalProtocol.ApprovedThroughItsCluster | app/gateway/internal/api/approval_http.go:103-124 | A request is granted only by a handler called to approve it through the path of its own cluster |
| ApprovalProtocol.OriginsKept | app/gateway/internal/api/approval_http.go:15-170 | Every step keeps the link from each handler, parked request, grant and inline mutation to the call it came from |
| ApprovalProtocol.ReachableOrigins | app/gateway/internal/api/approval_http.go:15-170 | The same over whole runs of concurrent handlers |
| ApprovalRecords.DecidedWithinTtl | app/gateway/internal/api/approval.go:126-257 | In every reachable state a request expires one TTL after it was parked, was granted or rejected only strictly before that, and expired only from then on |
| ApprovalRecords.GrantIsTheCallers | app/gateway/internal/api/approval_http.go:103-124 | Every grant is by the caller of the approve path of the request's cluster, under that caller's identity, not the requester's; without tokens nothing is ever granted or run |
| ApprovalRecords.OutcomeIsRecorded | app/gateway/internal/api/approval_http.go:126-149 | A completed record holds the job ID its drain was answered with, none for other operations, or the text a client may see of the error |
| ApprovalRecords.AskIsAnswered | app/gateway/internal/api/handlers.go:351-534 | An ask is refused with the gate's status, passed on in its cluster, or parked for its caller for one TTL and answered 202 |
| ApprovalRecords.LookupIsAnswered | app/gateway/internal/api/approval_http.go:103-120 | 404 without an ID or store, 403 to approve without tokens, 404 unless the request is held in the path's cluster |
| ApprovalRecords.ApprovalIsDecided | app/gateway/internal/api/approval.go:220-238 | An approval is answered 404, 409 or granted by what the store holds, the time and the caller |
| ApprovalRecords.RejectionIsDecided | app/gateway/internal/api/approval.go:242-257 | A rejection likewise, whoever asks |
| ApprovalRecords.InlineIsAnswered | app/gateway/internal/api/handlers.go:351-585 | A call made without approval is answered 200, 202 for a drain, or 404, 400, 501, 502 by its error |
| ApprovalProtocol.RecordedAsFailed | app/gateway/internal/api/approval_http.go:134-142 | The recorded phase is failed if and only if the call broke with a non-empty public text |
| ApprovalProtocol.BrokenIsRecordedAsFailed | app/gateway/internal/api/approval_http.go:134-142 | With any backend of the repository the recorded phase is failed if and only if the call broke |
| BackendErrors.KubeSpeaks | app/gateway/internal/kubebackend/backend.go:242-371 | Whatever the API server replies, a broken mutation of the Kubernetes backend has a text to show |
| BackendErrors.BackendsSpeak | app/gateway/internal/api/handlers.go:575-585 | No backend of the repository, nor executePending itself, breaks with an empty public text |
| BackendErrors.KubeAnswers | app/gateway/internal/kubebackend/backend.go:242-371 | What a mutation comes to: not found in another cluster; a bad request if it does not apply to what it names; otherwise what the API server's reply says, or the job of the drain |
| BackendErrors.PermittedPassesValidation | app/gateway/internal/kubebackend/backend.go:242-327 | A permitted mutation passes the backend's own validation: a bad request is then the API server's refusal or a kind the operation does not apply to |
| ApprovalProtocol.AgedView | app/gateway/internal/api/approval.go:185-205 | Expiring or dropping a request on a read or sweep keeps its history lawful |
| LazyExpiry.LazyExpiryIsInvisible | app/gateway/internal/api/approval.go:126-257 | For every operation sequence, what Get, List, Approve and Reject say of a held request equals the machine that expires it one TTL after parking; a request no longer held is resolved there; only requests resolved more than an hour and more than the TTL ago are deleted |
| LazyExpiry.RunRefines | app/gateway/internal/api/approval.go:126-257 | The same from any pair of stores in refinement |
| LazyExpiry.StepRefines | app/gateway/internal/api/approval.go:126-257 | One operation preserves the refinement |
| LazyExpiry.WaitsCompose | app/gateway/internal/api/approval.go:200-205 | The reference machine's expiry does not depend on how waiting is cut into steps |
| Policy.GateIsExact | app/gateway/internal/api/handlers.go:351-534 | The handlers refuse exactly what the rules do not permit (404 without a target, 400 when not well-formed, 403 otherwise), park exactly what needs approval, and pass on the mutation asked for |
| Policy.VerdictsAreTheRules | app/gateway/internal/api/policy.go:23-113 | Each verdict is given exactly when its rule is the first one broken |
| Policy.DrainCoversItsCordon | app/gateway/internal/api/policy.go:69-113 | A permitted drain is a permitted cordon of that node, and a drain without approval means a cordon without |
| Policy.WorkloadNamed | app/gateway/internal/api/validate.go:49-67 | A target is accepted for a namespace exactly when it names a workload in it |
| RateLimit.RateLimiter.constructor | app/gateway/internal/api/ratelimit.go:40-52 | An empty limiter with its settings |
| RateLimit.NewRateLimiter | app/gateway/internal/api/ratelimit.go:40-52 | No limiter exactly for a zero or negative setting; else a valid one with ten minutes and ten thousand buckets |
| RateLimit.RateLimiter.Allow | app/gateway/internal/api/ratelimit.go:57-84 | One step of the limiter's specification; the charged bucket is still in the map, within the cap |
| RateLimit.RateLimiter.MaybeEvict | app/gateway/internal/api/ratelimit.go:86-97 | At most once per evictAfter, exactly the idle buckets go |
| RateLimit.RateLimiter.ForceEvict | app/gateway/internal/api/ratelimit.go:103-127 | Room is made: the idle buckets go and, only if that is not enough, one whose lastSeen is minimal |
| RateLimit.RateLimiter.FindOldest | app/gateway/internal/api/ratelimit.go:114-123 | The scan finds a minimal lastSeen whatever order the map yields |
| TokenBuckets.AvailableIsLeastSlack | app/gateway/internal/api/ratelimit.go:73-82 | Closed form for a key not forgotten since it last had no bucket: its tokens are the capacity or the least slack over the windows opened by its calls since then |
| RateBounds.ExactAdmissionSince | app/gateway/internal/api/ratelimit.go:57-127 | In every run of the limiter, each call is allowed if and only if it fits capacity plus rate times window in every window opened by its key's calls since the key last had no bucket, whatever the rate and whatever was evicted before or of other keys |
| RateBounds.LastWithout | app/gateway/internal/api/ratelimit.go:57-127 | Before every call there is such a moment of its key: its last eviction, or the start of the run |
| RateBounds.ExactAdmissionOfKey | app/gateway/internal/api/ratelimit.go:57-127 | So a call whose key has not been evicted is allowed if and only if it fits every window since the start |
| RateBounds.ExactAdmission | app/gateway/internal/api/ratelimit.go:73-83 | The same of the simple limiter that keeps every bucket |
| RateBounds.EvictionInvisible | app/gateway/internal/api/ratelimit.go:65-97 | With rate * evictAfter >= capacity and no size-cap drop every decision is the simple limiter's, hence exact |
| RateBounds.RunRefinesOne | app/gateway/internal/api/ratelimit.go:65-97 | With room for one key only, twice that idle time does |
| RateBounds.Diverge | app/gateway/internal/api/ratelimit.go:73-83 | From two different levels of a key there are calls that the two levels decide differently |
| RateBounds.SlowRefillShowsEviction | app/gateway/internal/api/ratelimit.go:65-97 | With a capacity of a token or more and too slow a refill, from any time on there is a run, nothing dropped for the cap, with a decision that is not the simple limiter's |
| RateBounds.EvictionShowsExactly | app/gateway/internal/api/ratelimit.go:40-127 | For all settings: every run without a size-cap drop decides as the simple limiter if and only if the capacity is below one token or a bucket idle long enough to be forgotten is full again |
| RateBounds.WindowBound | app/gateway/internal/api/ratelimit.go:57-127 | In every window accepted calls are at most capacity * (1 + evictions of the key) + rate * window |
| RateBounds.StepCharges | app/gateway/internal/api/ratelimit.go:65-84 | A call leaves every bucket it keeps alone but the charged one, which is in the map afterwards |
| RateBounds.StepForgets | app/gateway/internal/api/ratelimit.go:86-127 | A bucket is forgotten only when idle for longer than evictAfter, or, when a new key meets a full cap of buckets that are not, as the longest idle of these |
| RateBounds.NothingIsKeptTooLong | app/gateway/internal/api/ratelimit.go:86-97 | After every call no bucket has been idle for more than twice evictAfter |
| RateBounds.StepWithinCap | app/gateway/internal/api/ratelimit.go:65-72 | The map never exceeds a positive cap |
| Snapshot.MaxHealthIsAJoin | app/gateway/internal/kubebackend/transform.go:654-665 | maxHealth is an associative, commutative, idempotent join with the empty signal as identity |
| Transform.ReplicaSetOwnerMap | app/gateway/internal/kubebackend/transform.go:279-304 | Resource key to the deployment first named by the last such ReplicaSet |
| Transform.JoinPods | app/gateway/internal/kubebackend/transform.go:154-218 | The one pass leaves per node the number of pods on it, per workload the set of nodes and the worst signal, per key the workload |
| Transform.NodeFromItem | app/gateway/internal/kubebackend/transform.go:356-420 | Readiness, pressure and schedulability over the conditions, and the node's pod count |
| Transform.WorkloadsFromItems | app/gateway/internal/kubebackend/transform.go:429-506 | Each controller's workload: sorted nodes, desired and ready counts, health |
| Transform.PodLabelsByWorkload | app/gateway/internal/kubebackend/transform.go:335-354 | A labelling is filed under a workload exactly when a named pod of it bears it |
| Transform.MatchesSelector | app/gateway/internal/kubebackend/transform.go:608-622 | True exactly when one labelling meets every entry, a missing label reading as "" |
| Transform.ServiceFromItem | app/gateway/internal/kubebackend/transform.go:542-606 | Targets are the sorted target set whatever order the map yields |
| Transform.TransformSnapshot | app/gateway/internal/kubebackend/transform.go:144-277 | The passes together compute the snapshot relation |
| SnapshotLaws.OrderShowsExactly | app/gateway/internal/kubebackend/transform.go:144-277 | All orders of the pods give one snapshot if and only if every workload that a service may target and some key speaks for has a key that speaks for it alone |
| SnapshotLaws.OwnLast | app/gateway/internal/kubebackend/transform.go:174-174 | Listed last, the pods of a workload get every key they have |
| SnapshotLaws.OwnFirst | app/gateway/internal/kubebackend/transform.go:174-174 | Listed first, they lose every key that a rival has |
| SnapshotLaws.PodOrderDoesNotShow | app/gateway/internal/kubebackend/transform.go:144-277 | Permuting the pods leaves nodes, workloads, services, alerts and links unchanged when pods sharing a named pod's key agree on their workload |
| SnapshotLaws.CoherentIsOrderFree | app/gateway/internal/kubebackend/transform.go:335-354 | Such agreement leaves no key contested |
| SnapshotLaws.DistinctPodsAreCoherent | app/gateway/internal/kubebackend/transform.go:127-129 | Named pods with distinct namespace and name and slash-free namespaces do agree |
| SnapshotLaws.IncoherentPodsShowTheirOrder | app/gateway/internal/kubebackend/transform.go:174-174 | For any namespace without a slash, name, labels and two DaemonSets: two pods of that name, one owned by each, selected by a service of the namespace, give different snapshots in the two orders |
| SnapshotLaws.TargetsAreDeclared | app/gateway/internal/kubebackend/transform.go:542-622 | A service targets exactly the listed workloads of its namespace owning a named pod that meets every selector entry, none for an empty selector, sorted and without repetition |
| SnapshotLaws.ServiceLinksPointToListedWorkloads | app/gateway/internal/kubebackend/transform.go:257-266 | Service links are the services' targets and lead to listed workloads only |
| SnapshotLaws.WorkloadLinksAreThePodsNodes | app/gateway/internal/kubebackend/transform.go:248-256 | A workload is linked to a node exactly when it is listed and a pod of it sits there |
| SnapshotLaws.ServiceAlertIffNothingMatches | app/gateway/internal/kubebackend/transform.go:730-744 | A service alert exists exactly when a non-empty selector matches nothing |
| SnapshotLaws.PodCountsAddUp | app/gateway/internal/kubebackend/transform.go:160-164 | Counts over distinct listed nodes plus pods on unlisted or no nodes are the number of pods |
| SnapshotLaws.OwnerMapIsLastOwned | app/gateway/internal/kubebackend/transform.go:279-304 | A key belongs to a deployment exactly when the last owned ReplicaSet with that key names it |
| SnapshotMeaning.OwnerIsDeclared | app/gateway/internal/kubebackend/transform.go:279-333 | A pod belongs to the workload of the first owner of a known kind that it names; a ReplicaSet stands for the Deployment first named by the last owned ReplicaSet of that namespace and name |
| SnapshotMeaning.NodeIsDeclared | app/gateway/internal/kubebackend/transform.go:356-420 | ID, schedulability and pod count of each node; Critical exactly without a true Ready condition, else Warning exactly under pressure or unschedulable |
| SnapshotMeaning.NodeAlertsAreDeclared | app/gateway/internal/kubebackend/transform.go:667-701 | Each node alert is raised exactly for a listed node in that state, the worst first |
| SnapshotMeaning.WorkloadIsDeclared | app/gateway/internal/kubebackend/transform.go:429-506 | Each workload has its controller's ID, its kind's own ready and desired counts, and health: Warning when failed or short, else by the worst pod that counts, else Healthy |
| SnapshotMeaning.SkewAlertsAreDeclared | app/gateway/internal/kubebackend/transform.go:703-728 | A skew alert with these two numbers exists exactly for a listed Deployment, StatefulSet or DaemonSet that has fewer ready than it wants |
| SnapshotMeaning.JobAlertsAreDeclared | app/gateway/internal/kubebackend/transform.go:508-535 | A Job alert exists exactly for a listed Job with a true Failed or FailureTarget condition |
| SnapshotMeaning.AlertsAreCounted | app/gateway/internal/kubebackend/transform.go:667-744 | One alert for each node, workload and service with something wrong, and no more |
| SnapshotMeaning.ServiceIsDeclared | app/gateway/internal/kubebackend/transform.go:542-606 | Each service has its own ID, namespace and name, and warns exactly when a non-empty selector matches nothing |
| Strings.LeMeans | app/gateway/internal/kubebackend/transform.go:475-479 | The order of sorted listings: a prefix first, else by the first difference |
| SnapshotLaws.IdsAreUnambiguous | app/gateway/internal/kubebackend/transform.go:131-133 | A workload ID with slash-free namespace tells its kind, namespace and name |
| SnapshotLaws.ListedWorkloadsAreAddressable | app/gateway/internal/api/validate.go:49-67 | The ID of a listed workload with valid names is accepted by the parser and yields its parts |
| Names.ScanLabelChars | app/gateway/internal/api/validate.go:126-138 | The left-to-right scan decides the character rule |
| Names.LabelScanMatchesGrammar | app/gateway/internal/api/validate.go:105-110 | The label scan accepts exactly the label grammar of section 2.1 of RFC 1123 over the alphabet a-z, 0-9 spelt out, up to 63 characters |
| Names.SubdomainScanMatchesGrammar | app/gateway/internal/api/validate.go:112-124 | The subdomain scan accepts exactly such labels joined by dots, up to 253 characters |
| Names.AcceptedNamesAreInert | app/gateway/internal/api/validate.go:105-138 | An accepted name holds only a-z, 0-9, hyphen and dot, so no slash, percent sign, comma, equals sign or colon, and no two adjacent dots |
| Names.ParsePrint | app/gateway/internal/api/validate.go:49-67 | Parsing the printed ID of a known kind and valid names gives those parts |
| Names.PrintParse | app/gateway/internal/api/validate.go:49-67 | An ID that parses is the print of its parts, which are valid |
| Names.AcceptedIdsAreThePrints | app/gateway/internal/api/validate.go:49-67 | An ID is accepted if and only if it is kind:namespace/name of a known kind and names the grammar allows, and it is parsed into these |
| Names.RefusedIdSaysWhy | app/gateway/internal/api/validate.go:49-67 | A refused ID cannot be cut in three, or the part named is the first one that is wrong |
| Names.ResourceKeyInjective | app/gateway/internal/kubebackend/transform.go:127-129 | Resource keys of slash-free namespaces never collide |

## Left out

- HTTP, TLS, JSON, YAML, the REST transport, environment wiring and token checks: API replies, identities, fresh IDs and clock readings are inputs of the model.
- Walking raw JSON maps in `transform.go`: the transform starts from typed records whose absent fields read as "", 0 or empty; case folding of a pod's phase is taken as done.
- Snapshot fields copied straight from one object: node role, zone, version and capacities, images, ports, cluster IP, exposure and its label.
- Texts of errors, reasons, alerts and audit entries, beyond which rule or which first failure they stand for; of a backend's errors the texts are modelled, up to escapes inside quotes.
- Float64 rounding in the limiter: amounts and times are reals. The zero time is 0, and a nil limiter, which allows everything, is not an object of the model.
- Several clock readings within one store or registry call: one reading per call, and the clock never goes back.
- Mutation of a DrainJob or PendingRequest through its pointer, and the copies handed out against aliasing it: the maps hold values, replaced under the lock.
- Concurrency is modelled at the grain of one lock hold, channel operation or API call; handler panics and process restarts are not.
- `executePending` has no arm for an operation outside the four: the store is only ever given those.
- A tie between a backoff timer and the deadline in `evictPod` is taken as the deadline.
- EvictAll.EachPodInOnePlace: assumes pairwise distinct pod references in one listing, as Kubernetes guarantees; without it `EvictAll.ActionKeepsPods` still says that no pod is lost.
- EvictAll.CancelledSendsNothing: a worker's look at ctx and its POST are one step, and a POST begun on an ended ctx is assumed never to leave; that is the HTTP client's promise, not this code's.
- Number formatting inside error texts: a status code is printed by a parameter.
- Not modelled: `MultiClusterBackend`, `sortEventsDesc` and the event list, `ValidateEventQuery`, the sample backend's data, the kubeconfig loader and the mobile app.
