# Verified model of the Tark control plane

Tark is a control plane for model serving: HTTP handlers write rows and enqueue tasks, a worker runs multi-step tasks
that are retried, and a proxy routes requests through a Redis cache backed by Postgres. Almost nothing in it is
transactional. This project models what the Go code keeps nevertheless, in every interleaving of handlers, worker
attempts, resolvers and start-up runners, and with any call to Postgres, Redis, the queue or Kubernetes failing, with or
without effect (`Common.Fault`: answered, refused, or taken effect without an answer). `dafny verify dfyconfig.toml`
checks everything.

| file | what it models |
|---|---|
| `Text`, `Subsequences` | string operations, Redis keys, order-preserving sublists |
| `RoundRobin` | the shared counter of the round-robin choice, with any number of callers |
| `ProxyTable` | the double-checked get-or-create of reverse proxies, and the atomic object it refines |
| `Discovery` | the target cache as a machine: resolvers reading, probing, pruning, writing back, choosing |
| `ProxyHandler` | the proxy handler as a class; resolving a model is a run of `Discovery` |
| `MigrationFiles`, `Checksums`, `Migrations` | file names, the checksum, and N concurrent migration runners |
| `Kube` | get-then-create and ordered delete against an object store with faults |
| `Base64`, `Kubeconfig` | RFC 4648 encoding, nonce framing, the server-line rewrite, the stored text read back |
| `Store`, `Jobs` | the tables and every statement run against them, and what a job row records |
| `Lifecycle` | request handlers and worker attempts as processes, one store, queue or external call per step |
| `LifecycleSafety`, `LifecycleCoupling`, `LifecycleReports` | invariants of every reachable state of `Lifecycle` |
| `Tracking` | the queue client, and how concrete calls are followed as a process of `Lifecycle` |
| `ModelNames` | upper and lower case in every run of `Lifecycle`: what is stored, listed and cached |
| `Handlers` | the request handlers statement by statement; each call is a run of one process of `Lifecycle` |
| `AttemptRows`, `WorkerServer` | one attempt of each task kind, call by call, with its exact outcomes; each attempt of a held task is a run of one process of `Lifecycle` |
| `Coherence` | `Lifecycle` and `Discovery` together: when cached targets are active ones |
| `CoherenceLimits` | for each condition of `Coherence` a run that breaks it alone and ends with a stale cache entry |

A machine is a function `Next(state, event)`, a run is a sequence of events, and an invariant is proved of every run.
Code that changes things step by step is a class with those fields, whose methods are proved against functions or
machines of the same module.

What the proofs found about the code:

- Pruning renews the 30 s time to live, so a served target can be older than the TTL; n(30 s + P) + P is the exact bound
  for a listing of n targets (`StalenessIsBounded`, `StalenessBoundIsAttained`).
- The repository has two files with version 2; the second one is never applied
  (`SecondVersionTwoIsNeverApplied`), although the project's README says that migrations are applied at start-up.
- `DeployModel` creates but does not update: a changed model URL or node port is ignored when the object exists
  (`DeployDoesNotUpdate`).
- A Service without its Deployment arises exactly when a Service is created without its Deployment or a Deployment is
  deleted under its Service (`CallKeepsOrderExactlyWhen`). Calls interleaved in any way never do that while
  operations on one name exclude each other (`ExclusionKeepsOrder`); the worker does not make them exclude each other,
  and a delete inside a deploy does it from every store (`DeleteInsideDeployLeavesService`).
- A job that is not in a terminal state has a completion time exactly when it was started again after an attempt that
  completed or failed (`CompletionTimeOutlivesAttempt`, for example `RetriedJobKeepsCompletionTime`).
- A delete whose cluster cannot be read leaves the deployment in "deleting" (`HandleDeleteModelTask`), and the job id a
  delete request is answered with never has a row (`DeletesHaveNoRow`).
- In every run, whatever fails, a query for a model name with an upper-case letter finds nothing
  (`MixedCaseIsNeverListed`), while the lower-case form, which shares its cache entry, may be listed: the two listings agree
  exactly when the name is lower case or its lower-case form has no targets (`ListingsAgreeExactlyWhen`). A request for
  such a name is answered from a live entry of the lower-case form or not at all (`MixedCaseIsOnlyCached`, and
  `MixedCaseLivesOnTheEntry` for a run in which both happen).
- The cache agrees with the database under six conditions (`CachedTargetsAreActive`), and each of them is needed
  (`EveryConditionIsNeeded`). For example, a resolve that overlaps a delete writes the dropped target back; a destroy task
  deletes no keys; and when a provision request is enqueued late, or its attempt's last writes are lost, a retry takes an
  active cluster down under a cached target.
- Two migration files are applied in the wrong order exactly when the name with the larger version has, at the first
  differing digit of the two prefixes, the smaller digit, or has the other prefix followed by more digits
  (`SortedWronglyExactlyWhen`); prefixes of one width never do (`SameWidthSortsByVersion`).

## Model

| member | source | states |
|---|---|---|
| Text.KeysAgreeUpToCase | internal/cache/keys.go:5-11 | two models share their list key, and their counter key, exactly when they differ in case only (of ASCII letters); a list key is never a counter key |
| Text.TrimIsIdempotent | internal/http/handlers/proxy.go:215 | a trimmed model name stays as it is when it is trimmed again |
| Text.TrimTakesSpaces | internal/http/handlers/proxy.go:215 | trimming takes away Unicode white space at both ends, all of it, and nothing else |
| Text.SpacesAre | internal/http/handlers/proxy.go:215 | white space is what the Unicode standard lists as such |
| Text.KeysAre | internal/cache/keys.go:5-11 | the keys as Redis sees them, "proxy:model:targets:" and "proxy:model:rr:" before the lower-case name |
| Text.HostAndPort | internal/worker/server.go:259 | the host, in brackets if it has a colon, a colon and the port; splitting at the last colon gives both back |
| Lifecycle.ServiceUrlIsHttp | internal/worker/server.go:259 | the stored URL is "http://", the address, in brackets if it has a colon, a colon, and the digits of the node port without a leading zero |
| Lifecycle.ServiceUrlSplits | internal/worker/server.go:259 | splitting the URL behind "http://" at its last colon gives the address and the port back |
| RoundRobin.EveryPositionIsInRange | internal/http/handlers/proxy.go:198-211 | the position is the old counter mod n, or the clock mod n when that is not negative and 0 otherwise, and in range; without the sign check Go's truncated remainder would be in range exactly for non-negative seeds and multiples of n |
| RoundRobin.HitsAreBalanced | internal/http/handlers/proxy.go:200 | among any k consecutive counter values each remainder mod n occurs floor(k/n) or ceil(k/n) times |
| RoundRobin.SelectionIsFair | internal/http/handlers/proxy.go:191-204 | however callers interleave between INCR and return, K completed selections among n targets choose each position floor(K/n) or ceil(K/n) times |
| ProxyTable.RefinesAtomicTable | internal/http/handlers/proxy.go:59-96 | in every interleaving of calls and evictions the table is what its operations, one at a time, leave; every entry forwards to its own key; each call that returned a proxy has one operation of its own, which got that proxy and took effect between the call's begin and its return; there are no other gets |
| ProxyTable.SameProxyUnlessEvicted | internal/http/handlers/proxy.go:89-95 | two calls that returned a proxy for one target returned the same object if and only if the target was not evicted between the moments, within the calls, at which they took effect |
| ProxyTable.EntryUntilEviction | internal/http/handlers/proxy.go:115-119 | a returned proxy stays under its key until an eviction and never comes back after one |
| ProxyTable.UndisturbedCall | internal/http/handlers/proxy.go:59-96 | call by call, a call that nothing comes between returns the entry there is, or one new entry for the trimmed target, and nothing for a blank or a new unparseable one |
| Discovery.CachedListsComeFromOneListing | internal/http/handlers/proxy.go:145-171 | in every run each cached list is non-empty and an ordered sublist of one earlier listing whose trimmed model lower-cases to the key, across any number of prunes by any number of threads |
| Discovery.StalenessIsBounded | internal/http/handlers/proxy.go:226-263 | if no resolve takes longer than P from read to write-back or return, a served target was listed by Postgres at most n(30 s + P) + P ago, n being the length of that listing |
| Discovery.StalenessBoundIsAttained | internal/http/handlers/proxy.go:228-234 | for every listing and every P some timely interleaving serves a target at exactly that age, so no smaller bound holds |
| Discovery.PruneKeepsOrigin | internal/http/handlers/proxy.go:230-232 | a prune shortens the list strictly, which pays for the renewed time to live |
| Discovery.EveryRunIsTimely | internal/http/handlers/proxy.go:214-264 | every interleaving meets the bound's assumption for some P |
| ProxyHandling.ProxyHandler.ProxyForTarget | internal/http/handlers/proxy.go:59-96 | the entry there is, or exactly one new entry forwarding to the trimmed target; none for a blank or unparseable target, and then nothing changes |
| ProxyHandling.ProxyHandler.StoreOrReuse | internal/http/handlers/proxy.go:89-95 | under the write lock an entry that has appeared meanwhile wins |
| ProxyHandling.ProxyHandler.FilterHealthyTargets | internal/http/handlers/proxy.go:145-155 | the answering targets in order; exactly the proxies of the others are evicted |
| ProxyHandling.ProxyHandler.SelectRoundRobinTarget | internal/http/handlers/proxy.go:191-212 | an index in range; the counter moves by one when there is a choice and Redis takes the increment; the clock decides otherwise |
| ProxyHandling.ProxyHandler.InvalidateModelCache | internal/http/handlers/proxy.go:105-113 | list and counter of the model go together, unless the call is refused |
| ProxyHandling.ProxyHandler.ResolveModelTarget | internal/http/handlers/proxy.go:214-264 | a blank model goes to the default target; otherwise the answer is among the cached targets whose probe answered, else among the listed ones, and there is an error exactly when there is neither: the one at the old counter mod their number with the counter one higher, at the clock's position when INCR is not answered, the only one with the counter as it was; cache, counters, clock and evicted proxies afterwards for every outcome of the calls; the call is a run of the Discovery machine that serves what is returned |
| ProxyHandling.AnswersAreBalanced | internal/http/handlers/proxy.go:191-204 | K such answers for one model over one list of n targets hand out each of them floor(K/n) or ceil(K/n) times |
| MigrationFiles.ParseUndoesPrint | internal/store/migrate.go:103-114 | parsing inverts zero-padded printing for every name, underscores included, and exactly the versions an int holds |
| MigrationFiles.ParseIs | internal/store/migrate.go:103-114 | the number, with at most one sign and within 64 bits, before the first underscore, and the rest; version -1 without an underscore or a number |
| MigrationFiles.SameWidthSortsByVersion | internal/store/migrate.go:34-41 | with prefixes of one width, string order of file names is non-decreasing in version |
| MigrationFiles.NamesSortByPrefix | internal/store/migrate.go:41 | names with different digit prefixes sort by the first differing digit, and a proper prefix sorts last, because the underscore sorts after the digits |
| MigrationFiles.SortedWronglyExactlyWhen | internal/store/migrate.go:41 | a name sorts before one of a smaller version if and only if its prefix has more significant digits, or the same number and the larger first difference, and yet the smaller digit first or the other prefix as a proper prefix |
| MigrationFiles.ExtendedPrefixSortsWrongly | internal/store/migrate.go:41 | appending digits to a prefix with a significant digit sorts the larger version first |
| MigrationFiles.MixedWidthsSortWrongly | internal/store/migrate.go:41 | an instance: version 10 sorts before version 2 |
| Checksums.SumOfConcat | internal/store/migrate.go:116-120 | H(a + b) = H(a)·31^len(b) + H(b) mod 2^32 for all byte strings |
| Checksums.OneMoreByte | internal/store/migrate.go:118-120 | one more byte multiplies the polynomial by 31 and adds the byte |
| Checksums.ChecksumDecodes | internal/store/migrate.go:116-122 | the text is eight hexadecimal digits that decode to the base-31 polynomial mod 2^32 |
| Checksums.ComputeChecksum | internal/store/migrate.go:116-122 | the 32-bit loop computes that text: eight hexadecimal digits of that value |
| Migrations.CommittedIsPrefix | internal/store/migrate.go:48-101 | with any number of runners, any call failing and alreadyApplied wrongly saying no, what is committed is a prefix of the first-file-per-version list, each script once and with its row |
| Migrations.SuccessAppliesEveryVersion | internal/store/migrate.go:48-94 | once a runner has succeeded, the scripts that took effect are, in order, those of exactly the files whose version no earlier file has, with rows of their versions and checksums; every file is applied if and only if versions are distinct |
| Migrations.SecondVersionTwoIsNeverApplied | internal/store/migrate.go:54-57 | of the three files 001_init, 002_jobs and 002_typed_statuses the third is never applied, in any run |
| Migrations.AppliedInVersionOrder | internal/store/migrate.go:41-48 | sorted names of one width are applied in strictly increasing order of version |
| Migrations.RoundIsRun | internal/store/migrate.go:48-91 | while no other runner is at work, the machine's steps for one file are the round of the loop that ApplyFile makes |
| Migrations.Pool.ApplyFile | internal/store/migrate.go:48-91 | against any prefix of files that earlier runs left, one round of the loop leaves a prefix and undoes nothing; success means the file's version is recorded; with every call answered only an invalid version stops it; database and result for every outcome of its five calls |
| Migrations.Pool.RunEmbeddedMigrations | internal/store/migrate.go:18-95 | against any state earlier runs left, nothing is undone; after success the scripts that took effect are exactly those of the first file of each version, in order, with their rows; without faults only a version that is not positive stops it |
| Kube.Client.DeployModel | internal/kube/vllm.go:20-137 | after success the Deployment and the Service of this namespace and name exist, with the requested URL and port where there was none; no object of another namespace or name changes; "" means "vllm"; and objects and result are those of the specified operation for every outcome of its calls |
| Kube.Client.DeleteModel | internal/kube/vllm.go:140-156 | after success neither object of this namespace and name exists; no other object changes; "" means "vllm"; and objects and result are those of the specified operation for every outcome of its calls |
| Kube.ServicesHaveDeployments | internal/kube/vllm.go:27-137 | over any sequential history of deploys and deletes of any names, each stopped by a failure at any call, a Service exists only where its Deployment does |
| Kube.OtherNamesAreUntouched | internal/kube/vllm.go:20-155 | over any sequential history, the objects of a namespace and name that no operation gives stay as they were |
| Kube.DeployRetriesConverge | internal/kube/vllm.go:20-137 | failed attempts, some with effect, followed by one success leave what one success from the start leaves |
| Kube.DeleteRetriesConverge | internal/kube/vllm.go:140-155 | the same for deletes |
| Kube.DeleteUndoesDeploy | internal/kube/vllm.go:140-155 | a successful delete after any deploy attempts of a new name restores the objects |
| Kube.DeployDoesNotUpdate | internal/kube/vllm.go:27-31 | a successful deploy serves the requested URL, or port, if and only if there was no such object or it already had it |
| Kube.AloneIsDone | internal/kube/vllm.go:20-156 | call by call, an undisturbed operation is the operation of the sequential histories |
| Kube.CallKeepsOrderExactlyWhen | internal/kube/vllm.go:104-153 | from a store in order, a single call leaves a Service without a Deployment if and only if it takes effect and creates a Service whose Deployment is missing or deletes a Deployment under its Service |
| Kube.ExclusionKeepsOrder | internal/kube/vllm.go:20-156 | when operations on one name exclude each other, calls of any number of operations interleaved in any way, failing or stopping anywhere, leave no Service without its Deployment at any moment |
| Kube.DeleteInsideDeployLeavesService | internal/kube/vllm.go:104-133 | from every store, when a delete runs between the halves of a deploy of the same name a Service without a Deployment is left although every call is answered |
| Base64.DecodeUndoesEncode | internal/crypto/aes.go:48-53 | decoding inverts encoding for every byte string |
| Base64.EncodeUndoesDecode | internal/crypto/aes.go:53 | encoding inverts decoding exactly for texts without newlines whose unused bits are zero |
| Base64.Alphabet | internal/crypto/aes.go:48 | the letter of each value is that of table 1 of RFC 4648 |
| Base64.TestVectors | internal/crypto/aes.go:48 | the test vectors of section 10 of RFC 4648 |
| Kubeconfig.DecryptUndoesEncrypt | internal/crypto/aes.go:40-70 | decrypting returns the plaintext for every byte string and nonce, also after the text was broken into lines |
| Kubeconfig.CiphertextsDiffer | internal/crypto/aes.go:38-49 | two stored texts are equal if and only if nonce and plaintext are |
| Kubeconfig.NoMatchNoChange | internal/worker/server.go:155-157 | a text without a match is stored as it is |
| Kubeconfig.MatchesAre | internal/worker/server.go:155 | a match is "server: https://", anything without a newline, and ":16443" |
| Kubeconfig.FirstMatchIsReplaced | internal/worker/server.go:155-157 | the leftmost-longest match is replaced by "server: https://", the public address and ":16443", and rewriting goes on behind it |
| Kubeconfig.EveryMatchNamesTheAddress | internal/worker/server.go:155-157 | after the rewrite every match is "server: https://", the address and ":16443" |
| Kubeconfig.RewriteIsIdempotent | internal/worker/server.go:155-157 | rewriting again to the same address changes nothing |
| Kubeconfig.LoadUndoesStored | internal/worker/server.go:184-189 | what a later task reads is the fetched file with its server address replaced, with and without a cipher |
| Kubeconfig.StoredNamesAddress | internal/worker/server.go:155-189 | what a later task reads is the fetched file with the address between "server: https://" and ":16443" in its server line, and every other byte as it was |
| Store.ListedUrls | internal/store/postgres.go:285-296 | a listing names exactly the non-empty URLs of active deployments of exactly this model on active clusters |
| Store.ListedLatestFirst | internal/store/postgres.go:285-296 | each row is listed once, the latest update first |
| Store.PostgresStore.ListActiveDeploymentTargets | internal/store/postgres.go:285-318 | the loop returns a listing in the query's order, and none exactly when the query, a row or the end of the rows fails |
| Store.PostgresStore.CreateCluster | internal/store/postgres.go:95-105 | the row is there afterwards unless a constraint or a fault prevents it; success is reported only for an effect |
| Store.KubeconfigAndAddressChangeTogether | internal/store/postgres.go:178-196 | no statement, however it ends, leaves one of kubeconfig and address old and the other new; only statements on that cluster change them |
| Store.ClusterUpdateTouchesOneRow | internal/store/postgres.go:172-196 | the three cluster UPDATEs change no other row, no other table, and neither the organization nor the name of the row |
| Store.DeploymentUpdateTouchesOneRow | internal/store/postgres.go:259-273 | the two deployment UPDATEs change no other row, no other table, and neither cluster, model, namespace nor node port of the row |
| Store.CascadeSpares | internal/store/postgres.go:275-283 | rows of other clusters and deleted and failed rows stay; every other row takes the status and keeps all else but its update time |
| Store.OrphanedAreNotListed | internal/store/postgres.go:275-296 | once the deployments of a cluster are orphaned, the listed URLs are exactly those of targets on other clusters |
| Store.JobUpdateTouchesOneRow | internal/store/postgres.go:420-430 | the job UPDATE changes no other row, no other table, and neither kind, cluster nor deployment of the row |
| Jobs.RowRecordsItsUpdates | internal/store/postgres.go:420-430 | the row after any number of updates, read off the list of updates: the first start, the last completion or failure, the last time, status and error |
| Jobs.JobRowInvariant | internal/worker/server.go:101-111 | with a clock that does not go back: terminal implies completed = updated and no earlier than started, running implies started, an error implies failed |
| Jobs.StartIsKept | internal/store/postgres.go:424 | the start time never changes once it is set |
| Jobs.CompletionTimeOutlivesAttempt | internal/store/postgres.go:424-425 | a row not in a terminal state has a completion time if and only if its last update is a start and an earlier one completed or failed the job |
| Jobs.RetriedJobKeepsCompletionTime | internal/store/postgres.go:425 | an instance: a retried job runs with the completion time of the failed attempt |
| LifecycleSafety.OneRowAndOneTaskPerStack | internal/http/handlers/provision.go:71-139 | in every reachable state: at most one organization, one cluster row per stack name, and one held provision task per stack name, whose cluster id is that row's |
| LifecycleSafety.FirstOrgOnly | internal/store/migrations/001_init.sql:1-5 | an organization can be inserted only while there is none, because all are named alike |
| LifecycleSafety.NewNameOnly | internal/store/migrations/001_init.sql:7-18 | a cluster can be inserted only under a new name, because all belong to one organization |
| LifecycleSafety.InsertKeepsFit | internal/http/handlers/provision.go:215-227 | the row a handler goes on with exists, whether it was inserted or found after a lost race |
| LifecycleCoupling.ClusterRowsComeFromOneRun | internal/worker/server.go:155-189 | in every reachable state an active cluster's kubeconfig and address come from one provision run of that cluster, and the kubeconfig reads back as that run's rewritten file; provisioning and destroyed rows have neither; no row has one without the other |
| LifecycleCoupling.ActiveDeploymentsHaveUrls | internal/worker/server.go:220-288 | in every reachable state an active deployment has the URL of its own node port at an address that some provision run of its own cluster brought, or at none if the cluster's was cleared |
| LifecycleCoupling.StatementKeepsPairs | internal/store/postgres.go:172-196 | the four cluster statements keep kubeconfig and address whole or cleared |
| LifecycleReports.CompletedJobsAreCommitted | internal/worker/server.go:170-176 | in every reachable state an attempt of the completed job itself has committed the job's final write: its cluster active with a kubeconfig and address that this job's own run brought, its deployment active with a URL at its cluster, or its cluster destroyed and cleared; across retries and failures of any call |
| LifecycleReports.FinalWriteIsLogged | internal/worker/server.go:288-294 | the write whose success leads to the report has taken effect, as a write of this attempt's job |
| LifecycleReports.DeletesHaveNoRow | internal/http/handlers/deploy.go:197-221 | in every reachable state the job id drawn for a delete request has no job row |
| Tracking.Client.Enqueue | internal/worker/client.go:35-85 | a task is held under its ID unless the ID is held already or the call is refused |
| Handlers.RequestHandler.EnsureDefaultOrganization | internal/http/handlers/provision.go:208-228 | what is returned is an organization named "default" that exists; there is one whenever the lookup and the insert are answered |
| Handlers.RequestHandler.ReserveStack | internal/http/handlers/provision.go:71-104 | a row of that name, new or found destroyed or failed, waits cleared for a provision task; a stack in use is left alone |
| Handlers.RequestHandler.HandleProvision | internal/http/handlers/provision.go:47-147 | the call is a run of one process of the machine; accepted means the row is reset with the requested region and its task held under its ID; accepted whenever the calls are answered and the stack is free; after an accepted request the job has a row exactly when its INSERT was not refused |
| Handlers.RequestHandler.HandleDestroy | internal/http/handlers/provision.go:153-206 | the call is a run of one process; refused only for destroyed, provisioning and installing rows, accepted when the calls are answered and no destroy of the stack is held; no cluster row changes; after an accepted request the job has a row exactly when a cluster was found and the INSERT was not refused |
| Handlers.ResolveClusterId | internal/http/handlers/deploy.go:132-163 | the named cluster if it is active, otherwise the first active one of the list, and none only if there is none or a call fails |
| Handlers.RequestHandler.PostDeploy | internal/http/handlers/deploy.go:48-129 | the call is a run of one process; accepted means a pending row on the active cluster that is named, or else the first active one, and a held task with the same values: the requested port or 30000, the requested namespace or "default", and the requested name with each underscore a dash and each ASCII capital its small letter, or "vllm"; accepted whenever the calls are answered and there is a cluster to deploy to; after an accepted request the job has a row exactly when its INSERT was not refused |
| Handlers.RequestHandler.HandleDeleteDeployment | internal/http/handlers/deploy.go:174-222 | the call is a run of one process; no table changes, and the returned job id has no row; refused exactly for deleted, deleting and orphaned rows |
| WorkerServer.WaitForHealth | internal/worker/server.go:262-279 | healthy, cancelled or timed out exactly according to what comes first within 90 dials; timed out only after 90 dials and 900 s |
| WorkerServer.FetchKubeconfigWithRetry | internal/worker/server.go:345-361 | what the first successful of 30 tries brings, and nothing exactly when all fail |
| WorkerServer.Server.HandleDeployModelTask | internal/worker/server.go:191-299 | an attempt of a held task is a run of one process of the lifecycle machine, and removes the task exactly when it succeeds; with reliable writes exactly success, active at "http://", the cluster's address and the node port, job completed, or error, failed, job failed with the error's text, its start and end recorded; succeeds if and only if every outside call does; at most 90 dials and 1120 s, below the task timeout |
| WorkerServer.Server.ApplyAndWait | internal/kube/client.go:43 | four Kubernetes calls of at most 10 s and 90 dials of at most 2 s with pauses of 10 s |
| WorkerServer.Server.HandleDeleteModelTask | internal/worker/server.go:363-423 | an attempt of a held task is a run of one process; with reliable writes exactly deleted and completed, or job failed with the deployment failed, or left deleting when the cluster cannot be read |
| WorkerServer.Server.HandleProvisionClusterTask | internal/worker/server.go:123-180 | an attempt of a held task is a run of one process; with reliable writes exactly active with this run's address and this run's file, which reads back with the address in its server line, and completed, or failed and failed; succeeds if and only if every outside call does |
| WorkerServer.Server.HandleDestroyClusterTask | internal/worker/server.go:301-343 | an attempt of a held task is a run of one process; with reliable writes exactly destroyed, cleared, no deployment left running and completed, or failed and failed; without a cluster id only the job is touched |
| Coherence.CachedTargetsAreActive | internal/http/handlers/deploy.go:61-66 | with handlers one at a time, not during a resolve, writes and deletions of keys succeeding, no crash and no destroy task: every cached target, and every target a resolver is about to hand out, is in the current listing of the model's lower-case name |
| Coherence.ListedIsCovered | internal/store/postgres.go:285-296 | the query matches exactly, but stored names are lower case, so what it finds belongs to the lower-case name |
| Coherence.GentleKeepsTarget | internal/worker/server.go:381-384 | a statement takes targets only from the model of the attempt that makes it |
| ModelNames.MixedCaseIsNeverListed | internal/http/handlers/deploy.go:61-66 | in every run of the lifecycle machine, whatever interleaves, fails or crashes, a listing for a name with an upper-case letter is empty |
| ModelNames.ListingsAgreeExactlyWhen | internal/store/postgres.go:285-296 | in every run the listings of a name and of its lower-case form, whose cache entry they share, name the same URLs if and only if the name is lower case or its lower-case form has no targets |
| ModelNames.MixedCaseIsOnlyCached | internal/http/handlers/proxy.go:226-254 | for every cache and every run: a request for a name with an upper-case letter goes on with exactly the live entry of the lower-case form, and ends unanswered whenever it comes to ask the store |
| CoherenceLimits.EveryConditionIsNeeded | internal/http/handlers/proxy.go:256-262 | for each of the six conditions a run that keeps the other five and ends, nothing at work, with a live cache entry for a target that no listing of its model has |
| CoherenceLimits.MixedCaseLivesOnTheEntry | internal/http/handlers/proxy.go:226-254 | a run, with all conditions kept, that serves such a name from the lower-case entry and, once that has expired, leaves a request for it unanswered although the lower-case form is listed |

## Left out

- Asynq: scheduling, queue weights, retry counts and archiving; a held task may be attempted any number of times, also by several workers at once, until it succeeds or is released.
- Postgres, Redis, Kubernetes, Pulumi, SSH and TCP themselves: abstract states or outcomes that a call may bring, and any of them may fail.
- AES-GCM: taken to open what it seals with the same nonce; nothing else about it is used.
- Text.ToLower: maps ASCII letters only; Go also maps other letters.
- Text.KeysAgreeUpToCase: states difference in case of ASCII letters only, because that is what `Text.ToLower` maps.
- Kubeconfig.EveryMatchNamesTheAddress: the address contains neither a newline nor `$`, which Go's replacement template would expand; IP addresses do not.
- Migrations: reading the embedded directory and sorting it; the sorted file list is given, and the order results say what they assume of it.
- Store: the order of listed rows with equal update times, `created_at` and `updated_at` of clusters, replicas and model URLs of rows, and the payload column of jobs.
- Lifecycle: ids in task payloads that are not UUIDs (no handler enqueues them; an attempt of such a task is modelled in WorkerServer, outside the machine); writes that fail because the task's context has ended are ordinary failed calls.
- LifecycleReports.CompletedJobsAreCommitted: delete tasks never have a job row, so nothing is stated of them.
- Coherence: the deletions from Redis inside one attempt, which no resolve can see apart, are taken together at the attempt's end, where `WorkerServer.Server.HandleDeployModelTask` and `WorkerServer.Server.HandleDeleteModelTask` prove the keys gone when those calls are answered.
- RoundRobin.SelectionIsFair: assumes that the counter is not reset within the window, as a cache invalidation would do.
- WorkerServer.Server.HandleDeployModelTask: the time of store and Redis calls is not counted; parsing of the payload is not modelled.
- HTTP routing, JSON binding, validation, configuration, readiness checks, shutdown and error response texts: they touch neither the tables nor the queue nor the cache; the handlers are modelled from the parsed request on.
- `httputil.ReverseProxy`: an object with an identity and a target; streaming is not modelled.
- Manifest contents (images, resources, labels): only the model URL and the node port of an object are kept.
- Listing handlers, job status queries and `GetTaskInfo`: they return rows as they are stored and change nothing, so no invariant depends on them.
