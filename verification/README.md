# Verification of the Kinesis event source

A Dafny model of the Kinesis event source for Knative, with proofs. The source has a controller, which keeps one receive
adapter deployment per `KinesisSource`, and an adapter process, which forwards the records of a stream to a sink.
`dafny verify dfyconfig.toml` checks everything.

| file | what it models |
|---|---|
| `Basics.dfy`, `StringSets.dfy` | option and result types; sorted string sets (`sets.String`) |
| `DeepValue.dfy` | the derivative order and the semantic equality of `equality.Semantic`, over a tree of values |
| `Kubernetes.dfy` | deployments and pod specs, their value trees, and what a server that fills in fields may store |
| `KinesisTypes.dfy` | the source's spec and status, the condition machine, and histories of status calls |
| `ReceiveAdapter.dfy` | generation of the deployment, decoding by the adapter binary, change detection |
| `Adapter.dfy` | the adapter process: environment, start, record processor |
| `Reconciler.dfy` | the API client and the controller, as objects and as one function of state and choices |
| `ReconcileLaws.dfy` | what one reconcile achieves |
| `ReconcileRuns.dfy` | runs of many sources among everything else that happens, and at most one adapter for each |
| `BoundedWrites.dfy` | how often the controller writes in a run |
| `RunLaws.dfy` | isolation, the meaning of Ready, stability and finalizers over runs |
| `Delivery.dfy` | runs of shards: delivery, checkpoints, crashes |
| `InformerFactory.dfy` | the shared informer registry and its threads |
| `DeepCopy.dfy` | deep copies, on the heap |

Classes and methods follow the source where it changes state in place (`KinesisSourceStatus`, `SourceObject`,
`Reconciler`, `Client`, `Adapter`, `RecordProcessor`, `SharedInformerFactory`, the deep copies). Each method is proved
equal to a function of the old state, and the theorems are about these functions and about runs of them.

## Environment

Everything outside the code is a parameter that may take any value, so a theorem holds for every behaviour of it that its
preconditions admit.

- Each list, create and update call of a reconcile succeeds, fails, or takes effect and still reports an error
  (`Choices`); between the list and the write, others may do anything to the deployments.
- The server may fill in fields that a pod spec does not set, plain booleans that are false among them, but leaves Env and the
  number of containers alone (`ServerFills`). A write to a deployment that is no longer as it was listed is refused. Listings
  show the current state, in any order.
- Other parties may do anything to the deployments, also between the listing and the write of a reconcile. Where a theorem on
  runs restricts them, that is a predicate of its own: nobody else gives the source a deployment (`GiftFree`), takes one away
  (`NoTakeover`), or touches the one in question (`Spares`); and in an `Honest` environment nobody relabels, moves or hands
  over the deployments that the source controls, and no list call for it fails with NotFound.
- Sink resolution yields an error or the URI that the sink has at that time.
- A post fails, succeeds, or succeeds and reports an error; a checkpoint write may be lost without notice. The worker library
  keeps the checkpoint in memory too, and writes it again when it renews or takes the lease; a worker may stop without a call
  to the processor, and the process may crash at any step. A shard has one lease holder at a time, in one process. It starts
  at the stored checkpoint, or else at the one in memory, or else at the tip.

## Findings

Where the code does not do what its design suggests, the code is kept and the exact condition is proved.

- A source can get a second adapter from the controller. A list call that fails with NotFound is taken for an empty listing;
  an adapter whose labels or namespace somebody changed is not found again, although the source controls it; and one that
  somebody adds after the listing is not noticed. `ReconcileLaws.DuplicateIff` shows that there is no other cause, and
  `ReconcileLaws.AdapterCanBeDoubled` that each can happen to every accepted source. Over runs,
  `ReconcileRuns.OneAdapterIff` gives the exact condition.
- There are two write loops. The change detection ignores unset strings, pointers, slices and maps, but no boolean or integer:
  false is not "unset". If the server, or a webhook, stores as true a plain boolean that the controller leaves false
  (`readOnly` of the mount, `hostNetwork`, `stdin`, `tty` and the like), every reconcile writes the adapter again, without
  end (`BoundedWrites.MisstoredLoop`). And if list calls keep failing with NotFound, every reconcile creates one more adapter
  (`BoundedWrites.NotFoundLoop`). `BoundedWrites.NoLoopIff` shows that there is no other loop. For one write and one
  reconcile, `ChangeDetection.StoredUnchangedIff` and `ReconcileLaws.SettledAfter` give the exact condition.
- A change may cost more than one write, when several adapters can be found: after somebody relabelled one and labelled it back,
  for example, each edit of the spec is written to all of them. `BoundedWrites.WritesBounded` is the bound for all runs; one
  write for each change holds in `Honest` environments (`BoundedWrites.HonestWritesBounded`).
- With duplicates, a second reconcile may write again, because another order of the listing brings up another one:
  `ReconcileLaws.FixpointIff` and `ReconcileLaws.QuietIffSettled` give the exact condition.
- Plain at-least-once delivery is false. A failed post is skipped by the next success, or by the end of the shard
  (`Delivery.FailedPostIsSkipped`, `Delivery.FailedPostAtShardEnd`), and before the first checkpoint a restart begins at the
  tip (`Delivery.RestartAtTipSkips`). If the write of a later checkpoint failed, the renewal of the lease can skip it as well
  (`Delivery.RenewalLoses`). `Delivery.GaplessIff` gives the exact condition for what the checkpoint accounts for:
  no step moves the checkpoint over a record that its worker was handed and that never reached the sink.
  `Delivery.LostIff` gives it for every record in every reachable state, accounted for or not: a record is lost for good
  exactly when it has not arrived and both the worker and the place where the next one would start are past it. Note that
  a failed post must be followed by a restart before the end of the shard as well.
- `Deployed` is never taken back, so `Ready` stays True while later reconciles fail to update the adapter or find the
  credentials gone: `ReadyMeaning.DeployedSticks` and `ReadyMeaning.ReadyExactly`. A `Ready` that became False outlives
  its cause: `StatusHistory.ReadyFalseIff` says exactly how long, and `StatusHistory.FalseReadySticks` what that means for a
  sink that was missing and is found again.
- The controller accepts sources whose adapter cannot start: `EncodeDecode.AcceptanceVersusStart`.
- The event id is formatted from a pointer (`pkg/adapter/adapter.go:235`), so it is an address and not a sequence number, and
  does not support the uniqueness that CloudEvents asks of ids (CloudEvents v0.2, Context Attributes, id). Nothing is
  proved about it.

## Model

| member | source | states |
|---|---|---|
| `Delivery.Conservation` | pkg/adapter/adapter.go:193-215 | in every run, each record after the start of the worker whose checkpoint was the first to be stored and up to the stored one was attempted, and it did not arrive if and only if every batch with it was rejected |
| `Delivery.AtLeastOnce` | pkg/adapter/adapter.go:205-214 | if every failed post is followed by a restart before the next batch and before the end of the shard, everything the checkpoint accounts for arrived, even if checkpoint writes were lost, or made again with the lease |
| `Delivery.GaplessIff` | pkg/adapter/adapter.go:205-214 | after any run nothing that the checkpoint accounts for is missing, if and only if no step moved the checkpoint over a record that its worker was handed before and that never reached the sink; a renewal counts up to the checkpoint it writes |
| `Delivery.LosesIff` | pkg/adapter/adapter.go:205-226 | from a state where nothing is missing, exactly such a step leads to one where something is |
| `Delivery.LossIsPermanent` | pkg/adapter/adapter.go:205-226 | what is missing stays missing over every further run |
| `Delivery.LostIff` | pkg/adapter/adapter.go:139-215 | in every reachable state, with or without a checkpoint: a record never arrives in any continuation if and only if it has not arrived, the worker is past it, and so is the position where the next worker would start |
| `Delivery.NeverAttemptedIff` | pkg/adapter/adapter.go:139-215 | the same for records that are never attempted |
| `Delivery.StartSkipsIff` | pkg/adapter/adapter.go:139-140 | a start without a checkpoint, stored or in memory, skips for good exactly the records in the shard that were not attempted, and loses exactly those that have not arrived |
| `Delivery.PassedForever` | pkg/adapter/adapter.go:193-227 | a record behind both the worker and the restart position is never attempted again, over any run |
| `Delivery.FailedPostIsSkipped` | pkg/adapter/adapter.go:205-214 | a run in which the checkpoint moves past a batch whose post failed |
| `Delivery.FailedPostAtShardEnd` | pkg/adapter/adapter.go:217-227 | a run in which the end of the shard is checkpointed although its last batch failed |
| `Delivery.RestartAtTipSkips` | pkg/adapter/adapter.go:139-140 | a run in which a crash before the first checkpoint leaves a record that is attempted in no continuation |
| `Delivery.RenewalLoses` | vendor/github.com/vmware/vmware-go-kcl/clientlibrary/worker/checkpointer.go:98-172 | a run after which the renewal of the lease moves the checkpoint past a batch whose post failed |
| `Delivery.CheckpointStep` | pkg/adapter/adapter.go:211-226 | a stored checkpoint moves strictly forward; one that the processor sets is the last record of a batch accepted in the same call, and one that the library writes again is the last record of a batch accepted before; the end mark is only written at the end of a closed shard |
| `Delivery.CheckpointsAdvance` | pkg/adapter/adapter.go:211-226 | over any run a stored checkpoint never moves back |
| `Delivery.FinalKeeps` | pkg/adapter/adapter.go:193-227 | every run keeps the accounting of attempts, arrivals, checkpoint and worker position |
| `Delivery.PositionAfterRecord` | pkg/adapter/adapter.go:212-214 | a stored sequence number identifies the position just after its record |
| `Delivery.DeliveredIffCarried` | pkg/adapter/adapter.go:229-252 | a record arrived exactly when an attempt that contained it reached the sink |
| `Shards.ShardsIndependent` | pkg/adapter/adapter.go:177-227 | in any interleaving over many shards, each shard ends where its own steps alone take it |
| `Adapter.RecordProcessor.ProcessRecords` | pkg/adapter/adapter.go:193-215 | an empty batch does nothing; another is posted once, and if the post reported success its last sequence number becomes the checkpoint, in memory always and in the lease table if the write landed |
| `Adapter.RecordProcessor.Shutdown` | pkg/adapter/adapter.go:217-227 | the end of the shard is checkpointed on termination and for no other reason |
| `Adapter.RecordProcessorFactory.CreateProcessor` | pkg/adapter/adapter.go:179-181 | each processor is new and shares the one adapter |
| `Adapter.Adapter.PostMessage` | pkg/adapter/adapter.go:229-252 | one event with the whole batch is sent to the configured sink, and an error is reported unless it was accepted |
| `Adapter.Adapter.InitClient` | pkg/adapter/adapter.go:87-96 | the client is created once, for the configured sink, and kept afterwards |
| `Adapter.Adapter.Start` | pkg/adapter/adapter.go:99-164 | a client that it creates sends to the configured sink; the file wins over the role, neither is an error; and only a start that gets as far as the stream sets the stream ARN that the callbacks need |
| `Adapter.Construct` | cmd/receive_adapter/main.go:53-87 | the adapter is built exactly when the four required variables are defined, each field from its own variable, and otherwise a variable that is missing is reported |
| `EncodeDecode.EnvironLookup` | cmd/receive_adapter/main.go:53-67 | looking up a name in an environment with distinct names finds its entry and nothing else |
| `EncodeDecode.RoundTrip` | pkg/reconciler/resources/receive_adapter.go:51-166 | the binary finds every required variable in a generated environment and rebuilds stream, region, sink URI, name and credentials of the source exactly, for all strings |
| `EncodeDecode.EndToEndCredentials` | pkg/adapter/adapter.go:111-127 | the running adapter uses the file if and only if secret name and key are set, assumes the role if and only if they are not both set and there is an ARN, and has no credentials otherwise |
| `EncodeDecode.AcceptanceVersusStart` | pkg/reconciler/kinesissource.go:149-152 | every source whose adapter can start is accepted, and exactly which others are |
| `GeneratedDeployment.CredentialsAreMounted` | pkg/reconciler/resources/receive_adapter.go:53-117 | the decoded adapter uses a credentials file exactly when the pod mounts the secret of the source at the path that it decoded, and otherwise nothing is mounted |
| `GeneratedDeployment.RoleIsRequested` | pkg/reconciler/resources/receive_adapter.go:119-130 | the pod asks for the assigned role exactly when its adapter does not use a credentials file |
| `ReconcileLaws.AdapterSelectsItsPod` | pkg/reconciler/resources/receive_adapter.go:40-75 | a deployment selects the pods generated for a source if and only if that has the same name, and runs one |
| `ChangeDetection.PodSpecChanged` | pkg/reconciler/kinesissource.go:186-199 | the loop reports no change exactly when the stored spec derives from the new one, with equally many containers and equal Env in each |
| `ChangeDetection.EnvInjective` | pkg/reconciler/resources/receive_adapter.go:75-159 | two generated environments are equal exactly when the same credentials, stream, region, sink and name went in |
| `ChangeDetection.UnchangedOnGenerated` | pkg/reconciler/kinesissource.go:186-199 | between generated specs, no change means equal Env, equal secret, and an image and a service account that are empty or equal |
| `ChangeDetection.UnchangedMeansSameAdapter` | pkg/reconciler/kinesissource.go:186-199 | no change between generated specs means the same decoded adapter and the same credential mode |
| `ChangeDetection.UnchangedRunsAsIntended` | pkg/reconciler/kinesissource.go:186-199 | any stored spec that counts as unchanged runs for the source: one container of the right name, image, service account and variables in order, whose binary decodes the configuration of the source and finds its credentials file |
| `ChangeDetection.OrderMissesRemovedVariables` | pkg/reconciler/kinesissource.go:190-197 | for every stored spec the derivative order alone would miss removed variables, which the Env comparison catches |
| `ChangeDetection.OrderMissesClearedVariable` | pkg/reconciler/kinesissource.go:190-197 | likewise for a variable whose value was cleared |
| `ChangeDetection.OrderMissesExtraContainers` | pkg/reconciler/kinesissource.go:190-192 | and for containers that the new spec does not have, which their number catches |
| `ChangeDetection.UnchangedPreorder` | pkg/reconciler/kinesissource.go:186-199 | no change is reflexive and transitive on arbitrary specs, and antisymmetric up to nil against empty |
| `ChangeDetection.StoredUnchangedIff` | pkg/reconciler/kinesissource.go:186-199 | what a filling server stores for any spec counts as unchanged if and only if it stores all flags as sent |
| `ChangeDetection.StoredRunsAsIntended` | pkg/reconciler/kinesissource.go:161-184 | and so does whatever a filling server stores for a generated spec |
| `ChangeDetection.UnchangedIffNoFlag` | pkg/reconciler/kinesissource.go:186-199 | what it stores for a generated spec counts as unchanged if and only if no flag of the pod, its container or the mount is set |
| `ChangeDetection.FlagCountsAsChange` | pkg/reconciler/kinesissource.go:187-189 | for every generated spec there is a value that a filling server may store and that counts as changed |
| `DeepValue.DerivesReflexive` | vendor/k8s.io/apimachinery/third_party/forked/golang/reflect/deep_equal.go:246-371 | every value derives from itself |
| `DeepValue.DerivesTransitive` | vendor/k8s.io/apimachinery/third_party/forked/golang/reflect/deep_equal.go:246-371 | the derivative order is transitive |
| `DeepValue.DerivesBothWays` | vendor/k8s.io/apimachinery/third_party/forked/golang/reflect/deep_equal.go:103-371 | two values derive from each other exactly when they are semantically equal |
| `DeepValue.IgnoredIffUnset` | vendor/k8s.io/apimachinery/third_party/forked/golang/reflect/deep_equal.go:246-371 | a value is ignored, whatever it is compared with, exactly if it is an empty string, a nil pointer, a nil or empty slice or map, or a struct of such fields |
| `Kubernetes.PodDerives` | vendor/k8s.io/apimachinery/third_party/forked/golang/reflect/deep_equal.go:246-371 | the derivative order on pod specs, field by field: what is unset is ignored, and every flag is compared |
| `StringSets.SortedListingUnique` | pkg/reconciler/kinesissource.go:232-242 | a set of names has one sorted listing |
| `StringSets.LessMeans` | pkg/reconciler/kinesissource.go:232-242 | the order is ascending: a proper prefix comes first, and otherwise the first difference decides |
| `ReconcileLaws.FinalizersCanonical` | pkg/reconciler/kinesissource.go:232-242 | adding and removing give the one sorted, duplicate-free sequence of the old set with and without the controller's name |
| `ReconcileLaws.FinalizerLaws` | pkg/reconciler/kinesissource.go:232-242 | adding and removing are idempotent and each overrides the other |
| `Reconciler.Reconciler.AddFinalizer` | pkg/reconciler/kinesissource.go:232-236 | the finalizers become the sorted old set with the controller's name |
| `Reconciler.Reconciler.RemoveFinalizer` | pkg/reconciler/kinesissource.go:238-242 | the finalizers become the sorted old set without the controller's name |
| `Reconciler.Reconciler.GetReceiveAdapter` | pkg/reconciler/kinesissource.go:201-226 | the loop returns the first listed deployment that the source controls, NotFound if there is none, and a list error as it is |
| `Reconciler.Reconciler.CreateReceiveAdapter` | pkg/reconciler/kinesissource.go:142-184 | deployments and error are those of the function `CreateAdapter` of the old state |
| `Reconciler.Reconciler.Reconcile` | pkg/reconciler/kinesissource.go:94-140 | source, deployments and error are those of the function `ReconcileSource` of the old state; an object of another type changes nothing |
| `ReconcileLaws.FindComplete` | pkg/reconciler/kinesissource.go:201-226 | the lookup finds an adapter exactly when there is one with the source's namespace, labels and UID, whatever the order |
| `ReconcileLaws.FindFirst` | pkg/reconciler/kinesissource.go:221-225 | it is the first of these in the order of the listing |
| `ReconcileLaws.SelectedLabels` | pkg/reconciler/kinesissource.go:228-249 | the lookup selects the namespace of the source and two labels, with the name of the controller and of the source |
| `ReconcileLaws.WrittenIsFound` | pkg/reconciler/kinesissource.go:201-249 | whatever a reconcile wrote, reported as an error or not, every later listing finds for this source, whatever has become of its spec and status |
| `ReconcileLaws.CreatedIsAdapter` | pkg/reconciler/resources/receive_adapter.go:40-166 | what a reconcile creates in the cluster has the namespace, generated name, owner and labels of the source, selects its one replica, has the annotations of the kind of credentials that its binary decodes, and runs for the source |
| `ReconcileLaws.WrittenRuns` | pkg/reconciler/kinesissource.go:161-181 | after every write that took effect the deployment written runs for the source; what was there before keeps everything but its pod spec |
| `ReconcileLaws.CallsExactly` | pkg/reconciler/kinesissource.go:94-184 | exactly when a reconcile makes a write call, and when that takes effect |
| `ReconcileLaws.ErrorsExactly` | pkg/reconciler/kinesissource.go:94-184 | exactly when a reconcile reports an error, and which: after a write call it does unless the server accepted it, also if the write took effect |
| `ReconcileLaws.AdapterEffect` | pkg/reconciler/kinesissource.go:142-184 | creating the adapter does nothing or one write, which touches one deployment that the source controls; after a list call that succeeded it is only attempted in a cluster that was not settled |
| `ReconcileLaws.ReconcileEffect` | pkg/reconciler/kinesissource.go:94-184 | the same for a whole reconcile, which writes only for a source that is not deleted, has a sink and has credentials; after a NotFound a settled cluster is written as well |
| `ReconcileLaws.Converges` | pkg/reconciler/kinesissource.go:94-199 | from any cluster and status, one fault-free reconcile gives Ready True and an adapter in the cluster that runs for the source; it derives from the expected spec if and only if it was not written just now or the flags were stored as sent |
| `ReconcileLaws.ConvergesTo` | pkg/reconciler/kinesissource.go:94-199 | the same, with the exact source that the reconcile leaves: only its finalizers and its status have changed |
| `ReconcileLaws.SettledAfter` | pkg/reconciler/kinesissource.go:142-199 | from any cluster, a fault-free reconcile leaves a settled one if and only if what it wrote was stored with the flags as sent and all other adapters that can be found were up to date |
| `ReconcileLaws.FixpointIff` | pkg/reconciler/kinesissource.go:94-199 | exactly then a second reconcile changes nothing, the source included, in whatever order the adapters are listed |
| `ReconcileLaws.SecondReconcile` | pkg/reconciler/kinesissource.go:94-199 | the corollary for a source that controls one deployment at most: a second reconcile makes a write call if and only if the first one wrote and a flag was stored other than sent |
| `ReconcileLaws.QuietIffSettled` | pkg/reconciler/kinesissource.go:161-199 | no order of the listing leads to a write call exactly when an adapter exists and all that can be found are up to date |
| `ReconcileLaws.DuplicateIff` | pkg/reconciler/kinesissource.go:142-226 | whatever others do between the listing and the write, a reconcile breaks "at most one adapter" exactly when one exists at the write, the list call failed with NotFound or listed none that the source controls, and the create takes effect |
| `ReconcileLaws.AdapterCanBeDoubled` | pkg/reconciler/kinesissource.go:143-180 | each cause can double the adapter of every source that gets that far: a NotFound, an adapter without its labels, and one that was added after the listing |
| `ReconcileRuns.OneAdapterIff` | pkg/reconciler/kinesissource.go:142-249 | as long as nobody else gives the source a deployment, it controls one at most at every point of a run if and only if no reconcile of the run doubles it; relabelling and NotFound included |
| `ReconcileRuns.DoublesIff` | pkg/reconciler/kinesissource.go:142-249 | from one deployment at most, exactly such a step leads to more |
| `ReconcileRuns.OneAdapterAlways` | pkg/reconciler/kinesissource.go:142-249 | the corollary for honest environments, where the source can also find the deployment that it controls |
| `ReconcileRuns.SourceKept` | pkg/reconciler/kinesissource.go:94-140 | a reconcile changes finalizers and status only, and nothing but the finalizers of a deleted source |
| `BoundedWrites.StepBudget` | pkg/reconciler/kinesissource.go:142-199 | in every world, and whatever happens in the step, an effective write uses up one that was outstanding, unless it was misstored or blind, and only a change makes others outstanding, within its cost |
| `BoundedWrites.WritesBounded` | pkg/reconciler/kinesissource.go:142-199 | in all runs the writes for a source that took effect, reported or not, number at most those outstanding at the start, plus what the changes cost, plus the writes whose flags were stored other than sent, plus the creates made although an adapter could be found |
| `BoundedWrites.HonestWritesBounded` | pkg/reconciler/kinesissource.go:142-199 | the corollary for honest environments: at most one, plus the changes that concern the source, plus the misstored writes |
| `BoundedWrites.MisstoredLoop` | pkg/reconciler/kinesissource.go:161-173 | with a server that keeps storing a flag other than sent there are runs of any length, from any cluster that is not settled, in which each reconcile writes, no call fails and nothing changes |
| `BoundedWrites.NotFoundLoop` | pkg/reconciler/kinesissource.go:143-180 | with list calls that fail with NotFound there are such runs from any cluster, whatever the server stores |
| `BoundedWrites.NoLoopIff` | pkg/reconciler/kinesissource.go:142-199 | reconciles alone, without a change that costs something, write a bounded number of times in all runs if and only if no list call fails with NotFound, and the flags are stored as sent or the cluster is settled to begin with; the bound is the number of writes outstanding at the start |
| `BoundedWrites.StaysSettled` | pkg/reconciler/kinesissource.go:142-199 | a settled cluster stays settled without a write, over any run without a change that costs something and without a NotFound |
| `Stability.StaysConverged` | pkg/reconciler/kinesissource.go:94-199 | after one fault-free reconcile that leaves a settled cluster, any such run, whatever else fails in it, leaves it settled and the source deployed; it is ready unless its sink could not be resolved last |
| `Isolation.StepKeepsDeployment` | pkg/reconciler/kinesissource.go:161-173 | one step keeps everything about a deployment but its pod spec, and that too unless its own controller is reconciled |
| `Isolation.DeploymentsIsolated` | pkg/reconciler/kinesissource.go:161-226 | over any interleaving for many sources, also with sources deleted and created again, a deployment keeps its labels, owner, selector and template metadata, and changes only when a source with its controller's UID is reconciled |
| `ReadyMeaning.StatusAfterReconcile` | pkg/reconciler/kinesissource.go:121-139 | every condition and the URI that a reconcile of a source that is not deleted leaves, from the reply of the server and whether the adapter was found up to date |
| `ReadyMeaning.DeployedSticks` | pkg/reconciler/kinesissource.go:121-139 | Deployed never leaves True while the source exists |
| `ReadyMeaning.ReadyExactly` | pkg/reconciler/kinesissource.go:121-139 | once reconciled, a source is ready exactly when it is deployed and the last reconcile before deletion resolved a non-empty sink |
| `ReadyMeaning.ReadyImpliesAdapter` | pkg/reconciler/kinesissource.go:121-139 | if nobody else takes its deployments away, a ready source controls one now |
| `FinalizerRuns.OthersFinalizersKept` | pkg/reconciler/kinesissource.go:114-121 | over any run, another party's finalizer is present exactly when the other parties left it so |
| `FinalizerRuns.DeletionStopsWrites` | pkg/reconciler/kinesissource.go:114-119 | once deletion is marked, nothing is written for the source, over any run, whatever others do to its finalizers |
| `FinalizerRuns.DeletionReleases` | pkg/reconciler/kinesissource.go:114-119 | once deletion is marked, the controller's finalizer is there after a run exactly when others set it, or it was there before, and no reconcile came later |
| `StatusHistory.StatusFollowsLastCalls` | pkg/apis/sources/v1alpha1/kinesis_types.go:119-158 | after any history, each dependent condition is that of the last call about it, and the URI that of the last MarkSink |
| `StatusHistory.LastCallAt` | pkg/apis/sources/v1alpha1/kinesis_types.go:119-158 | the reference specification looks at the last call of a kind and at no other |
| `StatusHistory.HistoryConsistent` | pkg/apis/sources/v1alpha1/kinesis_types.go:97-100 | after any history, Ready is True exactly when both dependents are, and False whenever one is |
| `StatusHistory.ReadyIffLastCalls` | pkg/apis/sources/v1alpha1/kinesis_types.go:119-158 | after any history, the source is ready exactly when the last sink call was MarkSink with a non-empty URI and the last deployment call MarkDeployed |
| `StatusHistory.ReadyFollowsEvents` | pkg/apis/sources/v1alpha1/kinesis_types.go:119-158 | the value of Ready after any history, by events: True, False, unset, and Unknown otherwise |
| `StatusHistory.ReadyFalseIff` | pkg/apis/sources/v1alpha1/kinesis_types.go:119-158 | Ready is False exactly when some call made a dependent False, and no later call made both True, or its own Unknown while the other one was not False |
| `StatusHistory.ReadyUnsetIff` | pkg/apis/sources/v1alpha1/kinesis_types.go:119-158 | Ready is unset exactly as long as all calls found a sink, or all were MarkDeployed |
| `StatusHistory.FalseReadySticks` | pkg/apis/sources/v1alpha1/kinesis_types.go:129-143 | after any history, a sink that is missing and then found leaves Ready False exactly when the last deployment call was not MarkDeployed |
| `KinesisTypes.KinesisSourceStatus.GetCondition` | pkg/apis/sources/v1alpha1/kinesis_types.go:114-117 | a condition is returned exactly when it has been set, with its status |
| `KinesisTypes.KinesisSourceStatus.IsReady` | pkg/apis/sources/v1alpha1/kinesis_types.go:119-122 | true exactly when Ready is True |
| `KinesisTypes.KinesisSourceStatus.InitializeConditions` | pkg/apis/sources/v1alpha1/kinesis_types.go:124-127 | conditions that were never set become Unknown and the others stay |
| `KinesisTypes.KinesisSourceStatus.MarkSink` | pkg/apis/sources/v1alpha1/kinesis_types.go:129-138 | the URI is recorded, SinkProvided becomes True, or Unknown for an empty URI, and Deployed stays |
| `KinesisTypes.KinesisSourceStatus.MarkNoSink` | pkg/apis/sources/v1alpha1/kinesis_types.go:140-143 | SinkProvided and Ready become False and the URI stays |
| `KinesisTypes.KinesisSourceStatus.MarkDeployed` | pkg/apis/sources/v1alpha1/kinesis_types.go:145-148 | Deployed becomes True, and Ready with it if the sink is provided |
| `KinesisTypes.KinesisSourceStatus.MarkDeploying` | pkg/apis/sources/v1alpha1/kinesis_types.go:150-153 | Deployed becomes Unknown, and Ready with it unless the sink is known to be missing |
| `KinesisTypes.KinesisSourceStatus.MarkNotDeployed` | pkg/apis/sources/v1alpha1/kinesis_types.go:155-158 | Deployed and Ready become False |
| `InformerFactory.SharedInformerFactory.New` | pkg/client/informers/externalversions/factory.go:92-108 | the options are applied in order to an empty factory for all namespaces |
| `InformerFactory.LastNamespaceWins` | pkg/client/informers/externalversions/factory.go:71-76 | of all options the last WithNamespace decides, and all namespaces are watched without one |
| `InformerFactory.LastTweakWins` | pkg/client/informers/externalversions/factory.go:63-68 | likewise for the filter of list options |
| `InformerFactory.SharedInformerFactory.ApplyOption` | pkg/client/informers/externalversions/factory.go:52-76 | each option changes its own setting and no other |
| `InformerFactory.SharedInformerFactory.InformerFor` | pkg/client/informers/externalversions/factory.go:147-166 | a registered informer is returned as it is, and otherwise one is constructed with the resync period for its type |
| `InformerFactory.SharedInformerFactory.Start` | pkg/client/informers/externalversions/factory.go:111-121 | all registered informers are started afterwards, and exactly those not running are launched, once each |
| `InformerFactory.SharedInformerFactory.TakeSnapshot` | pkg/client/informers/externalversions/factory.go:125-136 | the snapshot holds exactly the started informers |
| `InformerFactory.SharedInformerFactory.Wait` | pkg/client/informers/externalversions/factory.go:138-142 | one answer for each informer of the snapshot, true if it synced |
| `InformerFactory.LastResyncEntryWins` | pkg/client/informers/externalversions/factory.go:53-60 | the last entry of the last option that mentions a type decides its resync period |
| `InformerFactory.ResyncOfNewInformer` | pkg/client/informers/externalversions/factory.go:157-163 | a new informer gets that period, or the default if no option mentions its type |
| `InformerThreads.RunKeeps` | pkg/client/informers/externalversions/factory.go:111-166 | in every interleaving, constructors and launches happen once per type, started types are registered, and nothing registered is replaced |
| `InformerThreads.StepKeeps` | pkg/client/informers/externalversions/factory.go:111-166 | the same for one step; after a Start everything registered is started |
| `InformerThreads.SameInformer` | pkg/client/informers/externalversions/factory.go:147-166 | all calls for one type return the same informer |
| `InformerThreads.LaunchedOnce` | pkg/client/informers/externalversions/factory.go:111-121 | no informer object is launched twice exactly as long as different types have different ones |
| `InformerThreads.WaitReportsSnapshot` | pkg/client/informers/externalversions/factory.go:124-143 | a wait reports exactly the types started at its snapshot, however the registry moves on meanwhile |
| `DeepCopy.CopySpec` | pkg/apis/sources/v1alpha1/zz_generated.deepcopy.go:105-116 | the copied spec has the same value, and its own sink object |
| `DeepCopy.CopySourceInto` | pkg/apis/sources/v1alpha1/zz_generated.deepcopy.go:44-52 | the slot gets an equal source whose objects are all new; the original and the other slots stay |
| `DeepCopy.CopyAll` | pkg/apis/sources/v1alpha1/zz_generated.deepcopy.go:77-83 | the loop fills the new slice with equal sources that share no object with the originals or among themselves |
| `DeepCopy.DeepCopyList` | pkg/apis/sources/v1alpha1/zz_generated.deepcopy.go:72-95 | nil gives nil; otherwise the copy is equal and everything reachable from it is new |
| `DeepCopy.SameValueIff` | pkg/apis/sources/v1alpha1/zz_generated.deepcopy.go:44-126 | equal sources agree in every field, and in everything that their fields point to |
| `DeepCopy.SameListIff` | pkg/apis/sources/v1alpha1/zz_generated.deepcopy.go:72-95 | equal lists agree in their metadata and, one by one, in their items |
| `DeepCopy.WritesStayApart` | pkg/apis/sources/v1alpha1/zz_generated.deepcopy.go:72-126 | any sequence of writes through one of two separate lists leaves the other one's value and keeps them separate |
| `DeepCopy.WriteToCopy` | pkg/apis/sources/v1alpha1/zz_generated.deepcopy.go:87-95 | writes through a copy do not show in the original |
| `DeepCopy.WriteToOriginal` | pkg/apis/sources/v1alpha1/zz_generated.deepcopy.go:87-95 | writes through the original do not show in the copy |

## Left out

- AWS sessions, STS, the content of `DescribeStream`, CloudWatch settings and the HTTP send: only whether the calls succeed.
- The worker library beyond the checkpoint that it keeps and writes, its start position and its order of calls: leases among several processes, parent shards, throttling and metrics. That a shard has one lease holder, in one process at a time, is an assumption of `Delivery`.
- Event ids, types, extensions and times; condition reasons, messages, severities and transition times; logging.
- The client library for conditions is modelled by the behaviour that `pkg/apis/sources/v1alpha1/kinesis_types_test.go:29-150` fixes.
- `equality.Semantic`: its own comparisons for quantities, times and selectors. They occur only in fields that generated specs leave unset.
- Of the fields that the controller leaves unset, those that can be unset are one optional value per object (`rest`); the plain booleans are modelled one by one.
- Failing to persist a source after a reconcile, and updates of a source that conflict with an edit: a reconcile's source is stored as it leaves it.
- Stale caches, a scheme that does not know the types, and two workers with one lease during a rollout.
- Template annotations of an existing adapter: the controller does not update them, so a changed assigned role is not propagated, and convergence is about the pod spec.
- Garbage collection of the deployments of a removed source: it is one of the things that others may do.
- The expansion of `$(NAME)` in environment values by the kubelet, and variables that the image itself sets: the process environment is the list that was generated.
- Sink resolution, work queues, `sdk.Provider`, `Add`, listers, typed clients, scheme registration and manifests.
- In deep copies, the object metadata beyond finalizers (labels, annotations, owner references), the `Optional` flag of the secret selector, and `DeepCopyObject`.
- `ResyncConfig` maps with two objects of one type: their order is taken as given.
- Deadlock of a constructor that calls back into the factory while it holds the lock.
