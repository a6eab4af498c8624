# Node reconciliation, build webhooks and build validation, in Dafny

This project models three parts of an OpenShift Origin tree that vendors an early Kubernetes kubelet:

- **The kubelet's reconciliation engine.** The kubelet keeps one node's Docker containers in line with a desired list of pods:
  - a pool of per-pod workers that never runs two passes for the same pod at once;
  - the single-pod pass (syncPod), which manages the pod's network container, mounts volumes, keeps healthy and unchanged containers, replaces changed or unhealthy ones, and sweeps away leftovers;
  - the node-wide pass (SyncPods), which dispatches the pod workers, kills containers that belong to no desired pod and tears down orphaned volumes;
  - the main loop, which filters host-port conflicts out of every new pod list and re-synchronises on a timer;
  - the builders that turn a declared container into Docker options: CPU shares, environment strings, bind mounts, exposed ports and port bindings.
- **The build webhook controller.** It splits a request path into build ID, secret, plugin and sub-path, and runs the guard chain that leads to creating a build.
- **Build validation.** It produces the ordered field errors of a build, a build configuration and their inputs.

The runtime the kubelet drives is the datatype `KubeTypes.Runtime`: a record of functions for Docker, the image puller, the volume plugins, the health checker, container hashing and pod naming. The methods of `KubeletCore.Kubelet` return, besides their Go results, the sequence of node-changing calls they made (`Effect`s). Each such method is proved equal to a specification function in `PodSyncSpec` or `NodeSyncSpec`. The properties the kubelet is meant to have are lemmas about those functions.

Where the design documentation and the code disagree, the model follows the code:
- A worker whose action panics is not removed from the busy set. The crash handler is deferred, but the removal is not. The pod therefore stays busy for good, as `PodWorkerPool.PanicLeavesPodBusy` proves.
- A stopped container is left alone under the restart policy `"runOnce"`, the string the code tests.
- When the network container is missing, only the declared containers that are found are deleted, not every container of the pod.

## Model

| member | source | states |
|---|---|---|
| ContainerConfigs.MilliCPUToShares | Godeps/_workspace/src/github.com/GoogleCloudPlatform/kubernetes/pkg/kubelet/kubelet.go:252-263 | 0 stays 0; a negative request gives 2; any other request gives at least 2 shares; above the floor, the result is 1024 shares per 1000 milli-CPU rounded down |
| ContainerConfigs.MilliCPUToSharesMonotone | Godeps/_workspace/src/github.com/GoogleCloudPlatform/kubernetes/pkg/kubelet/kubelet.go:252-263 | more milli-CPU never gives fewer shares; 1000 milli-CPU gives exactly 1024 shares |
| ContainerConfigs.MakeEnvironmentVariables | Godeps/_workspace/src/github.com/GoogleCloudPlatform/kubernetes/pkg/kubelet/kubelet.go:194-200 | one "NAME=VALUE" string per variable, in declaration order |
| ContainerConfigs.EnvStringRoundTrip | Godeps/_workspace/src/github.com/GoogleCloudPlatform/kubernetes/pkg/kubelet/kubelet.go:194-200 | splitting an environment string at its first '=' gives back the variable when its name holds no '=' |
| ContainerConfigs.MakeBinds | Godeps/_workspace/src/github.com/GoogleCloudPlatform/kubernetes/pkg/kubelet/kubelet.go:202-216 | the binds are those of the specification function `Binds`: mounts whose volume is missing are skipped, and read-only mounts get ":ro" |
| ContainerConfigs.BindsOfResolvable | Godeps/_workspace/src/github.com/GoogleCloudPlatform/kubernetes/pkg/kubelet/kubelet.go:202-216 | exactly the mounts whose volume was mounted become binds, one each, "hostPath:mountPath", in mount order |
| ContainerConfigs.MakePortsAndBindings | Godeps/_workspace/src/github.com/GoogleCloudPlatform/kubernetes/pkg/kubelet/kubelet.go:218-250 | the two maps are those of the specification function `PortsAndBindings` |
| ContainerConfigs.ExposedAreBound | Godeps/_workspace/src/github.com/GoogleCloudPlatform/kubernetes/pkg/kubelet/kubelet.go:218-250 | the exposed-port set and the binding map have the same keys |
| ContainerConfigs.ExposedKeys | Godeps/_workspace/src/github.com/GoogleCloudPlatform/kubernetes/pkg/kubelet/kubelet.go:218-250 | a key is exposed exactly when some port with a non-zero host port has that key |
| ContainerConfigs.BindingIsLast | Godeps/_workspace/src/github.com/GoogleCloudPlatform/kubernetes/pkg/kubelet/kubelet.go:218-250 | each key is bound to a one-entry list holding the decimal host port and host IP of the last port with that key |
| ContainerConfigs.PortKeyInjective | Godeps/_workspace/src/github.com/GoogleCloudPlatform/kubernetes/pkg/kubelet/kubelet.go:227-240 | two ports share a key only if they have the same container port and are both UDP or both not UDP |
| Strings.ItoaInjective | Godeps/_workspace/src/github.com/GoogleCloudPlatform/kubernetes/pkg/kubelet/kubelet.go:240-244 | distinct integers have distinct decimal strings |
| ContainerConfigs.AllPortsContents | Godeps/_workspace/src/github.com/GoogleCloudPlatform/kubernetes/pkg/kubelet/kubelet.go:344-352 | the network container exposes exactly the ports declared by the pod's containers |
| ContainerConfigs.NetworkContainer | Godeps/_workspace/src/github.com/GoogleCloudPlatform/kubernetes/pkg/kubelet/kubelet.go:338-356 | the network container is named "net", runs "kubernetes/pause:latest" and exposes exactly the ports declared by any container of the pod, in declaration order |
| Health.CheckHealth | Godeps/_workspace/src/github.com/GoogleCloudPlatform/kubernetes/pkg/kubelet/kubelet.go:717-733 | without a probe: Healthy exactly when running, with no error; with a probe: Healthy during the grace period or when no checker is configured; otherwise the checker's answer unchanged |
| Health.CheckerConsultedOnlyAfterGrace | Godeps/_workspace/src/github.com/GoogleCloudPlatform/kubernetes/pkg/kubelet/kubelet.go:717-730 | the checker cannot affect the verdict without a probe or within the grace period |
| PodWorkerPool.RunStep | Godeps/_workspace/src/github.com/GoogleCloudPlatform/kubernetes/pkg/kubelet/kubelet.go:150-160 | a busy key changes nothing and starts nothing; otherwise exactly that key is added and an action starts; exclusivity is preserved |
| PodWorkerPool.FinishStep | Godeps/_workspace/src/github.com/GoogleCloudPlatform/kubernetes/pkg/kubelet/kubelet.go:162-168 | the key leaves the busy set only after a normal return; exclusivity is preserved |
| PodWorkerPool.ReplayExclusive | Godeps/_workspace/src/github.com/GoogleCloudPlatform/kubernetes/pkg/kubelet/kubelet.go:150-169 | in any history there is at most one running action per pod, and every running pod is busy |
| PodWorkerPool.PanicLeavesPodBusy | Godeps/_workspace/src/github.com/GoogleCloudPlatform/kubernetes/pkg/kubelet/kubelet.go:162-168 | after an action panics, its pod stays busy with nothing running, whatever follows |
| PodWorkerPool.DispatchAfterPanicDropped | Godeps/_workspace/src/github.com/GoogleCloudPlatform/kubernetes/pkg/kubelet/kubelet.go:150-160 | after a panic, every later dispatch for that pod is dropped |
| PodWorkerPool.PodWorkers.constructor | Godeps/_workspace/src/github.com/GoogleCloudPlatform/kubernetes/pkg/kubelet/kubelet.go:142-146 | the pool starts with no busy pod |
| PodWorkerPool.PodWorkers.Run | Godeps/_workspace/src/github.com/GoogleCloudPlatform/kubernetes/pkg/kubelet/kubelet.go:150-160 | the new busy set and the dispatch flag are those of `RunStep` |
| PodWorkerPool.PodWorkers.Finish | Godeps/_workspace/src/github.com/GoogleCloudPlatform/kubernetes/pkg/kubelet/kubelet.go:162-168 | the new busy set is that of `FinishStep` |
| KubeletCore.Kubelet.KillContainer | Godeps/_workspace/src/github.com/GoogleCloudPlatform/kubernetes/pkg/kubelet/kubelet.go:319-336 | one kill call, reporting only the removal error |
| KubeletCore.Kubelet.DeleteAllContainers | Godeps/_workspace/src/github.com/GoogleCloudPlatform/kubernetes/pkg/kubelet/kubelet.go:362-390 | the count, error and kills are those of `DeleteAllSpec` |
| PodSyncSpec.DeleteFoldKills | Godeps/_workspace/src/github.com/GoogleCloudPlatform/kubernetes/pkg/kubelet/kubelet.go:362-378 | the declared containers that are found are killed, one call each and nothing else, and the count equals the number of kills |
| PodSyncSpec.DeleteKillsListed | Godeps/_workspace/src/github.com/GoogleCloudPlatform/kubernetes/pkg/kubelet/kubelet.go:362-378 | every container deleteAllContainers kills is listed for the pod |
| PodSyncSpec.DeleteAllFails | Godeps/_workspace/src/github.com/GoogleCloudPlatform/kubernetes/pkg/kubelet/kubelet.go:379-389 | an error comes back exactly when some removal failed, and the count is then -1 |
| KubeletCore.Kubelet.RunContainer | Godeps/_workspace/src/github.com/GoogleCloudPlatform/kubernetes/pkg/kubelet/kubelet.go:287-316 | the container is run with the configuration of `RunConfig`: environment, binds, ports, CPU shares, hostname and network mode |
| KubeletCore.Kubelet.CreateNetworkContainer | Godeps/_workspace/src/github.com/GoogleCloudPlatform/kubernetes/pkg/kubelet/kubelet.go:344-358 | the pause image is pulled, its error ignored, and the network container is then run with all the pod's ports |
| PodSyncSpec.NetConfig | Godeps/_workspace/src/github.com/GoogleCloudPlatform/kubernetes/pkg/kubelet/kubelet.go:344-358 | the network container runs with no binds and the default network mode |
| KubeletCore.Kubelet.MountExternalVolumes | Godeps/_workspace/src/github.com/GoogleCloudPlatform/kubernetes/pkg/kubelet/kubelet.go:265-284 | the error, paths and set-up calls are those of `MountSpec` |
| PodSyncSpec.MountFromSucceeds | Godeps/_workspace/src/github.com/GoogleCloudPlatform/kubernetes/pkg/kubelet/kubelet.go:265-284 | mounting succeeds exactly when every volume has no builder or sets up cleanly; then exactly the volumes with a builder are set up, in order, and each of their names is in the path map |
| PodSyncSpec.MountedPathIsLastBuilt | Godeps/_workspace/src/github.com/GoogleCloudPlatform/kubernetes/pkg/kubelet/kubelet.go:265-284 | after mounting without error, a name maps to the path of the last volume of that name that got a builder (a later one overwrites, a later one without a builder does not) |
| PodSyncSpec.MountedNamesAreBuilt | Godeps/_workspace/src/github.com/GoogleCloudPlatform/kubernetes/pkg/kubelet/kubelet.go:265-284 | the path map gains only the names of volumes that got a builder |
| PodSyncSpec.MountEffects | Godeps/_workspace/src/github.com/GoogleCloudPlatform/kubernetes/pkg/kubelet/kubelet.go:265-284 | mounting only sets volumes up |
| PodSyncSpec.ContainerRunConfig | Godeps/_workspace/src/github.com/GoogleCloudPlatform/kubernetes/pkg/kubelet/kubelet.go:486-491 | a declared container runs joined to the network container ("container:" + its ID) |
| KubeletCore.Kubelet.SyncContainer | Godeps/_workspace/src/github.com/GoogleCloudPlatform/kubernetes/pkg/kubelet/kubelet.go:442-498 | one declared container's keeps, kills and calls are those of `ContainerStep`, whose cases (missing, unchanged and kept, changed or unhealthy and replaced) FoundUnchangedContainer, FoundContainerReplaced and MissingContainerCreated state |
| PodSyncSpec.FoundUnchangedContainer | Godeps/_workspace/src/github.com/GoogleCloudPlatform/kubernetes/pkg/kubelet/kubelet.go:449-475 | a found container with hash 0 or the expected hash is kept, untouched, exactly when it is stopped under "runOnce", its health check errs, or it is healthy; a failed inspect leaves it alone |
| PodSyncSpec.FoundContainerReplaced | Godeps/_workspace/src/github.com/GoogleCloudPlatform/kubernetes/pkg/kubelet/kubelet.go:449-496 | a found container whose hash changed, or which inspects fine but is neither stopped under "runOnce" nor healthy (nor errs in its check), is killed first; a failed kill ends its step; only a successful kill marks it killed and leads to the pull; a failed pull ends the step with no run; after a successful pull it is run and kept exactly when the run succeeds |
| PodSyncSpec.MissingContainerCreated | Godeps/_workspace/src/github.com/GoogleCloudPlatform/kubernetes/pkg/kubelet/kubelet.go:485-497 | a declared container with no listed instance is pulled; a failed pull ends its step; otherwise it is run and kept exactly when the run succeeds; nothing is killed |
| PodSyncSpec.StepConcernsItsContainer | Godeps/_workspace/src/github.com/GoogleCloudPlatform/kubernetes/pkg/kubelet/kubelet.go:442-498 | a container's step kills only that container's listed instance, pulls only its image and runs only its configuration |
| PodSyncSpec.KilledWereKilled | Godeps/_workspace/src/github.com/GoogleCloudPlatform/kubernetes/pkg/kubelet/kubelet.go:479-483 | every container marked killed had a kill call in the same pass |
| PodSyncSpec.PassKillsListed | Godeps/_workspace/src/github.com/GoogleCloudPlatform/kubernetes/pkg/kubelet/kubelet.go:442-498 | the pass over the declared containers kills only containers listed for the pod |
| KubeletCore.Kubelet.ContainerPass | Godeps/_workspace/src/github.com/GoogleCloudPlatform/kubernetes/pkg/kubelet/kubelet.go:442-498 | the pass over the declared containers equals `PassOf` |
| KubeletCore.Kubelet.Sweep | Godeps/_workspace/src/github.com/GoogleCloudPlatform/kubernetes/pkg/kubelet/kubelet.go:500-514 | the sweep's kills are those of `SweepOf` |
| PodSyncSpec.SweepKills | Godeps/_workspace/src/github.com/GoogleCloudPlatform/kubernetes/pkg/kubelet/kubelet.go:500-514 | the sweep kills exactly this pod's listed containers that were neither kept nor killed, and nothing else |
| PodSyncSpec.SweepNothingLeft | Godeps/_workspace/src/github.com/GoogleCloudPlatform/kubernetes/pkg/kubelet/kubelet.go:500-514 | when every listed container of the pod was kept or killed in the pass, the sweep kills nothing |
| KubeletCore.Kubelet.SyncPodAfterNet | Godeps/_workspace/src/github.com/GoogleCloudPlatform/kubernetes/pkg/kubelet/kubelet.go:424-516 | volumes, container pass and sweep behave as `AfterNet` specifies |
| KubeletCore.Kubelet.SyncPod | Godeps/_workspace/src/github.com/GoogleCloudPlatform/kubernetes/pkg/kubelet/kubelet.go:394-517 | the error, calls and containers kept are those of `SyncPodSpec` |
| PodSyncSpec.PodFatalFailures | Godeps/_workspace/src/github.com/GoogleCloudPlatform/kubernetes/pkg/kubelet/kubelet.go:399-430 | when the network container is missing, a failed delete returns its error and calls, and a failed network-container start returns its error; a volume failure returns an error; on any error no declared container is run |
| PodSyncSpec.SyncPodSucceeds | Godeps/_workspace/src/github.com/GoogleCloudPlatform/kubernetes/pkg/kubelet/kubelet.go:424-516 | with the network container present and the volumes mounted, syncPod returns no error |
| PodSyncSpec.SyncPodSweeps | Godeps/_workspace/src/github.com/GoogleCloudPlatform/kubernetes/pkg/kubelet/kubelet.go:500-516 | on success, every container of the pod in the listing worked on is kept or killed |
| PodSyncSpec.AfterNetKillsListed | Godeps/_workspace/src/github.com/GoogleCloudPlatform/kubernetes/pkg/kubelet/kubelet.go:424-516 | once the network container is settled, every kill (pass or sweep) is of a container listed for the pod in the listing worked on |
| PodSyncSpec.SyncPodKillsOwnContainers | Godeps/_workspace/src/github.com/GoogleCloudPlatform/kubernetes/pkg/kubelet/kubelet.go:399-516 | syncPod works on the listing it was given or the relisted one, and every container it kills (delete, pass or sweep) is listed for this pod in one of them |
| PodSyncSpec.PodMountFailure | Godeps/_workspace/src/github.com/GoogleCloudPlatform/kubernetes/pkg/kubelet/kubelet.go:399-430 | a volume failure is returned before any declared container is looked at: with the network container found, only the volume calls are made and only it is kept; after a successful replacement, the calls are the replacement's then the volume calls; every call is a volume setup, a kill of a found declared container, or the network container's pull or run |
| PodSyncSpec.SyncPodConverged | Godeps/_workspace/src/github.com/GoogleCloudPlatform/kubernetes/pkg/kubelet/kubelet.go:394-517 | on a pod that already matches the node, syncPod succeeds and makes no kill, pull or run |
| KubeletCore.Kubelet.GetDesiredVolumes | Godeps/_workspace/src/github.com/GoogleCloudPlatform/kubernetes/pkg/kubelet/kubelet.go:526-535 | the map is that of `DesiredVolumes` |
| NodeSyncSpec.DesiredVolumesKeys | Godeps/_workspace/src/github.com/GoogleCloudPlatform/kubernetes/pkg/kubelet/kubelet.go:526-535 | a key is desired exactly when some pod declares a volume under "podID/volumeName" |
| KubeletCore.Kubelet.ReconcileVolumes | Godeps/_workspace/src/github.com/GoogleCloudPlatform/kubernetes/pkg/kubelet/kubelet.go:539-555 | the teardowns are those of `ReconcileSpec`, and the result is always nil |
| NodeSyncSpec.ReconcileTearsDownOrphans | Godeps/_workspace/src/github.com/GoogleCloudPlatform/kubernetes/pkg/kubelet/kubelet.go:539-555 | exactly the current volumes that no pod wants are torn down |
| KubeletCore.Kubelet.AddPodContainers | Godeps/_workspace/src/github.com/GoogleCloudPlatform/kubernetes/pkg/kubelet/kubelet.go:573-578 | adds the pod's network container and each declared container to the desired set |
| KubeletCore.Kubelet.DesireAndDispatch | Godeps/_workspace/src/github.com/GoogleCloudPlatform/kubernetes/pkg/kubelet/kubelet.go:569-588 | the desired set, the pool and the started workers are those of `DesiredContainers` and `DispatchFold` |
| NodeSyncSpec.DesiredContainersMembers | Godeps/_workspace/src/github.com/GoogleCloudPlatform/kubernetes/pkg/kubelet/kubelet.go:569-578 | the desired set is exactly {(pod, "net")} together with {(pod, container name)} over all pods |
| NodeSyncSpec.DispatchMarksBusy | Godeps/_workspace/src/github.com/GoogleCloudPlatform/kubernetes/pkg/kubelet/kubelet.go:580-587 | after dispatch every pod is busy, and the pool stays exclusive |
| NodeSyncSpec.StartedWereFree | Godeps/_workspace/src/github.com/GoogleCloudPlatform/kubernetes/pkg/kubelet/kubelet.go:580-587 | workers start only for pods that were not busy |
| NodeSyncSpec.StartedDistinct | Godeps/_workspace/src/github.com/GoogleCloudPlatform/kubernetes/pkg/kubelet/kubelet.go:580-587 | at most one worker starts per pod full name |
| NodeSyncSpec.FreeGetStarted | Godeps/_workspace/src/github.com/GoogleCloudPlatform/kubernetes/pkg/kubelet/kubelet.go:580-587 | every pod that was not busy gets a worker |
| KubeletCore.Kubelet.KillUndesiredContainers | Godeps/_workspace/src/github.com/GoogleCloudPlatform/kubernetes/pkg/kubelet/kubelet.go:595-604 | the kills and the returned error are those of `KillUndesired` and `LastKillError` |
| NodeSyncSpec.KillsExactlyUndesired | Godeps/_workspace/src/github.com/GoogleCloudPlatform/kubernetes/pkg/kubelet/kubelet.go:595-604 | every listed container outside the desired set is killed and none inside it; the error is that of the last kill |
| KubeletCore.Kubelet.SyncPods | Godeps/_workspace/src/github.com/GoogleCloudPlatform/kubernetes/pkg/kubelet/kubelet.go:558-610 | the error, calls, pool and started workers are those of `SyncPodsSpec` |
| NodeSyncSpec.SyncPodsListingFailures | Godeps/_workspace/src/github.com/GoogleCloudPlatform/kubernetes/pkg/kubelet/kubelet.go:558-594 | a failed first listing returns its error with nothing done; a failed second listing returns its error after dispatch only |
| NodeSyncSpec.SyncPodsKills | Godeps/_workspace/src/github.com/GoogleCloudPlatform/kubernetes/pkg/kubelet/kubelet.go:558-610 | with both listings, exactly the undesired containers are killed, exactly the orphaned volumes are torn down, and the error is the last kill's |
| NodeSyncSpec.NoPodsKillsAll | Godeps/_workspace/src/github.com/GoogleCloudPlatform/kubernetes/pkg/kubelet/kubelet.go:558-610 | with no desired pod, every listed container is killed |
| SyncLoop.FilterHostPortConflicts | Godeps/_workspace/src/github.com/GoogleCloudPlatform/kubernetes/pkg/kubelet/kubelet.go:613-627 | the result is that of `FilteredPods` |
| SyncLoop.FilterKeepsUnconflicted | Godeps/_workspace/src/github.com/GoogleCloudPlatform/kubernetes/pkg/kubelet/kubelet.go:613-627 | the kept pods form an order-preserving subsequence, holding exactly the pods for which the port accumulator reports no conflict |
| SyncLoop.FilterDropsConflicts | Godeps/_workspace/src/github.com/GoogleCloudPlatform/kubernetes/pkg/kubelet/kubelet.go:613-627 | a conflict anywhere removes at least one pod; with no conflict the list passes unchanged |
| SyncLoop.NoConflictKeepsAll | Godeps/_workspace/src/github.com/GoogleCloudPlatform/kubernetes/pkg/kubelet/kubelet.go:613-627 | the list passes unchanged exactly when no pod conflicts |
| SyncLoop.SyncLoopStep | Godeps/_workspace/src/github.com/GoogleCloudPlatform/kubernetes/pkg/kubelet/kubelet.go:634-664 | SET replaces the list with its filtered payload and syncs; UPDATE changes nothing and waits; any other operation panics; a timeout syncs the unchanged list only once a list has been set |
| SyncLoop.SyncLoopRun | Godeps/_workspace/src/github.com/GoogleCloudPlatform/kubernetes/pkg/kubelet/kubelet.go:634-664 | a finite run of the loop gives the list, syncs and panic of `RunSpec` |
| SyncLoop.PanicStops | Godeps/_workspace/src/github.com/GoogleCloudPlatform/kubernetes/pkg/kubelet/kubelet.go:650-651 | after a panic nothing more happens |
| SyncLoop.LoopFollowsLastSet | Godeps/_workspace/src/github.com/GoogleCloudPlatform/kubernetes/pkg/kubelet/kubelet.go:634-664 | the desired list is the filtered payload of the last SET, and nothing is synced before the first SET |
| SyncLoop.LoopSyncsOnlySetPayloads | Godeps/_workspace/src/github.com/GoogleCloudPlatform/kubernetes/pkg/kubelet/kubelet.go:639-662 | every list synced, on a SET or on a timeout, is the filtered payload of some SET received |
| SyncLoop.ResyncRepeatsLastSet | Godeps/_workspace/src/github.com/GoogleCloudPlatform/kubernetes/pkg/kubelet/kubelet.go:653-659 | a timeout after a SET syncs that SET's filtered payload again |
| Webhook.SplitPath | pkg/build/webhook/controller.go:91-97 | no segments exactly when the path is only slashes; otherwise the segments join back with "/" to the trimmed path, hold no "/", and the first and last are non-empty |
| Strings.SplitJoin | pkg/build/webhook/controller.go:91-97 | splitting the join of slash-free parts gives the parts back |
| Strings.TrimPadded | pkg/build/webhook/controller.go:91-97 | trimming slashes removes any number of leading and trailing slashes and nothing else |
| Webhook.ParseUrl | pkg/build/webhook/controller.go:78-89 | an error ("Unexpected URL …!") exactly when there are fewer than 3 segments; the path is empty exactly when there are exactly 3 |
| Webhook.ParseUrlRoundTrip | pkg/build/webhook/controller.go:78-97 | joining build ID, secret, plugin and, when non-empty, the path with "/" gives back the trimmed request path |
| Webhook.ParseUrlOfUrlPath | pkg/build/webhook/controller.go:78-97 | a URL built from representable parts, with any slashes around it, parses back to those parts |
| Webhook.ServeHTTP | pkg/build/webhook/controller.go:40-76 | a build is created exactly when the URL parses, the config is found, the secret matches, the plugin exists and extraction succeeds; 404 exactly for a parse failure or an unknown plugin; 200 exactly when creation succeeds; otherwise 400; with no build from the plugin, the config's desired input is used |
| Webhook.Created | pkg/build/webhook/controller.go:73-75 | the build is handed to CreateBuild; 200 if it succeeds, 400 if not |
| BuildApi.BuildFromInput | pkg/build/webhook/controller.go:67-71 | the build made from a config's desired input carries that input and nothing else |
| BuildValidation.ValidateSource | pkg/build/api/validation/validation.go:41-57 | at most one error: source required, git required, git.URI required, git.URI invalid, in that order; none exactly when the source is complete |
| BuildValidation.ValidateSTIBuild | pkg/build/api/validation/validation.go:59-65 | builderImage required exactly when it is empty |
| BuildValidation.ValidateBuildInput | pkg/build/api/validation/validation.go:30-39 | exactly the source errors under "source", then "imageTag" when the tag is empty, then the STI errors under "stiBuild" when an STI input is present: 0 to 3 errors in that order, none exactly when the input is complete |
| BuildValidation.ValidateBuild | pkg/build/api/validation/validation.go:11-18 | exactly "id" required when the ID is empty, followed by the input's errors under "input"; at most 4; none exactly when the ID is set and the input complete |
| BuildValidation.ValidateBuildConfig | pkg/build/api/validation/validation.go:21-28 | exactly "id" required when the ID is empty, followed by the input's errors under "desiredInput"; none exactly when the ID is set and the input complete |
| BuildValidation.BuildInputSingleErrors | pkg/build/api/validation/validation_test.go:79-121 | each test input gets exactly one error, of the expected kind and field, given a URL check that rejects "::" |
| BuildValidation.FieldOfPrefixed | pkg/build/api/validation/validation_test.go:110-119 | a prefixed error's field string is the prefix, a ".", then the original field |

## Left out

- The kubelet's I/O and wiring are not modelled: LogEvent (etcd and JSON), ServeLogs, RunInContainer, the cadvisor statistics calls, GetPodInfo beyond the pod IP it yields, NewMainKubelet and Run.
- Concurrency is not modelled:
  - the goroutines, the mutex and the WaitGroup become sequential steps;
  - deleteAllContainers kills one container after another, and its errors are combined in declaration order;
  - a worker's action is not run by SyncPods: the pods whose worker started are returned, and each of them runs syncPod on the first listing;
  - a worker's end is the separate `PodWorkers.Finish`.
- The loop of syncLoop is not modelled as infinite, and the select on a timer becomes an explicit `Timeout` trigger. `SyncLoopRun` runs a finite sequence of triggers and stops at a panic.
- The runtime is a set of fixed functions. Docker, the puller, volume plugins, the health checker, hashContainer and GetPodFullName each answer the same call in the same way, however many calls came before. The listings, the pod IP, the clock and the current volume identifiers are parameters.
- Helpers whose source is not part of this model are fixed as follows:
  - FindPodContainer is the first match in listing order;
  - parseDockerName is replaced by decoded name fields on each listed container;
  - CreateContainer followed by StartContainer is one call, and a container created but not started counts as a failed run;
  - an inspect with a nil result counts as a failed inspect;
  - AccumulateUniquePorts is a parameter function;
  - url.Parse is a parameter predicate;
  - errs.Prefix prepends a path component;
  - path.Join is "podID/volumeName".
- Go map iteration order (container listings, current volumes) is fixed as sequence order.
- KubeTypes.UniqueIds: the container listings are sequences. The lemmas about killing exactly the undesired containers assume distinct IDs, as the Go map keyed by ID guarantees.
- The text of errors is simplified. The "failed to delete containers" message joins the errors with spaces. Validation errors keep their kind and field but not the offending value.
- ContainerConfigs.MilliCPUToShares: does not model 64-bit overflow of milliCPU * 1024; integers are unbounded.
- Strings.ToUpper: upper-cases ASCII letters only, where the source uses Unicode upper-casing. It is used only to test for "UDP".
- The HTTP response body of the webhook controller is modelled (the text ServeHTTP writes on each path), but no contract states anything about it; the contracts speak of the status code and the build created.
- In Go, filterHostPortConflicts never returns nil. The model gives every list, even an empty one, as `Some` after SET, which is what keeps resyncs going after an empty SET.
