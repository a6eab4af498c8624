/**
 * The kubelet itself: the methods that talk to the runtime, each proved to
 * make exactly the calls, and return exactly the results, that the
 * specification functions of PodSyncSpec and NodeSyncSpec describe.
 */
module KubeletCore {
  import opened Wrappers
  import opened KubeTypes
  import opened ContainerConfigs
  import opened Health
  import opened PodWorkerPool
  import opened PodSyncSpec
  import opened NodeSyncSpec

  class Kubelet {
    /** The runtime client, puller, volume plugins, health checker and hashing the kubelet uses. */
    const runtime: Runtime
    const podWorkers: PodWorkers

    constructor (runtime: Runtime)
      ensures this.runtime == runtime
      ensures fresh(podWorkers) && podWorkers.Valid() && podWorkers.State() == Pool({}, multiset{})
    {
      this.runtime := runtime;
      podWorkers := new PodWorkers();
    }

    /** killContainer: stop, then remove; only the removal's error is reported. */
    method KillContainer(dockerContainer: DockerContainer) returns (err: Option<Error>, effects: seq<Effect>)
      ensures err == runtime.remove(dockerContainer.id)
      ensures effects == [Kill(dockerContainer.id)]
    {
      err := runtime.remove(dockerContainer.id);
      effects := [Kill(dockerContainer.id)];
    }

    /** deleteAllContainers, with the concurrent kills made one after another. */
    method DeleteAllContainers(pod: Pod, podFullName: string, dockerContainers: DockerContainers)
      returns (count: int, err: Option<Error>, effects: seq<Effect>)
      ensures DeleteResult(count, err, effects) == DeleteAllSpec(runtime, pod, podFullName, dockerContainers)
    {
      var cs := pod.manifest.containers;
      var found: nat := 0;
      var errs: seq<Error> := [];
      effects := [];
      var i := 0;
      while i < |cs|
        invariant 0 <= i <= |cs|
        invariant Deletion(found, errs, effects) == DeleteFold(runtime, podFullName, dockerContainers, cs[..i])
      {
        assert cs[..i + 1][..i] == cs[..i];
        var dockerContainer := FindPodContainer(dockerContainers, podFullName, cs[i].name);
        if dockerContainer.Some? {
          found := found + 1;
          var e, kill := KillContainer(dockerContainer.value);
          if e.Some? {
            errs := errs + [e.value];
          }
          effects := effects + kill;
        }
        i := i + 1;
      }
      assert cs[..i] == cs;
      if |errs| > 0 {
        return -1, Some(DeleteError(errs)), effects;
      }
      return found, None, effects;
    }

    /** runContainer: build the options from the container, then create and start it. */
    method RunContainer(pod: Pod, container: Container, podVolumes: map<string, string>, netMode: string)
      returns (id: Result<DockerID, Error>, effects: seq<Effect>)
      ensures var cfg := RunConfig(runtime.podFullName(pod), pod, container, runtime.hash(container), podVolumes, netMode);
        id == runtime.run(cfg) && effects == [Run(cfg)]
    {
      var envVariables := MakeEnvironmentVariables(container);
      var binds := MakeBinds(container, podVolumes);
      var exposedPorts, portBindings := MakePortsAndBindings(container);
      var opts := ContainerConfig(
        runtime.podFullName(pod), container.name, runtime.hash(container), pod.name, container.image,
        container.command, envVariables, container.workingDir, container.memory,
        MilliCPUToShares(container.cpu), exposedPorts, portBindings, binds, netMode, container.privileged);
      id := runtime.run(opts);
      effects := [Run(opts)];
    }

    /** createNetworkContainer: gather every port of the pod, pull the pause image (its error ignored), run. */
    method CreateNetworkContainer(pod: Pod) returns (id: Result<DockerID, Error>, effects: seq<Effect>)
      ensures var cfg := NetConfig(runtime, pod, runtime.podFullName(pod));
        id == runtime.run(cfg) && effects == [Pull(NetworkContainerImage), Run(cfg)]
    {
      var cs := pod.manifest.containers;
      var ports: seq<Port> := [];
      var i := 0;
      while i < |cs|
        invariant 0 <= i <= |cs|
        invariant ports == AllPorts(cs[..i])
      {
        assert cs[..i + 1][..i] == cs[..i];
        ports := ports + cs[i].ports;
        i := i + 1;
      }
      assert cs[..i] == cs;
      var container := Container(NetworkContainerName, NetworkContainerImage, [], "", ports, [], 0, 0, [], None, "", false);
      var _ := runtime.pull(NetworkContainerImage);
      var run;
      id, run := RunContainer(pod, container, map[], "");
      effects := [Pull(NetworkContainerImage)] + run;
    }

    /** mountExternalVolumes: build and set up each volume, stopping at the first failure. */
    method MountExternalVolumes(manifest: Manifest)
      returns (err: Option<Error>, podVolumes: map<string, string>, effects: seq<Effect>)
      ensures Mounting(err, podVolumes, effects) == MountSpec(runtime, manifest)
    {
      var vols := manifest.volumes;
      podVolumes := map[];
      effects := [];
      var i := 0;
      while i < |vols|
        invariant 0 <= i <= |vols|
        invariant MountSpec(runtime, manifest) == MountFrom(runtime, manifest.id, vols[i..], podVolumes, effects)
      {
        assert vols[i..][1..] == vols[i + 1..];
        match runtime.buildVolume(vols[i], manifest.id) {
          case BuilderFailed(e) =>
            return Some(e), map[], effects;
          case NoBuilder =>
          case Builder(path, setUp) =>
            podVolumes := podVolumes[vols[i].name := path];
            effects := effects + [SetUp(VolumeKey(manifest.id, vols[i]))];
            if setUp.Some? {
              return setUp, map[], effects;
            }
        }
        i := i + 1;
      }
      err := None;
    }

    /** The body of syncPod's loop over the declared containers, for one container. */
    method SyncContainer(ctx: PodCtx, container: Container)
      returns (keep: set<DockerID>, killed: set<DockerID>, effects: seq<Effect>)
      requires ctx.rt == runtime && ctx.podFullName == runtime.podFullName(ctx.pod)
      ensures Step(keep, killed, effects) == ContainerStep(ctx, container)
    {
      keep, killed, effects := {}, {}, [];
      var expectedHash := runtime.hash(container);
      var found := FindPodContainer(ctx.listing, ctx.podFullName, container.name);
      if found.Some? {
        var dockerContainer := found.value;
        var containerID := dockerContainer.id;
        if dockerContainer.hash == 0 || dockerContainer.hash == expectedHash {
          var c := runtime.inspect(containerID);
          if c.Err? {
            return;
          }
          if !c.value && container.restartPolicy == "runOnce" {
            keep := {containerID};
            return;
          }
          var healthy := CheckHealth(
            runtime.healthChecker, ctx.podFullName, ctx.podState, container, dockerContainer.created, c.value, ctx.now);
          if healthy.err.Some? {
            keep := {containerID};
            return;
          }
          if healthy.status == Healthy {
            keep := {containerID};
            return;
          }
        }
        var err, kill := KillContainer(dockerContainer);
        effects := kill;
        if err.Some? {
          return;
        }
        killed := {containerID};
      }
      effects := effects + [Pull(container.image)];
      if runtime.pull(container.image).Some? {
        return;
      }
      var containerID, run := RunContainer(ctx.pod, container, ctx.volumes, "container:" + ctx.netID);
      effects := effects + run;
      if containerID.Ok? {
        keep := {containerID.value};
      }
    }

    /**
     * syncPod on the snapshot `dockerContainers`; `relisting` is the runtime's
     * answer should the pod's containers have to be listed again, `podIP` the
     * network container's address from the pod info, `now` the clock.
     */
    method SyncPod(
      pod: Pod, dockerContainers: DockerContainers, relisting: Result<DockerContainers, Error>,
      podIP: Option<string>, now: int)
      returns (err: Option<Error>, effects: seq<Effect>, containersToKeep: set<DockerID>)
      ensures var r := SyncPodSpec(runtime, pod, dockerContainers, relisting, podIP, now);
        err == r.err && effects == r.effects && containersToKeep == r.kept
    {
      var podFullName := runtime.podFullName(pod);
      var listing := dockerContainers;
      var netID: DockerID;
      effects := [];
      var network := FindPodContainer(listing, podFullName, NetworkContainerName);
      if network.Some? {
        netID := network.value.id;
      } else {
        var count, e, deleted := DeleteAllContainers(pod, podFullName, listing);
        effects := deleted;
        if e.Some? {
          return e, effects, {};
        }
        var dockerNetworkID, created := CreateNetworkContainer(pod);
        effects := effects + created;
        if dockerNetworkID.Err? {
          return Some(dockerNetworkID.error), effects, {};
        }
        netID := dockerNetworkID.value;
        if count > 0 {
          if relisting.Err? {
            return Some(relisting.error), effects, {};
          }
          listing := relisting.value;
        }
      }
      err, effects, containersToKeep := SyncPodAfterNet(pod, podFullName, netID, listing, effects, podIP, now);
    }

    /** syncPod once the network container is known: volumes, the container pass and the sweep. */
    method SyncPodAfterNet(
      pod: Pod, podFullName: string, netID: DockerID, listing: DockerContainers, prior: seq<Effect>,
      podIP: Option<string>, now: int)
      returns (err: Option<Error>, effects: seq<Effect>, containersToKeep: set<DockerID>)
      requires podFullName == runtime.podFullName(pod)
      ensures var r := AfterNet(runtime, pod, podFullName, netID, listing, prior, podIP, now);
        err == r.err && effects == r.effects && containersToKeep == r.kept
    {
      containersToKeep := {netID};
      var mountErr, podVolumes, mounted := MountExternalVolumes(pod.manifest);
      effects := prior + mounted;
      if mountErr.Some? {
        return mountErr, effects, containersToKeep;
      }

      var podState := PodState(podIP.GetOr(""));
      var ctx := PodCtx(runtime, pod, podFullName, netID, listing, podVolumes, podState, now);
      var keep, killedContainers, passed := ContainerPass(ctx, pod.manifest.containers);
      containersToKeep := containersToKeep + keep;
      effects := effects + passed;
      var swept := Sweep(podFullName, listing, containersToKeep, killedContainers);
      effects := effects + swept;
      err := None;
    }

    /** syncPod's loop over the declared containers. */
    method ContainerPass(ctx: PodCtx, cs: seq<Container>)
      returns (keep: set<DockerID>, killedContainers: set<DockerID>, effects: seq<Effect>)
      requires ctx.rt == runtime && ctx.podFullName == runtime.podFullName(ctx.pod)
      ensures Step(keep, killedContainers, effects) == PassOf(ctx, cs)
    {
      keep, killedContainers, effects := {}, {}, [];
      var i := 0;
      while i < |cs|
        invariant 0 <= i <= |cs|
        invariant Step(keep, killedContainers, effects) == PassOf(ctx, cs[..i])
      {
        assert cs[..i + 1][..i] == cs[..i];
        var k, killed, stepEffects := SyncContainer(ctx, cs[i]);
        keep := keep + k;
        killedContainers := killedContainers + killed;
        effects := effects + stepEffects;
        i := i + 1;
      }
      assert cs[..i] == cs;
    }

    /** syncPod's final sweep over the listing: kill the pod's containers neither kept nor killed. */
    method Sweep(podFullName: string, listing: DockerContainers, containersToKeep: set<DockerID>, killedContainers: set<DockerID>)
      returns (effects: seq<Effect>)
      ensures effects == SweepOf(podFullName, listing, containersToKeep + killedContainers)
    {
      effects := [];
      var j := 0;
      while j < |listing|
        invariant 0 <= j <= |listing|
        invariant effects == SweepOf(podFullName, listing[..j], containersToKeep + killedContainers)
      {
        assert listing[..j + 1][..j] == listing[..j];
        var container := listing[j];
        if container.podFullName == podFullName {
          if container.id !in containersToKeep && container.id !in killedContainers {
            var _, kill := KillContainer(container);
            effects := effects + kill;
          }
        }
        j := j + 1;
      }
      assert listing[..j] == listing;
    }

    /** getDesiredVolumes. */
    method GetDesiredVolumes(pods: seq<Pod>) returns (desiredVolumes: map<string, Volume>)
      ensures desiredVolumes == DesiredVolumes(pods)
    {
      desiredVolumes := map[];
      var i := 0;
      while i < |pods|
        invariant 0 <= i <= |pods|
        invariant desiredVolumes == DesiredVolumes(pods[..i])
      {
        assert pods[..i + 1][..i] == pods[..i];
        var pod := pods[i];
        var vols := pod.manifest.volumes;
        var j := 0;
        while j < |vols|
          invariant 0 <= j <= |vols|
          invariant desiredVolumes == PodVolumes(DesiredVolumes(pods[..i]), pod.manifest.id, vols[..j])
        {
          assert vols[..j + 1][..j] == vols[..j];
          var identifier := pod.manifest.id + "/" + vols[j].name;
          desiredVolumes := desiredVolumes[identifier := vols[j]];
          j := j + 1;
        }
        assert vols[..j] == vols;
        i := i + 1;
      }
      assert pods[..i] == pods;
    }

    /**
     * reconcileVolumes over the identifiers of the volumes currently on the
     * node: tear down each one no pod wants; teardown errors are only logged.
     */
    method ReconcileVolumes(pods: seq<Pod>, currentVolumes: seq<string>) returns (err: Option<Error>, effects: seq<Effect>)
      ensures err.None?
      ensures effects == ReconcileSpec(DesiredVolumes(pods), currentVolumes)
    {
      var desiredVolumes := GetDesiredVolumes(pods);
      effects := [];
      var i := 0;
      while i < |currentVolumes|
        invariant 0 <= i <= |currentVolumes|
        invariant effects == ReconcileSpec(desiredVolumes, currentVolumes[..i])
      {
        assert currentVolumes[..i + 1][..i] == currentVolumes[..i];
        var name := currentVolumes[i];
        if name !in desiredVolumes {
          var _ := runtime.tearDown(name);
          effects := effects + [TearDown(name)];
        }
        i := i + 1;
      }
      assert currentVolumes[..i] == currentVolumes;
      err := None;
    }

    /**
     * SyncPods, given the runtime's answers to its two listings and the
     * identifiers of the current volumes. `started` are the pods whose worker
     * was started; each runs syncPod on the first listing.
     */
    method SyncPods(
      pods: seq<Pod>, first: Result<DockerContainers, Error>, second: Result<DockerContainers, Error>,
      currentVolumes: seq<string>)
      returns (err: Option<Error>, effects: seq<Effect>, started: seq<Pod>)
      requires podWorkers.Valid()
      modifies podWorkers
      ensures podWorkers.Valid()
      ensures var r := SyncPodsSpec(runtime, old(podWorkers.State()), pods, first, second, currentVolumes);
        err == r.err && effects == r.effects && started == r.started && podWorkers.State() == r.pool
    {
      ghost var pool := podWorkers.State();
      if first.Err? {
        return Some(first.error), [], [];
      }
      var desiredContainers;
      desiredContainers, effects, started := DesireAndDispatch(pods);

      if second.Err? {
        return Some(second.error), effects, started;
      }
      var kills;
      err, kills := KillUndesiredContainers(desiredContainers, second.value);
      effects := effects + kills;

      var _, teardowns := ReconcileVolumes(pods, currentVolumes);
      effects := effects + teardowns;
    }

    /** The loop of SyncPods over the pods: record the desired pairs and hand each pod to a worker. */
    method DesireAndDispatch(pods: seq<Pod>)
      returns (desiredContainers: set<(string, string)>, effects: seq<Effect>, started: seq<Pod>)
      requires podWorkers.Valid()
      modifies podWorkers
      ensures podWorkers.Valid()
      ensures desiredContainers == DesiredContainers(runtime, pods)
      ensures (podWorkers.State(), started) == DispatchFold(runtime, old(podWorkers.State()), pods)
      ensures effects == Dispatches(runtime, started)
    {
      ghost var pool := podWorkers.State();
      desiredContainers := {};
      started := [];
      effects := [];
      var i := 0;
      while i < |pods|
        invariant 0 <= i <= |pods|
        invariant podWorkers.Valid()
        invariant desiredContainers == DesiredContainers(runtime, pods[..i])
        invariant podWorkers.State() == DispatchFold(runtime, pool, pods[..i]).0
        invariant started == DispatchFold(runtime, pool, pods[..i]).1
        invariant effects == Dispatches(runtime, started)
      {
        assert pods[..i + 1][..i] == pods[..i];
        var pod := pods[i];
        var podFullName := runtime.podFullName(pod);
        desiredContainers := AddPodContainers(desiredContainers, podFullName, pod.manifest.containers);
        ghost var state := podWorkers.State();
        var dispatched := podWorkers.Run(podFullName);
        if dispatched {
          started := started + [pod];
          effects := effects + [Dispatch(podFullName)];
        }
        assert pods[..i + 1][i] == pod;
        i := i + 1;
      }
      assert pods[..i] == pods;
    }

    /** The inner loop: the pod's network container and each declared container. */
    method AddPodContainers(desired: set<(string, string)>, podFullName: string, cs: seq<Container>)
      returns (desiredContainers: set<(string, string)>)
      ensures desiredContainers == desired + PodContainers(podFullName, cs)
    {
      desiredContainers := desired + {(podFullName, NetworkContainerName)};
      var j := 0;
      while j < |cs|
        invariant 0 <= j <= |cs|
        invariant desiredContainers == desired + PodContainers(podFullName, cs[..j])
      {
        assert forall c :: c in cs[..j + 1] <==> c in cs[..j] || c == cs[j];
        desiredContainers := desiredContainers + {(podFullName, cs[j].name)};
        j := j + 1;
      }
      assert cs[..j] == cs;
    }

    /** The loop of SyncPods over the second listing; `err` is that of the last kill made. */
    method KillUndesiredContainers(desiredContainers: set<(string, string)>, existingContainers: DockerContainers)
      returns (err: Option<Error>, effects: seq<Effect>)
      ensures err == LastKillError(runtime, desiredContainers, existingContainers)
      ensures effects == KillUndesired(runtime, desiredContainers, existingContainers)
    {
      err := None;
      effects := [];
      var k := 0;
      while k < |existingContainers|
        invariant 0 <= k <= |existingContainers|
        invariant err == LastKillError(runtime, desiredContainers, existingContainers[..k])
        invariant effects == KillUndesired(runtime, desiredContainers, existingContainers[..k])
      {
        assert existingContainers[..k + 1][..k] == existingContainers[..k];
        var container := existingContainers[k];
        if (container.podFullName, container.containerName) !in desiredContainers {
          var kill;
          err, kill := KillContainer(container);
          effects := effects + kill;
        }
        k := k + 1;
      }
      assert existingContainers[..k] == existingContainers;
    }
  }
}
