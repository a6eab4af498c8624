/**
 * What one reconciliation pass of a single pod (syncPod) does, as functions
 * of the runtime's answers: the calls it makes on the node, in order, the
 * containers it decides to keep, and the error it returns.
 */
module PodSyncSpec {
  import opened Wrappers
  import opened Strings
  import opened KubeTypes
  import opened ContainerConfigs
  import opened Health

  // ------------------------------------------------------------ deleteAllContainers

  /** Progress of deleteAllContainers: containers found, removal errors, calls made. */
  datatype Deletion = Deletion(count: nat, errs: seq<Error>, effects: seq<Effect>)

  /** The kills of deleteAllContainers over the declared containers `cs`, in declaration order. */
  function DeleteFold(rt: Runtime, podFullName: string, listing: DockerContainers, cs: seq<Container>): Deletion
    decreases |cs|
  {
    if cs == [] then Deletion(0, [], [])
    else
      var d := DeleteFold(rt, podFullName, listing, cs[..|cs| - 1]);
      match FindPodContainer(listing, podFullName, cs[|cs| - 1].name)
      case None => d
      case Some(dc) =>
        var err := rt.remove(dc.id);
        Deletion(d.count + 1, d.errs + (if err.Some? then [err.value] else []), d.effects + [Kill(dc.id)])
  }

  datatype DeleteResult = DeleteResult(count: int, err: Option<Error>, effects: seq<Effect>)

  function DeleteError(errs: seq<Error>): Error {
    "failed to delete containers ([" + Join(errs, ' ') + "])"
  }

  /** deleteAllContainers: the number killed, or -1 and a combined error when any removal failed. */
  function DeleteAllSpec(rt: Runtime, pod: Pod, podFullName: string, listing: DockerContainers): DeleteResult
  {
    var d := DeleteFold(rt, podFullName, listing, pod.manifest.containers);
    if |d.errs| > 0 then DeleteResult(-1, Some(DeleteError(d.errs)), d.effects)
    else DeleteResult(d.count, None, d.effects)
  }

  /** The declared container `c` is found in the listing as the container `id`. */
  predicate FoundAs(listing: DockerContainers, podFullName: string, c: Container, id: DockerID) {
    FindPodContainer(listing, podFullName, c.name).Some? && FindPodContainer(listing, podFullName, c.name).value.id == id
  }

  /** One more declared container: its found instance, if any, is killed and counted. */
  lemma DeleteFoldSnoc(rt: Runtime, podFullName: string, listing: DockerContainers, cs: seq<Container>)
    requires cs != []
    ensures var n := |cs| - 1;
      var prev := DeleteFold(rt, podFullName, listing, cs[..n]);
      var d := DeleteFold(rt, podFullName, listing, cs);
      var found := FindPodContainer(listing, podFullName, cs[n].name);
      && d.effects == prev.effects + (if found.Some? then [Kill(found.value.id)] else [])
      && d.count == prev.count + (if found.Some? then 1 else 0)
      && |d.errs| <= |prev.errs| + (if found.Some? then 1 else 0)
  {
  }

  /** Each kill counts once, and only kills are made. */
  lemma {:induction false} DeleteFoldCounts(rt: Runtime, podFullName: string, listing: DockerContainers, cs: seq<Container>)
    ensures var d := DeleteFold(rt, podFullName, listing, cs);
      d.count == |d.effects| && |d.errs| <= d.count && forall e :: e in d.effects ==> e.Kill?
    decreases |cs|
  {
    if cs != [] {
      DeleteFoldCounts(rt, podFullName, listing, cs[..|cs| - 1]);
      DeleteFoldSnoc(rt, podFullName, listing, cs);
    }
  }

  /** Every container killed was found for some declared container. */
  lemma {:induction false} KilledWereFound(rt: Runtime, podFullName: string, listing: DockerContainers, cs: seq<Container>, id: DockerID)
    requires Kill(id) in DeleteFold(rt, podFullName, listing, cs).effects
    ensures exists i :: 0 <= i < |cs| && FoundAs(listing, podFullName, cs[i], id)
    decreases |cs|
  {
    var n := |cs| - 1;
    var init := cs[..n];
    DeleteFoldSnoc(rt, podFullName, listing, cs);
    if Kill(id) in DeleteFold(rt, podFullName, listing, init).effects {
      KilledWereFound(rt, podFullName, listing, init, id);
      var i :| 0 <= i < n && FoundAs(listing, podFullName, init[i], id);
      assert init[i] == cs[i];
    } else {
      assert FoundAs(listing, podFullName, cs[n], id);
    }
  }

  /** Every container found for a declared container is killed. */
  lemma {:induction false} FoundWereKilled(rt: Runtime, podFullName: string, listing: DockerContainers, cs: seq<Container>, i: int, id: DockerID)
    requires 0 <= i < |cs| && FoundAs(listing, podFullName, cs[i], id)
    ensures Kill(id) in DeleteFold(rt, podFullName, listing, cs).effects
    decreases |cs|
  {
    var n := |cs| - 1;
    var init := cs[..n];
    DeleteFoldSnoc(rt, podFullName, listing, cs);
    if i < n {
      assert init[i] == cs[i];
      FoundWereKilled(rt, podFullName, listing, init, i, id);
    }
  }

  /**
   * deleteAllContainers kills exactly the listed containers that FindPodContainer
   * finds for a declared name (never the network container unless declared), one
   * call each, and counts them.
   */
  lemma DeleteFoldKills(rt: Runtime, podFullName: string, listing: DockerContainers, cs: seq<Container>)
    ensures var d := DeleteFold(rt, podFullName, listing, cs);
      && d.count == |d.effects|
      && |d.errs| <= d.count
      && (forall e :: e in d.effects ==> e.Kill?)
      && (forall id :: Kill(id) in d.effects <==> exists i :: 0 <= i < |cs| && FoundAs(listing, podFullName, cs[i], id))
  {
    DeleteFoldCounts(rt, podFullName, listing, cs);
    var d := DeleteFold(rt, podFullName, listing, cs);
    forall id ensures Kill(id) in d.effects <==> exists i :: 0 <= i < |cs| && FoundAs(listing, podFullName, cs[i], id) {
      if Kill(id) in d.effects {
        KilledWereFound(rt, podFullName, listing, cs, id);
      }
      if exists i :: 0 <= i < |cs| && FoundAs(listing, podFullName, cs[i], id) {
        var i :| 0 <= i < |cs| && FoundAs(listing, podFullName, cs[i], id);
        FoundWereKilled(rt, podFullName, listing, cs, i, id);
      }
    }
  }

  /** The error comes back exactly when a removal failed; then the count is -1. */
  lemma DeleteAllFails(rt: Runtime, pod: Pod, podFullName: string, listing: DockerContainers)
    ensures var r := DeleteAllSpec(rt, pod, podFullName, listing);
      && (r.err.Some? <==> exists e :: e in r.effects && e.Kill? && rt.remove(e.id).Some?)
      && (r.err.Some? ==> r.count == -1)
      && (r.err.None? ==> r.count == |r.effects|)
  {
    DeleteFoldKills(rt, podFullName, listing, pod.manifest.containers);
    DeleteFoldErrors(rt, podFullName, listing, pod.manifest.containers);
  }

  lemma {:induction false} DeleteFoldErrors(rt: Runtime, podFullName: string, listing: DockerContainers, cs: seq<Container>)
    ensures var d := DeleteFold(rt, podFullName, listing, cs);
      (|d.errs| > 0 <==> exists e :: e in d.effects && e.Kill? && rt.remove(e.id).Some?)
    decreases |cs|
  {
    if cs != [] {
      DeleteFoldErrors(rt, podFullName, listing, cs[..|cs| - 1]);
    }
  }

  // ------------------------------------------------------------ mountExternalVolumes

  /** The identifier of a pod's volume: "podID/volumeName". */
  function VolumeKey(podID: string, v: Volume): string { podID + "/" + v.name }

  /** Progress of mountExternalVolumes: an error ends it, otherwise the host path of each set-up volume. */
  datatype Mounting = Mounting(err: Option<Error>, paths: map<string, string>, effects: seq<Effect>)

  /** mountExternalVolumes from the volume list `vols` on, with the paths and calls so far. */
  function MountFrom(rt: Runtime, podID: string, vols: seq<Volume>, paths: map<string, string>, effects: seq<Effect>): Mounting
    decreases |vols|
  {
    if vols == [] then Mounting(None, paths, effects)
    else
      match rt.buildVolume(vols[0], podID)
      case BuilderFailed(e) => Mounting(Some(e), map[], effects)
      case NoBuilder => MountFrom(rt, podID, vols[1..], paths, effects)
      case Builder(path, setUp) =>
        var eff := effects + [SetUp(VolumeKey(podID, vols[0]))];
        if setUp.Some? then Mounting(setUp, map[], eff)
        else MountFrom(rt, podID, vols[1..], paths[vols[0].name := path], eff)
  }

  function MountSpec(rt: Runtime, manifest: Manifest): Mounting {
    MountFrom(rt, manifest.id, manifest.volumes, map[], [])
  }

  /** A volume that gets a builder whose SetUp succeeds. */
  predicate Mountable(rt: Runtime, podID: string, v: Volume) {
    rt.buildVolume(v, podID).NoBuilder? || (rt.buildVolume(v, podID).Builder? && rt.buildVolume(v, podID).setUp.None?)
  }

  /**
   * Mounting succeeds exactly when every volume is mountable; then each
   * volume with a builder is set up, in order, and its name maps to its path.
   */
  lemma {:induction false} MountFromSucceeds(
    rt: Runtime, podID: string, vols: seq<Volume>, paths: map<string, string>, effects: seq<Effect>)
    ensures var m := MountFrom(rt, podID, vols, paths, effects);
      && (m.err.None? <==> forall i :: 0 <= i < |vols| ==> Mountable(rt, podID, vols[i]))
      && (m.err.None? ==>
            && effects <= m.effects
            && (forall v :: v in vols && rt.buildVolume(v, podID).Builder? ==> v.name in m.paths)
            && (forall e :: e in m.effects[|effects|..] <==>
                  exists v :: v in vols && rt.buildVolume(v, podID).Builder? && e == SetUp(VolumeKey(podID, v))))
    decreases |vols|
  {
    if vols != [] {
      var v := vols[0];
      var rest := vols[1..];
      assert forall i :: 1 <= i < |vols| ==> vols[i] == rest[i - 1];
      assert forall x :: x in vols <==> x == v || x in rest;
      match rt.buildVolume(v, podID)
      case BuilderFailed(e) =>
      case NoBuilder =>
        MountFromSucceeds(rt, podID, rest, paths, effects);
        assert forall i :: 0 <= i < |rest| ==> rest[i] == vols[i + 1];
      case Builder(path, setUp) =>
        var eff := effects + [SetUp(VolumeKey(podID, v))];
        if setUp.None? {
          MountFromSucceeds(rt, podID, rest, paths[v.name := path], eff);
          assert forall i :: 0 <= i < |rest| ==> rest[i] == vols[i + 1];
          var m := MountFrom(rt, podID, vols, paths, effects);
          if m.err.None? {
            assert m.effects[|effects|..] == [SetUp(VolumeKey(podID, v))] + m.effects[|eff|..];
            MountedNamesStay(rt, podID, rest, paths[v.name := path], eff, v.name);
          }
        }
    }
  }

  /** A volume once in the path map stays there while mounting goes on without error. */
  lemma {:induction false} MountedNamesStay(
    rt: Runtime, podID: string, vols: seq<Volume>, paths: map<string, string>, effects: seq<Effect>, name: string)
    requires name in paths
    ensures var m := MountFrom(rt, podID, vols, paths, effects); m.err.None? ==> name in m.paths
    decreases |vols|
  {
    if vols != [] {
      match rt.buildVolume(vols[0], podID)
      case BuilderFailed(e) =>
      case NoBuilder => MountedNamesStay(rt, podID, vols[1..], paths, effects, name);
      case Builder(path, setUp) =>
        MountedNamesStay(rt, podID, vols[1..], paths[vols[0].name := path], effects + [SetUp(VolumeKey(podID, vols[0]))], name);
    }
  }

  /**
   * Volume i gets a builder, and no later volume of the same name does: its
   * path is the one the pod's volume map ends up holding for that name.
   */
  predicate LastBuiltAt(rt: Runtime, podID: string, vols: seq<Volume>, i: int) {
    && 0 <= i < |vols|
    && rt.buildVolume(vols[i], podID).Builder?
    && forall j :: i < j < |vols| && vols[j].name == vols[i].name ==> !rt.buildVolume(vols[j], podID).Builder?
  }

  /** Mounting without error maps each name to the path of the last volume of that name with a builder. */
  lemma {:induction false} MountedPathIsLastBuilt(
    rt: Runtime, podID: string, vols: seq<Volume>, paths: map<string, string>, effects: seq<Effect>, i: int)
    requires LastBuiltAt(rt, podID, vols, i)
    ensures var m := MountFrom(rt, podID, vols, paths, effects);
      m.err.None? ==> vols[i].name in m.paths && m.paths[vols[i].name] == rt.buildVolume(vols[i], podID).path
    decreases |vols|
  {
    var v := vols[0];
    var rest := vols[1..];
    assert forall j :: 1 <= j < |vols| ==> vols[j] == rest[j - 1];
    match rt.buildVolume(v, podID)
    case BuilderFailed(e) =>
    case NoBuilder =>
      MountedPathIsLastBuilt(rt, podID, rest, paths, effects, i - 1);
    case Builder(path, setUp) =>
      var eff := effects + [SetUp(VolumeKey(podID, v))];
      if setUp.None? {
        if i == 0 {
          MountKeepsUnbuilt(rt, podID, rest, paths[v.name := path], eff, v.name);
        } else {
          MountedPathIsLastBuilt(rt, podID, rest, paths[v.name := path], eff, i - 1);
        }
      }
  }

  /** A name no remaining volume with a builder carries keeps its path while mounting goes on. */
  lemma {:induction false} MountKeepsUnbuilt(
    rt: Runtime, podID: string, vols: seq<Volume>, paths: map<string, string>, effects: seq<Effect>, name: string)
    requires name in paths
    requires forall j :: 0 <= j < |vols| && vols[j].name == name ==> !rt.buildVolume(vols[j], podID).Builder?
    ensures var m := MountFrom(rt, podID, vols, paths, effects);
      m.err.None? ==> name in m.paths && m.paths[name] == paths[name]
    decreases |vols|
  {
    if vols != [] {
      var rest := vols[1..];
      assert forall j :: 0 <= j < |rest| ==> rest[j] == vols[j + 1];
      match rt.buildVolume(vols[0], podID)
      case BuilderFailed(e) =>
      case NoBuilder => MountKeepsUnbuilt(rt, podID, rest, paths, effects, name);
      case Builder(path, setUp) =>
        MountKeepsUnbuilt(rt, podID, rest, paths[vols[0].name := path], effects + [SetUp(VolumeKey(podID, vols[0]))], name);
    }
  }

  /** The path map gains no name but those of volumes with a builder. */
  lemma {:induction false} MountedNamesAreBuilt(
    rt: Runtime, podID: string, vols: seq<Volume>, paths: map<string, string>, effects: seq<Effect>)
    ensures var m := MountFrom(rt, podID, vols, paths, effects);
      m.err.None? ==> forall name :: name in m.paths ==>
        name in paths || exists v :: v in vols && rt.buildVolume(v, podID).Builder? && v.name == name
    decreases |vols|
  {
    if vols != [] {
      var v := vols[0];
      var rest := vols[1..];
      assert forall x :: x in rest ==> x in vols;
      match rt.buildVolume(v, podID)
      case BuilderFailed(e) =>
      case NoBuilder => MountedNamesAreBuilt(rt, podID, rest, paths, effects);
      case Builder(path, setUp) =>
        MountedNamesAreBuilt(rt, podID, rest, paths[v.name := path], effects + [SetUp(VolumeKey(podID, v))]);
        assert v in vols && rt.buildVolume(v, podID).Builder?;
    }
  }

  // ------------------------------------------------------------ the network container

  /** The configuration createNetworkContainer runs: no volumes, default network mode. */
  function NetConfig(rt: Runtime, pod: Pod, podFullName: string): (cfg: ContainerConfig)
    ensures cfg.containerName == NetworkContainerName && cfg.image == NetworkContainerImage
    ensures cfg.binds == [] && cfg.networkMode == ""
  {
    var net := NetworkContainer(pod);
    RunConfig(podFullName, pod, net, rt.hash(net), map[], "")
  }

  // ------------------------------------------------------------ the per-container pass

  /** What syncPod knows when it walks the declared containers. */
  datatype PodCtx = PodCtx(
    rt: Runtime, pod: Pod, podFullName: string, netID: DockerID, listing: DockerContainers,
    volumes: map<string, string>, podState: PodState, now: int)

  /** One container's (or a whole pass's) contribution to containersToKeep, killedContainers and the calls made. */
  datatype Step = Step(keep: set<DockerID>, killed: set<DockerID>, effects: seq<Effect>)

  /** The configuration of a declared container: the pod's volumes, joined to the network container. */
  function ContainerRunConfig(ctx: PodCtx, c: Container): (cfg: ContainerConfig)
    ensures cfg.containerName == c.name && cfg.image == c.image && cfg.podFullName == ctx.podFullName
    ensures cfg.networkMode == "container:" + ctx.netID
  {
    RunConfig(ctx.podFullName, ctx.pod, c, ctx.rt.hash(c), ctx.volumes, "container:" + ctx.netID)
  }

  /** Pull the image and run the container; a failing pull or run skips it. */
  function Create(ctx: PodCtx, c: Container, killed: set<DockerID>, prior: seq<Effect>): Step
  {
    var eff := prior + [Pull(c.image)];
    if ctx.rt.pull(c.image).Some? then Step({}, killed, eff)
    else
      var cfg := ContainerRunConfig(ctx, c);
      match ctx.rt.run(cfg)
      case Err(_) => Step({}, killed, eff + [Run(cfg)])
      case Ok(id) => Step({id}, killed, eff + [Run(cfg)])
  }

  /** Kill the found container; only a successful kill leads on to pull and run. */
  function Replace(ctx: PodCtx, c: Container, dc: DockerContainer): Step
  {
    if ctx.rt.remove(dc.id).Some? then Step({}, {}, [Kill(dc.id)])
    else Create(ctx, c, {dc.id}, [Kill(dc.id)])
  }

  /** Whether a found, unchanged container that inspects as `running` is left alone. */
  predicate KeepsFound(ctx: PodCtx, c: Container, dc: DockerContainer, running: bool) {
    (!running && c.restartPolicy == "runOnce")
    || (var h := CheckHealth(ctx.rt.healthChecker, ctx.podFullName, ctx.podState, c, dc.created, running, ctx.now);
        h.err.Some? || h.status == Healthy)
  }

  /** The body of syncPod's loop over the declared containers, for container `c`. */
  function ContainerStep(ctx: PodCtx, c: Container): Step
  {
    match FindPodContainer(ctx.listing, ctx.podFullName, c.name)
    case None => Create(ctx, c, {}, [])
    case Some(dc) =>
      if dc.hash == 0 || dc.hash == ctx.rt.hash(c) then
        match ctx.rt.inspect(dc.id)
        case Err(_) => Step({}, {}, [])
        case Ok(running) =>
          if KeepsFound(ctx, c, dc, running) then Step({dc.id}, {}, [])
          else Replace(ctx, c, dc)
      else Replace(ctx, c, dc)
  }

  /** The loop over the declared containers `cs`, in declaration order. */
  function PassOf(ctx: PodCtx, cs: seq<Container>): Step
    decreases |cs|
  {
    if cs == [] then Step({}, {}, [])
    else
      var s := PassOf(ctx, cs[..|cs| - 1]);
      var t := ContainerStep(ctx, cs[|cs| - 1]);
      Step(s.keep + t.keep, s.killed + t.killed, s.effects + t.effects)
  }

  /**
   * One container's step: an unchanged container is kept, untouched, exactly
   * when it is stopped under "runOnce", its health check errs, or it is
   * healthy; a failed inspect leaves it alone for this pass.
   */
  lemma FoundUnchangedContainer(ctx: PodCtx, c: Container, dc: DockerContainer)
    requires FindPodContainer(ctx.listing, ctx.podFullName, c.name) == Some(dc)
    requires dc.hash == 0 || dc.hash == ctx.rt.hash(c)
    ensures ctx.rt.inspect(dc.id).Err? ==> ContainerStep(ctx, c) == Step({}, {}, [])
    ensures ctx.rt.inspect(dc.id).Ok? ==>
      (dc.id in ContainerStep(ctx, c).keep && ContainerStep(ctx, c).effects == []
       <==> KeepsFound(ctx, c, dc, ctx.rt.inspect(dc.id).value))
  {
  }

  /**
   * A found container that must be replaced: its recorded hash differs from
   * the declared one, or it is unchanged, inspects fine and is not kept by
   * the restart and health rules (it is unhealthy).
   */
  predicate MustReplace(ctx: PodCtx, c: Container, dc: DockerContainer) {
    || (dc.hash != 0 && dc.hash != ctx.rt.hash(c))
    || (ctx.rt.inspect(dc.id).Ok? && !KeepsFound(ctx, c, dc, ctx.rt.inspect(dc.id).value))
  }

  /**
   * A changed or unhealthy container is killed first. A failed kill ends its
   * step. Only a successful kill marks it killed and leads on to the pull; a
   * failed pull ends the step before any run; after a successful pull the new
   * container is run and kept exactly when the run succeeds.
   */
  lemma FoundContainerReplaced(ctx: PodCtx, c: Container, dc: DockerContainer)
    requires FindPodContainer(ctx.listing, ctx.podFullName, c.name) == Some(dc)
    requires MustReplace(ctx, c, dc)
    ensures var s := ContainerStep(ctx, c);
      var cfg := ContainerRunConfig(ctx, c);
      && (ctx.rt.remove(dc.id).Some? ==> s == Step({}, {}, [Kill(dc.id)]))
      && (ctx.rt.remove(dc.id).None? && ctx.rt.pull(c.image).Some? ==>
            s == Step({}, {dc.id}, [Kill(dc.id), Pull(c.image)]))
      && (ctx.rt.remove(dc.id).None? && ctx.rt.pull(c.image).None? ==>
            s == Step(if ctx.rt.run(cfg).Ok? then {ctx.rt.run(cfg).value} else {}, {dc.id},
                      [Kill(dc.id), Pull(c.image), Run(cfg)]))
  {
  }

  /**
   * A declared container with no listed instance is created: a failed pull
   * ends its step; otherwise it is run, and kept exactly when the run succeeds.
   * Nothing is killed.
   */
  lemma MissingContainerCreated(ctx: PodCtx, c: Container)
    requires FindPodContainer(ctx.listing, ctx.podFullName, c.name).None?
    ensures var s := ContainerStep(ctx, c);
      var cfg := ContainerRunConfig(ctx, c);
      && (ctx.rt.pull(c.image).Some? ==> s == Step({}, {}, [Pull(c.image)]))
      && (ctx.rt.pull(c.image).None? ==>
            s == Step(if ctx.rt.run(cfg).Ok? then {ctx.rt.run(cfg).value} else {}, {}, [Pull(c.image), Run(cfg)]))
  {
  }

  /** Every call a container's step makes concerns that container alone. */
  lemma {:induction false} StepConcernsItsContainer(ctx: PodCtx, c: Container, e: Effect)
    requires e in ContainerStep(ctx, c).effects
    ensures e.Kill? ==> exists dc :: dc in ctx.listing && dc.podFullName == ctx.podFullName && dc.containerName == c.name && dc.id == e.id
    ensures e.Pull? ==> e.image == c.image
    ensures e.Run? ==> e.config == ContainerRunConfig(ctx, c)
    ensures !e.SetUp? && !e.TearDown? && !e.Dispatch?
  {
    var f := FindPodContainer(ctx.listing, ctx.podFullName, c.name);
    if e.Kill? {
      assert f.Some? && e == Kill(f.value.id);
    }
  }

  /** A container marked killed had its kill call made in the same pass. */
  lemma {:induction false} KilledWereKilled(ctx: PodCtx, cs: seq<Container>, id: DockerID)
    requires id in PassOf(ctx, cs).killed
    ensures Kill(id) in PassOf(ctx, cs).effects
    decreases |cs|
  {
    var n := |cs| - 1;
    var t := ContainerStep(ctx, cs[n]);
    if id in t.killed {
      assert t.effects[0] == Kill(id);
    } else {
      KilledWereKilled(ctx, cs[..n], id);
    }
  }

  // ------------------------------------------------------------ the sweep

  /** The final sweep: kill each listed container of the pod that is in neither `spare` set. */
  function SweepOf(podFullName: string, listing: DockerContainers, spare: set<DockerID>): seq<Effect>
    decreases |listing|
  {
    if listing == [] then []
    else
      var dc := listing[|listing| - 1];
      SweepOf(podFullName, listing[..|listing| - 1], spare)
        + (if dc.podFullName == podFullName && dc.id !in spare then [Kill(dc.id)] else [])
  }

  /** When every listed container of the pod is spared, the sweep makes no call. */
  lemma {:induction false} SweepNothingLeft(podFullName: string, listing: DockerContainers, spare: set<DockerID>)
    requires forall dc :: dc in listing && dc.podFullName == podFullName ==> dc.id in spare
    ensures SweepOf(podFullName, listing, spare) == []
    decreases |listing|
  {
    if listing != [] {
      var n := |listing| - 1;
      assert listing[n] in listing;
      forall dc | dc in listing[..n] && dc.podFullName == podFullName ensures dc.id in spare {
        assert dc in listing;
      }
      SweepNothingLeft(podFullName, listing[..n], spare);
    }
  }

  /** The sweep kills exactly the pod's listed containers that were neither kept nor killed, and nothing else. */
  lemma {:induction false} SweepKills(podFullName: string, listing: DockerContainers, spare: set<DockerID>)
    ensures forall e :: e in SweepOf(podFullName, listing, spare) ==> e.Kill?
    ensures forall id :: Kill(id) in SweepOf(podFullName, listing, spare) <==>
      exists dc :: dc in listing && dc.podFullName == podFullName && dc.id == id && id !in spare
    decreases |listing|
  {
    if listing != [] {
      var n := |listing| - 1;
      SweepKills(podFullName, listing[..n], spare);
      assert forall dc :: dc in listing <==> dc in listing[..n] || dc == listing[n];
    }
  }

  // ------------------------------------------------------------ syncPod

  /**
   * The outcome of syncPod: the error it returns, the node calls it made, the
   * containersToKeep it ended with and the listing its pass worked on.
   */
  datatype PodSync = PodSync(err: Option<Error>, effects: seq<Effect>, kept: set<DockerID>, listing: DockerContainers)

  /** syncPod after the network container is settled: volumes, the container pass, the sweep. */
  function AfterNet(
    rt: Runtime, pod: Pod, podFullName: string, netID: DockerID, listing: DockerContainers,
    prior: seq<Effect>, podIP: Option<string>, now: int): PodSync
  {
    var m := MountSpec(rt, pod.manifest);
    if m.err.Some? then PodSync(m.err, prior + m.effects, {netID}, listing)
    else
      var ctx := PodCtx(rt, pod, podFullName, netID, listing, m.paths, PodState(podIP.GetOr("")), now);
      var pass := PassOf(ctx, pod.manifest.containers);
      var kept := {netID} + pass.keep;
      PodSync(None, prior + m.effects + pass.effects + SweepOf(podFullName, listing, kept + pass.killed), kept, listing)
  }

  /**
   * syncPod on `listing`; `relisting` is what listing the runtime again gives
   * (used only after a missing network container was replaced and some
   * containers were deleted), and `podIP` the network container's address if
   * the pod info has one.
   */
  function SyncPodSpec(
    rt: Runtime, pod: Pod, listing: DockerContainers, relisting: Result<DockerContainers, Error>,
    podIP: Option<string>, now: int): PodSync
  {
    var podFullName := rt.podFullName(pod);
    match FindPodContainer(listing, podFullName, NetworkContainerName)
    case Some(net) => AfterNet(rt, pod, podFullName, net.id, listing, [], podIP, now)
    case None =>
      var del := DeleteAllSpec(rt, pod, podFullName, listing);
      if del.err.Some? then PodSync(del.err, del.effects, {}, listing)
      else
        var cfg := NetConfig(rt, pod, podFullName);
        var eff := del.effects + [Pull(NetworkContainerImage), Run(cfg)];
        match rt.run(cfg)
        case Err(e) => PodSync(Some(e), eff, {}, listing)
        case Ok(netID) =>
          if del.count > 0 then
            match relisting
            case Err(e) => PodSync(Some(e), eff, {}, listing)
            case Ok(l) => AfterNet(rt, pod, podFullName, netID, l, eff, podIP, now)
          else AfterNet(rt, pod, podFullName, netID, listing, eff, podIP, now)
  }

  /** A call that starts one of the pod's declared containers. */
  predicate RunsDeclared(e: Effect) {
    e.Run? && e.config.containerName != NetworkContainerName
  }

  /**
   * A pod-fatal failure: when the network container is missing and deleting
   * the old containers or starting a new network container fails, or when a
   * volume cannot be mounted, syncPod returns that error without starting any
   * declared container.
   */
  lemma PodFatalFailures(
    rt: Runtime, pod: Pod, listing: DockerContainers, relisting: Result<DockerContainers, Error>,
    podIP: Option<string>, now: int)
    ensures var r := SyncPodSpec(rt, pod, listing, relisting, podIP, now);
      var podFullName := rt.podFullName(pod);
      && (FindPodContainer(listing, podFullName, NetworkContainerName).None? ==>
            var del := DeleteAllSpec(rt, pod, podFullName, listing);
            && (del.err.Some? ==> r.err == del.err && r.effects == del.effects)
            && (del.err.None? && rt.run(NetConfig(rt, pod, podFullName)).Err? ==>
                  r.err == Some(rt.run(NetConfig(rt, pod, podFullName)).error)))
      && (MountSpec(rt, pod.manifest).err.Some? ==> r.err.Some?)
      && (r.err.Some? ==> forall e :: e in r.effects ==> !RunsDeclared(e))
  {
    var podFullName := rt.podFullName(pod);
    var del := DeleteAllSpec(rt, pod, podFullName, listing);
    DeleteFoldKills(rt, podFullName, listing, pod.manifest.containers);
    MountEffects(rt, pod.manifest);
  }

  /** Mounting only sets volumes up. */
  lemma MountEffects(rt: Runtime, manifest: Manifest)
    ensures forall e :: e in MountSpec(rt, manifest).effects ==> e.SetUp?
  {
    MountFromEffects(rt, manifest.id, manifest.volumes, map[], []);
  }

  lemma {:induction false} MountFromEffects(
    rt: Runtime, podID: string, vols: seq<Volume>, paths: map<string, string>, effects: seq<Effect>)
    requires forall e :: e in effects ==> e.SetUp?
    ensures forall e :: e in MountFrom(rt, podID, vols, paths, effects).effects ==> e.SetUp?
    decreases |vols|
  {
    if vols != [] {
      match rt.buildVolume(vols[0], podID)
      case BuilderFailed(e) =>
      case NoBuilder => MountFromEffects(rt, podID, vols[1..], paths, effects);
      case Builder(path, setUp) =>
        MountFromEffects(rt, podID, vols[1..], paths[vols[0].name := path], effects + [SetUp(VolumeKey(podID, vols[0]))]);
    }
  }

  /** Once the network container and the volumes are in place, syncPod returns no error. */
  lemma SyncPodSucceeds(
    rt: Runtime, pod: Pod, listing: DockerContainers, relisting: Result<DockerContainers, Error>,
    podIP: Option<string>, now: int)
    requires FindPodContainer(listing, rt.podFullName(pod), NetworkContainerName).Some?
    requires MountSpec(rt, pod.manifest).err.None?
    ensures SyncPodSpec(rt, pod, listing, relisting, podIP, now).err.None?
    ensures SyncPodSpec(rt, pod, listing, relisting, podIP, now).listing == listing
  {
  }

  /**
   * The sweep: when syncPod returns no error, every container of this pod in
   * the listing it worked on is either kept or killed (that it kills nothing
   * else is SyncPodKillsOwnContainers).
   */
  lemma {:induction false} SyncPodSweeps(
    rt: Runtime, pod: Pod, listing: DockerContainers, relisting: Result<DockerContainers, Error>,
    podIP: Option<string>, now: int)
    ensures var r := SyncPodSpec(rt, pod, listing, relisting, podIP, now);
      r.err.None? ==>
        forall dc :: dc in r.listing && dc.podFullName == rt.podFullName(pod) ==>
          dc.id in r.kept || Kill(dc.id) in r.effects
  {
    var r := SyncPodSpec(rt, pod, listing, relisting, podIP, now);
    if r.err.None? {
      var podFullName := rt.podFullName(pod);
      var m := MountSpec(rt, pod.manifest);
      var netID := if FindPodContainer(listing, podFullName, NetworkContainerName).Some?
        then FindPodContainer(listing, podFullName, NetworkContainerName).value.id
        else rt.run(NetConfig(rt, pod, podFullName)).value;
      var ctx := PodCtx(rt, pod, podFullName, netID, r.listing, m.paths, PodState(podIP.GetOr("")), now);
      var pass := PassOf(ctx, pod.manifest.containers);
      var spare := r.kept + pass.killed;
      SweepKills(podFullName, r.listing, spare);
      forall dc | dc in r.listing && dc.podFullName == podFullName
        ensures dc.id in r.kept || Kill(dc.id) in r.effects
      {
        if dc.id in pass.killed {
          KilledWereKilled(ctx, pod.manifest.containers, dc.id);
        }
      }
    }
  }

  /** The container `id` is listed for the pod. */
  predicate ListedFor(listing: DockerContainers, podFullName: string, id: DockerID) {
    exists dc :: dc in listing && dc.podFullName == podFullName && dc.id == id
  }

  /** The container pass kills only containers listed for the pod. */
  lemma {:induction false} PassKillsListed(ctx: PodCtx, cs: seq<Container>)
    ensures forall id :: Kill(id) in PassOf(ctx, cs).effects ==> ListedFor(ctx.listing, ctx.podFullName, id)
    decreases |cs|
  {
    if cs != [] {
      var n := |cs| - 1;
      PassKillsListed(ctx, cs[..n]);
      var t := ContainerStep(ctx, cs[n]);
      forall id | Kill(id) in t.effects ensures ListedFor(ctx.listing, ctx.podFullName, id) {
        StepConcernsItsContainer(ctx, cs[n], Kill(id));
      }
    }
  }

  /** After the network container, syncPod kills only containers listed for the pod in the listing it works on. */
  lemma AfterNetKillsListed(
    rt: Runtime, pod: Pod, podFullName: string, netID: DockerID, listing: DockerContainers,
    prior: seq<Effect>, podIP: Option<string>, now: int)
    ensures forall id :: Kill(id) in AfterNet(rt, pod, podFullName, netID, listing, prior, podIP, now).effects ==>
      Kill(id) in prior || ListedFor(listing, podFullName, id)
  {
    var m := MountSpec(rt, pod.manifest);
    MountEffects(rt, pod.manifest);
    if m.err.None? {
      var ctx := PodCtx(rt, pod, podFullName, netID, listing, m.paths, PodState(podIP.GetOr("")), now);
      var pass := PassOf(ctx, pod.manifest.containers);
      PassKillsListed(ctx, pod.manifest.containers);
      SweepKills(podFullName, listing, {netID} + pass.keep + pass.killed);
    }
  }

  /** Every container deleteAllContainers kills is listed for the pod. */
  lemma DeleteKillsListed(rt: Runtime, pod: Pod, podFullName: string, listing: DockerContainers)
    ensures forall id :: Kill(id) in DeleteAllSpec(rt, pod, podFullName, listing).effects ==> ListedFor(listing, podFullName, id)
  {
    var cs := pod.manifest.containers;
    DeleteFoldKills(rt, podFullName, listing, cs);
    forall id | Kill(id) in DeleteAllSpec(rt, pod, podFullName, listing).effects ensures ListedFor(listing, podFullName, id) {
      var i :| 0 <= i < |cs| && FoundAs(listing, podFullName, cs[i], id);
      assert FindPodContainer(listing, podFullName, cs[i].name).value in listing;
    }
  }

  /**
   * syncPod works on the listing it was given or, after replacing a missing
   * network container, on the fresh one; every container it kills is listed
   * for this pod in one of the two.
   */
  lemma SyncPodKillsOwnContainers(
    rt: Runtime, pod: Pod, listing: DockerContainers, relisting: Result<DockerContainers, Error>,
    podIP: Option<string>, now: int)
    ensures var r := SyncPodSpec(rt, pod, listing, relisting, podIP, now);
      && (r.listing == listing || (relisting.Ok? && r.listing == relisting.value))
      && forall id :: Kill(id) in r.effects ==>
           ListedFor(listing, rt.podFullName(pod), id) || ListedFor(r.listing, rt.podFullName(pod), id)
  {
    var podFullName := rt.podFullName(pod);
    match FindPodContainer(listing, podFullName, NetworkContainerName)
    case Some(net) =>
      AfterNetKillsListed(rt, pod, podFullName, net.id, listing, [], podIP, now);
    case None =>
      DeleteKillsListed(rt, pod, podFullName, listing);
      var del := DeleteAllSpec(rt, pod, podFullName, listing);
      var cfg := NetConfig(rt, pod, podFullName);
      var eff := del.effects + [Pull(NetworkContainerImage), Run(cfg)];
      if del.err.None? && rt.run(cfg).Ok? {
        var netID := rt.run(cfg).value;
        if del.count > 0 && relisting.Ok? {
          AfterNetKillsListed(rt, pod, podFullName, netID, relisting.value, eff, podIP, now);
        } else if del.count <= 0 {
          AfterNetKillsListed(rt, pod, podFullName, netID, listing, eff, podIP, now);
        }
      }
  }

  /** A call of the network phase: a kill of a container found for a declared name, or the network container's pull and run. */
  predicate NetPhaseCall(rt: Runtime, pod: Pod, listing: DockerContainers, e: Effect) {
    var podFullName := rt.podFullName(pod);
    || e == Pull(NetworkContainerImage)
    || e == Run(NetConfig(rt, pod, podFullName))
    || (e.Kill? && exists i :: 0 <= i < |pod.manifest.containers| && FoundAs(listing, podFullName, pod.manifest.containers[i], e.id))
  }

  /**
   * A volume that cannot be mounted fails syncPod before any declared
   * container is looked at: with the network container found, the volume
   * calls are the only calls and the network container alone is kept; with
   * it replaced, the calls are those of the replacement followed by the
   * volume calls. No declared image is pulled and nothing is swept.
   */
  lemma PodMountFailure(
    rt: Runtime, pod: Pod, listing: DockerContainers, relisting: Result<DockerContainers, Error>,
    podIP: Option<string>, now: int)
    requires MountSpec(rt, pod.manifest).err.Some?
    ensures var r := SyncPodSpec(rt, pod, listing, relisting, podIP, now);
      var m := MountSpec(rt, pod.manifest);
      var podFullName := rt.podFullName(pod);
      var net := FindPodContainer(listing, podFullName, NetworkContainerName);
      var del := DeleteAllSpec(rt, pod, podFullName, listing);
      var cfg := NetConfig(rt, pod, podFullName);
      && r.err.Some?
      && (net.Some? ==> r == PodSync(m.err, m.effects, {net.value.id}, listing))
      && (net.None? && del.err.None? && rt.run(cfg).Ok? && (del.count == 0 || relisting.Ok?) ==>
            r.err == m.err && r.effects == del.effects + [Pull(NetworkContainerImage), Run(cfg)] + m.effects)
      && forall e :: e in r.effects ==> e.SetUp? || NetPhaseCall(rt, pod, listing, e)
  {
    var podFullName := rt.podFullName(pod);
    DeleteFoldKills(rt, podFullName, listing, pod.manifest.containers);
    MountEffects(rt, pod.manifest);
    DeleteFoldCounts(rt, podFullName, listing, pod.manifest.containers);
  }

  // ------------------------------------------------------------ convergence

  /**
   * The node already matches the pod: the network container and every
   * declared container are listed with a matching hash, inspect fine and
   * are kept by the health rules; the volumes mount; and the pod has no
   * other (duplicate or undeclared) containers.
   */
  predicate Converged(rt: Runtime, pod: Pod, listing: DockerContainers, podIP: Option<string>, now: int) {
    var podFullName := rt.podFullName(pod);
    var net := FindPodContainer(listing, podFullName, NetworkContainerName);
    var m := MountSpec(rt, pod.manifest);
    && net.Some?
    && m.err.None?
    && (var ctx := PodCtx(rt, pod, podFullName, net.value.id, listing, m.paths, PodState(podIP.GetOr("")), now);
        forall c :: c in pod.manifest.containers ==>
          var f := FindPodContainer(listing, podFullName, c.name);
          && f.Some?
          && (f.value.hash == 0 || f.value.hash == rt.hash(c))
          && rt.inspect(f.value.id).Ok?
          && KeepsFound(ctx, c, f.value, rt.inspect(f.value.id).value))
    && (forall dc :: dc in listing && dc.podFullName == podFullName ==>
          && FindPodContainer(listing, podFullName, dc.containerName) == Some(dc)
          && (dc.containerName == NetworkContainerName
              || exists c :: c in pod.manifest.containers && c.name == dc.containerName))
  }

  /** Container `c` is found and left alone: kept, with no call made. */
  predicate Quiet(ctx: PodCtx, c: Container) {
    var f := FindPodContainer(ctx.listing, ctx.podFullName, c.name);
    f.Some? && ContainerStep(ctx, c) == Step({f.value.id}, {}, [])
  }

  /** One more declared container: the pass adds that container's step. */
  lemma PassSnoc(ctx: PodCtx, cs: seq<Container>)
    requires cs != []
    ensures var prev := PassOf(ctx, cs[..|cs| - 1]);
      var t := ContainerStep(ctx, cs[|cs| - 1]);
      PassOf(ctx, cs) == Step(prev.keep + t.keep, prev.killed + t.killed, prev.effects + t.effects)
  {
  }

  /** A pass over containers that are all left alone makes no call and keeps each of them. */
  lemma {:induction false} QuietPass(ctx: PodCtx, cs: seq<Container>)
    requires forall c :: c in cs ==> Quiet(ctx, c)
    ensures PassOf(ctx, cs).effects == [] && PassOf(ctx, cs).killed == {}
    ensures forall c :: c in cs ==> FindPodContainer(ctx.listing, ctx.podFullName, c.name).Some?
    ensures forall c :: c in cs ==> FindPodContainer(ctx.listing, ctx.podFullName, c.name).value.id in PassOf(ctx, cs).keep
    decreases |cs|
  {
    if cs != [] {
      var n := |cs| - 1;
      var init := cs[..n];
      var last := cs[n];
      forall c | c in init ensures Quiet(ctx, c) {
        assert c in cs;
      }
      QuietPass(ctx, init);
      PassSnoc(ctx, cs);
      assert Quiet(ctx, last);
      var t := ContainerStep(ctx, last);
      var prev := PassOf(ctx, init);
      forall c | c in cs ensures FindPodContainer(ctx.listing, ctx.podFullName, c.name).value.id in prev.keep + t.keep {
        if c != last {
          assert c in init;
        }
      }
    }
  }

  /** Idempotence: on a converged pod, syncPod succeeds and only sets its volumes up again. */
  lemma SyncPodConverged(
    rt: Runtime, pod: Pod, listing: DockerContainers, relisting: Result<DockerContainers, Error>,
    podIP: Option<string>, now: int)
    requires Converged(rt, pod, listing, podIP, now)
    ensures var r := SyncPodSpec(rt, pod, listing, relisting, podIP, now);
      r.err.None? && forall e :: e in r.effects ==> e.SetUp?
  {
    var podFullName := rt.podFullName(pod);
    var net := FindPodContainer(listing, podFullName, NetworkContainerName).value;
    var m := MountSpec(rt, pod.manifest);
    var ctx := PodCtx(rt, pod, podFullName, net.id, listing, m.paths, PodState(podIP.GetOr("")), now);
    var cs := pod.manifest.containers;
    forall c | c in cs ensures Quiet(ctx, c) {
    }
    QuietPass(ctx, cs);
    var pass := PassOf(ctx, cs);
    var spare := {net.id} + pass.keep + pass.killed;
    forall dc | dc in listing && dc.podFullName == podFullName
      ensures dc.id in spare
    {
      if dc.containerName != NetworkContainerName {
        var c :| c in cs && c.name == dc.containerName;
        assert FindPodContainer(listing, podFullName, c.name).value.id in pass.keep;
      }
    }
    SweepNothingLeft(podFullName, listing, spare);
    MountEffects(rt, pod.manifest);
  }
}
