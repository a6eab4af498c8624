/**
 * The node agent's view of pods, containers and the container runtime.
 *
 * The runtime and everything else outside the reconciliation logic (the
 * Docker client, the image puller, the volume plug-ins, the health checker,
 * the container hash and the pod-name encoding) is one `Runtime` value of
 * total functions: each call's answer is a function of its argument.
 * Calls that change the node (kill, pull, run, set-up, tear-down, worker
 * dispatch) are recorded as `Effect`s.
 */
module KubeTypes {
  import opened Wrappers

  datatype Port = Port(name: string, hostPort: int, containerPort: int, protocol: string, hostIP: string)

  datatype EnvVar = EnvVar(name: string, value: string)

  datatype VolumeMount = VolumeMount(name: string, readOnly: bool, mountPath: string)

  /** The probe's check definition belongs to the health checker; only its grace period matters here. */
  datatype LivenessProbe = LivenessProbe(initialDelaySeconds: int)

  /** A declared container of a pod manifest. */
  datatype Container = Container(
    name: string,
    image: string,
    command: seq<string>,
    workingDir: string,
    ports: seq<Port>,
    env: seq<EnvVar>,
    memory: int,
    cpu: int,
    volumeMounts: seq<VolumeMount>,
    livenessProbe: Option<LivenessProbe>,
    restartPolicy: string,
    privileged: bool)

  /** A declared volume; what backs it is for the volume plug-ins to decide. */
  datatype Volume = Volume(name: string, source: string)

  datatype Manifest = Manifest(id: string, containers: seq<Container>, volumes: seq<Volume>)

  datatype Pod = Pod(name: string, namespace: string, manifest: Manifest)

  type DockerID = string

  /**
   * A kubelet-managed container as the runtime lists it, with its Docker name
   * already decoded into the pod's full name, the container name and the hash
   * recorded at creation (0 when none was recorded).
   */
  datatype DockerContainer = DockerContainer(
    id: DockerID, podFullName: string, containerName: string, hash: nat, created: int)

  /**
   * A listing of the runtime's containers. The source holds it in a map keyed
   * by container ID; the sequence fixes one enumeration order of that map.
   */
  type DockerContainers = seq<DockerContainer>

  /** The listing came from a map: no ID occurs twice. */
  predicate UniqueIds(dc: DockerContainers) {
    forall i, j :: 0 <= i < j < |dc| ==> dc[i].id != dc[j].id
  }

  /** FindPodContainer: the first listed container of that pod with that name. */
  function FindPodContainer(dc: DockerContainers, podFullName: string, containerName: string): (r: Option<DockerContainer>)
    ensures r.Some? ==> r.value in dc && r.value.podFullName == podFullName && r.value.containerName == containerName
    ensures r.None? <==> forall d :: d in dc ==> !(d.podFullName == podFullName && d.containerName == containerName)
    decreases |dc|
  {
    if dc == [] then None
    else if dc[0].podFullName == podFullName && dc[0].containerName == containerName then Some(dc[0])
    else FindPodContainer(dc[1..], podFullName, containerName)
  }

  datatype PortBinding = PortBinding(hostPort: string, hostIP: string)

  /**
   * Everything the kubelet passes to CreateContainer and StartContainer. The
   * Docker name is kept decoded: pod full name, container name and hash.
   */
  datatype ContainerConfig = ContainerConfig(
    podFullName: string,
    containerName: string,
    hash: nat,
    hostname: string,
    image: string,
    cmd: seq<string>,
    env: seq<string>,
    workingDir: string,
    memory: int,
    cpuShares: int,
    exposedPorts: set<string>,
    portBindings: map<string, seq<PortBinding>>,
    binds: seq<string>,
    networkMode: string,
    privileged: bool)

  /** The pod state handed to health checks: only the pod IP is filled in. */
  datatype PodState = PodState(podIP: string)

  datatype Status = Healthy | Unhealthy | Unknown

  datatype HealthResult = HealthResult(status: Status, err: Option<Error>)

  /** health.HealthChecker.HealthCheck. */
  type HealthChecker = (string, PodState, Container) -> HealthResult

  /** What volume.CreateVolumeBuilder gives for a declared volume, and how SetUp on it ends. */
  datatype VolumeBuilder = BuilderFailed(err: Error) | NoBuilder | Builder(path: string, setUp: Option<Error>)

  /** The node outside the reconciliation logic; see the module comment. */
  datatype Runtime = Runtime(
    podFullName: Pod -> string,                         // GetPodFullName
    hash: Container -> nat,                             // hashContainer
    inspect: DockerID -> Result<bool, Error>,           // InspectContainer: is it running?
    remove: DockerID -> Option<Error>,                  // RemoveContainer (StopContainer's error is dropped)
    pull: string -> Option<Error>,                      // DockerPuller.Pull
    run: ContainerConfig -> Result<DockerID, Error>,    // CreateContainer followed by StartContainer
    buildVolume: (Volume, string) -> VolumeBuilder,     // CreateVolumeBuilder(volume, podID) then SetUp
    tearDown: string -> Option<Error>,                  // TearDown of a current volume
    healthChecker: Option<HealthChecker>)               // nil when no checker is configured

  /** Calls that change the node, in the order the kubelet makes them. */
  datatype Effect =
    | Kill(id: DockerID)                 // StopContainer then RemoveContainer
    | Pull(image: string)
    | Run(config: ContainerConfig)       // CreateContainer then StartContainer
    | SetUp(volume: string)              // SetUp of "podID/volumeName"
    | TearDown(volume: string)           // TearDown of "podID/volumeName"
    | Dispatch(podFullName: string)      // a pod worker was started

  const NetworkContainerName := "net"
  const NetworkContainerImage := "kubernetes/pause:latest"
}
