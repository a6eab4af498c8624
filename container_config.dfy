/**
 * The pure builders the kubelet uses to turn a declared container into the
 * options of CreateContainer and StartContainer: CPU shares, environment
 * strings, bind mounts, exposed ports with their host bindings, and the
 * network container that holds every port of the pod.
 */
module ContainerConfigs {
  import opened Wrappers
  import opened Strings
  import opened KubeTypes

  // ------------------------------------------------------------ CPU shares

  const MinShares := 2
  const SharesPerCPU := 1024
  const MilliCPUToCPU := 1000

  /** Go's integer division, which truncates toward zero (Dafny's rounds toward negative infinity). */
  function GoDiv(a: int, b: int): int
    requires b > 0
  {
    if a >= 0 then a / b else -((-a) / b)
  }

  /**
   * milliCPUToShares: 0 (unset) stays 0 so the kernel default applies; any
   * other request becomes its share of 1024 per CPU, rounded down and never
   * below 2.
   */
  function MilliCPUToShares(milliCPU: int): (shares: int)
    ensures milliCPU == 0 ==> shares == 0
    ensures milliCPU != 0 ==> shares >= MinShares
    ensures milliCPU < 0 ==> shares == MinShares
    ensures milliCPU > 0 && shares > MinShares ==>
      shares * MilliCPUToCPU <= milliCPU * SharesPerCPU < (shares + 1) * MilliCPUToCPU
    ensures milliCPU > 0 && shares == MinShares ==> milliCPU * SharesPerCPU < (MinShares + 1) * MilliCPUToCPU
  {
    if milliCPU == 0 then 0
    else
      var shares := GoDiv(milliCPU * SharesPerCPU, MilliCPUToCPU);
      if shares < MinShares then MinShares else shares
  }

  /** More CPU never means fewer shares, and one whole CPU is exactly 1024 shares. */
  lemma MilliCPUToSharesMonotone(a: int, b: int)
    requires 0 < a <= b
    ensures MilliCPUToShares(a) <= MilliCPUToShares(b)
    ensures MilliCPUToShares(MilliCPUToCPU) == SharesPerCPU
  {
    assert a * SharesPerCPU <= b * SharesPerCPU;
  }

  // ------------------------------------------------------------ environment

  function EnvString(v: EnvVar): string { v.name + "=" + v.value }

  /** The environment strings of a container, one "NAME=VALUE" per variable, in declaration order. */
  function EnvironmentVariables(env: seq<EnvVar>): (r: seq<string>)
    ensures |r| == |env|
  {
    seq(|env|, i requires 0 <= i < |env| => EnvString(env[i]))
  }

  /** makeEnvironmentVariables. */
  method MakeEnvironmentVariables(container: Container) returns (result: seq<string>)
    ensures result == EnvironmentVariables(container.env)
  {
    result := [];
    var i := 0;
    while i < |container.env|
      invariant 0 <= i <= |container.env|
      invariant result == EnvironmentVariables(container.env[..i])
    {
      result := result + [EnvString(container.env[i])];
      i := i + 1;
    }
    assert container.env[..i] == container.env;
  }

  /** How a process reads its environment back: the name ends at the first '='. */
  function SplitAtFirst(s: string, sep: char): (r: (string, string))
    ensures sep !in r.0
    ensures sep in s ==> s == r.0 + [sep] + r.1
    decreases |s|
  {
    if s == [] then ("", "")
    else if s[0] == sep then ("", s[1..])
    else
      var rest := SplitAtFirst(s[1..], sep);
      ([s[0]] + rest.0, rest.1)
  }

  /** Each environment string gives back its variable, provided the name holds no '='. */
  lemma {:induction false} EnvStringRoundTrip(v: EnvVar)
    requires '=' !in v.name
    ensures SplitAtFirst(EnvString(v), '=') == (v.name, v.value)
  {
    SplitAtFirstPrefix(v.name, v.value, '=');
  }

  lemma {:induction false} SplitAtFirstPrefix(a: string, b: string, sep: char)
    requires sep !in a
    ensures SplitAtFirst(a + [sep] + b, sep) == (a, b)
    decreases |a|
  {
    var s := a + [sep] + b;
    if a != [] {
      assert s[0] == a[0] && s[0] != sep;
      assert s[1..] == a[1..] + [sep] + b;
      SplitAtFirstPrefix(a[1..], b, sep);
      assert [a[0]] + a[1..] == a;
    } else {
      assert (a + [sep] + b)[1..] == b;
    }
  }

  // ------------------------------------------------------------ binds

  /** One bind: "hostPath:mountPath", with ":ro" for a read-only mount. */
  function BindOf(path: string, m: VolumeMount): string {
    path + ":" + m.mountPath + (if m.readOnly then ":ro" else "")
  }

  /** The binds of a container's mounts, mounts whose volume the pod did not mount skipped, in mount order. */
  function Binds(volumes: map<string, string>, mounts: seq<VolumeMount>): seq<string>
    decreases |mounts|
  {
    if mounts == [] then []
    else
      var m := mounts[|mounts| - 1];
      Binds(volumes, mounts[..|mounts| - 1]) + (if m.name in volumes then [BindOf(volumes[m.name], m)] else [])
  }

  /** makeBinds (its pod argument is unused by the source). */
  method MakeBinds(container: Container, podVolumes: map<string, string>) returns (binds: seq<string>)
    ensures binds == Binds(podVolumes, container.volumeMounts)
  {
    binds := [];
    var i := 0;
    while i < |container.volumeMounts|
      invariant 0 <= i <= |container.volumeMounts|
      invariant binds == Binds(podVolumes, container.volumeMounts[..i])
    {
      var mount := container.volumeMounts[i];
      assert container.volumeMounts[..i + 1][..i] == container.volumeMounts[..i];
      if mount.name in podVolumes {
        var b := podVolumes[mount.name] + ":" + mount.mountPath;
        if mount.readOnly {
          b := b + ":ro";
        }
        assert b == BindOf(podVolumes[mount.name], mount);
        binds := binds + [b];
      }
      i := i + 1;
    }
    assert container.volumeMounts[..i] == container.volumeMounts;
  }

  /** The mounts whose volume is among the pod's mounted volumes, in order. */
  function Resolvable(volumes: map<string, string>, mounts: seq<VolumeMount>): (r: seq<VolumeMount>)
    ensures forall m :: m in r <==> m in mounts && m.name in volumes
    decreases |mounts|
  {
    if mounts == [] then []
    else
      var m := mounts[|mounts| - 1];
      assert forall x :: x in mounts <==> x in mounts[..|mounts| - 1] || x == m;
      Resolvable(volumes, mounts[..|mounts| - 1]) + (if m.name in volumes then [m] else [])
  }

  /** Exactly the resolvable mounts become binds, one each, in mount order. */
  lemma {:induction false} BindsOfResolvable(volumes: map<string, string>, mounts: seq<VolumeMount>)
    ensures var r := Resolvable(volumes, mounts);
      |Binds(volumes, mounts)| == |r|
      && forall i :: 0 <= i < |r| ==> Binds(volumes, mounts)[i] == BindOf(volumes[r[i].name], r[i])
    decreases |mounts|
  {
    if mounts != [] {
      BindsOfResolvable(volumes, mounts[..|mounts| - 1]);
      var m := mounts[|mounts| - 1];
      assert m in mounts;
      if m.name in volumes {
        assert Resolvable(volumes, mounts)[|Resolvable(volumes, mounts)| - 1] == m;
      }
    }
  }

  // ------------------------------------------------------------ ports

  /** The Docker port key: the container port in decimal, then "/udp" for UDP and "/tcp" for anything else. */
  function PortKey(p: Port): string {
    Itoa(p.containerPort) + (if ToUpper(p.protocol) == "UDP" then "/udp" else "/tcp")
  }

  datatype PortMaps = PortMaps(exposed: set<string>, bindings: map<string, seq<PortBinding>>)

  function BindingOf(p: Port): seq<PortBinding> { [PortBinding(Itoa(p.hostPort), p.hostIP)] }

  /** The exposed port keys of a port list: every port with a host port. */
  function ExposedPorts(ports: seq<Port>): set<string>
    decreases |ports|
  {
    if ports == [] then {}
    else
      var p := ports[|ports| - 1];
      ExposedPorts(ports[..|ports| - 1]) + (if p.hostPort == 0 then {} else {PortKey(p)})
  }

  /** The host bindings of a port list; a later port with the same key replaces an earlier one. */
  function PortBindings(ports: seq<Port>): map<string, seq<PortBinding>>
    decreases |ports|
  {
    if ports == [] then map[]
    else
      var bindings := PortBindings(ports[..|ports| - 1]);
      var p := ports[|ports| - 1];
      if p.hostPort == 0 then bindings else bindings[PortKey(p) := BindingOf(p)]
  }

  function PortsAndBindings(ports: seq<Port>): PortMaps {
    PortMaps(ExposedPorts(ports), PortBindings(ports))
  }

  /** makePortsAndBindings. */
  method MakePortsAndBindings(container: Container) returns (exposedPorts: set<string>, portBindings: map<string, seq<PortBinding>>)
    ensures PortMaps(exposedPorts, portBindings) == PortsAndBindings(container.ports)
  {
    exposedPorts := {};
    portBindings := map[];
    var i := 0;
    while i < |container.ports|
      invariant 0 <= i <= |container.ports|
      invariant PortMaps(exposedPorts, portBindings) == PortsAndBindings(container.ports[..i])
    {
      var port := container.ports[i];
      assert container.ports[..i + 1][..i] == container.ports[..i];
      var exteriorPort := port.hostPort;
      if exteriorPort != 0 {
        var interiorPort := port.containerPort;
        var protocol := if ToUpper(port.protocol) == "UDP" then "/udp" else "/tcp";
        var dockerPort := Itoa(interiorPort) + protocol;
        exposedPorts := exposedPorts + {dockerPort};
        portBindings := portBindings[dockerPort := [PortBinding(Itoa(exteriorPort), port.hostIP)]];
      }
      i := i + 1;
    }
    assert container.ports[..i] == container.ports;
  }

  /** Port i has a host port and key k, and no later port with a host port has key k. */
  predicate LastWithKey(ports: seq<Port>, i: int, k: string) {
    0 <= i < |ports| && ports[i].hostPort != 0 && PortKey(ports[i]) == k
    && forall j :: i < j < |ports| && ports[j].hostPort != 0 ==> PortKey(ports[j]) != k
  }

  /** The exposed set and the binding map always have the same keys. */
  lemma {:induction false} ExposedAreBound(ports: seq<Port>)
    ensures PortsAndBindings(ports).exposed == PortsAndBindings(ports).bindings.Keys
    decreases |ports|
  {
    if ports != [] {
      ExposedAreBound(ports[..|ports| - 1]);
    }
  }

  /** Port i has a host port and key k. */
  predicate KeyedAt(ports: seq<Port>, i: int, k: string) {
    0 <= i < |ports| && ports[i].hostPort != 0 && PortKey(ports[i]) == k
  }

  /** One more port: its key is exposed when it has a host port. */
  lemma ExposedSnoc(ports: seq<Port>)
    requires ports != []
    ensures var p := ports[|ports| - 1];
      ExposedPorts(ports) == ExposedPorts(ports[..|ports| - 1]) + (if p.hostPort == 0 then {} else {PortKey(p)})
  {
  }

  /** Every port with a host port has its key exposed. */
  lemma {:induction false} KeyedIsExposed(ports: seq<Port>, i: int, k: string)
    requires KeyedAt(ports, i, k)
    ensures k in ExposedPorts(ports)
    decreases |ports|
  {
    var n := |ports| - 1;
    ExposedSnoc(ports);
    if i < n {
      assert ports[..n][i] == ports[i];
      KeyedIsExposed(ports[..n], i, k);
    }
  }

  /** Every exposed key comes from a port with a host port. */
  lemma {:induction false} ExposedIsKeyed(ports: seq<Port>, k: string)
    requires k in ExposedPorts(ports)
    ensures exists i :: KeyedAt(ports, i, k)
    decreases |ports|
  {
    var n := |ports| - 1;
    var init := ports[..n];
    ExposedSnoc(ports);
    if k in ExposedPorts(init) {
      ExposedIsKeyed(init, k);
      var i :| KeyedAt(init, i, k);
      assert init[i] == ports[i];
      assert KeyedAt(ports, i, k);
    } else {
      assert KeyedAt(ports, n, k);
    }
  }

  /** A key is exposed exactly when some port with a host port has that key. */
  lemma ExposedKeys(ports: seq<Port>, k: string)
    ensures k in PortsAndBindings(ports).exposed <==> exists i :: KeyedAt(ports, i, k)
  {
    if k in ExposedPorts(ports) {
      ExposedIsKeyed(ports, k);
    }
    if exists i :: KeyedAt(ports, i, k) {
      var i :| KeyedAt(ports, i, k);
      KeyedIsExposed(ports, i, k);
    }
  }

  /** Each bound key holds the host port and IP of the last port with a host port and that key. */
  lemma {:induction false} BindingIsLast(ports: seq<Port>, k: string)
    requires k in PortsAndBindings(ports).bindings
    ensures exists i :: LastWithKey(ports, i, k) && PortsAndBindings(ports).bindings[k] == BindingOf(ports[i])
    decreases |ports|
  {
    var n := |ports| - 1;
    var p := ports[n];
    if p.hostPort != 0 && PortKey(p) == k {
      assert LastWithKey(ports, n, k);
    } else {
      var init := ports[..n];
      BindingIsLast(init, k);
      var i :| LastWithKey(init, i, k) && PortsAndBindings(init).bindings[k] == BindingOf(init[i]);
      assert init[i] == ports[i];
      forall j | i < j < |ports| && ports[j].hostPort != 0
        ensures PortKey(ports[j]) != k
      {
        if j < n {
          assert init[j] == ports[j];
        }
      }
      assert LastWithKey(ports, i, k);
    }
  }

  /** Distinct container ports, or a UDP and a non-UDP protocol, never share a key. */
  lemma PortKeyInjective(p: Port, q: Port)
    requires PortKey(p) == PortKey(q)
    ensures p.containerPort == q.containerPort
    ensures (ToUpper(p.protocol) == "UDP") == (ToUpper(q.protocol) == "UDP")
  {
    var a := Itoa(p.containerPort);
    var b := Itoa(q.containerPort);
    var sa := if ToUpper(p.protocol) == "UDP" then "/udp" else "/tcp";
    var sb := if ToUpper(q.protocol) == "UDP" then "/udp" else "/tcp";
    assert |a| == |b|;
    assert a == (a + sa)[..|a|] && b == (b + sb)[..|b|];
    ItoaInjective(p.containerPort, q.containerPort);
    assert sa == (a + sa)[|a|..] && sb == (b + sb)[|b|..];
  }

  // ------------------------------------------------------------ whole configurations

  /** Every port of every container of the pod, in declaration order. */
  function AllPorts(containers: seq<Container>): seq<Port>
    decreases |containers|
  {
    if containers == [] then []
    else AllPorts(containers[..|containers| - 1]) + containers[|containers| - 1].ports
  }

  /** The network container gathers exactly the ports declared anywhere in the pod. */
  lemma {:induction false} AllPortsContents(containers: seq<Container>)
    ensures forall p :: p in AllPorts(containers) <==> exists i :: 0 <= i < |containers| && p in containers[i].ports
    decreases |containers|
  {
    if containers != [] {
      var n := |containers| - 1;
      AllPortsContents(containers[..n]);
      assert forall i :: 0 <= i < n ==> containers[..n][i] == containers[i];
    }
  }

  /** The pod's network container: fixed name and pause image, and all the pod's ports. */
  function NetworkContainer(pod: Pod): (c: Container)
    ensures c.name == NetworkContainerName && c.image == NetworkContainerImage
    ensures c.ports == AllPorts(pod.manifest.containers)
    ensures forall p :: p in c.ports <==>
      exists i :: 0 <= i < |pod.manifest.containers| && p in pod.manifest.containers[i].ports
  {
    AllPortsContents(pod.manifest.containers);
    Container(NetworkContainerName, NetworkContainerImage, [], "", AllPorts(pod.manifest.containers),
              [], 0, 0, [], None, "", false)
  }

  /** runContainer's options: Docker name, config and host config built from the container. */
  function RunConfig(
    podFullName: string, pod: Pod, c: Container, hash: nat, volumes: map<string, string>, netMode: string): ContainerConfig
  {
    var pm := PortsAndBindings(c.ports);
    ContainerConfig(
      podFullName, c.name, hash, pod.name, c.image, c.command, EnvironmentVariables(c.env), c.workingDir,
      c.memory, MilliCPUToShares(c.cpu), pm.exposed, pm.bindings, Binds(volumes, c.volumeMounts),
      netMode, c.privileged)
  }
}
