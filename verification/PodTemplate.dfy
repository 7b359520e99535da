/**
 The containers of a pod: the wizard's container list is marshalled to Kubernetes
 containers, and a viewer reads a Kubernetes container list back into wizard form.
 */
module PodTemplate {
  import opened Wrappers

  // ---------- The wizard's side ----------

  datatype VolumeMountStruct = VolumeMountStruct(
    volumeType: string,
    volumeName: string,
    containerPath: string,
    containerFile: string,
    containerPathFlag: int,
    targetStorageService: string,
    targetPath: string,
    targetFile: string,
    targetPVC: string,
    targetConfigMap: string)

  datatype EnvStructCont = EnvStructCont(name: string, value: string, configMapName: string, configMapKey: string)

  datatype ImageIndex = ImageIndex(imageName: string, imageTag: string, projectName: string)

  datatype Container = Container(
    name: string,
    workingDir: string,
    volumeMounts: seq<VolumeMountStruct>,
    image: ImageIndex,
    env: seq<EnvStructCont>,
    containerPort: seq<int>,
    command: string,
    cpuRequest: string,
    memRequest: string,
    cpuLimit: string,
    memLimit: string,
    gpuLimit: string)

  // ---------- The Kubernetes side ----------

  datatype VolumeMount = VolumeMount(name: string, mountPath: string, subPath: string)

  datatype KeySelector = KeySelector(key: string, name: string)

  /** A value taken from a config map, or from something else that a cluster knows. */
  datatype EnvVarSource = ConfigMapKeyRef(ref: KeySelector) | OtherRef

  datatype EnvVar = EnvVar(name: string, value: string, valueFrom: Option<EnvVarSource>)

  datatype VolumeSource =
    | HostPath(path: string)
    | NFS(server: string, exported: string)
    | PersistentVolumeClaim(claimName: string)
    | ConfigMap(name: string)
    | NoSource

  datatype Volume = Volume(name: string, source: VolumeSource)

  datatype K8sContainer = K8sContainer(
    name: string,
    image: string,
    command: seq<string>,
    args: seq<string>,
    workingDir: string,
    ports: seq<int>,
    env: seq<EnvVar>,
    requests: map<string, string>,
    limits: map<string, string>,
    volumeMounts: seq<VolumeMount>)

  /** Joining a directory and a file name is library behaviour and stays a parameter. */
  type PathJoin = (string, string) -> string

  /** Conversion to a 32-bit integer. */
  function Int32(n: int): int {
    (n + 0x8000_0000) % 0x1_0000_0000 - 0x8000_0000
  }

  // ---------- Marshalling ----------

  function K8sMount(v: VolumeMountStruct, join: PathJoin): VolumeMount {
    if v.containerPathFlag != 0 then VolumeMount(v.volumeName, join(v.containerPath, v.containerFile), v.targetFile)
    else VolumeMount(v.volumeName, v.containerPath, "")
  }

  function K8sMounts(vs: seq<VolumeMountStruct>, join: PathJoin): seq<VolumeMount> {
    if vs == [] then []
    else (if vs[0].volumeName != "" then [K8sMount(vs[0], join)] else []) + K8sMounts(vs[1..], join)
  }

  function K8sEnvVar(e: EnvStructCont): EnvVar {
    if e.configMapName == "" then EnvVar(e.name, e.value, None)
    else EnvVar(e.name, "", Some(ConfigMapKeyRef(KeySelector(e.configMapKey, e.configMapName))))
  }

  function K8sEnv(es: seq<EnvStructCont>): seq<EnvVar> {
    if es == [] then []
    else (if es[0].name != "" then [K8sEnvVar(es[0])] else []) + K8sEnv(es[1..])
  }

  function K8sPorts(ports: seq<int>): (r: seq<int>)
    ensures |r| == |ports| && forall i :: 0 <= i < |ports| ==> r[i] == Int32(ports[i])
  {
    seq(|ports|, i requires 0 <= i < |ports| => Int32(ports[i]))
  }

  function Entry(key: string, value: string): map<string, string> {
    if value == "" then map[] else map[key := value]
  }

  function ImageText(registryURI: string, image: ImageIndex): string {
    registryURI + "/" + image.imageName + ":" + image.imageTag
  }

  function ToK8s(c: Container, registryURI: string, join: PathJoin): K8sContainer {
    K8sContainer(
      c.name,
      ImageText(registryURI, c.image),
      if |c.command| > 0 then ["/bin/sh"] else [],
      if |c.command| > 0 then ["-c", c.command] else [],
      c.workingDir,
      K8sPorts(c.containerPort),
      K8sEnv(c.env),
      Entry("cpu", c.cpuRequest) + Entry("memory", c.memRequest),
      Entry("cpu", c.cpuLimit) + Entry("memory", c.memLimit) + Entry("nvidia.com/gpu", c.gpuLimit),
      K8sMounts(c.volumeMounts, join))
  }

  function AllToK8s(cs: seq<Container>, registryURI: string, join: PathJoin): (r: seq<K8sContainer>)
    ensures |r| == |cs| && forall i :: 0 <= i < |cs| ==> r[i] == ToK8s(cs[i], registryURI, join)
  {
    seq(|cs|, i requires 0 <= i < |cs| => ToK8s(cs[i], registryURI, join))
  }

  method MarshalMount(v: VolumeMountStruct, join: PathJoin) returns (volumeMount: VolumeMount)
    ensures volumeMount == K8sMount(v, join)
  {
    volumeMount := VolumeMount(v.volumeName, v.containerPath, "");
    if v.containerPathFlag != 0 {
      volumeMount := volumeMount.(mountPath := join(volumeMount.mountPath, v.containerFile));
      volumeMount := volumeMount.(subPath := v.targetFile);
    }
  }

  method SetVolumeMounts(vs: seq<VolumeMountStruct>, join: PathJoin) returns (mounts: seq<VolumeMount>)
    ensures mounts == K8sMounts(vs, join)
  {
    mounts := [];
    ghost var rest := K8sMounts(vs, join);
    assert vs[0..] == vs && mounts + rest == rest;
    for i := 0 to |vs|
      invariant rest == K8sMounts(vs[i..], join) && mounts + rest == K8sMounts(vs, join)
    {
      rest := K8sMounts(vs[i + 1..], join);
      if vs[i].volumeName != "" {
        var volumeMount := MarshalMount(vs[i], join);
        Regroup(mounts, [volumeMount], rest);
        mounts := mounts + [volumeMount];
      }
    }
    assert rest == [];
  }

  lemma {:induction false} EnvFrom(es: seq<EnvStructCont>, i: nat)
    requires i < |es|
    ensures K8sEnv(es[i..]) == (if es[i].name != "" then [K8sEnvVar(es[i])] else []) + K8sEnv(es[i + 1..])
  {
    assert es[i..][1..] == es[i + 1..];
  }

  method SetEnv(es: seq<EnvStructCont>) returns (env: seq<EnvVar>)
    ensures env == K8sEnv(es)
  {
    env := [];
    ghost var rest := K8sEnv(es);
    assert es[0..] == es && env + rest == rest;
    for i := 0 to |es|
      invariant rest == K8sEnv(es[i..]) && env + rest == K8sEnv(es)
    {
      var e := es[i];
      EnvFrom(es, i);
      rest := K8sEnv(es[i + 1..]);
      if e.name != "" {
        var evs := None;
        var value := e.value;
        if e.configMapName != "" {
          evs := Some(ConfigMapKeyRef(KeySelector(e.configMapKey, e.configMapName)));
          value := "";
        }
        Regroup(env, [EnvVar(e.name, value, evs)], rest);
        env := env + [EnvVar(e.name, value, evs)];
      }
    }
    assert rest == [];
  }

  method SetResources(c: Container) returns (requests: map<string, string>, limits: map<string, string>)
    ensures requests == Entry("cpu", c.cpuRequest) + Entry("memory", c.memRequest)
    ensures limits == Entry("cpu", c.cpuLimit) + Entry("memory", c.memLimit) + Entry("nvidia.com/gpu", c.gpuLimit)
  {
    requests, limits := map[], map[];
    if c.cpuRequest != "" {
      requests := requests["cpu" := c.cpuRequest];
    }
    if c.memRequest != "" {
      requests := requests["memory" := c.memRequest];
    }
    if c.cpuLimit != "" {
      limits := limits["cpu" := c.cpuLimit];
    }
    if c.memLimit != "" {
      limits := limits["memory" := c.memLimit];
    }
    if c.gpuLimit != "" {
      limits := limits["nvidia.com/gpu" := c.gpuLimit];
    }
  }

  method SetPorts(containerPort: seq<int>) returns (ports: seq<int>)
    ensures ports == K8sPorts(containerPort)
  {
    ports := [];
    for i := 0 to |containerPort|
      invariant ports == K8sPorts(containerPort[..i])
    {
      ports := ports + [Int32(containerPort[i])];
    }
    assert containerPort[..|containerPort|] == containerPort;
  }

  /** The body of the loop of SetDeploymentContainers. */
  method SetContainer(cont: Container, registryURI: string, join: PathJoin) returns (container: K8sContainer)
    ensures container == ToK8s(cont, registryURI, join)
  {
    container := K8sContainer(cont.name, "", [], [], "", [], [], map[], map[], []);
    if cont.workingDir != "" {
      container := container.(workingDir := cont.workingDir);
    }
    if |cont.command| > 0 {
      container := container.(command := container.command + ["/bin/sh"],
                              args := container.args + ["-c", cont.command]);
    }
    var mounts := SetVolumeMounts(cont.volumeMounts, join);
    var env := SetEnv(cont.env);
    var ports := SetPorts(cont.containerPort);
    var requests, limits := SetResources(cont);
    container := container.(volumeMounts := mounts, env := env, ports := ports);
    container := container.(image := registryURI + "/" + cont.image.imageName + ":" + cont.image.imageTag);
    container := container.(requests := requests, limits := limits);
  }

  method SetDeploymentContainers(containerList: seq<Container>, registryURI: string, join: PathJoin)
    returns (k8sContainerList: seq<K8sContainer>)
    ensures k8sContainerList == AllToK8s(containerList, registryURI, join)
  {
    k8sContainerList := [];
    for i := 0 to |containerList|
      invariant |k8sContainerList| == i
      invariant forall k :: 0 <= k < i ==> k8sContainerList[k] == ToK8s(containerList[k], registryURI, join)
    {
      var container := SetContainer(containerList[i], registryURI, join);
      k8sContainerList := k8sContainerList + [container];
    }
  }

  // ---------- Viewing ----------

  /** What stops the program. */
  datatype Panic = IndexOutOfRange | NilDereference

  /** The first and the last position of a character, or -1. */
  function Index(s: string, c: char): int {
    if s == [] then -1
    else if s[0] == c then 0
    else
      var i := Index(s[1..], c);
      if i == -1 then -1 else i + 1
  }

  function LastIndex(s: string, c: char): int {
    if s == [] then -1 else if s[|s| - 1] == c then |s| - 1 else LastIndex(s[..|s| - 1], c)
  }

  /** The wizard's mount for a Kubernetes mount beside a volume of that source. */
  function ViewMount(v: VolumeMount, source: VolumeSource): VolumeMountStruct {
    var flag := if v.subPath != "" then 1 else 0;
    var plain := VolumeMountStruct("", v.name, v.mountPath, v.subPath, flag, "", "", v.subPath, "", "");
    match source
    case HostPath(path) => plain.(volumeType := "hostpath", targetPath := path)
    case NFS(server, path) => plain.(volumeType := "nfs", targetStorageService := server, targetPath := path)
    case PersistentVolumeClaim(claim) => plain.(volumeType := "pvc", targetPVC := claim)
    case ConfigMap(name) => plain.(volumeType := "configmap", targetConfigMap := name)
    case NoSource => plain
  }

  function Prepend<T>(front: seq<T>, rest: Result<seq<T>, Panic>): Result<seq<T>, Panic> {
    if rest.Err? then rest else Ok(front + rest.value)
  }

  lemma {:induction false} PrependTwice<T>(front: seq<T>, x: T, rest: Result<seq<T>, Panic>)
    ensures Prepend(front, Prepend([x], rest)) == Prepend(front + [x], rest)
  {
    if rest.Ok? {
      assert front + ([x] + rest.value) == front + [x] + rest.value;
    }
  }

  lemma {:induction false} PrependNothing<T>(rest: Result<seq<T>, Panic>)
    ensures Prepend([], rest) == rest
  {
    if rest.Ok? {
      assert [] + rest.value == rest.value;
    }
  }

  /** Mount i is taken to belong to volume i. */
  function ViewMounts(vs: seq<VolumeMount>, volumes: seq<Volume>, i: nat): Result<seq<VolumeMountStruct>, Panic>
    requires i <= |vs|
    decreases |vs| - i
  {
    if i == |vs| then Ok([])
    else if vs[i].name == "" then ViewMounts(vs, volumes, i + 1)
    else if i >= |volumes| then Err(IndexOutOfRange)
    else Prepend([ViewMount(vs[i], volumes[i].source)], ViewMounts(vs, volumes, i + 1))
  }

  /** A reference that is no config map's is followed through a nil pointer. */
  function ViewEnvVar(e: EnvVar): Result<EnvStructCont, Panic> {
    match e.valueFrom
    case None => Ok(EnvStructCont(e.name, e.value, "", ""))
    case Some(ConfigMapKeyRef(ref)) => Ok(EnvStructCont(e.name, "", ref.name, ref.key))
    case Some(OtherRef) => Err(NilDereference)
  }

  function ViewEnv(es: seq<EnvVar>): Result<seq<EnvStructCont>, Panic> {
    if es == [] then Ok([])
    else if es[0].name == "" then ViewEnv(es[1..])
    else
      match ViewEnvVar(es[0])
      case Err(e) => Err(e)
      case Ok(v) => Prepend([v], ViewEnv(es[1..]))
  }

  function ViewImage(image: string): Result<ImageIndex, Panic> {
    var colon, slash := LastIndex(image, ':'), Index(image, '/');
    if 0 <= colon + 1 <= |image| && 0 <= slash + 1 <= colon <= |image|
    then Ok(ImageIndex(image[slash + 1..colon], image[colon + 1..], "")) else Err(IndexOutOfRange)
  }

  function Lookup(resources: map<string, string>, key: string): string {
    if key in resources then resources[key] else ""
  }

  function View(k: K8sContainer, volumes: seq<Volume>): Result<Container, Panic> {
    if |k.command| > 0 && k.command[0] != "" && |k.args| < 2 then Err(IndexOutOfRange)
    else
      match ViewMounts(k.volumeMounts, volumes, 0)
      case Err(e) => Err(e)
      case Ok(mounts) =>
        match ViewEnv(k.env)
        case Err(e) => Err(e)
        case Ok(env) =>
          match ViewImage(k.image)
          case Err(e) => Err(e)
          case Ok(image) =>
            Ok(Container(
              k.name, k.workingDir, mounts, image, env, k.ports,
              if |k.command| > 0 && k.command[0] != "" then k.args[1] else "",
              Lookup(k.requests, "cpu"), Lookup(k.requests, "memory"),
              Lookup(k.limits, "cpu"), Lookup(k.limits, "memory"), Lookup(k.limits, "nvidia.com/gpu")))
  }

  function ViewAll(ks: seq<K8sContainer>, volumes: seq<Volume>): Result<seq<Container>, Panic> {
    if ks == [] then Ok([])
    else
      match View(ks[0], volumes)
      case Err(e) => Err(e)
      case Ok(c) => Prepend([c], ViewAll(ks[1..], volumes))
  }

  method GetVolumeMounts(vs: seq<VolumeMount>, volumeList: seq<Volume>)
    returns (r: Result<seq<VolumeMountStruct>, Panic>)
    ensures r == ViewMounts(vs, volumeList, 0)
  {
    var mounts := [];
    PrependNothing(ViewMounts(vs, volumeList, 0));
    for i := 0 to |vs|
      invariant ViewMounts(vs, volumeList, 0) == Prepend(mounts, ViewMounts(vs, volumeList, i))
    {
      var v := vs[i];
      if v.name != "" {
        var volumeMount := VolumeMountStruct("", v.name, v.mountPath, "", 0, "", "", "", "", "");
        if v.subPath != "" {
          volumeMount := volumeMount.(containerFile := v.subPath, targetFile := v.subPath, containerPathFlag := 1);
        }
        if i >= |volumeList| {
          return Err(IndexOutOfRange);
        }
        match volumeList[i].source {
          case HostPath(path) => volumeMount := volumeMount.(volumeType := "hostpath", targetPath := path);
          case NFS(server, path) =>
            volumeMount := volumeMount.(volumeType := "nfs", targetStorageService := server, targetPath := path);
          case PersistentVolumeClaim(claim) => volumeMount := volumeMount.(volumeType := "pvc", targetPVC := claim);
          case ConfigMap(name) => volumeMount := volumeMount.(volumeType := "configmap", targetConfigMap := name);
          case NoSource =>
        }
        assert volumeMount == ViewMount(v, volumeList[i].source);
        PrependTwice(mounts, volumeMount, ViewMounts(vs, volumeList, i + 1));
        mounts := mounts + [volumeMount];
      }
    }
    assert mounts + [] == mounts;
    r := Ok(mounts);
  }

  method GetEnv(es: seq<EnvVar>) returns (r: Result<seq<EnvStructCont>, Panic>)
    ensures r == ViewEnv(es)
  {
    var env := [];
    PrependNothing(ViewEnv(es));
    assert es[0..] == es;
    for i := 0 to |es|
      invariant ViewEnv(es) == Prepend(env, ViewEnv(es[i..]))
    {
      assert es[i..][1..] == es[i + 1..];
      if es[i].name != "" {
        var envStruct := EnvStructCont(es[i].name, "", "", "");
        match es[i].valueFrom {
          case None => envStruct := envStruct.(value := es[i].value);
          case Some(source) =>
            if source.OtherRef? {
              return Err(NilDereference);
            }
            envStruct := envStruct.(configMapKey := source.ref.key, configMapName := source.ref.name);
        }
        assert ViewEnvVar(es[i]) == Ok(envStruct);
        PrependTwice(env, envStruct, ViewEnv(es[i + 1..]));
        env := env + [envStruct];
      }
    }
    assert env + [] == env;
    r := Ok(env);
  }

  /** The body of the loop of GetDeploymentContainers. */
  method GetContainer(cont: K8sContainer, volumeList: seq<Volume>) returns (r: Result<Container, Panic>)
    ensures r == View(cont, volumeList)
  {
    var command := "";
    if |cont.command| > 0 && cont.command[0] != "" {
      if |cont.args| < 2 {
        return Err(IndexOutOfRange);
      }
      command := cont.args[1];
    }
    var mounts := GetVolumeMounts(cont.volumeMounts, volumeList);
    if mounts.Err? {
      return Err(mounts.error);
    }
    var env := GetEnv(cont.env);
    if env.Err? {
      return Err(env.error);
    }
    var image := ViewImage(cont.image);
    if image.Err? {
      return Err(image.error);
    }
    r := Ok(Container(
      cont.name, cont.workingDir, mounts.value, image.value, env.value, cont.ports, command,
      Lookup(cont.requests, "cpu"), Lookup(cont.requests, "memory"),
      Lookup(cont.limits, "cpu"), Lookup(cont.limits, "memory"), Lookup(cont.limits, "nvidia.com/gpu")));
  }

  method GetDeploymentContainers(containerList: seq<K8sContainer>,
                                 volumeList: seq<Volume>) returns (r: Result<seq<Container>, Panic>)
    ensures r == ViewAll(containerList, volumeList)
  {
    var views := [];
    PrependNothing(ViewAll(containerList, volumeList));
    assert containerList[0..] == containerList;
    for i := 0 to |containerList|
      invariant ViewAll(containerList, volumeList) == Prepend(views, ViewAll(containerList[i..], volumeList))
    {
      assert containerList[i..][1..] == containerList[i + 1..];
      var c := GetContainer(containerList[i], volumeList);
      if c.Err? {
        return Err(c.error);
      }
      PrependTwice(views, c.value, ViewAll(containerList[i + 1..], volumeList));
      views := views + [c.value];
    }
    assert views + [] == views;
    r := Ok(views);
  }
}
