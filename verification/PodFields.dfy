/** What a marshalled container holds, field by field, and what a viewer makes of any Kubernetes container. */
module PodFields {
  import opened Wrappers
  import opened PodTemplate
  import opened PodRoundTrip

  /** How many of the first n names are not empty: the place of entry n in a list without the unnamed ones. */
  function Named(names: seq<string>, n: nat): nat
    requires n <= |names|
  {
    if n == 0 then 0 else (if names[0] != "" then 1 else 0) + Named(names[1..], n - 1)
  }

  function NamesOf<T>(name: T -> string, items: seq<T>): (names: seq<string>)
    ensures |names| == |items| && forall i :: 0 <= i < |items| ==> names[i] == name(items[i])
  {
    seq(|items|, i requires 0 <= i < |items| => name(items[i]))
  }

  function EntryName(e: EnvStructCont): string { e.name }

  function MountName(v: VolumeMountStruct): string { v.volumeName }

  function VarName(e: EnvVar): string { e.name }

  function PathName(m: VolumeMount): string { m.name }

  // ---------- Marshalling ----------

  /** The value stands in the pod itself, or a key of a config map is named instead. */
  ghost predicate EnvIs(e: EnvVar, v: EnvStructCont) {
    e.name == v.name &&
    if v.configMapName == "" then e.value == v.value && e.valueFrom == None
    else
      && e.value == "" && e.valueFrom.Some? && e.valueFrom.value.ConfigMapKeyRef?
      && e.valueFrom.value.ref.key == v.configMapKey && e.valueFrom.value.ref.name == v.configMapName
  }

  /** A folder is mounted at its path, a file at the path joined with its name in the container. */
  ghost predicate MountIs(m: VolumeMount, v: VolumeMountStruct, join: PathJoin) {
    m.name == v.volumeName &&
    if v.containerPathFlag == 0 then m.mountPath == v.containerPath && m.subPath == ""
    else m.mountPath == join(v.containerPath, v.containerFile) && m.subPath == v.targetFile
  }

  ghost predicate EnvAt(env: seq<EnvVar>, es: seq<EnvStructCont>, i: nat)
    requires i < |es|
  {
    var k := Named(NamesOf(EntryName, es), i);
    k < |env| && EnvIs(env[k], es[i])
  }

  ghost predicate MountAt(ms: seq<VolumeMount>, vs: seq<VolumeMountStruct>, join: PathJoin, i: nat)
    requires i < |vs|
  {
    var k := Named(NamesOf(MountName, vs), i);
    k < |ms| && MountIs(ms[k], vs[i], join)
  }

  ghost predicate EnvsAre(env: seq<EnvVar>, es: seq<EnvStructCont>) {
    && |env| == Named(NamesOf(EntryName, es), |es|)
    && forall i :: 0 <= i < |es| && es[i].name != "" ==> EnvAt(env, es, i)
  }

  ghost predicate MountsAre(ms: seq<VolumeMount>, vs: seq<VolumeMountStruct>, join: PathJoin) {
    && |ms| == Named(NamesOf(MountName, vs), |vs|)
    && forall i :: 0 <= i < |vs| && vs[i].volumeName != "" ==> MountAt(ms, vs, join, i)
  }

  /** The resource is listed, with the amount, exactly if there is one. */
  ghost predicate Amount(resources: map<string, string>, key: string, amount: string) {
    (key in resources <==> amount != "") && (key in resources ==> resources[key] == amount)
  }

  /** The port as a 32-bit integer. */
  ghost predicate PortIs(port: int, given: int) {
    IsInt32(port) && (port - given) % 0x1_0000_0000 == 0
  }

  ghost predicate ContainerIs(k: K8sContainer, c: Container, registryURI: string, join: PathJoin) {
    && k.name == c.name && k.workingDir == c.workingDir
    && k.image == registryURI + "/" + c.image.imageName + ":" + c.image.imageTag
    && (if c.command == "" then k.command == [] && k.args == []
        else k.command == ["/bin/sh"] && k.args == ["-c", c.command])
    && |k.ports| == |c.containerPort| && (forall i :: 0 <= i < |k.ports| ==> PortIs(k.ports[i], c.containerPort[i]))
    && k.requests.Keys <= {"cpu", "memory"} && k.limits.Keys <= {"cpu", "memory", "nvidia.com/gpu"}
    && Amount(k.requests, "cpu", c.cpuRequest) && Amount(k.requests, "memory", c.memRequest)
    && Amount(k.limits, "cpu", c.cpuLimit) && Amount(k.limits, "memory", c.memLimit)
    && Amount(k.limits, "nvidia.com/gpu", c.gpuLimit)
    && EnvsAre(k.env, c.env) && MountsAre(k.volumeMounts, c.volumeMounts, join)
  }

  lemma {:induction false} EnvNext(front: seq<EnvVar>, rest: seq<EnvVar>, es: seq<EnvStructCont>, i: nat)
    requires 0 < i < |es| && |front| == (if es[0].name != "" then 1 else 0) && EnvAt(rest, es[1..], i - 1)
    ensures EnvAt(front + rest, es, i)
  {
    assert NamesOf(EntryName, es)[1..] == NamesOf(EntryName, es[1..]);
  }

  lemma {:induction false} EnvFields(es: seq<EnvStructCont>)
    ensures EnvsAre(K8sEnv(es), es)
  {
    if es != [] {
      EnvFields(es[1..]);
      assert NamesOf(EntryName, es)[1..] == NamesOf(EntryName, es[1..]);
      var front := if es[0].name != "" then [K8sEnvVar(es[0])] else [];
      forall i | 0 < i < |es| && es[i].name != ""
        ensures EnvAt(front + K8sEnv(es[1..]), es, i)
      {
        EnvNext(front, K8sEnv(es[1..]), es, i);
      }
      assert es[0].name != "" ==> EnvAt(front + K8sEnv(es[1..]), es, 0);
    }
  }

  lemma {:induction false} MountNext(front: seq<VolumeMount>, rest: seq<VolumeMount>, vs: seq<VolumeMountStruct>,
                                     join: PathJoin, i: nat)
    requires 0 < i < |vs| && |front| == (if vs[0].volumeName != "" then 1 else 0) && MountAt(rest, vs[1..], join, i - 1)
    ensures MountAt(front + rest, vs, join, i)
  {
    assert NamesOf(MountName, vs)[1..] == NamesOf(MountName, vs[1..]);
  }

  lemma {:induction false} MountFields(vs: seq<VolumeMountStruct>, join: PathJoin)
    ensures MountsAre(K8sMounts(vs, join), vs, join)
  {
    if vs != [] {
      MountFields(vs[1..], join);
      assert NamesOf(MountName, vs)[1..] == NamesOf(MountName, vs[1..]);
      var front := if vs[0].volumeName != "" then [K8sMount(vs[0], join)] else [];
      forall i | 0 < i < |vs| && vs[i].volumeName != ""
        ensures MountAt(front + K8sMounts(vs[1..], join), vs, join, i)
      {
        MountNext(front, K8sMounts(vs[1..], join), vs, join, i);
      }
      assert vs[0].volumeName != "" ==> MountAt(front + K8sMounts(vs[1..], join), vs, join, 0);
    }
  }

  lemma {:induction false} RequestFields(cpu: string, mem: string)
    ensures var m := Entry("cpu", cpu) + Entry("memory", mem);
            m.Keys <= {"cpu", "memory"} && Amount(m, "cpu", cpu) && Amount(m, "memory", mem)
  {
  }

  lemma {:induction false} LimitFields(cpu: string, mem: string, gpu: string)
    ensures var m := Entry("cpu", cpu) + Entry("memory", mem) + Entry("nvidia.com/gpu", gpu);
            && m.Keys <= {"cpu", "memory", "nvidia.com/gpu"}
            && Amount(m, "cpu", cpu) && Amount(m, "memory", mem) && Amount(m, "nvidia.com/gpu", gpu)
  {
  }

  lemma {:induction false} PortFields(ports: seq<int>)
    ensures forall i :: 0 <= i < |ports| ==> PortIs(K8sPorts(ports)[i], ports[i])
  {
  }

  /** Every marshalled container holds exactly this: unnamed entries and mounts are left out, and so are resources
      without an amount. */
  lemma {:induction false} MarshalledContainer(c: Container, registryURI: string, join: PathJoin)
    ensures ContainerIs(ToK8s(c, registryURI, join), c, registryURI, join)
  {
    EnvFields(c.env);
    MountFields(c.volumeMounts, join);
    PortFields(c.containerPort);
    RequestFields(c.cpuRequest, c.memRequest);
    LimitFields(c.cpuLimit, c.memLimit, c.gpuLimit);
  }

  // ---------- Viewing ----------

  ghost predicate ReadsEnv(v: EnvStructCont, e: EnvVar) {
    v.name == e.name &&
    match e.valueFrom
    case None => v.value == e.value && v.configMapName == "" && v.configMapKey == ""
    case Some(ConfigMapKeyRef(ref)) => v.value == "" && v.configMapName == ref.name && v.configMapKey == ref.key
    case Some(OtherRef) => false
  }

  /** The type and the target that a source shows. */
  ghost predicate ReadsSource(v: VolumeMountStruct, source: VolumeSource) {
    match source
    case HostPath(path) =>
      && v.volumeType == "hostpath" && v.targetPath == path
      && v.targetStorageService == v.targetPVC == v.targetConfigMap == ""
    case NFS(server, path) =>
      && v.volumeType == "nfs" && v.targetStorageService == server && v.targetPath == path
      && v.targetPVC == v.targetConfigMap == ""
    case PersistentVolumeClaim(claim) =>
      v.volumeType == "pvc" && v.targetPVC == claim && v.targetStorageService == v.targetPath == v.targetConfigMap == ""
    case ConfigMap(name) =>
      && v.volumeType == "configmap" && v.targetConfigMap == name
      && v.targetStorageService == v.targetPath == v.targetPVC == ""
    case NoSource =>
      v.volumeType == v.targetStorageService == v.targetPath == v.targetPVC == v.targetConfigMap == ""
  }

  /** A mount with a path inside its volume is shown as a file of that name on both sides. */
  ghost predicate ReadsMount(v: VolumeMountStruct, m: VolumeMount, source: VolumeSource) {
    && v.volumeName == m.name && v.containerPath == m.mountPath && v.containerFile == v.targetFile == m.subPath
    && v.containerPathFlag == (if m.subPath == "" then 0 else 1) && ReadsSource(v, source)
  }

  ghost predicate ReadAt(env: seq<EnvStructCont>, es: seq<EnvVar>, i: nat)
    requires i < |es|
  {
    var k := Named(NamesOf(VarName, es), i);
    k < |env| && ReadsEnv(env[k], es[i])
  }

  ghost predicate ReadsEnvs(env: seq<EnvStructCont>, es: seq<EnvVar>) {
    && |env| == Named(NamesOf(VarName, es), |es|)
    && forall i :: 0 <= i < |es| && es[i].name != "" ==> ReadAt(env, es, i)
  }

  /** Mount i of those from n on is shown, in its place, with the source of volume i. */
  ghost predicate ShownAt(vs: seq<VolumeMountStruct>, names: seq<string>, ms: seq<VolumeMount>, volumes: seq<Volume>,
                          n: nat, i: nat)
    requires n <= i < |ms| && |names| == |ms| - n
  {
    var k := Named(names, i - n);
    k < |vs| && i < |volumes| && ReadsMount(vs[k], ms[i], volumes[i].source)
  }

  /** Mount i is shown with the source of volume i. */
  ghost predicate ReadsMounts(vs: seq<VolumeMountStruct>, ms: seq<VolumeMount>, volumes: seq<Volume>) {
    && |vs| == Named(NamesOf(PathName, ms), |ms|)
    && forall i :: 0 <= i < |ms| && ms[i].name != "" ==> ShownAt(vs, NamesOf(PathName, ms), ms, volumes, 0, i)
  }

  /** The image text after the host, if there is a slash, up to the last colon, and what follows that. */
  ghost predicate ReadsImage(image: ImageIndex, text: string, host: string) {
    && ':' !in image.imageTag && image.projectName == "" && '/' !in host
    && (text == host + "/" + image.imageName + ":" + image.imageTag ||
        ('/' !in text && text == image.imageName + ":" + image.imageTag))
  }

  /** A named entry that takes its value from something else than a config map. */
  ghost predicate Unreadable(e: EnvVar) {
    e.name != "" && e.valueFrom == Some(OtherRef)
  }

  lemma {:induction false} EnvStops(es: seq<EnvVar>) returns (i: nat)
    requires ViewEnv(es).Err?
    ensures ViewEnv(es).error == NilDereference && i < |es| && Unreadable(es[i])
  {
    if es[0].name != "" && ViewEnvVar(es[0]).Err? {
      i := 0;
    } else {
      i := EnvStops(es[1..]);
      i := i + 1;
    }
  }

  lemma {:induction false} ReadNext(front: seq<EnvStructCont>, rest: seq<EnvStructCont>, es: seq<EnvVar>, i: nat)
    requires 0 < i < |es| && |front| == (if es[0].name != "" then 1 else 0) && ReadAt(rest, es[1..], i - 1)
    ensures ReadAt(front + rest, es, i)
  {
    assert NamesOf(VarName, es)[1..] == NamesOf(VarName, es[1..]);
  }

  lemma {:induction false} EnvRead(es: seq<EnvVar>)
    requires ViewEnv(es).Ok?
    ensures ReadsEnvs(ViewEnv(es).value, es)
  {
    if es != [] {
      EnvRead(es[1..]);
      assert NamesOf(VarName, es)[1..] == NamesOf(VarName, es[1..]);
      var front := if es[0].name != "" then [ViewEnvVar(es[0]).value] else [];
      var rest := ViewEnv(es[1..]).value;
      assert ViewEnv(es).value == front + rest;
      forall i | 0 < i < |es| && es[i].name != ""
        ensures ReadAt(front + rest, es, i)
      {
        ReadNext(front, rest, es, i);
      }
      assert es[0].name != "" ==> ReadAt(front + rest, es, 0);
    }
  }

  lemma {:induction false} MountsStop(ms: seq<VolumeMount>, volumes: seq<Volume>, n: nat) returns (i: nat)
    requires n <= |ms| && ViewMounts(ms, volumes, n).Err?
    ensures ViewMounts(ms, volumes, n).error == IndexOutOfRange && |volumes| <= i < |ms| && ms[i].name != ""
    decreases |ms| - n
  {
    if ms[n].name != "" && n >= |volumes| {
      i := n;
    } else {
      i := MountsStop(ms, volumes, n + 1);
    }
  }

  lemma {:induction false} ShownNext(front: seq<VolumeMountStruct>, rest: seq<VolumeMountStruct>, names: seq<string>,
                                     ms: seq<VolumeMount>, volumes: seq<Volume>, n: nat, i: nat)
    requires n < i < |ms| && |names| == |ms| - n && |front| == (if names[0] != "" then 1 else 0)
    requires ShownAt(rest, names[1..], ms, volumes, n + 1, i)
    ensures ShownAt(front + rest, names, ms, volumes, n, i)
  {
    assert Named(names, i - n) == |front| + Named(names[1..], i - n - 1);
  }

  lemma {:induction false} ShownFirst(rest: seq<VolumeMountStruct>, names: seq<string>, ms: seq<VolumeMount>,
                                      volumes: seq<Volume>, n: nat)
    requires n < |ms| && |names| == |ms| - n && n < |volumes|
    ensures ShownAt([ViewMount(ms[n], volumes[n].source)] + rest, names, ms, volumes, n, n)
  {
  }

  lemma {:induction false} MountsRead(ms: seq<VolumeMount>, volumes: seq<Volume>, n: nat)
    requires n <= |ms| && ViewMounts(ms, volumes, n).Ok?
    ensures var vs, names := ViewMounts(ms, volumes, n).value, NamesOf(PathName, ms[n..]);
            && |vs| == Named(names, |ms| - n)
            && forall i :: n <= i < |ms| && ms[i].name != "" ==> ShownAt(vs, names, ms, volumes, n, i)
    decreases |ms| - n
  {
    if n < |ms| {
      MountsRead(ms, volumes, n + 1);
      var rest, names := ViewMounts(ms, volumes, n + 1).value, NamesOf(PathName, ms[n..]);
      assert names[1..] == NamesOf(PathName, ms[n + 1..]);
      var front := if ms[n].name == "" then [] else [ViewMount(ms[n], volumes[n].source)];
      assert ViewMounts(ms, volumes, n).value == front + rest;
      forall i | n <= i < |ms| && ms[i].name != ""
        ensures ShownAt(front + rest, names, ms, volumes, n, i)
      {
        if i == n {
          ShownFirst(rest, names, ms, volumes, n);
        } else {
          ShownNext(front, rest, names, ms, volumes, n, i);
        }
      }
    }
  }

  lemma {:induction false} ImageOnly(text: string, image: ImageIndex, host: string)
    requires ReadsImage(image, text, host)
    ensures ViewImage(text) == Ok(image)
  {
    if text == host + "/" + image.imageName + ":" + image.imageTag {
      assert text == ImageText(host, image);
      ImageRoundTrip(host, image);
    } else {
      ColonOfImage(image.imageName, image.imageTag);
      IndexIsFirst(text, '/');
      var n := |image.imageName|;
      assert text[0..n] == image.imageName && text[n + 1..] == image.imageTag;
    }
  }

  lemma {:induction false} CutAt(text: string, i: nat, c: char)
    requires i < |text| && text[i] == c
    ensures text == text[..i] + [c] + text[i + 1..]
  {
  }

  lemma {:induction false} ImageFound(text: string)
    requires ViewImage(text).Ok?
    ensures exists host :: ReadsImage(ViewImage(text).value, text, host)
  {
    var slash, colon := Index(text, '/'), LastIndex(text, ':');
    var image := ViewImage(text).value;
    LastIndexIsLast(text, ':');
    IndexIsFirst(text, '/');
    CutAt(text, colon, ':');
    if slash == -1 {
      assert ReadsImage(image, text, "");
    } else {
      CutAt(text[..colon], slash, '/');
      assert text[..colon][..slash] == text[..slash];
      assert ReadsImage(image, text, text[..slash]);
    }
  }

  /** An image text is read exactly if its last colon comes after its first slash, as what stands around them. */
  lemma {:induction false} ImageRead(text: string, image: ImageIndex)
    ensures ViewImage(text) == Ok(image) <==> exists host :: ReadsImage(image, text, host)
    ensures ViewImage(text).Err? ==> ViewImage(text).error == IndexOutOfRange
  {
    if ViewImage(text) == Ok(image) {
      ImageFound(text);
    }
    forall host | ReadsImage(image, text, host)
      ensures ViewImage(text) == Ok(image)
    {
      ImageOnly(text, image, host);
    }
  }

  /** The container is shown field by field; the command is the second argument of a first command that is not empty. */
  ghost predicate ContainerReads(c: Container, k: K8sContainer, volumes: seq<Volume>) {
    && c.name == k.name && c.workingDir == k.workingDir && c.containerPort == k.ports
    && (if RunsCommand(k) then |k.args| >= 2 && c.command == k.args[1] else c.command == "")
    && ReadsMounts(c.volumeMounts, k.volumeMounts, volumes) && ReadsEnvs(c.env, k.env)
    && (exists host :: ReadsImage(c.image, k.image, host))
    && c.cpuRequest == (if "cpu" in k.requests then k.requests["cpu"] else "")
    && c.memRequest == (if "memory" in k.requests then k.requests["memory"] else "")
    && c.cpuLimit == (if "cpu" in k.limits then k.limits["cpu"] else "")
    && c.memLimit == (if "memory" in k.limits then k.limits["memory"] else "")
    && c.gpuLimit == (if "nvidia.com/gpu" in k.limits then k.limits["nvidia.com/gpu"] else "")
  }

  ghost predicate RunsCommand(k: K8sContainer) {
    k.command != [] && k.command[0] != ""
  }

  /** What stops the viewer: an argument, a volume or a colon that is not there, or a foreign reference. */
  ghost predicate StopsViewer(k: K8sContainer, volumes: seq<Volume>, panic: Panic) {
    match panic
    case IndexOutOfRange =>
      || (RunsCommand(k) && |k.args| < 2)
      || (exists i :: |volumes| <= i < |k.volumeMounts| && k.volumeMounts[i].name != "")
      || forall image, host :: !ReadsImage(image, k.image, host)
    case NilDereference => exists e :: e in k.env && Unreadable(e)
  }

  /** Every Kubernetes container is shown field by field, or something in it stops the viewer. */
  lemma {:induction false} ViewedContainer(k: K8sContainer, volumes: seq<Volume>)
    ensures match View(k, volumes)
            case Ok(c) => ContainerReads(c, k, volumes)
            case Err(panic) => StopsViewer(k, volumes, panic)
  {
    if RunsCommand(k) && |k.args| < 2 {
    } else if ViewMounts(k.volumeMounts, volumes, 0).Err? {
      var i := MountsStop(k.volumeMounts, volumes, 0);
    } else if ViewEnv(k.env).Err? {
      var i := EnvStops(k.env);
      assert k.env[i] in k.env;
    } else if ViewImage(k.image).Err? {
      forall image, host
        ensures !ReadsImage(image, k.image, host)
      {
        ImageRead(k.image, image);
      }
      ImageRead(k.image, ImageIndex("", "", ""));
    } else {
      EnvRead(k.env);
      MountsRead(k.volumeMounts, volumes, 0);
      assert k.volumeMounts[0..] == k.volumeMounts;
      ImageRead(k.image, ViewImage(k.image).value);
    }
  }
}
