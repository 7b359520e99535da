/** Viewing what was marshalled: which wizard containers come back unchanged. */
module PodRoundTrip {
  import opened Wrappers
  import opened PodTemplate
  import opened PodVolumes

  // ---------- The image ----------

  lemma {:induction false} IndexIsFirst(s: string, c: char)
    ensures -1 <= Index(s, c) < |s|
    ensures Index(s, c) == -1 <==> c !in s
    ensures Index(s, c) != -1 ==> s[Index(s, c)] == c && c !in s[..Index(s, c)]
  {
    if s != [] && s[0] != c {
      IndexIsFirst(s[1..], c);
      assert s == [s[0]] + s[1..];
      var i := Index(s[1..], c);
      if i != -1 {
        assert s[..i + 1] == [s[0]] + s[1..][..i];
      }
    }
  }

  lemma {:induction false} LastIndexIsLast(s: string, c: char)
    ensures -1 <= LastIndex(s, c) < |s|
    ensures LastIndex(s, c) == -1 <==> c !in s
    ensures LastIndex(s, c) != -1 ==> s[LastIndex(s, c)] == c && c !in s[LastIndex(s, c) + 1..]
  {
    if s != [] && s[|s| - 1] != c {
      var init := s[..|s| - 1];
      LastIndexIsLast(init, c);
      assert s == init + [s[|s| - 1]];
      var i := LastIndex(init, c);
      if i != -1 {
        assert s[i + 1..] == init[i + 1..] + [s[|s| - 1]];
      }
    }
  }

  lemma {:induction false} SlashOfImage(registryURI: string, rest: string)
    ensures 0 <= Index(registryURI + "/" + rest, '/') <= |registryURI|
    ensures Index(registryURI + "/" + rest, '/') == |registryURI| <==> '/' !in registryURI
  {
    var s := registryURI + "/" + rest;
    IndexIsFirst(s, '/');
    assert s[|registryURI|] == '/';
    var i := Index(s, '/');
    if i == |registryURI| {
      assert s[..i] == registryURI;
    } else {
      assert registryURI[i] == '/';
    }
  }

  lemma {:induction false} ColonOfImage(rest: string, tag: string)
    ensures |rest| <= LastIndex(rest + ":" + tag, ':') <= |rest| + |tag|
    ensures LastIndex(rest + ":" + tag, ':') == |rest| <==> ':' !in tag
  {
    var s := rest + ":" + tag;
    LastIndexIsLast(s, ':');
    assert s[|rest|] == ':';
    var i := LastIndex(s, ':');
    if i == |rest| {
      assert s[i + 1..] == tag;
    } else {
      assert tag[i - |rest| - 1] == ':';
    }
  }

  predicate ImageReturns(registryURI: string, image: ImageIndex) {
    '/' !in registryURI && ':' !in image.imageTag && image.projectName == ""
  }

  /** A marshalled image text is always parsed, and parsed back to the same image iff its marks are unambiguous. */
  lemma {:induction false} ImageRoundTrip(registryURI: string, image: ImageIndex)
    ensures ViewImage(ImageText(registryURI, image)).Ok?
    ensures ViewImage(ImageText(registryURI, image)) == Ok(image) <==> ImageReturns(registryURI, image)
  {
    var u, n, t := registryURI, image.imageName, image.imageTag;
    var s := ImageText(registryURI, image);
    assert s == u + "/" + (n + ":" + t);
    assert s == (u + "/" + n) + ":" + t;
    SlashOfImage(u, n + ":" + t);
    ColonOfImage(u + "/" + n, t);
    var slash, colon := Index(s, '/'), LastIndex(s, ':');
    assert slash + 1 <= |u| + 1 <= colon;
    var name, tag := s[slash + 1..colon], s[colon + 1..];
    assert ViewImage(s) == Ok(ImageIndex(name, tag, ""));
    assert |tag| == |t| <==> ':' !in t;
    if ':' !in t {
      assert tag == t;
      if '/' !in u {
        assert name == n;
      } else {
        assert |name| > |n|;
      }
    }
  }

  // ---------- The environment ----------

  predicate EnvReturns(e: EnvStructCont) {
    && e.name != ""
    && (if e.configMapName == "" then e.configMapKey == "" else e.value == "")
  }

  /** A marshalled environment is always viewed: the entry that a named one gives, and nothing for an unnamed one. */
  function ViewedVar(e: EnvStructCont): EnvStructCont {
    if e.configMapName == "" then EnvStructCont(e.name, e.value, "", "")
    else EnvStructCont(e.name, "", e.configMapName, e.configMapKey)
  }

  lemma {:induction false} ViewEnvStep(es: seq<EnvStructCont>)
    requires es != []
    ensures es[0].name == "" ==> ViewEnv(K8sEnv(es)) == ViewEnv(K8sEnv(es[1..]))
    ensures es[0].name != "" ==> ViewEnv(K8sEnv(es)) == Prepend([ViewedVar(es[0])], ViewEnv(K8sEnv(es[1..])))
  {
    var rest := K8sEnv(es[1..]);
    if es[0].name != "" {
      assert ([K8sEnvVar(es[0])] + rest)[1..] == rest;
    } else {
      assert [] + rest == rest;
    }
  }

  lemma {:induction false} ViewEnvShortens(es: seq<EnvStructCont>)
    ensures ViewEnv(K8sEnv(es)).Ok? && |ViewEnv(K8sEnv(es)).value| <= |es|
  {
    if es != [] {
      ViewEnvShortens(es[1..]);
      ViewEnvStep(es);
    }
  }

  lemma {:induction false} EnvRoundTrip(es: seq<EnvStructCont>)
    ensures ViewEnv(K8sEnv(es)).Ok?
    ensures ViewEnv(K8sEnv(es)) == Ok(es) <==> forall i :: 0 <= i < |es| ==> EnvReturns(es[i])
  {
    if es != [] {
      ViewEnvStep(es);
      ViewEnvShortens(es[1..]);
      EnvRoundTrip(es[1..]);
      if es[0].name != "" {
        assert ViewedVar(es[0]) == es[0] <==> EnvReturns(es[0]);
        PrependIsWhole(es, ViewedVar(es[0]), ViewEnv(K8sEnv(es[1..])));
      }
      assert (forall i :: 0 <= i < |es| ==> EnvReturns(es[i])) <==>
        EnvReturns(es[0]) && forall i :: 0 <= i < |es[1..]| ==> EnvReturns(es[1..][i]) by {
        assert forall i :: 0 < i < |es| ==> es[i] == es[1..][i - 1];
      }
    }
  }

  // ---------- The ports ----------

  predicate IsInt32(n: int) {
    -0x8000_0000 <= n < 0x8000_0000
  }

  lemma {:induction false} PortsRoundTrip(ports: seq<int>)
    ensures K8sPorts(ports) == ports <==> forall i :: 0 <= i < |ports| ==> IsInt32(ports[i])
  {
    forall i | 0 <= i < |ports|
      ensures Int32(ports[i]) == ports[i] <==> IsInt32(ports[i])
    {
    }
  }

  // ---------- The mounts ----------

  /** The fields that the mount's type does not use are empty. */
  predicate Tidy(v: VolumeMountStruct) {
    && (Known(v) || v.volumeType == "")
    && (v.volumeType == "nfs" || v.targetStorageService == "")
    && (v.volumeType in ["hostpath", "nfs"] || v.targetPath == "")
    && (v.volumeType == "pvc" || v.targetPVC == "")
    && (v.volumeType == "configmap" || v.targetConfigMap == "")
  }

  /**
   Beside a volume of this source the mount comes back. A file mount does so only if joining
   its file to its path gives the path again.
   */
  predicate MountReturns(v: VolumeMountStruct, source: VolumeSource, join: PathJoin) {
    && v.volumeName != "" && Tidy(v) && source == SourceOf(v)
    && (if v.containerPathFlag == 0 then v.containerFile == "" && v.targetFile == "" else FileReturns(v, join))
  }

  predicate FileReturns(v: VolumeMountStruct, join: PathJoin) {
    && v.containerPathFlag == 1 && v.containerFile == v.targetFile != ""
    && join(v.containerPath, v.containerFile) == v.containerPath
  }

  predicate MountsReturn(vs: seq<VolumeMountStruct>, volumes: seq<Volume>, join: PathJoin) {
    && |vs| <= |volumes|
    && forall i :: 0 <= i < |vs| ==> MountReturns(vs[i], volumes[i].source, join)
  }

  lemma {:induction false} MountRoundTrip(v: VolumeMountStruct, source: VolumeSource, join: PathJoin)
    requires v.volumeName != ""
    ensures ViewMount(K8sMount(v, join), source) == v <==> MountReturns(v, source, join)
  {
  }

  lemma {:induction false} NamedMounts(vs: seq<VolumeMountStruct>, join: PathJoin)
    ensures |K8sMounts(vs, join)| <= |vs|
    ensures forall i :: 0 <= i < |K8sMounts(vs, join)| ==> K8sMounts(vs, join)[i].name != ""
    ensures |K8sMounts(vs, join)| == |vs| <==> forall i :: 0 <= i < |vs| ==> vs[i].volumeName != ""
    ensures |K8sMounts(vs, join)| == |vs| ==> forall i :: 0 <= i < |vs| ==>
            K8sMounts(vs, join)[i] == K8sMount(vs[i], join)
  {
    if vs != [] {
      NamedMounts(vs[1..], join);
      assert forall i :: 0 < i < |vs| ==> vs[i] == vs[1..][i - 1];
    }
  }

  /** The mounts' view exists iff the volume list is long enough, whatever the volumes are. */
  lemma {:induction false} ViewMountsOfNamed(ms: seq<VolumeMount>, volumes: seq<Volume>, i: nat)
    requires i <= |ms|
    requires forall k :: 0 <= k < |ms| ==> ms[k].name != ""
    ensures ViewMounts(ms, volumes, i).Ok? <==> i == |ms| || |ms| <= |volumes|
    ensures ViewMounts(ms, volumes, i).Ok? ==>
      var r := ViewMounts(ms, volumes, i).value;
      |r| == |ms| - i && forall k :: i <= k < |ms| ==> k < |volumes| && r[k - i] == ViewMount(ms[k], volumes[k].source)
    decreases |ms| - i
  {
    if i < |ms| {
      ViewMountsOfNamed(ms, volumes, i + 1);
    }
  }

  lemma {:induction false} MountsRoundTrip(vs: seq<VolumeMountStruct>, volumes: seq<Volume>, join: PathJoin)
    ensures ViewMounts(K8sMounts(vs, join), volumes, 0).Ok? <==> |K8sMounts(vs, join)| <= |volumes|
    ensures ViewMounts(K8sMounts(vs, join), volumes, 0) == Ok(vs) <==> MountsReturn(vs, volumes, join)
  {
    var ms := K8sMounts(vs, join);
    NamedMounts(vs, join);
    ViewMountsOfNamed(ms, volumes, 0);
    assert MountsReturn(vs, volumes, join) ==> |ms| == |vs| by {
      if MountsReturn(vs, volumes, join) {
        assert forall i :: 0 <= i < |vs| ==> vs[i].volumeName != "";
      }
    }
    if |ms| == |vs| && |ms| <= |volumes| {
      var r := ViewMounts(ms, volumes, 0).value;
      forall i | 0 <= i < |vs|
        ensures r[i] == vs[i] <==> MountReturns(vs[i], volumes[i].source, join)
      {
        assert r[i - 0] == ViewMount(ms[i], volumes[i].source);
        MountRoundTrip(vs[i], volumes[i].source, join);
      }
      assert r == vs <==> forall i :: 0 <= i < |vs| ==> r[i] == vs[i];
    }
  }

  // ---------- The container ----------

  lemma {:induction false} RequestsReturn(cpu: string, mem: string)
    ensures var m := Entry("cpu", cpu) + Entry("memory", mem); Lookup(m, "cpu") == cpu && Lookup(m, "memory") == mem
  {
  }

  lemma {:induction false} LimitsReturn(cpu: string, mem: string, gpu: string)
    ensures
      var m := Entry("cpu", cpu) + Entry("memory", mem) + Entry("nvidia.com/gpu", gpu);
      Lookup(m, "cpu") == cpu && Lookup(m, "memory") == mem && Lookup(m, "nvidia.com/gpu") == gpu
  {
  }

  /** All that is not about mounts. */
  predicate PlainPartsReturn(c: Container, registryURI: string) {
    && ImageReturns(registryURI, c.image)
    && (forall i :: 0 <= i < |c.env| ==> EnvReturns(c.env[i]))
    && (forall i :: 0 <= i < |c.containerPort| ==> IsInt32(c.containerPort[i]))
  }

  predicate ContainerReturns(c: Container, registryURI: string, join: PathJoin, volumes: seq<Volume>) {
    PlainPartsReturn(c, registryURI) && MountsReturn(c.volumeMounts, volumes, join)
  }

  /**
   The viewer fails exactly when a container has more named mounts than the pod has volumes.
   Name, working directory, command and resources always come back; the container as a whole
   does exactly when its image, environment, ports and mounts do.
   */
  lemma {:induction false} ContainerRoundTrip(c: Container, registryURI: string, join: PathJoin, volumes: seq<Volume>)
    ensures
      var r := View(ToK8s(c, registryURI, join), volumes);
      && (r.Ok? <==> |K8sMounts(c.volumeMounts, join)| <= |volumes|)
      && (r.Ok? ==>
            && r.value.name == c.name && r.value.workingDir == c.workingDir && r.value.command == c.command
            && r.value.cpuRequest == c.cpuRequest && r.value.memRequest == c.memRequest
            && r.value.cpuLimit == c.cpuLimit && r.value.memLimit == c.memLimit && r.value.gpuLimit == c.gpuLimit)
      && (r == Ok(c) <==> ContainerReturns(c, registryURI, join, volumes))
  {
    MountsRoundTrip(c.volumeMounts, volumes, join);
    ImageRoundTrip(registryURI, c.image);
    EnvRoundTrip(c.env);
    PortsRoundTrip(c.containerPort);
    RequestsReturn(c.cpuRequest, c.memRequest);
    LimitsReturn(c.cpuLimit, c.memLimit, c.gpuLimit);
  }

  lemma {:induction false} PrependIsWhole<T>(xs: seq<T>, x: T, rest: Result<seq<T>, Panic>)
    requires xs != []
    ensures Prepend([x], rest) == Ok(xs) <==> x == xs[0] && rest == Ok(xs[1..])
  {
    assert xs == [xs[0]] + xs[1..];
    if rest.Ok? {
      assert ([x] + rest.value)[0] == x && ([x] + rest.value)[1..] == rest.value;
    }
  }

  /** The same for a whole list, read beside any volume list. */
  lemma {:induction false} ContainersRoundTrip(cs: seq<Container>, registryURI: string, join: PathJoin,
                                               volumes: seq<Volume>)
    ensures
      ViewAll(AllToK8s(cs, registryURI, join), volumes) == Ok(cs) <==>
      forall i :: 0 <= i < |cs| ==> ContainerReturns(cs[i], registryURI, join, volumes)
  {
    if cs != [] {
      var ks := AllToK8s(cs, registryURI, join);
      assert ks[1..] == AllToK8s(cs[1..], registryURI, join);
      ContainerRoundTrip(cs[0], registryURI, join, volumes);
      ContainersRoundTrip(cs[1..], registryURI, join, volumes);
      if View(ks[0], volumes).Ok? {
        PrependIsWhole(cs, View(ks[0], volumes).value, ViewAll(ks[1..], volumes));
      }
    }
  }

  /** A folder mount that names a volume of a known type and leaves the rest empty. */
  predicate Folder(v: VolumeMountStruct) {
    && v.volumeName != "" && Known(v) && Tidy(v)
    && v.containerPathFlag == 0 && v.containerFile == "" && v.targetFile == ""
  }

  lemma {:induction false} KnownVolumes(vs: seq<VolumeMountStruct>)
    requires forall i :: 0 <= i < |vs| ==> Known(vs[i])
    ensures |VolumesOf(vs)| == |vs| && forall i :: 0 <= i < |vs| ==> VolumesOf(vs)[i] == VolumeOf(vs[i])
  {
    if vs != [] {
      KnownVolumes(vs[1..]);
    }
  }

  /** A container's mounts line up with the pod's volumes: mount i has the source of volume i. */
  predicate LinesUp(vs: seq<VolumeMountStruct>, volumes: seq<Volume>) {
    |vs| <= |volumes| && forall i :: 0 <= i < |vs| ==> SourceOf(vs[i]) == volumes[i].source
  }

  /** Containers with folder mounts, read beside the volumes of their own pod, come back iff each lines up. */
  lemma {:induction false} PodRoundTrips(cs: seq<Container>, initContainers: seq<Container>, registryURI: string,
                                         join: PathJoin)
    requires forall i :: 0 <= i < |cs| ==> PlainPartsReturn(cs[i], registryURI)
    requires forall i, k :: 0 <= i < |cs| && 0 <= k < |cs[i].volumeMounts| ==> Folder(cs[i].volumeMounts[k])
    ensures
      var volumes := PodVolumeList(cs, initContainers);
      ViewAll(AllToK8s(cs, registryURI, join), volumes) == Ok(cs) <==>
      forall i :: 0 <= i < |cs| ==> LinesUp(cs[i].volumeMounts, volumes)
  {
    var volumes := PodVolumeList(cs, initContainers);
    ContainersRoundTrip(cs, registryURI, join, volumes);
    forall i | 0 <= i < |cs|
      ensures MountsReturn(cs[i].volumeMounts, volumes, join) <==> LinesUp(cs[i].volumeMounts, volumes)
    {
    }
  }

  /** The first container always lines up, so a pod of one container always comes back. */
  lemma {:induction false} SingleContainerRoundTrips(c: Container, initContainers: seq<Container>, registryURI: string,
                                                     join: PathJoin)
    requires PlainPartsReturn(c, registryURI)
    requires forall k :: 0 <= k < |c.volumeMounts| ==> Folder(c.volumeMounts[k])
    ensures ViewAll(AllToK8s([c], registryURI, join), PodVolumeList([c], initContainers)) == Ok([c])
  {
    var own := VolumesOf(MountsOf([c]));
    assert MountsOf([c]) == c.volumeMounts + [] == c.volumeMounts;
    KnownVolumes(c.volumeMounts);
    AddedAfterGiven(MountsOf(initContainers), own);
    var volumes := PodVolumeList([c], initContainers);
    assert forall i :: 0 <= i < |own| ==> own[i] == volumes[i];
    PodRoundTrips([c], initContainers, registryURI, join);
  }

  function OneMount(name: string, m: VolumeMountStruct): Container {
    Container(name, "", [m], ImageIndex("app", "1", ""), [], [], "", "", "", "", "", "")
  }

  lemma {:induction false} VolumesOfTwo(a: Container, b: Container)
    ensures VolumesOf(MountsOf([a, b])) == VolumesOf(a.volumeMounts) + VolumesOf(b.volumeMounts)
  {
    assert [a, b][1..] == [b] && [b][1..] == [];
    assert MountsOf([]) == [] && MountsOf([b]) == b.volumeMounts;
    VolumesOfConcat(a.volumeMounts, b.volumeMounts);
  }

  /** Mounts that are marshalled the same make containers that are. */
  lemma {:induction false} SameMarshalled(name: string, m: VolumeMountStruct, n: VolumeMountStruct,
                                          registryURI: string, join: PathJoin)
    requires m.volumeName == n.volumeName && K8sMount(m, join) == K8sMount(n, join)
    ensures ToK8s(OneMount(name, m), registryURI, join) == ToK8s(OneMount(name, n), registryURI, join)
  {
    assert [m][1..] == [n][1..] && K8sMounts([m], join) == K8sMounts([n], join);
  }

  /** The second of two mounts is shown with the source of the first: what is read is not m but seen. */
  lemma {:induction false} ReadBesideFirst(first: VolumeMountStruct, m: VolumeMountStruct, seen: VolumeMountStruct,
                                           registryURI: string, join: PathJoin)
    requires '/' !in registryURI && Known(first) && Known(m)
    requires MountReturns(first, VolumeOf(first).source, join) && MountReturns(seen, VolumeOf(first).source, join)
    requires m.volumeName == seen.volumeName && K8sMount(m, join) == K8sMount(seen, join)
    ensures
      var cs := [OneMount("x", first), OneMount("y", m)];
      ViewAll(AllToK8s(cs, registryURI, join), PodVolumeList(cs, [])) ==
      Ok([OneMount("x", first), OneMount("y", seen)])
  {
    var cs, read := [OneMount("x", first), OneMount("y", m)], [OneMount("x", first), OneMount("y", seen)];
    TwoVolumes(first, m);
    SameMarshalled("y", m, seen, registryURI, join);
    assert AllToK8s(cs, registryURI, join) == AllToK8s(read, registryURI, join);
    OneMountReturns("x", first, registryURI, join, PodVolumeList(cs, []));
    OneMountReturns("y", seen, registryURI, join, PodVolumeList(cs, []));
    ContainersRoundTrip(read, registryURI, join, PodVolumeList(cs, []));
  }

  lemma {:induction false} OneMountReturns(name: string, m: VolumeMountStruct, registryURI: string, join: PathJoin,
                                           volumes: seq<Volume>)
    requires '/' !in registryURI && volumes != [] && MountReturns(m, volumes[0].source, join)
    ensures ContainerReturns(OneMount(name, m), registryURI, join, volumes)
  {
    assert ':' !in "1";
  }

  lemma {:induction false} TwoVolumes(a: VolumeMountStruct, b: VolumeMountStruct)
    requires Known(a) && Known(b)
    ensures PodVolumeList([OneMount("x", a), OneMount("y", b)], []) == [VolumeOf(a), VolumeOf(b)]
  {
    VolumesOfTwo(OneMount("x", a), OneMount("y", b));
    KnownVolumes([a]);
    KnownVolumes([b]);
    assert MountsOf([]) == [];
  }

  const HOST_MOUNT := VolumeMountStruct("hostpath", "a", "/a", "", 0, "", "/host", "", "", "")
  const CLAIM_MOUNT := VolumeMountStruct("pvc", "b", "/b", "", 0, "", "", "", "claim", "")
  const MISREAD_MOUNT := VolumeMountStruct("hostpath", "b", "/b", "", 0, "", "/host", "", "", "")

  /**
   Two containers with one tidy folder mount each, of different sources: the viewer gives the
   second container's mount the first container's source.
   */
  lemma {:induction false} SecondContainerMisread(registryURI: string, join: PathJoin)
    requires '/' !in registryURI
    ensures
      var cs := [OneMount("x", HOST_MOUNT), OneMount("y", CLAIM_MOUNT)];
      ViewAll(AllToK8s(cs, registryURI, join), PodVolumeList(cs, [])) ==
      Ok([OneMount("x", HOST_MOUNT), OneMount("y", MISREAD_MOUNT)])
  {
    ReadBesideFirst(HOST_MOUNT, CLAIM_MOUNT, MISREAD_MOUNT, registryURI, join);
  }
}
