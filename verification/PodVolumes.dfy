/**
 The volumes of a pod: those the containers' mounts call for, then those the init
 containers' mounts call for and that no earlier volume's name covers.
 */
module PodVolumes {
  import opened Wrappers
  import opened PodTemplate

  function SourceOf(v: VolumeMountStruct): VolumeSource {
    if v.volumeType == "hostpath" then HostPath(v.targetPath)
    else if v.volumeType == "nfs" then NFS(v.targetStorageService, v.targetPath)
    else if v.volumeType == "pvc" then PersistentVolumeClaim(v.targetPVC)
    else if v.volumeType == "configmap" then ConfigMap(v.targetConfigMap)
    else NoSource
  }

  /** The mount has one of the four known types. */
  predicate Known(v: VolumeMountStruct) {
    v.volumeType in ["hostpath", "nfs", "pvc", "configmap"]
  }

  function VolumeOf(v: VolumeMountStruct): Volume {
    Volume(v.volumeName, SourceOf(v))
  }

  function OneVolume(v: VolumeMountStruct): seq<Volume> {
    if Known(v) then [VolumeOf(v)] else []
  }

  function VolumesOf(vs: seq<VolumeMountStruct>): seq<Volume> {
    if vs == [] then [] else OneVolume(vs[0]) + VolumesOf(vs[1..])
  }

  /** The mounts of all containers, in order. */
  function MountsOf(cs: seq<Container>): seq<VolumeMountStruct> {
    if cs == [] then [] else cs[0].volumeMounts + MountsOf(cs[1..])
  }

  predicate Carries(volumes: seq<Volume>, name: string) {
    exists i :: 0 <= i < |volumes| && volumes[i].name == name
  }

  function AddVolume(v: VolumeMountStruct, volumes: seq<Volume>): seq<Volume> {
    if Carries(volumes, v.volumeName) then volumes else volumes + OneVolume(v)
  }

  function AddVolumes(vs: seq<VolumeMountStruct>, volumes: seq<Volume>): seq<Volume>
    decreases |vs|
  {
    if vs == [] then volumes else AddVolumes(vs[1..], AddVolume(vs[0], volumes))
  }

  /** The volumes of a marshalled pod. */
  function PodVolumeList(containers: seq<Container>, initContainers: seq<Container>): seq<Volume> {
    AddVolumes(MountsOf(initContainers), VolumesOf(MountsOf(containers)))
  }

  lemma {:induction false} VolumesOfConcat(a: seq<VolumeMountStruct>, b: seq<VolumeMountStruct>)
    ensures VolumesOf(a + b) == VolumesOf(a) + VolumesOf(b)
  {
    if a == [] {
      assert a + b == b;
    } else {
      assert (a + b)[1..] == a[1..] + b;
      VolumesOfConcat(a[1..], b);
      var first, rest := OneVolume(a[0]), VolumesOf(a[1..]);
      assert first + (rest + VolumesOf(b)) == (first + rest) + VolumesOf(b);
    }
  }

  lemma {:induction false} AddVolumesConcat(a: seq<VolumeMountStruct>, b: seq<VolumeMountStruct>, volumes: seq<Volume>)
    ensures AddVolumes(a + b, volumes) == AddVolumes(b, AddVolumes(a, volumes))
    decreases |a|
  {
    if a == [] {
      assert a + b == b;
    } else {
      assert (a + b)[1..] == a[1..] + b;
      AddVolumesConcat(a[1..], b, AddVolume(a[0], volumes));
    }
  }

  lemma {:induction false} MountsOfConcat(a: seq<Container>, b: seq<Container>)
    ensures MountsOf(a + b) == MountsOf(a) + MountsOf(b)
  {
    if a == [] {
      assert a + b == b;
    } else {
      assert (a + b)[1..] == a[1..] + b;
      MountsOfConcat(a[1..], b);
    }
  }

  // ---------- The loops ----------

  /** The switch on the mount's type, which two loops share. */
  method AppendVolume(v: VolumeMountStruct, given: seq<Volume>) returns (volumes: seq<Volume>)
    ensures volumes == given + OneVolume(v)
  {
    volumes := given;
    match v.volumeType {
      case "hostpath" => volumes := volumes + [Volume(v.volumeName, HostPath(v.targetPath))];
      case "nfs" => volumes := volumes + [Volume(v.volumeName, NFS(v.targetStorageService, v.targetPath))];
      case "pvc" => volumes := volumes + [Volume(v.volumeName, PersistentVolumeClaim(v.targetPVC))];
      case "configmap" => volumes := volumes + [Volume(v.volumeName, ConfigMap(v.targetConfigMap))];
      case _ =>
    }
  }

  method SetVolumes(volumeList: seq<VolumeMountStruct>) returns (volumes: seq<Volume>)
    ensures volumes == VolumesOf(volumeList)
  {
    volumes := [];
    for i := 0 to |volumeList|
      invariant volumes + VolumesOf(volumeList[i..]) == VolumesOf(volumeList)
    {
      var v := volumeList[i];
      assert volumeList[i..][1..] == volumeList[i + 1..];
      ghost var before := volumes;
      volumes := AppendVolume(v, volumes);
      assert before + (OneVolume(v) + VolumesOf(volumeList[i + 1..])) == volumes + VolumesOf(volumeList[i + 1..]);
    }
  }

  method SetDeploymentVolumes(containerList: seq<Container>) returns (volumes: seq<Volume>)
    ensures volumes == VolumesOf(MountsOf(containerList))
  {
    volumes := [];
    for i := 0 to |containerList|
      invariant volumes + VolumesOf(MountsOf(containerList[i..])) == VolumesOf(MountsOf(containerList))
    {
      assert containerList[i..][1..] == containerList[i + 1..];
      var newvolumes := SetVolumes(containerList[i].volumeMounts);
      VolumesOfConcat(containerList[i].volumeMounts, MountsOf(containerList[i + 1..]));
      volumes := volumes + newvolumes;
    }
  }

  /** The innermost loop of AddInitContainerVolumes. */
  method CheckVolume(name: string, volumes: seq<Volume>) returns (checkvolume: int)
    ensures checkvolume == if Carries(volumes, name) then 1 else 0
  {
    checkvolume := 0;
    for i := 0 to |volumes|
      invariant checkvolume == 0 && !Carries(volumes[..i], name)
    {
      if name == volumes[i].name {
        checkvolume := 1;
        break;
      }
    }
    assert volumes[..|volumes|] == volumes;
  }

  method AddMountVolumes(volumeMounts: seq<VolumeMountStruct>, given: seq<Volume>) returns (volumes: seq<Volume>)
    ensures volumes == AddVolumes(volumeMounts, given)
  {
    volumes := given;
    assert volumeMounts[0..] == volumeMounts;
    for i := 0 to |volumeMounts|
      invariant AddVolumes(volumeMounts[i..], volumes) == AddVolumes(volumeMounts, given)
    {
      var v := volumeMounts[i];
      assert volumeMounts[i..][1..] == volumeMounts[i + 1..];
      ghost var before := volumes;
      var checkvolume := CheckVolume(v.volumeName, volumes);
      if checkvolume == 0 {
        volumes := AppendVolume(v, volumes);
      }
      assert volumes == AddVolume(v, before);
    }
  }

  method AddInitContainerVolumes(containerList: seq<Container>, given: seq<Volume>) returns (volumes: seq<Volume>)
    ensures volumes == AddVolumes(MountsOf(containerList), given)
  {
    volumes := given;
    assert containerList[0..] == containerList;
    for i := 0 to |containerList|
      invariant AddVolumes(MountsOf(containerList[i..]), volumes) == AddVolumes(MountsOf(containerList), given)
    {
      assert containerList[i..][1..] == containerList[i + 1..];
      AddVolumesConcat(containerList[i].volumeMounts, MountsOf(containerList[i + 1..]), volumes);
      volumes := AddMountVolumes(containerList[i].volumeMounts, volumes);
    }
  }

  // ---------- What a mount finds in the spec ----------

  /** The source of the first volume of that name. */
  function Find(volumes: seq<Volume>, name: string): Option<VolumeSource> {
    if volumes == [] then None
    else if volumes[0].name == name then Some(volumes[0].source)
    else Find(volumes[1..], name)
  }

  predicate Distinct(volumes: seq<Volume>) {
    forall i, j :: 0 <= i < j < |volumes| ==> volumes[i].name != volumes[j].name
  }

  lemma {:induction false} FindConcat(a: seq<Volume>, b: seq<Volume>, name: string)
    ensures Find(a + b, name) == if Find(a, name).Some? then Find(a, name) else Find(b, name)
  {
    if a == [] {
      assert a + b == b;
    } else {
      assert (a + b)[1..] == a[1..] + b;
      FindConcat(a[1..], b, name);
    }
  }

  lemma {:induction false} FindIffCarries(volumes: seq<Volume>, name: string)
    ensures Find(volumes, name).Some? <==> Carries(volumes, name)
  {
    if volumes != [] {
      FindIffCarries(volumes[1..], name);
      if volumes[0].name != name && Carries(volumes, name) {
        var i :| 0 <= i < |volumes| && volumes[i].name == name;
        assert volumes[1..][i - 1].name == name;
      }
    }
  }

  /**
   Adding the init containers' volumes only where the name is free changes nothing for a
   reader of names: every name means what it would mean if all volumes were appended.
   */
  lemma {:induction false} FindAfterAdding(vs: seq<VolumeMountStruct>, volumes: seq<Volume>, name: string)
    ensures Find(AddVolumes(vs, volumes), name) == Find(volumes + VolumesOf(vs), name)
    decreases |vs|
  {
    if vs == [] {
      assert volumes + [] == volumes;
    } else {
      var v := vs[0];
      var next := AddVolume(v, volumes);
      FindAfterAdding(vs[1..], next, name);
      FindConcat(next, VolumesOf(vs[1..]), name);
      FindConcat(volumes, OneVolume(v), name);
      FindConcat(volumes, VolumesOf(vs), name);
      FindConcat(OneVolume(v), VolumesOf(vs[1..]), name);
      FindIffCarries(volumes, v.volumeName);
    }
  }

  predicate KnownMountOf(vs: seq<VolumeMountStruct>, name: string) {
    exists i :: 0 <= i < |vs| && Known(vs[i]) && vs[i].volumeName == name
  }

  lemma {:induction false} CarriesIffKnownMount(vs: seq<VolumeMountStruct>, name: string)
    ensures Carries(VolumesOf(vs), name) <==> KnownMountOf(vs, name)
  {
    if vs != [] {
      CarriesIffKnownMount(vs[1..], name);
      FindConcat(OneVolume(vs[0]), VolumesOf(vs[1..]), name);
      FindIffCarries(VolumesOf(vs), name);
      FindIffCarries(VolumesOf(vs[1..]), name);
      if KnownMountOf(vs, name) && !(Known(vs[0]) && vs[0].volumeName == name) {
        var i :| 0 <= i < |vs| && Known(vs[i]) && vs[i].volumeName == name;
        assert vs[1..][i - 1] == vs[i];
      }
    }
  }

  /** The old volumes stay where they were. */
  lemma {:induction false} AddedAfterGiven(vs: seq<VolumeMountStruct>, volumes: seq<Volume>)
    ensures volumes <= AddVolumes(vs, volumes)
    decreases |vs|
  {
    if vs != [] {
      AddedAfterGiven(vs[1..], AddVolume(vs[0], volumes));
    }
  }

  /** No added volume clashes with any other: names are distinct iff the old names were. */
  lemma {:induction false} DistinctKept(vs: seq<VolumeMountStruct>, volumes: seq<Volume>)
    ensures Distinct(AddVolumes(vs, volumes)) <==> Distinct(volumes)
    decreases |vs|
  {
    if vs != [] {
      var next := AddVolume(vs[0], volumes);
      DistinctKept(vs[1..], next);
      assert volumes <= next;
      if Distinct(next) {
        assert forall i, j :: 0 <= i < j < |volumes| ==> next[i].name != next[j].name;
      }
    }
  }

  predicate Resolves(mounts: seq<VolumeMount>, volumes: seq<Volume>) {
    forall i :: 0 <= i < |mounts| ==> Carries(volumes, mounts[i].name)
  }

  predicate AllResolve(containers: seq<K8sContainer>, volumes: seq<Volume>) {
    forall i :: 0 <= i < |containers| ==> Resolves(containers[i].volumeMounts, volumes)
  }

  /** The name of every named mount is the name of some mount of a known type. */
  predicate NamesKnown(named: seq<VolumeMountStruct>, vs: seq<VolumeMountStruct>) {
    forall i :: 0 <= i < |named| && named[i].volumeName != "" ==> KnownMountOf(vs, named[i].volumeName)
  }

  /** A name finds the first known-typed mount of it, containers before init containers. */
  lemma {:induction false} PodFind(containers: seq<Container>, initContainers: seq<Container>, name: string)
    ensures Find(PodVolumeList(containers, initContainers), name) ==
            Find(VolumesOf(MountsOf(containers + initContainers)), name)
    ensures Carries(PodVolumeList(containers, initContainers), name) <==>
            KnownMountOf(MountsOf(containers + initContainers), name)
  {
    var ours, inits := MountsOf(containers), MountsOf(initContainers);
    FindAfterAdding(inits, VolumesOf(ours), name);
    VolumesOfConcat(ours, inits);
    MountsOfConcat(containers, initContainers);
    FindIffCarries(PodVolumeList(containers, initContainers), name);
    FindIffCarries(VolumesOf(ours + inits), name);
    CarriesIffKnownMount(ours + inits, name);
  }

  /** The volumes' names are those of the known-typed mounts. */
  ghost predicate SameNames(volumes: seq<Volume>, all: seq<VolumeMountStruct>) {
    forall name :: Carries(volumes, name) <==> KnownMountOf(all, name)
  }

  lemma {:induction false} ResolvesConcat(a: seq<VolumeMount>, b: seq<VolumeMount>, volumes: seq<Volume>)
    ensures Resolves(a + b, volumes) <==> Resolves(a, volumes) && Resolves(b, volumes)
  {
    if Resolves(a + b, volumes) {
      assert forall i :: 0 <= i < |a| ==> a[i] == (a + b)[i];
      assert forall i :: 0 <= i < |b| ==> b[i] == (a + b)[i + |a|];
    }
  }

  lemma {:induction false} NamesKnownConcat(a: seq<VolumeMountStruct>, b: seq<VolumeMountStruct>,
                                            all: seq<VolumeMountStruct>)
    ensures NamesKnown(a + b, all) <==> NamesKnown(a, all) && NamesKnown(b, all)
  {
    if NamesKnown(a + b, all) {
      assert forall i :: 0 <= i < |a| ==> a[i] == (a + b)[i];
      assert forall i :: 0 <= i < |b| ==> b[i] == (a + b)[i + |a|];
    }
  }

  lemma {:induction false} MountResolves(v: VolumeMountStruct, join: PathJoin, volumes: seq<Volume>,
                                         all: seq<VolumeMountStruct>)
    requires SameNames(volumes, all)
    ensures Resolves(if v.volumeName != "" then [K8sMount(v, join)] else [], volumes) <==> NamesKnown([v], all)
  {
    assert Carries(volumes, v.volumeName) <==> KnownMountOf(all, v.volumeName);
    if v.volumeName != "" {
      assert [K8sMount(v, join)][0].name == v.volumeName;
      assert [v][0] == v;
    }
  }

  lemma {:induction false} MountsResolve(vs: seq<VolumeMountStruct>, join: PathJoin, volumes: seq<Volume>,
                                         all: seq<VolumeMountStruct>)
    requires SameNames(volumes, all)
    ensures Resolves(K8sMounts(vs, join), volumes) <==> NamesKnown(vs, all)
  {
    if vs != [] {
      MountResolves(vs[0], join, volumes, all);
      MountsResolve(vs[1..], join, volumes, all);
      ResolvesConcat(if vs[0].volumeName != "" then [K8sMount(vs[0], join)] else [], K8sMounts(vs[1..], join), volumes);
      NamesKnownConcat([vs[0]], vs[1..], all);
      assert vs == [vs[0]] + vs[1..];
    }
  }

  lemma {:induction false} AllResolveCons(k: K8sContainer, ks: seq<K8sContainer>, volumes: seq<Volume>)
    ensures AllResolve([k] + ks, volumes) <==> Resolves(k.volumeMounts, volumes) && AllResolve(ks, volumes)
  {
    assert ([k] + ks)[0] == k;
    assert forall i :: 0 <= i < |ks| ==> ([k] + ks)[i + 1] == ks[i];
  }

  lemma {:induction false} MarshalledCons(cs: seq<Container>, registryURI: string, join: PathJoin)
    requires cs != []
    ensures AllToK8s(cs, registryURI, join) ==
            [ToK8s(cs[0], registryURI, join)] + AllToK8s(cs[1..], registryURI, join)
  {
    var rest := AllToK8s(cs[1..], registryURI, join);
    var both := [ToK8s(cs[0], registryURI, join)] + rest;
    forall i | 0 <= i < |cs|
      ensures both[i] == ToK8s(cs[i], registryURI, join)
    {
      if i > 0 {
        assert both[i] == rest[i - 1] && cs[1..][i - 1] == cs[i];
      }
    }
  }

  lemma {:induction false} AllMountsResolve(cs: seq<Container>, registryURI: string, join: PathJoin,
                                            volumes: seq<Volume>, all: seq<VolumeMountStruct>)
    requires SameNames(volumes, all)
    ensures AllResolve(AllToK8s(cs, registryURI, join), volumes) <==> NamesKnown(MountsOf(cs), all)
  {
    if cs == [] {
      assert MountsOf(cs) == [];
    } else {
      AllMountsResolve(cs[1..], registryURI, join, volumes, all);
      MountsResolve(cs[0].volumeMounts, join, volumes, all);
      NamesKnownConcat(cs[0].volumeMounts, MountsOf(cs[1..]), all);
      MarshalledCons(cs, registryURI, join);
      AllResolveCons(ToK8s(cs[0], registryURI, join), AllToK8s(cs[1..], registryURI, join), volumes);
    }
  }
}
