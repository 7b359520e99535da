/** Deployments and stateful sets: the pod template around the containers, volumes and affinity. */
module PodSpecs {
  import opened Wrappers
  import opened PodTemplate
  import opened PodVolumes
  import Affinity

  const SERVICE_TYPE_EDGE_COMPUTING := 7

  /** A missing list and an empty one are not told apart. */
  datatype ConfigServiceStep = ConfigServiceStep(
    serviceName: string,
    projectName: string,
    serviceType: int,
    instance: int,
    nodeSelector: string,
    containerList: seq<Container>,
    initContainerList: seq<Container>,
    affinityList: seq<Affinity.AffinityItem>)

  datatype Toleration = Toleration(key: string, operator: string)

  datatype PodSpec = PodSpec(
    volumes: seq<Volume>,
    containers: seq<K8sContainer>,
    initContainers: seq<K8sContainer>,
    nodeSelector: map<string, string>,
    affinity: Affinity.K8sAffinity,
    tolerations: seq<Toleration>)

  datatype PodTemplateSpec = PodTemplateSpec(name: string, labels: map<string, string>, spec: PodSpec)

  datatype Workload = Workload(
    name: string,
    namespace: string,
    replicas: int,
    selector: map<string, string>,
    template: PodTemplateSpec)

  /** A stateful set also names the service that governs it. */
  datatype StatefulSet = StatefulSet(workload: Workload, serviceName: string)

  /** Whether a node group of that name exists is looked up in the database. */
  function NodeSelectorOf(name: string, isNodeGroup: bool): map<string, string> {
    if name == "" then map[] else if isNodeGroup then map[name := "true"] else map["kubernetes.io/hostname" := name]
  }

  function SpecOf(c: ConfigServiceStep, registryURI: string, join: PathJoin, isNodeGroup: bool): PodSpec {
    PodSpec(
      PodVolumeList(c.containerList, c.initContainerList),
      AllToK8s(c.containerList, registryURI, join),
      AllToK8s(c.initContainerList, registryURI, join),
      NodeSelectorOf(c.nodeSelector, isNodeGroup),
      Affinity.Marshalled(c.affinityList),
      [])
  }

  /** The pod template around a spec, and the object around the template. */
  function WorkloadOf(c: ConfigServiceStep, spec: PodSpec): Workload {
    var app := map["app" := c.serviceName];
    Workload(c.serviceName, c.projectName, Int32(c.instance), app, PodTemplateSpec(c.serviceName, app, spec))
  }

  /** A named node group is selected by its label, any other name as that of a host. */
  ghost predicate SelectsNodes(selector: map<string, string>, name: string, isNodeGroup: bool) {
    if name == "" then selector.Keys == {}
    else
      var key := if isNodeGroup then name else "kubernetes.io/hostname";
      selector.Keys == {key} && selector[key] == if isNodeGroup then "true" else name
  }

  /** The object, its selector and its pods bear the service's name; the pods are those of the configuration. */
  ghost predicate Configured(w: Workload, c: ConfigServiceStep, registryURI: string, join: PathJoin,
                             isNodeGroup: bool) {
    var spec := w.template.spec;
    && w.name == w.template.name == c.serviceName && w.namespace == c.projectName
    && -0x8000_0000 <= w.replicas < 0x8000_0000 && (w.replicas - c.instance) % 0x1_0000_0000 == 0
    && w.selector == w.template.labels == map["app" := c.serviceName]
    && spec.volumes == PodVolumeList(c.containerList, c.initContainerList)
    && spec.containers == AllToK8s(c.containerList, registryURI, join)
    && spec.initContainers == AllToK8s(c.initContainerList, registryURI, join)
    && SelectsNodes(spec.nodeSelector, c.nodeSelector, isNodeGroup)
    && spec.affinity == Affinity.Marshalled(c.affinityList)
  }

  lemma {:induction false} WorkloadIsConfigured(c: ConfigServiceStep, registryURI: string, join: PathJoin,
                                                isNodeGroup: bool, tolerations: seq<Toleration>)
    ensures var spec := SpecOf(c, registryURI, join, isNodeGroup).(tolerations := tolerations);
            Configured(WorkloadOf(c, spec), c, registryURI, join, isNodeGroup)
  {
  }

  method SetPodSpec(c: ConfigServiceStep, registryURI: string, join: PathJoin, isNodeGroup: bool)
    returns (spec: PodSpec)
    ensures spec == SpecOf(c, registryURI, join, isNodeGroup).(volumes := VolumesOf(MountsOf(c.containerList)))
  {
    var volumes := SetDeploymentVolumes(c.containerList);
    var containers := SetDeploymentContainers(c.containerList, registryURI, join);
    var initContainers := SetDeploymentContainers(c.initContainerList, registryURI, join);
    var affinity := Affinity.SetAffinity(c.affinityList);
    spec := PodSpec(volumes, containers, initContainers, NodeSelectorOf(c.nodeSelector, isNodeGroup), affinity, []);
  }

  method MarshalDeployment(serviceConfig: Option<ConfigServiceStep>, registryURI: string, join: PathJoin,
                           isNodeGroup: bool)
    returns (r: Option<Workload>)
    ensures r.Some? <==> serviceConfig.Some?
    ensures r.Some? ==>
      var c := serviceConfig.value;
      var edge := if c.serviceType == SERVICE_TYPE_EDGE_COMPUTING then [Toleration("edge", "Exists")] else [];
      r.value == WorkloadOf(c, SpecOf(c, registryURI, join, isNodeGroup).(tolerations := edge))
    ensures r.Some? ==>
      && Configured(r.value, serviceConfig.value, registryURI, join, isNodeGroup)
      && r.value.template.spec.tolerations ==
         if serviceConfig.value.serviceType == 7 then [Toleration("edge", "Exists")] else []
  {
    if serviceConfig.None? {
      return None;
    }
    var c := serviceConfig.value;
    var spec := SetPodSpec(c, registryURI, join, isNodeGroup);
    if c.serviceType == SERVICE_TYPE_EDGE_COMPUTING {
      spec := spec.(tolerations := spec.tolerations + [Toleration("edge", "Exists")]);
    }
    var volumes := AddInitContainerVolumes(c.initContainerList, spec.volumes);
    spec := spec.(volumes := volumes);
    WorkloadIsConfigured(c, registryURI, join, isNodeGroup, spec.tolerations);
    r := Some(WorkloadOf(c, spec));
  }

  method MarshalStatefulSet(serviceConfig: Option<ConfigServiceStep>, registryURI: string, join: PathJoin,
                            isNodeGroup: bool)
    returns (r: Option<StatefulSet>)
    ensures r.Some? <==> serviceConfig.Some?
    ensures r.Some? ==>
      var c := serviceConfig.value;
      r.value == StatefulSet(WorkloadOf(c, SpecOf(c, registryURI, join, isNodeGroup)), c.serviceName)
    ensures r.Some? ==>
      && Configured(r.value.workload, serviceConfig.value, registryURI, join, isNodeGroup)
      && r.value.workload.template.spec.tolerations == [] && r.value.serviceName == serviceConfig.value.serviceName
  {
    if serviceConfig.None? {
      return None;
    }
    var c := serviceConfig.value;
    var spec := SetPodSpec(c, registryURI, join, isNodeGroup);
    var volumes := AddInitContainerVolumes(c.initContainerList, spec.volumes);
    spec := spec.(volumes := volumes);
    WorkloadIsConfigured(c, registryURI, join, isNodeGroup, []);
    r := Some(StatefulSet(WorkloadOf(c, spec), c.serviceName));
  }

  /**
   Every mount of every container and init container names a volume of the spec exactly when
   each name mounted somewhere belongs to some mount of a known type.
   */
  lemma {:induction false} VolumesResolve(c: ConfigServiceStep, registryURI: string, join: PathJoin, isNodeGroup: bool)
    ensures
      var spec := SpecOf(c, registryURI, join, isNodeGroup);
      var all := MountsOf(c.containerList + c.initContainerList);
      AllResolve(spec.containers, spec.volumes) && AllResolve(spec.initContainers, spec.volumes) <==>
        NamesKnown(all, all)
  {
    var volumes := PodVolumeList(c.containerList, c.initContainerList);
    var all := MountsOf(c.containerList + c.initContainerList);
    forall name
      ensures Carries(volumes, name) <==> KnownMountOf(all, name)
    {
      PodFind(c.containerList, c.initContainerList, name);
    }
    AllMountsResolve(c.containerList, registryURI, join, volumes, all);
    AllMountsResolve(c.initContainerList, registryURI, join, volumes, all);
    MountsOfConcat(c.containerList, c.initContainerList);
    NamesKnownConcat(MountsOf(c.containerList), MountsOf(c.initContainerList), all);
  }

  /** The usual case: every named mount has a known type. */
  lemma {:induction false} KnownMountsResolve(c: ConfigServiceStep, registryURI: string, join: PathJoin,
                                              isNodeGroup: bool)
    requires forall v :: v in MountsOf(c.containerList + c.initContainerList) && v.volumeName != "" ==> Known(v)
    ensures
      var spec := SpecOf(c, registryURI, join, isNodeGroup);
      AllResolve(spec.containers, spec.volumes) && AllResolve(spec.initContainers, spec.volumes)
  {
    var all := MountsOf(c.containerList + c.initContainerList);
    forall i | 0 <= i < |all| && all[i].volumeName != ""
      ensures KnownMountOf(all, all[i].volumeName)
    {
      assert all[i] in all;
    }
    VolumesResolve(c, registryURI, join, isNodeGroup);
  }

  /** Init containers only append to the containers' volumes, and bring in no second volume of a name. */
  lemma {:induction false} InitVolumesExtend(c: ConfigServiceStep, registryURI: string, join: PathJoin,
                                             isNodeGroup: bool)
    ensures
      var given := VolumesOf(MountsOf(c.containerList));
      var volumes := SpecOf(c, registryURI, join, isNodeGroup).volumes;
      given <= volumes && (Distinct(volumes) <==> Distinct(given))
  {
    AddedAfterGiven(MountsOf(c.initContainerList), VolumesOf(MountsOf(c.containerList)));
    DistinctKept(MountsOf(c.initContainerList), VolumesOf(MountsOf(c.containerList)));
  }

  /** An init container's mount may find another source than its own: the containers' volume of that name wins. */
  lemma {:induction false} InitMountShadowed(c: ConfigServiceStep, registryURI: string, join: PathJoin,
                                             isNodeGroup: bool, name: string)
    ensures
      var volumes := SpecOf(c, registryURI, join, isNodeGroup).volumes;
      var ours := VolumesOf(MountsOf(c.containerList));
      var inits := VolumesOf(MountsOf(c.initContainerList));
      Find(volumes, name) == if Carries(ours, name) then Find(ours, name) else Find(inits, name)
  {
    var ours, inits := MountsOf(c.containerList), MountsOf(c.initContainerList);
    PodFind(c.containerList, c.initContainerList, name);
    MountsOfConcat(c.containerList, c.initContainerList);
    VolumesOfConcat(ours, inits);
    FindConcat(VolumesOf(ours), VolumesOf(inits), name);
    FindIffCarries(VolumesOf(ours), name);
  }
}
