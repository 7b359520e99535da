/** The manifest objects of a Helm release, whose services and workloads are joined by name. */
module HelmJoin {
  import opened Wrappers

  /** A manifest object. Its namespace is overwritten with the project name before it is looked at. */
  datatype K8sInfo = K8sInfo(kind: string, name: string, source: string)

  predicate IsService(info: K8sInfo) { info.kind == "Service" }

  predicate IsWorkload(info: K8sInfo) { info.kind == "Deployment" || info.kind == "StatefulSet" }

  /** Sets the namespace of an object's text; a text that cannot be parsed is left alone. */
  type Namespacer = string -> Option<string>

  /** Setting the same nested field twice is setting it once. */
  ghost predicate SetsOnce(setNamespace: Namespacer) {
    forall text :: setNamespace(text).Some? ==> setNamespace(setNamespace(text).value) == setNamespace(text)
  }

  /** Indices of a service and of a workload with its name. */
  datatype Match = Match(service: nat, workload: nat)

  // ---------- The join, as nested loops ----------

  /** The first service of that name among infos[from..]. */
  function FirstService(infos: seq<K8sInfo>, name: string, from: nat): Option<nat>
    requires from <= |infos|
    decreases |infos| - from
  {
    if from == |infos| then None
    else if IsService(infos[from]) && infos[from].name == name then Some(from)
    else FirstService(infos, name, from + 1)
  }

  function MatchOf(infos: seq<K8sInfo>, setNamespace: Namespacer, w: nat): seq<Match>
    requires w < |infos|
  {
    if !IsWorkload(infos[w]) then []
    else
      match FirstService(infos, infos[w].name, 0)
      case None => []
      case Some(s) =>
        if s < |infos| && setNamespace(infos[s].source).Some? && setNamespace(infos[w].source).Some?
        then [Match(s, w)] else []
  }

  /** Every workload among the first n objects with the first service of its name, both of them parseable. */
  function NestedLoopJoin(infos: seq<K8sInfo>, setNamespace: Namespacer, n: nat): seq<Match>
    requires n <= |infos|
  {
    if n == 0 then [] else NestedLoopJoin(infos, setNamespace, n - 1) + MatchOf(infos, setNamespace, n - 1)
  }

  // ---------- The join, by grouping ----------

  /** The services of a name among the first n objects, in order. */
  function ServicesNamed(infos: seq<K8sInfo>, name: string, n: nat): seq<nat>
    requires n <= |infos|
  {
    if n == 0 then []
    else
      var before := ServicesNamed(infos, name, n - 1);
      if IsService(infos[n - 1]) && infos[n - 1].name == name then before + [n - 1] else before
  }

  /** The groups are those of the names that have services, each with all of them in order. */
  ghost predicate GroupsUpTo(infos: seq<K8sInfo>, groups: map<string, seq<nat>>, n: nat) {
    && n <= |infos|
    && (forall name :: name in groups <==> ServicesNamed(infos, name, n) != [])
    && forall name :: name in groups ==> groups[name] == ServicesNamed(infos, name, n)
  }

  lemma {:induction false} HeadIsFirst(infos: seq<K8sInfo>, name: string, n: nat)
    requires n <= |infos|
    ensures ServicesNamed(infos, name, n) == [] ==>
      forall i :: 0 <= i < n ==> !(IsService(infos[i]) && infos[i].name == name)
    ensures ServicesNamed(infos, name, n) != [] ==>
      var s := ServicesNamed(infos, name, n)[0];
      && s < n && IsService(infos[s]) && infos[s].name == name
      && forall i :: 0 <= i < s ==> !(IsService(infos[i]) && infos[i].name == name)
  {
    if n > 0 {
      HeadIsFirst(infos, name, n - 1);
    }
  }

  lemma {:induction false} FirstServiceFrom(infos: seq<K8sInfo>, name: string, from: nat)
    requires from <= |infos|
    ensures match FirstService(infos, name, from)
            case None => forall i :: from <= i < |infos| ==> !(IsService(infos[i]) && infos[i].name == name)
            case Some(s) => from <= s < |infos| && IsService(infos[s]) && infos[s].name == name
                            && forall i :: from <= i < s ==> !(IsService(infos[i]) && infos[i].name == name)
    decreases |infos| - from
  {
    if from < |infos| {
      FirstServiceFrom(infos, name, from + 1);
    }
  }

  lemma {:induction false} GroupHeadIsFirst(infos: seq<K8sInfo>, groups: map<string, seq<nat>>, name: string)
    requires GroupsUpTo(infos, groups, |infos|)
    ensures name in groups ==> groups[name] != [] && groups[name][0] < |infos|
    ensures FirstService(infos, name, 0) == if name in groups then Some(groups[name][0]) else None
  {
    FirstServiceFrom(infos, name, 0);
    HeadIsFirst(infos, name, |infos|);
    if name in groups {
      var s := groups[name][0];
      assert IsService(infos[s]) && infos[s].name == name;
      assert FirstService(infos, name, 0).Some?;
      assert FirstService(infos, name, 0).value <= s <= FirstService(infos, name, 0).value;
    } else {
      assert FirstService(infos, name, 0).None?;
    }
  }

  ghost predicate FirstOfName(infos: seq<K8sInfo>, s: nat) {
    && s < |infos| && IsService(infos[s])
    && forall i :: 0 <= i < s ==> !(IsService(infos[i]) && infos[i].name == infos[s].name)
  }

  /** The join pairs a workload with a service exactly if they have the same name, the service
      is the first of that name, and both texts can be given the namespace. */
  lemma {:induction false} JoinMeaning(infos: seq<K8sInfo>, setNamespace: Namespacer, n: nat, m: Match)
    requires n <= |infos|
    ensures m in NestedLoopJoin(infos, setNamespace, n) <==>
            && m.workload < n && IsWorkload(infos[m.workload])
            && FirstOfName(infos, m.service) && infos[m.service].name == infos[m.workload].name
            && setNamespace(infos[m.service].source).Some? && setNamespace(infos[m.workload].source).Some?
  {
    if n > 0 {
      JoinMeaning(infos, setNamespace, n - 1, m);
      FirstServiceFrom(infos, infos[n - 1].name, 0);
    }
  }

  /** Each pair has a later workload than the one before, none of them past the first n objects. */
  ghost predicate Ordered(matched: seq<Match>, n: nat) {
    && (forall i :: 0 <= i < |matched| ==> matched[i].workload < n)
    && forall i, j :: 0 <= i < j < |matched| ==> matched[i].workload < matched[j].workload
  }

  lemma {:induction false} OrderedNext(matched: seq<Match>, last: seq<Match>, n: nat)
    requires Ordered(matched, n) && |last| <= 1 && (last != [] ==> last[0].workload == n)
    ensures Ordered(matched + last, n + 1)
  {
  }

  lemma {:induction false} OneMatch(infos: seq<K8sInfo>, setNamespace: Namespacer, w: nat)
    requires w < |infos|
    ensures var last := MatchOf(infos, setNamespace, w); |last| <= 1 && (last != [] ==> last[0].workload == w)
  {
  }

  /** The pairs come in the order of the manifest, at most one for a workload. */
  lemma {:induction false} JoinOrdered(infos: seq<K8sInfo>, setNamespace: Namespacer, n: nat)
    requires n <= |infos|
    ensures Ordered(NestedLoopJoin(infos, setNamespace, n), n)
  {
    if n > 0 {
      JoinOrdered(infos, setNamespace, n - 1);
      OneMatch(infos, setNamespace, n - 1);
      OrderedNext(NestedLoopJoin(infos, setNamespace, n - 1), MatchOf(infos, setNamespace, n - 1), n - 1);
    }
  }

  method GroupServices(infos: seq<K8sInfo>) returns (groups: map<string, seq<nat>>)
    ensures GroupsUpTo(infos, groups, |infos|)
  {
    groups := map[];
    for i := 0 to |infos|
      invariant GroupsUpTo(infos, groups, i)
    {
      if IsService(infos[i]) {
        var name := infos[i].name;
        groups := groups[name := (if name in groups then groups[name] else []) + [i]];
      }
    }
  }

  /** Each text is the original or already carries the namespace: setting it gives the same. */
  ghost predicate Tracks(infos: seq<K8sInfo>, setNamespace: Namespacer, sources: seq<string>) {
    |sources| == |infos| && forall i :: 0 <= i < |infos| ==> setNamespace(sources[i]) == setNamespace(infos[i].source)
  }

  /** The text of object i carries the namespace. */
  ghost predicate Namespaced(infos: seq<K8sInfo>, setNamespace: Namespacer, sources: seq<string>, i: nat) {
    i < |infos| == |sources| && setNamespace(infos[i].source) == Some(sources[i])
  }

  /** Both texts of each pair carry the namespace. */
  ghost predicate AllNamespaced(infos: seq<K8sInfo>, setNamespace: Namespacer, sources: seq<string>,
                                matched: seq<Match>) {
    forall m :: m in matched ==>
      Namespaced(infos, setNamespace, sources, m.service) && Namespaced(infos, setNamespace, sources, m.workload)
  }

  /** Rewriting one text keeps the others, and gives that one its namespace for good. */
  lemma {:induction false} Rewritten(infos: seq<K8sInfo>, setNamespace: Namespacer, texts: seq<string>, k: nat,
                                     text: string)
    requires SetsOnce(setNamespace) && Tracks(infos, setNamespace, texts) && k < |infos|
    requires setNamespace(texts[k]) == Some(text)
    ensures Tracks(infos, setNamespace, texts[k := text]) && Namespaced(infos, setNamespace, texts[k := text], k)
    ensures forall i :: Namespaced(infos, setNamespace, texts, i) ==>
              Namespaced(infos, setNamespace, texts[k := text], i)
  {
    assert setNamespace(text) == setNamespace(texts[k]);
  }

  /** One object of the pass, with the services grouped by name. */
  method MatchWorkload(infos: seq<K8sInfo>, svcs: map<string, seq<nat>>, setNamespace: Namespacer, texts: seq<string>,
                       w: nat)
    returns (emitted: seq<Match>, sources: seq<string>)
    requires SetsOnce(setNamespace) && GroupsUpTo(infos, svcs, |infos|)
    requires Tracks(infos, setNamespace, texts) && w < |infos|
    ensures emitted == MatchOf(infos, setNamespace, w)
    ensures Tracks(infos, setNamespace, sources)
    ensures forall i :: Namespaced(infos, setNamespace, texts, i) ==> Namespaced(infos, setNamespace, sources, i)
    ensures AllNamespaced(infos, setNamespace, sources, emitted)
  {
    emitted, sources := [], texts;
    if IsWorkload(infos[w]) {
      GroupHeadIsFirst(infos, svcs, infos[w].name);
      if infos[w].name in svcs {
        var s := svcs[infos[w].name][0];
        var service := setNamespace(sources[s]);
        if service.Some? {
          Rewritten(infos, setNamespace, sources, s, service.value);
          sources := sources[s := service.value];
          var workload := setNamespace(sources[w]);
          if workload.Some? {
            Rewritten(infos, setNamespace, sources, w, workload.value);
            sources := sources[w := workload.value];
            emitted := [Match(s, w)];
          }
        }
      }
    }
  }

  /** One pass over the objects with the groups at hand. A service text is rewritten once per
      matching workload, in place: sources stands for the texts behind the shared pointers. */
  method JoinServicesAndWorkloads(infos: seq<K8sInfo>, setNamespace: Namespacer)
    returns (matched: seq<Match>, sources: seq<string>)
    requires SetsOnce(setNamespace)
    ensures matched == NestedLoopJoin(infos, setNamespace, |infos|)
    ensures AllNamespaced(infos, setNamespace, sources, matched)
  {
    var svcs := GroupServices(infos);
    matched := [];
    sources := seq(|infos|, i requires 0 <= i < |infos| => infos[i].source);
    for w := 0 to |infos|
      invariant matched == NestedLoopJoin(infos, setNamespace, w)
      invariant Tracks(infos, setNamespace, sources)
      invariant AllNamespaced(infos, setNamespace, sources, matched)
    {
      var emitted;
      emitted, sources := MatchWorkload(infos, svcs, setNamespace, sources, w);
      matched := matched + emitted;
    }
  }
}
