/** Affinity lists of services and jobs, and their two Kubernetes term lists. */
module Affinity {
  import opened Wrappers

  /** An index out of range, which stops the program. */
  datatype Panic = IndexOutOfRange

  datatype AffinityItem = AffinityItem(antiFlag: int, names: seq<string>)

  datatype Requirement = Requirement(key: string, operator: string, values: seq<string>)

  datatype PodAffinityTerm = PodAffinityTerm(matchExpressions: seq<Requirement>, topologyKey: string)

  datatype K8sAffinity = K8sAffinity(podAffinity: seq<PodAffinityTerm>, podAntiAffinity: seq<PodAffinityTerm>)

  function Term(names: seq<string>): PodAffinityTerm {
    PodAffinityTerm([Requirement("app", "In", names)], "kubernetes.io/hostname")
  }

  /** Every term has a first expression; the reader takes it unchecked. */
  predicate Readable(k: K8sAffinity) {
    forall t :: t in k.podAffinity + k.podAntiAffinity ==> |t.matchExpressions| > 0
  }

  /** The items on one side, in order. */
  function Side(list: seq<AffinityItem>, anti: bool): seq<AffinityItem> {
    if list == [] then []
    else (if (list[0].antiFlag != 0) == anti then [list[0]] else []) + Side(list[1..], anti)
  }

  function Terms(list: seq<AffinityItem>): (r: seq<PodAffinityTerm>)
    ensures |r| == |list| && forall i :: 0 <= i < |list| ==> r[i] == Term(list[i].names)
  {
    seq(|list|, i requires 0 <= i < |list| => Term(list[i].names))
  }

  function Marshalled(list: seq<AffinityItem>): K8sAffinity {
    K8sAffinity(Terms(Side(list, false)), Terms(Side(list, true)))
  }

  /** Flags as the reader writes them. */
  function Normal(a: AffinityItem): AffinityItem {
    a.(antiFlag := if a.antiFlag == 0 then 0 else 1)
  }

  function NormalAll(list: seq<AffinityItem>): (r: seq<AffinityItem>)
    ensures |r| == |list| && forall i :: 0 <= i < |list| ==> r[i] == Normal(list[i])
  {
    seq(|list|, i requires 0 <= i < |list| => Normal(list[i]))
  }

  function Read(terms: seq<PodAffinityTerm>, flag: int): (r: seq<AffinityItem>)
    requires forall t :: t in terms ==> |t.matchExpressions| > 0
    ensures |r| == |terms|
    ensures forall i :: 0 <= i < |terms| ==> r[i] == AffinityItem(flag, terms[i].matchExpressions[0].values)
  {
    seq(|terms|, i requires 0 <= i < |terms| => AffinityItem(flag, terms[i].matchExpressions[0].values))
  }

  function Items(k: K8sAffinity): seq<AffinityItem>
    requires Readable(k)
  {
    Read(k.podAffinity, 0) + Read(k.podAntiAffinity, 1)
  }

  lemma {:induction false} SideConcat(a: seq<AffinityItem>, b: seq<AffinityItem>, anti: bool)
    ensures Side(a + b, anti) == Side(a, anti) + Side(b, anti)
  {
    if a == [] {
      assert a + b == b;
    } else {
      assert (a + b)[1..] == a[1..] + b && (a + b)[0] == a[0];
      SideConcat(a[1..], b, anti);
      Regroup(if (a[0].antiFlag != 0) == anti then [a[0]] else [], Side(a[1..], anti), Side(b, anti));
    }
  }

  /** One more item adds its term to one of the two lists. */
  lemma {:induction false} MarshalledNext(list: seq<AffinityItem>, i: nat)
    requires i < |list|
    ensures var m, term := Marshalled(list[..i]), Term(list[i].names);
            Marshalled(list[..i + 1]) ==
            if list[i].antiFlag == 0 then m.(podAffinity := m.podAffinity + [term])
            else m.(podAntiAffinity := m.podAntiAffinity + [term])
  {
    var x := list[i];
    TakeNext(list, i);
    SideConcat(list[..i], [x], false);
    SideConcat(list[..i], [x], true);
    assert [x][1..] == [] && Side([x], false) + Side([x], true) == [x];
    assert Side(list[..i], x.antiFlag == 0) + [] == Side(list[..i], x.antiFlag == 0);
    var side := Side(list[..i], x.antiFlag != 0);
    assert Terms(side + [x]) == Terms(side) + [Term(x.names)];
  }

  method SetAffinity(affinityList: seq<AffinityItem>) returns (k8sAffinity: K8sAffinity)
    ensures k8sAffinity == Marshalled(affinityList)
  {
    k8sAffinity := K8sAffinity([], []);
    for i := 0 to |affinityList|
      invariant k8sAffinity == Marshalled(affinityList[..i])
    {
      var affinity := affinityList[i];
      MarshalledNext(affinityList, i);
      var affinityTerm := PodAffinityTerm([Requirement("app", "In", affinity.names)], "kubernetes.io/hostname");
      if affinity.antiFlag == 0 {
        k8sAffinity := k8sAffinity.(podAffinity := k8sAffinity.podAffinity + [affinityTerm]);
      } else {
        k8sAffinity := k8sAffinity.(podAntiAffinity := k8sAffinity.podAntiAffinity + [affinityTerm]);
      }
    }
    assert affinityList[..|affinityList|] == affinityList;
  }

  /** One of the two loops of GetAffinity. */
  method GetTerms(terms: seq<PodAffinityTerm>, antiFlag: int, given: seq<AffinityItem>)
    returns (r: Result<seq<AffinityItem>, Panic>)
    ensures r.Ok? <==> forall t :: t in terms ==> |t.matchExpressions| > 0
    ensures r.Ok? ==> r.value == given + Read(terms, antiFlag)
  {
    var list := given;
    for i := 0 to |terms|
      invariant |list| == |given| + i && list[..|given|] == given
      invariant forall k :: 0 <= k < i ==> |terms[k].matchExpressions| > 0
      invariant forall k :: 0 <= k < i ==>
                list[|given| + k] == AffinityItem(antiFlag, terms[k].matchExpressions[0].values)
    {
      if |terms[i].matchExpressions| == 0 {
        return Err(IndexOutOfRange);
      }
      list := list + [AffinityItem(antiFlag, terms[i].matchExpressions[0].values)];
    }
    assert list == given + Read(terms, antiFlag);
    r := Ok(list);
  }

  method GetAffinity(affinityK8s: K8sAffinity) returns (r: Result<seq<AffinityItem>, Panic>)
    ensures r == if Readable(affinityK8s) then Ok(Items(affinityK8s)) else Err(IndexOutOfRange)
  {
    assert Readable(affinityK8s) <==>
           (forall t :: t in affinityK8s.podAffinity ==> |t.matchExpressions| > 0) &&
           (forall t :: t in affinityK8s.podAntiAffinity ==> |t.matchExpressions| > 0);
    r := GetTerms(affinityK8s.podAffinity, 0, []);
    if r.Err? {
      return Err(IndexOutOfRange);
    }
    r := GetTerms(affinityK8s.podAntiAffinity, 1, r.value);
    if r.Err? {
      return Err(IndexOutOfRange);
    }
    assert [] + Read(affinityK8s.podAffinity, 0) == Read(affinityK8s.podAffinity, 0);
  }

  // ---------- What the terms say ----------

  /** How many of the first n items are affinities, or anti-affinities: the place of item n on its side. */
  function CountSide(list: seq<AffinityItem>, anti: bool, n: nat): nat
    requires n <= |list|
  {
    if n == 0 then 0 else CountSide(list, anti, n - 1) + if (list[n - 1].antiFlag != 0) == anti then 1 else 0
  }

  /** The term selects the services by their app label, host by host. */
  ghost predicate Selects(t: PodAffinityTerm, names: seq<string>) {
    && |t.matchExpressions| == 1 && t.topologyKey == "kubernetes.io/hostname"
    && t.matchExpressions[0].key == "app" && t.matchExpressions[0].operator == "In"
    && t.matchExpressions[0].values == names
  }

  ghost predicate TermAt(terms: seq<PodAffinityTerm>, list: seq<AffinityItem>, i: nat)
    requires i < |list|
  {
    var k := CountSide(list, list[i].antiFlag != 0, i);
    k < |terms| && Selects(terms[k], list[i].names)
  }

  lemma {:induction false} SidePlaces(list: seq<AffinityItem>, anti: bool, n: nat)
    requires n <= |list|
    ensures |Side(list[..n], anti)| == CountSide(list, anti, n)
    ensures forall i :: 0 <= i < n && (list[i].antiFlag != 0) == anti ==>
              CountSide(list, anti, i) < CountSide(list, anti, n) &&
                Side(list[..n], anti)[CountSide(list, anti, i)] == list[i]
  {
    if n > 0 {
      SidePlaces(list, anti, n - 1);
      TakeNext(list, n - 1);
      SideConcat(list[..n - 1], [list[n - 1]], anti);
      assert [list[n - 1]][1..] == [];
    }
  }

  /** Items with flag 0 become affinity terms, the others anti-affinity terms, each side in the order of the list. */
  lemma {:induction false} TermsOfItems(list: seq<AffinityItem>)
    ensures var k := Marshalled(list);
            && |k.podAffinity| == CountSide(list, false, |list|)
            && |k.podAntiAffinity| == CountSide(list, true, |list|)
            && forall i :: 0 <= i < |list| ==>
                 TermAt(if list[i].antiFlag == 0 then k.podAffinity else k.podAntiAffinity, list, i)
  {
    SidePlaces(list, false, |list|);
    SidePlaces(list, true, |list|);
    assert list[..|list|] == list;
  }

  /** Affinity terms are read with flag 0, then anti-affinity terms with flag 1, each as the names of its first
      expression. */
  lemma {:induction false} ItemsOfTerms(k: K8sAffinity)
    requires Readable(k)
    ensures var n := |k.podAffinity|;
            && |Items(k)| == n + |k.podAntiAffinity|
            && (forall i :: 0 <= i < n ==> Items(k)[i] == AffinityItem(0, k.podAffinity[i].matchExpressions[0].values))
            && forall i :: 0 <= i < |k.podAntiAffinity| ==>
                 Items(k)[n + i] == AffinityItem(1, k.podAntiAffinity[i].matchExpressions[0].values)
  {
    assert forall t :: t in k.podAffinity ==> t in k.podAffinity + k.podAntiAffinity;
    assert forall t :: t in k.podAntiAffinity ==> t in k.podAffinity + k.podAntiAffinity;
  }

  // ---------- Reading back ----------

  lemma {:induction false} SideFlags(list: seq<AffinityItem>, anti: bool)
    ensures forall i :: 0 <= i < |Side(list, anti)| ==> (Side(list, anti)[i].antiFlag != 0) == anti
  {
    if list != [] {
      SideFlags(list[1..], anti);
    }
  }

  /** The stable partition: affinities first, then anti-affinities, flags 0 and 1, each side in its old order. */
  lemma {:induction false} ReadBackIsPartition(list: seq<AffinityItem>)
    ensures Readable(Marshalled(list))
    ensures Items(Marshalled(list)) == NormalAll(Side(list, false) + Side(list, true))
  {
    SideFlags(list, false);
    SideFlags(list, true);
  }

  lemma {:induction false} PartitionKeepsItems(list: seq<AffinityItem>)
    ensures multiset(Side(list, false)) + multiset(Side(list, true)) == multiset(list)
  {
    if list != [] {
      PartitionKeepsItems(list[1..]);
      assert list == [list[0]] + list[1..];
    }
  }

  lemma {:induction false} SideOfNormal(list: seq<AffinityItem>, anti: bool)
    ensures Side(NormalAll(list), anti) == NormalAll(Side(list, anti))
  {
    if list != [] {
      SideOfNormal(list[1..], anti);
      assert NormalAll(list)[1..] == NormalAll(list[1..]);
    }
  }

  /** Nothing is lost and nothing is doubled. */
  lemma {:induction false} ReadBackKeepsItems(list: seq<AffinityItem>)
    ensures Readable(Marshalled(list))
    ensures multiset(Items(Marshalled(list))) == multiset(NormalAll(list))
  {
    ReadBackIsPartition(list);
    var f, t := Side(list, false), Side(list, true);
    assert NormalAll(f + t) == NormalAll(f) + NormalAll(t);
    SideOfNormal(list, false);
    SideOfNormal(list, true);
    PartitionKeepsItems(NormalAll(list));
  }

  lemma {:induction false} SideOfUniform(list: seq<AffinityItem>, anti: bool)
    requires forall i :: 0 <= i < |list| ==> (list[i].antiFlag != 0) == anti
    ensures Side(list, anti) == list && Side(list, !anti) == []
  {
    if list != [] {
      SideOfUniform(list[1..], anti);
    }
  }

  /** Marshalling what was read back gives the very same terms. */
  lemma {:induction false} MarshalAgain(list: seq<AffinityItem>)
    ensures Readable(Marshalled(list))
    ensures Marshalled(Items(Marshalled(list))) == Marshalled(list)
  {
    ReadBackIsPartition(list);
    SidesOfParts(list);
  }

  /** The two sides of what is read back are those of the list, with normal flags. */
  lemma {:induction false} SidesOfParts(list: seq<AffinityItem>)
    ensures var read := NormalAll(Side(list, false) + Side(list, true));
            Side(read, false) == NormalAll(Side(list, false)) && Side(read, true) == NormalAll(Side(list, true))
  {
    var f, t := NormalAll(Side(list, false)), NormalAll(Side(list, true));
    assert NormalAll(Side(list, false) + Side(list, true)) == f + t;
    SideFlags(list, false);
    SideFlags(list, true);
    SideOfUniform(f, false);
    SideOfUniform(t, true);
    SideConcat(f, t, false);
    SideConcat(f, t, true);
    assert f + [] == f && [] + t == t;
  }

  /** Flags are 0 or 1 and no affinity comes after an anti-affinity. */
  predicate Sorted(list: seq<AffinityItem>) {
    && (forall i :: 0 <= i < |list| ==> list[i].antiFlag in [0, 1])
    && (forall i, j :: 0 <= i < j < |list| ==> list[i].antiFlag <= list[j].antiFlag)
  }

  lemma {:induction false} SidesOfSorted(list: seq<AffinityItem>)
    requires Sorted(list)
    ensures Side(list, false) + Side(list, true) == list
  {
    if list != [] {
      if list[0].antiFlag == 0 {
        assert forall i :: 0 <= i < |list| - 1 ==> list[1..][i] == list[i + 1];
        SidesOfSorted(list[1..]);
        assert Side(list, false) + Side(list, true) == [list[0]] + (Side(list[1..], false) + Side(list[1..], true));
      } else {
        assert forall i :: 0 <= i < |list| ==> list[0].antiFlag <= list[i].antiFlag;
        SideOfUniform(list, true);
      }
    }
  }

  /** A list is read back unchanged exactly when it is sorted already. */
  lemma {:induction false} ReadBackUnchanged(list: seq<AffinityItem>)
    ensures Readable(Marshalled(list))
    ensures Items(Marshalled(list)) == list <==> Sorted(list)
  {
    ReadBackIsPartition(list);
    var parts := Side(list, false) + Side(list, true);
    if Sorted(list) {
      SidesOfSorted(list);
      assert NormalAll(list) == list;
    } else if NormalAll(parts) == list {
      SideFlags(list, false);
      SideFlags(list, true);
      assert forall i :: 0 <= i < |list| ==> list[i] == Normal(parts[i]);
      assert Sorted(list);
    }
  }
}
