/**
 The tables of services and releases: each matched workload of a release becomes a service row on
 installation, and deletion removes the rows of every matched service. Either may stop half way.
 */
module HelmRelease {
  import opened Wrappers
  import opened HelmJoin
  import opened ServiceStatement

  datatype ServiceRow = ServiceRow(
    id: nat,
    name: string,
    project: string,
    serviceType: int,
    releaseId: int,
    serviceYaml: string,
    deploymentYaml: string)

  function KeyOf(row: ServiceRow): ServiceKey {
    ServiceKey(row.name, row.project)
  }

  function Without(rows: seq<ServiceRow>, keys: seq<ServiceKey>): seq<ServiceRow> {
    if rows == [] then []
    else (if KeyOf(rows[0]) in keys then [] else [rows[0]]) + Without(rows[1..], keys)
  }

  lemma {:induction false} WithoutAppend(a: seq<ServiceRow>, b: seq<ServiceRow>, keys: seq<ServiceKey>)
    ensures Without(a + b, keys) == Without(a, keys) + Without(b, keys)
  {
    if a == [] {
      assert a + b == b;
      assert [] + Without(b, keys) == Without(b, keys);
    } else {
      assert (a + b)[1..] == a[1..] + b;
      WithoutAppend(a[1..], b, keys);
    }
  }

  lemma {:induction false} WithoutUnchanged(rows: seq<ServiceRow>, keys: seq<ServiceKey>)
    ensures |Without(rows, keys)| <= |rows|
    ensures Without(rows, keys) == rows <==> forall i :: 0 <= i < |rows| ==> KeyOf(rows[i]) !in keys
  {
    if rows != [] {
      WithoutUnchanged(rows[1..], keys);
      if KeyOf(rows[0]) !in keys {
        assert rows == [rows[0]] + rows[1..];
        assert Without(rows, keys)[1..] == Without(rows[1..], keys);
        assert forall i :: 1 <= i < |rows| ==> rows[i] == rows[1..][i - 1];
      }
    }
  }

  lemma {:induction false} WithoutAll(rows: seq<ServiceRow>, keys: seq<ServiceKey>)
    requires forall i :: 0 <= i < |rows| ==> KeyOf(rows[i]) in keys
    ensures Without(rows, keys) == []
  {
    if rows != [] {
      WithoutAll(rows[1..], keys);
    }
  }

  datatype Release = Release(id: int, project: string, infos: seq<K8sInfo>)

  const SERVICE_TYPE_UNKNOWN: int := 0
  const SERVICE_TYPE_STATEFUL_SET: int := 5

  ghost predicate InRange(r: Release, matched: seq<Match>) {
    forall m :: m in matched ==> m.service < |r.infos| && m.workload < |r.infos|
  }

  function ServiceOf(r: Release, m: Match): ServiceKey
    requires m.service < |r.infos|
  {
    ServiceKey(r.infos[m.service].name, r.project)
  }

  /** The keys of the services of the matches, as the delete statement names them. */
  function Keys(r: Release, matched: seq<Match>): (keys: seq<ServiceKey>)
    requires InRange(r, matched)
    ensures |keys| == |matched|
    ensures forall i :: 0 <= i < |matched| ==> keys[i] == ServiceOf(r, matched[i])
  {
    seq(|matched|, i requires 0 <= i < |matched| => ServiceOf(r, matched[i]))
  }

  predicate IsStatefulSet(r: Release, m: Match)
    requires m.workload < |r.infos|
  {
    r.infos[m.workload].kind == "StatefulSet"
  }

  /** Every stateful set is installed, a deployment only if the table has no row of its service. */
  ghost predicate Wanted(rows: seq<ServiceRow>, r: Release, m: Match)
    requires m.service < |r.infos| && m.workload < |r.infos|
  {
    IsStatefulSet(r, m) || !Present(rows, ServiceOf(r, m))
  }

  ghost function Accepted(rows: seq<ServiceRow>, r: Release, matched: seq<Match>): seq<Match>
    requires InRange(r, matched)
  {
    if matched == [] then []
    else
      var last := matched[|matched| - 1];
      Accepted(rows, r, matched[..|matched| - 1]) + (if Wanted(rows, r, last) then [last] else [])
  }

  function WithNamespace(setNamespace: Namespacer, text: string): string {
    match setNamespace(text)
    case None => text
    case Some(t) => t
  }

  /** What the tables and the cluster answer during an installation: whether the service of match i can be
      looked up, the type a service's text has, and whether the project is found and row n inserted. */
  datatype Answers = Answers(lookup: nat -> bool, typeOf: string -> Option<int>, insert: nat -> bool)

  function TypeOf(r: Release, setNamespace: Namespacer, a: Answers, m: Match): int
    requires m.service < |r.infos| && m.workload < |r.infos|
  {
    if IsStatefulSet(r, m) then SERVICE_TYPE_STATEFUL_SET
    else
      match a.typeOf(WithNamespace(setNamespace, r.infos[m.service].source))
      case None => SERVICE_TYPE_UNKNOWN
      case Some(t) => t
  }

  function RowOf(r: Release, setNamespace: Namespacer, a: Answers, m: Match, id: nat): ServiceRow
    requires m.service < |r.infos| && m.workload < |r.infos|
  {
    ServiceRow(id, r.infos[m.service].name, r.project, TypeOf(r, setNamespace, a, m), r.id,
               WithNamespace(setNamespace, r.infos[m.service].source),
               WithNamespace(setNamespace, r.infos[m.workload].source))
  }

  /** The rows of the accepted matches, numbered from id on. */
  function NewRows(r: Release, setNamespace: Namespacer, a: Answers, accepted: seq<Match>, id: nat):
    (rows: seq<ServiceRow>)
    requires InRange(r, accepted)
    ensures |rows| == |accepted|
    ensures forall i :: 0 <= i < |rows| ==> rows[i] == RowOf(r, setNamespace, a, accepted[i], id + i)
  {
    seq(|accepted|, i requires 0 <= i < |accepted| => RowOf(r, setNamespace, a, accepted[i], id + i))
  }

  lemma {:induction false} JoinInRange(infos: seq<K8sInfo>, setNamespace: Namespacer, n: nat)
    requires n <= |infos|
    ensures forall m :: m in NestedLoopJoin(infos, setNamespace, n) ==> m.service < |infos| && m.workload < |infos|
  {
    if n > 0 {
      JoinInRange(infos, setNamespace, n - 1);
    }
  }

  /** The matches of a release, whatever stands in the table. */
  function Matches(r: Release, setNamespace: Namespacer): (matched: seq<Match>)
    ensures InRange(r, matched)
  {
    JoinInRange(r.infos, setNamespace, |r.infos|);
    NestedLoopJoin(r.infos, setNamespace, |r.infos|)
  }

  ghost predicate Present(rows: seq<ServiceRow>, key: ServiceKey) {
    exists i :: 0 <= i < |rows| && KeyOf(rows[i]) == key
  }

  lemma {:induction false} AcceptedAreMatches(rows: seq<ServiceRow>, r: Release, matched: seq<Match>)
    requires InRange(r, matched)
    ensures forall m :: m in Accepted(rows, r, matched) <==> m in matched && Wanted(rows, r, m)
    ensures InRange(r, Accepted(rows, r, matched))
  {
    if matched != [] {
      var init := matched[..|matched| - 1];
      assert matched == init + [matched[|matched| - 1]];
      AcceptedAreMatches(rows, r, init);
    }
  }

  lemma {:induction false} AcceptedNext(rows: seq<ServiceRow>, r: Release, matched: seq<Match>, i: nat)
    requires InRange(r, matched) && i < |matched| && matched[i] in matched
    ensures Accepted(rows, r, matched[..i + 1]) ==
            Accepted(rows, r, matched[..i]) + (if Wanted(rows, r, matched[i]) then [matched[i]] else [])
  {
    assert matched[..i + 1][..i] == matched[..i];
  }

  // ---------- Where an installation stops ----------

  /** Match i can be prepared: a deployment's service is looked up and, if it is new, its type read. */
  ghost predicate Prepared(rows: seq<ServiceRow>, r: Release, setNamespace: Namespacer, a: Answers,
                           matched: seq<Match>, i: nat)
    requires InRange(r, matched) && i < |matched|
  {
    var m := matched[i];
    assert m in matched;
    IsStatefulSet(r, m) ||
    (a.lookup(i) &&
     (Present(rows, ServiceOf(r, m)) || a.typeOf(WithNamespace(setNamespace, r.infos[m.service].source)).Some?))
  }

  ghost predicate AllPrepared(rows: seq<ServiceRow>, r: Release, setNamespace: Namespacer, a: Answers,
                              matched: seq<Match>, n: nat)
    requires InRange(r, matched) && n <= |matched|
  {
    forall i :: 0 <= i < n ==> Prepared(rows, r, setNamespace, a, matched, i)
  }

  /** The first number from n on, below end, that is refused, or end. */
  function FirstRefused(insert: nat -> bool, n: nat, end: nat): (first: nat)
    requires n <= end
    ensures n <= first <= end && (first < end ==> !insert(first))
    ensures forall i :: n <= i < first ==> insert(i)
    decreases end - n
  {
    if n == end || !insert(n) then n else FirstRefused(insert, n + 1, end)
  }

  /** The installation of the release over these rows: the rows that are to come, and how many of them do. */
  datatype Installation = Installation(planned: seq<ServiceRow>, inserted: nat)

  ghost function Install(rows: seq<ServiceRow>, r: Release, setNamespace: Namespacer, a: Answers, id: nat):
    (plan: Installation)
    ensures plan.inserted <= |plan.planned|
  {
    var matched := Matches(r, setNamespace);
    AcceptedAreMatches(rows, r, matched);
    var planned := NewRows(r, setNamespace, a, Accepted(rows, r, matched), id);
    Installation(planned,
                 if AllPrepared(rows, r, setNamespace, a, matched, |matched|)
                 then FirstRefused(a.insert, 0, |planned|) else 0)
  }

  /** All matches could be prepared and all rows inserted. */
  ghost predicate Completes(rows: seq<ServiceRow>, r: Release, setNamespace: Namespacer, a: Answers) {
    var matched := Matches(r, setNamespace);
    AcceptedAreMatches(rows, r, matched);
    && AllPrepared(rows, r, setNamespace, a, matched, |matched|)
    && var count := |Accepted(rows, r, matched)|; FirstRefused(a.insert, 0, count) == count
  }

  /** What fails while a release is deleted: its removal by Helm, that of its row, or that of the service rows. */
  datatype DeleteFault = NoFault | HelmFails | ReleaseStays | ServicesStay

  class Tables {
    var rows: seq<ServiceRow>
    var nextId: nat
    var releases: map<int, Release>

    constructor ()
      ensures rows == [] && nextId == 1 && releases == map[]
    {
      rows, nextId, releases := [], 1, map[];
    }

    method ServiceExists(name: string, project: string) returns (found: bool)
      ensures found == Present(rows, ServiceKey(name, project))
    {
      found := false;
      for i := 0 to |rows|
        invariant found <==> exists k :: 0 <= k < i && KeyOf(rows[k]) == ServiceKey(name, project)
      {
        if rows[i].name == name && rows[i].project == project {
          found := true;
        }
      }
    }

    method AddService(row: ServiceRow)
      modifies this`rows, this`nextId
      ensures rows == old(rows) + [row.(id := old(nextId))] && nextId == old(nextId) + 1
    {
      rows := rows + [row.(id := nextId)];
      nextId := nextId + 1;
    }

    /** Deletes nothing for an empty list; otherwise runs the generated statement. */
    method DeleteServiceByNames(services: seq<ServiceKey>, fails: bool) returns (ok: bool)
      modifies this`rows
      ensures ok == (!fails || services == [])
      ensures rows == if ok then Without(old(rows), services) else old(rows)
    {
      if |services| == 0 {
        WithoutUnchanged(rows, services);
        return true;
      }
      var sql, params := GenerateDeleteServiceByNamesSQL(services);
      if fails {
        return false;
      }
      var values := sql[|STATEMENT|..|sql| - |STATEMENT_END|];
      assert values == Placeholders(|services|);
      StatementBindsServices(services);
      Execute(BindTuples(values, params).value);
      ok := true;
    }

    method Execute(keys: seq<ServiceKey>)
      modifies this`rows
      ensures rows == Without(old(rows), keys)
    {
      var all, kept := rows, [];
      assert all[0..] == all;
      for i := 0 to |all|
        invariant kept + Without(all[i..], keys) == Without(all, keys)
      {
        assert all[i..][1..] == all[i + 1..];
        if KeyOf(all[i]) !in keys {
          kept := kept + [all[i]];
        }
      }
      assert Without(all[|all|..], keys) == [];
      rows := kept;
    }

    /** One match: whether its service is to be inserted, and with which type; None stops the installation. */
    method PrepareMatch(r: Release, setNamespace: Namespacer, a: Answers, matched: seq<Match>, i: nat, text: string)
      returns (wanted: Option<bool>, serviceType: int)
      requires InRange(r, matched) && i < |matched| && matched[i] in matched
      requires setNamespace(r.infos[matched[i].service].source) == Some(text)
      ensures wanted.Some? <==> Prepared(rows, r, setNamespace, a, matched, i)
      ensures wanted.Some? ==> (wanted.value <==> Wanted(rows, r, matched[i]))
      ensures wanted == Some(true) ==> serviceType == TypeOf(r, setNamespace, a, matched[i])
    {
      var m := matched[i];
      if r.infos[m.workload].kind == "StatefulSet" {
        return Some(true), SERVICE_TYPE_STATEFUL_SET;
      }
      if !a.lookup(i) {
        return None, SERVICE_TYPE_UNKNOWN;
      }
      var exist := ServiceExists(r.infos[m.service].name, r.project);
      if exist {
        return Some(false), SERVICE_TYPE_UNKNOWN;
      }
      var svcType := a.typeOf(text);
      if svcType.None? {
        return None, SERVICE_TYPE_UNKNOWN;
      }
      return Some(true), svcType.value;
    }

    method Prepare(r: Release, setNamespace: Namespacer, a: Answers, matched: seq<Match>, sources: seq<string>)
      returns (ok: bool, accepted: seq<Match>, types: seq<int>)
      requires InRange(r, matched)
      requires AllNamespaced(r.infos, setNamespace, sources, matched)
      ensures ok <==> AllPrepared(rows, r, setNamespace, a, matched, |matched|)
      ensures ok ==> accepted == Accepted(rows, r, matched) && TypesAre(r, setNamespace, a, accepted, types)
    {
      accepted, types := [], [];
      for i := 0 to |matched|
        invariant AllPrepared(rows, r, setNamespace, a, matched, i)
        invariant accepted == Accepted(rows, r, matched[..i]) && TypesAre(r, setNamespace, a, accepted, types)
      {
        var m := matched[i];
        assert m in matched;
        AcceptedNext(rows, r, matched, i);
        var wanted, serviceType := PrepareMatch(r, setNamespace, a, matched, i, sources[m.service]);
        if wanted.None? {
          return false, accepted, types;
        }
        if wanted.value {
          accepted, types := accepted + [m], types + [serviceType];
        }
      }
      assert matched[..|matched|] == matched;
      ok := true;
    }

    method CreateServiceConfig(r: Release, setNamespace: Namespacer, a: Answers, m: Match, serviceType: int,
                               sources: seq<string>)
      requires Namespaced(r.infos, setNamespace, sources, m.service)
      requires Namespaced(r.infos, setNamespace, sources, m.workload)
      requires serviceType == TypeOf(r, setNamespace, a, m)
      modifies this`rows, this`nextId
      ensures rows == old(rows) + [RowOf(r, setNamespace, a, m, old(nextId))] && nextId == old(nextId) + 1
    {
      AddService(ServiceRow(0, r.infos[m.service].name, r.project, serviceType, r.id, sources[m.service],
                            sources[m.workload]));
    }

    /** Inserts the rows of the accepted matches, whose texts carry the namespace by now, up to the first refusal. */
    method CreateServices(r: Release, setNamespace: Namespacer, a: Answers, accepted: seq<Match>, types: seq<int>,
                          sources: seq<string>)
      returns (ok: bool)
      requires InRange(r, accepted) && TypesAre(r, setNamespace, a, accepted, types)
      requires AllNamespaced(r.infos, setNamespace, sources, accepted)
      modifies this`rows, this`nextId
      ensures var n := FirstRefused(a.insert, 0, |accepted|);
              && rows == old(rows) + NewRows(r, setNamespace, a, accepted, old(nextId))[..n]
              && nextId == old(nextId) + n && ok == (n == |accepted|)
    {
      ghost var before, id := rows, nextId;
      ghost var added := NewRows(r, setNamespace, a, accepted, id);
      for i := 0 to |accepted|
        invariant rows == before + added[..i] && nextId == id + i
        invariant FirstRefused(a.insert, 0, |accepted|) == FirstRefused(a.insert, i, |accepted|)
      {
        var m := accepted[i];
        assert m in accepted;
        if !a.insert(i) {
          return false;
        }
        CreateServiceConfig(r, setNamespace, a, m, types[i], sources);
        Regroup(before, added[..i], [added[i]]);
        TakeNext(added, i);
      }
      ok := true;
    }

    /** Appends one row per accepted match, or none, or those before the first that is refused. */
    method AddHelmReleaseToBoardService(r: Release, setNamespace: Namespacer, a: Answers) returns (ok: bool)
      requires SetsOnce(setNamespace)
      modifies this`rows, this`nextId
      ensures var plan := Install(old(rows), r, setNamespace, a, old(nextId));
              rows == old(rows) + plan.planned[..plan.inserted] && nextId == old(nextId) + plan.inserted
      ensures ok <==> Completes(old(rows), r, setNamespace, a)
    {
      var matched, sources := JoinServicesAndWorkloads(r.infos, setNamespace);
      assert matched == Matches(r, setNamespace);
      var prepared, accepted, types := Prepare(r, setNamespace, a, matched, sources);
      AcceptedAreMatches(rows, r, matched);
      if !prepared {
        return false;
      }
      ok := CreateServices(r, setNamespace, a, accepted, types, sources);
    }

    /** Stores the release and adds its services. A failure to add them only removes the release again, if that
        succeeds, and is not reported. */
    method InitBoardRelease(r: Release, setNamespace: Namespacer, a: Answers, stored: bool, removed: bool)
      returns (ok: bool)
      requires SetsOnce(setNamespace) && r.id !in releases
      modifies this
      ensures ok == stored
      ensures var plan := Install(old(rows), r, setNamespace, a, old(nextId));
              rows == old(rows) + if stored then plan.planned[..plan.inserted] else []
      ensures releases == if stored && (Completes(old(rows), r, setNamespace, a) || !removed)
                          then old(releases)[r.id := r] else old(releases)
    {
      if !stored {
        return false;
      }
      releases := releases[r.id := r];
      var added := AddHelmReleaseToBoardService(r, setNamespace, a);
      if !added && removed {
        releases := releases - {r.id};
      }
      ok := true;
    }

    /** The steps in order; the first that fails ends the deletion. */
    method DeleteRelease(r: Release, setNamespace: Namespacer, fault: DeleteFault) returns (ok: bool)
      requires SetsOnce(setNamespace)
      modifies this`rows, this`releases
      ensures ok <==> fault == NoFault || (fault == ServicesStay && Matches(r, setNamespace) == [])
      ensures releases == if fault in {HelmFails, ReleaseStays} then old(releases) else old(releases) - {r.id}
      ensures rows == if ok then Without(old(rows), Keys(r, Matches(r, setNamespace))) else old(rows)
    {
      if fault == HelmFails || fault == ReleaseStays {
        return false;
      }
      releases := releases - {r.id};
      var matched, sources := JoinServicesAndWorkloads(r.infos, setNamespace);
      assert matched == Matches(r, setNamespace);
      var services := Keys(r, matched);
      ok := DeleteServiceByNames(services, fault == ServicesStay);
    }
  }

  /** The types found for the accepted matches. */
  ghost predicate TypesAre(r: Release, setNamespace: Namespacer, a: Answers, accepted: seq<Match>, types: seq<int>) {
    && InRange(r, accepted) && |types| == |accepted|
    && forall i :: 0 <= i < |accepted| ==> types[i] == TypeOf(r, setNamespace, a, accepted[i])
  }

}
