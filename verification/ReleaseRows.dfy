/** Which service rows an installation of a release brings, told of its manifest and of the table before it. */
module ReleaseRows {
  import opened Wrappers
  import opened HelmJoin
  import opened ServiceStatement
  import opened HelmRelease

  /** The table has a row of the service. */
  ghost predicate HasRow(rows: seq<ServiceRow>, name: string, project: string) {
    exists row :: row in rows && row.name == name && row.project == project
  }

  /** The match is to become a row: its workload is a stateful set, or its service has none yet. */
  ghost predicate Registers(before: seq<ServiceRow>, r: Release, m: Match)
    requires m.service < |r.infos| && m.workload < |r.infos|
  {
    r.infos[m.workload].kind == "StatefulSet" || !HasRow(before, r.infos[m.service].name, r.project)
  }

  /** How many of the first n matches are to become rows. */
  ghost function CountRegistered(before: seq<ServiceRow>, r: Release, matched: seq<Match>, n: nat): nat
    requires n <= |matched| && InRange(r, matched)
  {
    if n == 0 then 0
    else
      assert matched[n - 1] in matched;
      CountRegistered(before, r, matched, n - 1) + if Registers(before, r, matched[n - 1]) then 1 else 0
  }

  /** The row is that of the match: both texts carry the namespace. */
  ghost predicate RowOfMatch(row: ServiceRow, r: Release, setNamespace: Namespacer, m: Match)
    requires m.service < |r.infos| && m.workload < |r.infos|
  {
    && row.name == r.infos[m.service].name && row.project == r.project && row.releaseId == r.id
    && setNamespace(r.infos[m.service].source) == Some(row.serviceYaml)
    && setNamespace(r.infos[m.workload].source) == Some(row.deploymentYaml)
  }

  /** A deployment's row has the type that its service's text has, a stateful set's the type 5. */
  ghost predicate TypeOfMatch(row: ServiceRow, r: Release, a: Answers, m: Match)
    requires m.workload < |r.infos|
  {
    if r.infos[m.workload].kind == "StatefulSet" then row.serviceType == 5
    else a.typeOf(row.serviceYaml) == Some(row.serviceType)
  }

  /** Nothing keeps match i from being prepared: a deployment's service can be looked up and, if it has no row, has
      a type. */
  ghost predicate CanPrepare(before: seq<ServiceRow>, r: Release, setNamespace: Namespacer, a: Answers,
                             matched: seq<Match>, i: nat)
    requires i < |matched| && InRange(r, matched)
  {
    var m := matched[i];
    assert m in matched;
    r.infos[m.workload].kind == "StatefulSet" ||
    (a.lookup(i) &&
     (HasRow(before, r.infos[m.service].name, r.project) ||
      exists text :: setNamespace(r.infos[m.service].source) == Some(text) && a.typeOf(text).Some?))
  }

  lemma {:induction false} PresentIsRow(rows: seq<ServiceRow>, key: ServiceKey)
    ensures Present(rows, key) <==> HasRow(rows, key.name, key.project)
  {
    if row :| row in rows && row.name == key.name && row.project == key.project {
      var i :| 0 <= i < |rows| && rows[i] == row;
      assert KeyOf(rows[i]) == key;
    }
    if i :| 0 <= i < |rows| && KeyOf(rows[i]) == key {
      assert rows[i] in rows;
    }
  }

  /** The accepted matches are those that register, each at the place its count gives. */
  lemma {:induction false} AcceptedRegister(before: seq<ServiceRow>, r: Release, matched: seq<Match>, n: nat)
    requires n <= |matched| && InRange(r, matched)
    ensures |Accepted(before, r, matched[..n])| == CountRegistered(before, r, matched, n)
    ensures forall i :: 0 <= i < n ==> AcceptedAt(before, r, matched, n, i)
  {
    if n > 0 {
      var m := matched[n - 1];
      assert m in matched;
      AcceptedRegister(before, r, matched, n - 1);
      AcceptedNext(before, r, matched, n - 1);
      PresentIsRow(before, ServiceOf(r, m));
      forall i | 0 <= i < n
        ensures AcceptedAt(before, r, matched, n, i)
      {
        assert i < n - 1 ==> AcceptedAt(before, r, matched, n - 1, i);
      }
    }
  }

  ghost predicate AcceptedAt(before: seq<ServiceRow>, r: Release, matched: seq<Match>, n: nat, i: nat)
    requires i < n <= |matched| && InRange(r, matched)
  {
    assert matched[i] in matched;
    Registers(before, r, matched[i]) ==>
      var accepted, k := Accepted(before, r, matched[..n]), CountRegistered(before, r, matched, i);
      k < |accepted| && accepted[k] == matched[i]
  }

  lemma {:induction false} PreparedIff(before: seq<ServiceRow>, r: Release, setNamespace: Namespacer, a: Answers,
                                       matched: seq<Match>, i: nat)
    requires matched == Matches(r, setNamespace) && i < |matched|
    ensures Prepared(before, r, setNamespace, a, matched, i) <==> CanPrepare(before, r, setNamespace, a, matched, i)
  {
    assert matched[i] in matched;
    JoinMeaning(r.infos, setNamespace, |r.infos|, matched[i]);
    PresentIsRow(before, ServiceOf(r, matched[i]));
  }

  /** All matches can be prepared and every planned row is inserted. */
  ghost predicate NothingFails(before: seq<ServiceRow>, r: Release, setNamespace: Namespacer, a: Answers) {
    var matched := Matches(r, setNamespace);
    && (forall i :: 0 <= i < |matched| ==> CanPrepare(before, r, setNamespace, a, matched, i))
    && forall n :: 0 <= n < CountRegistered(before, r, matched, |matched|) ==> a.insert(n)
  }

  /** Match i, if it registers, has its row in the plan, with the next free number. */
  ghost predicate PlannedAt(plan: Installation, before: seq<ServiceRow>, r: Release, setNamespace: Namespacer,
                            a: Answers, id: nat, i: nat)
    requires i < |Matches(r, setNamespace)|
  {
    var matched := Matches(r, setNamespace);
    assert matched[i] in matched;
    Registers(before, r, matched[i]) ==>
      var k := CountRegistered(before, r, matched, i);
      && k < |plan.planned| && plan.planned[k].id == id + k
      && RowOfMatch(plan.planned[k], r, setNamespace, matched[i])
      && (CanPrepare(before, r, setNamespace, a, matched, i) ==> TypeOfMatch(plan.planned[k], r, a, matched[i]))
  }

  /** An installation plans one row per stateful set, and one per deployment whose service had none, in the order of
      the manifest; it inserts none if a match cannot be prepared, else those before the first refusal, and completes
      exactly if nothing fails. */
  lemma {:induction false} InstallationPlans(before: seq<ServiceRow>, r: Release, setNamespace: Namespacer,
                                             a: Answers, id: nat)
    ensures
      var plan, matched := Install(before, r, setNamespace, a, id), Matches(r, setNamespace);
      && |plan.planned| == CountRegistered(before, r, matched, |matched|)
      && (forall i :: 0 <= i < |matched| ==> PlannedAt(plan, before, r, setNamespace, a, id, i))
      && (Completes(before, r, setNamespace, a) <==> NothingFails(before, r, setNamespace, a))
      && (if forall i :: 0 <= i < |matched| ==> CanPrepare(before, r, setNamespace, a, matched, i) then
            && (forall n :: 0 <= n < plan.inserted ==> a.insert(n))
            && (plan.inserted == |plan.planned| || !a.insert(plan.inserted))
          else plan.inserted == 0)
  {
    var plan, matched := Install(before, r, setNamespace, a, id), Matches(r, setNamespace);
    assert matched[..|matched|] == matched;
    AcceptedRegister(before, r, matched, |matched|);
    forall i | 0 <= i < |matched|
      ensures Prepared(before, r, setNamespace, a, matched, i) <==>
              CanPrepare(before, r, setNamespace, a, matched, i)
    {
      PreparedIff(before, r, setNamespace, a, matched, i);
    }
    forall i | 0 <= i < |matched|
      ensures PlannedAt(plan, before, r, setNamespace, a, id, i)
    {
      assert matched[i] in matched && AcceptedAt(before, r, matched, |matched|, i);
      JoinMeaning(r.infos, setNamespace, |r.infos|, matched[i]);
      PresentIsRow(before, ServiceOf(r, matched[i]));
    }
  }

  /** After an installation that completes the table has a row of every matched service. */
  lemma {:induction false} EveryServiceRegistered(before: seq<ServiceRow>, r: Release, setNamespace: Namespacer,
                                                  a: Answers, id: nat, m: Match)
    requires NothingFails(before, r, setNamespace, a) && m in Matches(r, setNamespace)
    ensures
      var plan := Install(before, r, setNamespace, a, id);
      HasRow(before + plan.planned[..plan.inserted], r.infos[m.service].name, r.project)
  {
    var plan, matched := Install(before, r, setNamespace, a, id), Matches(r, setNamespace);
    var after := before + plan.planned[..plan.inserted];
    InstallationPlans(before, r, setNamespace, a, id);
    var i: nat :| i < |matched| && matched[i] == m;
    assert PlannedAt(plan, before, r, setNamespace, a, id, i);
    if Registers(before, r, m) {
      var row := plan.planned[CountRegistered(before, r, matched, i)];
      assert plan.planned[..plan.inserted] == plan.planned;
      assert row in after;
    } else {
      var row :| row in before && row.name == r.infos[m.service].name && row.project == r.project;
      assert row in after;
    }
  }
}
