/** What an installation and a deletion of a release, wherever they stop, leave in the tables. */
module ReleaseRuns {
  import opened Wrappers
  import opened HelmJoin
  import opened ServiceStatement
  import opened HelmRelease

  /** Every planned row is one of a matched service. */
  lemma {:induction false} PlannedKeys(before: seq<ServiceRow>, r: Release, setNamespace: Namespacer, a: Answers,
                                       id: nat)
    ensures forall row :: row in Install(before, r, setNamespace, a, id).planned ==>
              row.releaseId == r.id && KeyOf(row) in Keys(r, Matches(r, setNamespace))
  {
    var matched := Matches(r, setNamespace);
    var accepted, keys := Accepted(before, r, matched), Keys(r, matched);
    AcceptedAreMatches(before, r, matched);
    var planned := NewRows(r, setNamespace, a, accepted, id);
    forall i | 0 <= i < |planned|
      ensures planned[i].releaseId == r.id && KeyOf(planned[i]) in keys
    {
      assert accepted[i] in accepted;
      var j :| 0 <= j < |matched| && matched[j] == accepted[i];
      assert keys[j] == KeyOf(planned[i]);
    }
  }

  lemma {:induction false} NonePresent(rows: seq<ServiceRow>, r: Release, matched: seq<Match>)
    requires InRange(r, matched)
    ensures (forall m :: m in matched ==> !Present(rows, ServiceOf(r, m))) <==>
            forall i :: 0 <= i < |rows| ==> KeyOf(rows[i]) !in Keys(r, matched)
  {
    var keys := Keys(r, matched);
    if i :| 0 <= i < |rows| && KeyOf(rows[i]) in keys {
      var j :| 0 <= j < |keys| && keys[j] == KeyOf(rows[i]);
      assert matched[j] in matched && Present(rows, ServiceOf(r, matched[j]));
    }
    if m :| m in matched && Present(rows, ServiceOf(r, m)) {
      var j :| 0 <= j < |matched| && matched[j] == m;
      var i :| 0 <= i < |rows| && KeyOf(rows[i]) == ServiceOf(r, m);
      assert keys[j] == KeyOf(rows[i]);
    }
  }

  /** Rows that are all deleted leave no trace: what remains is as before exactly if nothing else goes. */
  lemma {:induction false} AddedGone(before: seq<ServiceRow>, added: seq<ServiceRow>, keys: seq<ServiceKey>)
    requires forall row :: row in added ==> KeyOf(row) in keys
    ensures Without(before + added, keys) == before <==> forall i :: 0 <= i < |before| ==> KeyOf(before[i]) !in keys
  {
    WithoutAppend(before, added, keys);
    WithoutAll(added, keys);
    WithoutUnchanged(before, keys);
    assert Without(before, keys) + [] == Without(before, keys);
  }

  /** Deleting a release from the table that its installation has left, complete or stopped after any number of
      rows, gives the table before it if and only if that table held no row of a matched service. */
  lemma {:induction false} InstallDeleteInverse(before: seq<ServiceRow>, r: Release, setNamespace: Namespacer,
                                                a: Answers, id: nat, n: nat)
    requires n <= |Install(before, r, setNamespace, a, id).planned|
    ensures var matched := Matches(r, setNamespace);
            Without(before + Install(before, r, setNamespace, a, id).planned[..n], Keys(r, matched)) == before <==>
            forall m :: m in matched ==> !Present(before, ServiceOf(r, m))
  {
    var planned := Install(before, r, setNamespace, a, id).planned;
    PlannedKeys(before, r, setNamespace, a, id);
    AddedGone(before, planned[..n], Keys(r, Matches(r, setNamespace)));
    NonePresent(before, r, Matches(r, setNamespace));
  }

  /** Installing a release and, if it is stored then, deleting it again: the service rows are the old ones if and
      only if, where the deletion gets through, they held none of a matched service and, where it does not, none
      was inserted. */
  method InstallThenDelete(tables: Tables, r: Release, setNamespace: Namespacer, a: Answers, stored: bool,
                           removed: bool, fault: DeleteFault)
    requires SetsOnce(setNamespace) && r.id !in tables.releases
    modifies tables
    ensures var before := old(tables.rows);
            var kept := stored && (Completes(before, r, setNamespace, a) || !removed);
            tables.rows == before <==>
              if kept && fault == NoFault
              then forall m :: m in Matches(r, setNamespace) ==> !Present(before, ServiceOf(r, m))
              else !stored || Install(before, r, setNamespace, a, old(tables.nextId)).inserted == 0
  {
    ghost var before, id := tables.rows, tables.nextId;
    ghost var n := Install(before, r, setNamespace, a, id).inserted;
    InstallDeleteInverse(before, r, setNamespace, a, id, n);
    assert Matches(r, setNamespace) == [] ==> Accepted(before, r, Matches(r, setNamespace)) == [];
    var ok := tables.InitBoardRelease(r, setNamespace, a, stored, removed);
    if r.id in tables.releases {
      ok := tables.DeleteRelease(r, setNamespace, fault);
    }
  }

  // ---------- Rows without a release ----------

  /** The namespace setting of each project. */
  type Namespacers = string -> Namespacer

  /** Every row that a release brought, with a number that is not zero, is one of a service of a stored release. */
  ghost predicate Owned(rows: seq<ServiceRow>, releases: map<int, Release>, spaces: Namespacers) {
    forall row :: row in rows && row.releaseId != 0 ==>
      row.releaseId in releases && OwnedBy(row, releases[row.releaseId], spaces)
  }

  ghost predicate OwnedBy(row: ServiceRow, r: Release, spaces: Namespacers) {
    KeyOf(row) in Keys(r, Matches(r, spaces(r.project)))
  }

  /** An installation leaves no row without a release if and only if it completes, inserts nothing, or fails to
      remove the release that it has stored. */
  lemma {:induction false} InstallKeepsOwned(rows: seq<ServiceRow>, releases: map<int, Release>, r: Release,
                                             spaces: Namespacers, a: Answers, removed: bool, id: nat)
    requires Owned(rows, releases, spaces) && r.id != 0 && r.id !in releases
    ensures var plan := Install(rows, r, spaces(r.project), a, id);
            var done := Completes(rows, r, spaces(r.project), a);
            Owned(rows + plan.planned[..plan.inserted],
                  if done || !removed then releases[r.id := r] else releases, spaces)
            <==> done || !removed || plan.inserted == 0
  {
    var plan := Install(rows, r, spaces(r.project), a, id);
    PlannedKeys(rows, r, spaces(r.project), a, id);
    AddedOwned(rows, releases, r, spaces, plan.planned[..plan.inserted]);
  }

  /** Rows of a new release are owned exactly if the release is stored, or there are none. */
  lemma {:induction false} AddedOwned(rows: seq<ServiceRow>, releases: map<int, Release>, r: Release,
                                      spaces: Namespacers, added: seq<ServiceRow>)
    requires Owned(rows, releases, spaces) && r.id != 0 && r.id !in releases
    requires forall row :: row in added ==> row.releaseId == r.id && OwnedBy(row, r, spaces)
    ensures Owned(rows + added, releases[r.id := r], spaces)
    ensures Owned(rows + added, releases, spaces) <==> added == []
  {
    if added != [] {
      assert added[0] in rows + added;
    } else {
      assert rows + added == rows;
    }
  }

  lemma {:induction false} WithoutRows(rows: seq<ServiceRow>, keys: seq<ServiceKey>)
    ensures forall row :: row in Without(rows, keys) <==> row in rows && KeyOf(row) !in keys
  {
    if rows != [] {
      WithoutRows(rows[1..], keys);
      assert rows == [rows[0]] + rows[1..];
    }
  }

  /** A deletion that gets through leaves no row without a release; one that stops after the release's own row
      does so if and only if the release had no service row left. */
  lemma {:induction false} DeleteKeepsOwned(rows: seq<ServiceRow>, releases: map<int, Release>, r: Release,
                                            spaces: Namespacers)
    requires Owned(rows, releases, spaces) && r.id != 0 && r.id in releases && releases[r.id] == r
    ensures Owned(Without(rows, Keys(r, Matches(r, spaces(r.project)))), releases - {r.id}, spaces)
    ensures Owned(rows, releases - {r.id}, spaces) <==> forall row :: row in rows ==> row.releaseId != r.id
  {
    WithoutRows(rows, Keys(r, Matches(r, spaces(r.project))));
  }

  // ---------- Two concrete tables ----------

  function Keep(text: string): Option<string> {
    Some(text)
  }

  /** A service "web" with a workload of that name. */
  function WebRelease(kind: string): Release {
    Release(7, "demo", [K8sInfo("Service", "web", "s"), K8sInfo(kind, "web", "d")])
  }

  lemma {:induction false} WebMatches(kind: string)
    requires kind == "Deployment" || kind == "StatefulSet"
    ensures Matches(WebRelease(kind), Keep) == [Match(0, 1)]
  {
    var infos := WebRelease(kind).infos;
    assert MatchOf(infos, Keep, 0) == [] && MatchOf(infos, Keep, 1) == [Match(0, 1)];
    assert NestedLoopJoin(infos, Keep, 1) == [];
  }

  /** A service that was registered before a release of its name is installed is gone when the release is deleted. */
  lemma {:induction false} RegisteredServiceLost(row: ServiceRow, a: Answers, id: nat)
    requires row.name == "web" && row.project == "demo"
    ensures var r := WebRelease("Deployment");
            && Install([row], r, Keep, a, id).planned == []
            && Without([row], Keys(r, Matches(r, Keep))) == []
  {
    var r := WebRelease("Deployment");
    WebMatches("Deployment");
    var matched := Matches(r, Keep);
    assert KeyOf([row][0]) == ServiceOf(r, matched[0]);
    assert matched[..0] == [] && !Wanted([row], r, matched[0]);
    assert Accepted([row], r, matched) == [];
    assert Keys(r, matched)[0] == KeyOf(row);
    WithoutAll([row], Keys(r, matched));
  }

  /** Two stateful sets with their services. */
  const PAIR := Release(7, "demo", [K8sInfo("Service", "web", "s"), K8sInfo("StatefulSet", "web", "d"),
                                    K8sInfo("Service", "db", "s"), K8sInfo("StatefulSet", "db", "d")])

  lemma {:induction false} PairMatches()
    ensures Matches(PAIR, Keep) == [Match(0, 1), Match(2, 3)]
  {
    var infos := PAIR.infos;
    assert MatchOf(infos, Keep, 0) == [] && MatchOf(infos, Keep, 2) == [];
    assert NestedLoopJoin(infos, Keep, 1) == [];
    assert FirstService(infos, "web", 0) == Some(0);
    assert MatchOf(infos, Keep, 1) == [Match(0, 1)];
    assert NestedLoopJoin(infos, Keep, 2) == [] + [Match(0, 1)];
    assert NestedLoopJoin(infos, Keep, 3) == NestedLoopJoin(infos, Keep, 2) + [];
    assert "db"[0] != "web"[0];
    assert FirstService(infos, "db", 1) == FirstService(infos, "db", 2) == Some(2);
    assert FirstService(infos, "db", 0) == Some(2);
    assert MatchOf(infos, Keep, 3) == [Match(2, 3)];
  }

  /** An installation whose second row is refused: the release is removed, the row of its first service stays. */
  lemma {:induction false} OrphanLeft(id: nat)
    ensures var a := Answers(i => true, text => Some(1), n => n == 0);
            var plan := Install([], PAIR, Keep, a, id);
            var releases: map<int, Release> := map[];
            && !Completes([], PAIR, Keep, a)
            && plan.planned[..plan.inserted] ==
               [ServiceRow(id, "web", "demo", SERVICE_TYPE_STATEFUL_SET, 7, "s", "d")]
            && !Owned([] + plan.planned[..plan.inserted], releases, project => Keep)
  {
    var a := Answers(i => true, text => Some(1), n => n == 0);
    var spaces: Namespacers := project => Keep;
    var matched := Matches(PAIR, Keep);
    PairMatches();
    assert matched[..1] == [matched[0]] && [matched[0]][..0] == [];
    assert Accepted([], PAIR, [matched[0]]) == [] + [matched[0]];
    assert Accepted([], PAIR, matched) == [matched[0]] + [matched[1]];
    assert AllPrepared([], PAIR, Keep, a, matched, 2);
    assert a.insert(0) && !a.insert(1);
    var planned := Install([], PAIR, Keep, a, id).planned;
    assert FirstRefused(a.insert, 0, 2) == 1;
    assert planned[..1] == [planned[0]];
    InstallKeepsOwned([], map[], PAIR, spaces, a, true, id);
  }
}
