/** What every run of node requests, callbacks and log deletions keeps, whichever of their writes fail. */
module NodeRuns {
  import opened NodeProtocol

  /** last is the kind of the last callback per address that changed the status table; stuck holds the
      addresses whose container called back and whose operation could not be completed. */
  datatype World = World(db: Db, last: map<string, Kind>, stuck: set<string>)

  datatype Step =
    | DoStart(ip: string, kind: Kind, time: int, outcome: Outcome)
    | DoCallBack(c: Container, success: bool, file: string, fault: Fault)
    | DoDelete(time: int, failing: DeleteFault)

  const START := World(Db(map[], map[], 0, [], map[], {}), map[], {})

  function Next(w: World, step: Step): World {
    match step
    case DoStart(ip, kind, time, outcome) => w.(db := Start(w.db, ip, kind, time, outcome).0)
    case DoDelete(time, fault) => w.(db := DeleteLog(w.db, time, fault))
    case DoCallBack(c, success, file, fault) =>
      var db := CallBack(w.db, c, success, file, fault);
      if !Completes(w.db, c.logId, fault) then World(db, w.last, w.stuck + {c.ip})
      else World(db, if success && fault != StatusNotWritten then w.last[c.ip := c.kind] else w.last, w.stuck)
  }

  /** A container calls back once, while it runs. */
  ghost predicate Possible(w: World, step: Step) {
    step.DoCallBack? ==> step.c in w.db.containers
  }

  // ---------- The invariant ----------

  ghost predicate Running(d: Db, ip: string) {
    exists c :: c in d.containers && c.ip == ip
  }

  ghost predicate OneContainerPerNode(d: Db) {
    forall c, c' :: c in d.containers && c' in d.containers && c.ip == c'.ip ==> c == c'
  }

  /** A node is locked exactly while its container runs, or for good once its operation could not be completed. */
  ghost predicate LockMeansRunning(w: World) {
    && (forall ip :: ip in w.db.cache <==> Running(w.db, ip) || ip in w.stuck)
    && (forall c :: c in w.db.containers ==> c.ip !in w.stuck)
  }

  ghost predicate ContainerKnown(d: Db, c: Container) {
    c.logId < d.nextId && (c.logId in d.logs ==> d.logs[c.logId] == LogRow(c.ip, c.kind, false, false, c.time))
  }

  ghost predicate LogsKnown(d: Db) {
    && (forall id :: id in d.logs ==> id < d.nextId)
    && (forall c :: c in d.containers ==> ContainerKnown(d, c))
  }

  ghost predicate InStatus(d: Db, ip: string) {
    exists i :: 0 <= i < |d.status| && d.status[i].ip == ip
  }

  /** The status table lists exactly the nodes whose last recorded callback was an add. */
  ghost predicate StatusIsLastAdd(w: World) {
    forall ip :: InStatus(w.db, ip) <==> ip in w.last && w.last[ip] == AddNode
  }

  ghost predicate HasLog(d: Db, time: int) {
    exists id :: id in d.logs && d.logs[id].time == time
  }

  /** Every status row keeps a log row and a transcript with its creation time. */
  ghost predicate StatusIsLogged(d: Db) {
    forall i :: 0 <= i < |d.status| ==> HasLog(d, d.status[i].time) && d.status[i].time in d.details
  }

  ghost predicate Invariant(w: World) {
    OneContainerPerNode(w.db) && LockMeansRunning(w) && LogsKnown(w.db) && StatusIsLastAdd(w)
  }

  /** The log side has only grown: no log row or transcript of a second has gone, and new status rows have both. */
  ghost predicate Grown(d: Db, t: Db) {
    && (forall time :: HasLog(d, time) ==> HasLog(t, time))
    && (forall time :: time in d.details ==> time in t.details)
    && (forall r :: r in t.status ==> r in d.status || (HasLog(t, r.time) && r.time in t.details))
  }

  // ---------- Status rows ----------

  lemma {:induction false} WithoutNodeRows(rows: seq<StatusRow>, ip: string)
    ensures forall r :: r in WithoutNode(rows, ip) <==> r in rows && r.ip != ip
  {
    if rows != [] {
      WithoutNodeRows(rows[1..], ip);
      assert rows == [rows[0]] + rows[1..];
    }
  }

  lemma {:induction false} StatusChange(w: World, ip: string, kind: Kind, time: int)
    requires StatusIsLastAdd(w)
    ensures StatusIsLastAdd(World(WithStatus(w.db, ip, kind, time), w.last[ip := kind], w.stuck))
    ensures forall r :: r in WithStatus(w.db, ip, kind, time).status ==> r in w.db.status || r == StatusRow(ip, time)
  {
    var d' := WithStatus(w.db, ip, kind, time);
    WithoutNodeRows(w.db.status, ip);
    forall other
      ensures InStatus(d', other) <==> other in w.last[ip := kind] && w.last[ip := kind][other] == AddNode
    {
      assert InStatus(w.db, other) <==> exists r :: r in w.db.status && r.ip == other;
      assert InStatus(d', other) <==> exists r :: r in d'.status && r.ip == other;
      match kind
      case AddNode => assert StatusRow(ip, time) in d'.status;
      case RemoveNode =>
    }
  }

  // ---------- Steps ----------

  /** The log row of the container is the one that its operation opened. */
  ghost predicate OwnRow(d: Db, c: Container) {
    c.logId in d.logs && d.logs[c.logId] == LogRow(c.ip, c.kind, false, false, c.time)
  }

  /** Writing the log row of an operation whose container is gone keeps the log side. */
  lemma {:induction false} EndedKeeps(d: Db, c: Container, success: bool)
    requires LogsKnown(d) && OwnRow(d, c)
    requires forall c' :: c' in d.containers ==> c'.ip != c.ip
    ensures var t := Ended(d, c.logId, success);
            LogsKnown(t) && forall time :: HasLog(d, time) ==> HasLog(t, time)
  {
    var t := Ended(d, c.logId, success);
    assert t.logs == d.logs[c.logId := LogRow(c.ip, c.kind, success, true, c.time)];
    forall time | HasLog(d, time)
      ensures HasLog(t, time)
    {
      var id :| id in d.logs && d.logs[id].time == time;
      assert id in t.logs && t.logs[id].time == time;
    }
    forall c' | c' in t.containers
      ensures ContainerKnown(t, c')
    {
      assert ContainerKnown(d, c');
    }
  }

  /** Completing an operation, as far as it gets, keeps the log side. */
  lemma {:induction false} CompleteKeepsLogs(d: Db, c: Container, success: bool, file: string, fault: Fault)
    requires LogsKnown(d) && OwnRow(d, c)
    requires forall c' :: c' in d.containers ==> c'.ip != c.ip
    ensures var t := Complete(d, c.logId, c.ip, c.kind, success, file, fault);
            LogsKnown(t) && t.containers == d.containers && Grown(d, t)
  {
    var t := Complete(d, c.logId, c.ip, c.kind, success, file, fault);
    var ended := Ended(d, c.logId, success);
    EndedKeeps(d, c, success);
    assert HasLog(d, c.time) by { assert d.logs[c.logId].time == c.time; }
    if Completes(d, c.logId, fault) {
      assert t.logs == ended.logs;
      assert forall time :: HasLog(ended, time) <==> HasLog(t, time);
      assert forall c' :: c' in t.containers ==> ContainerKnown(ended, c');
      CompletedStatus(d, c, success, file, fault);
    }
  }

  lemma {:induction false} CompletedStatus(d: Db, c: Container, success: bool, file: string, fault: Fault)
    requires OwnRow(d, c) && Completes(d, c.logId, fault)
    ensures var t := Complete(d, c.logId, c.ip, c.kind, success, file, fault);
            && (forall time :: time in d.details ==> time in t.details)
            && (forall r :: r in t.status ==> r in d.status || (r.time == c.time && r.time in t.details))
  {
    WithoutNodeRows(d.status, c.ip);
  }

  /** The state without the container that calls back. */
  function Gone(d: Db, c: Container): Db {
    d.(containers := d.containers - {c})
  }

  /** A callback completes its operation, or finds no log row and changes nothing but the containers. */
  lemma {:induction false} CallBackLogs(w: World, c: Container, success: bool, file: string, fault: Fault)
    requires Invariant(w) && c in w.db.containers
    ensures var t := CallBack(w.db, c, success, file, fault);
            LogsKnown(t) && Grown(w.db, t) && t.containers == Gone(w.db, c).containers
  {
    var gone := Gone(w.db, c);
    assert ContainerKnown(w.db, c);
    assert Running(w.db, c.ip);
    if c.logId in w.db.logs {
      assert forall c' :: c' in gone.containers ==> Running(gone, c'.ip);
      CompleteKeepsLogs(gone, c, success, file, fault);
    }
  }

  lemma {:induction false} CallBackLock(w: World, c: Container, success: bool, file: string, fault: Fault)
    requires Invariant(w) && c in w.db.containers
    requires CallBack(w.db, c, success, file, fault).containers == Gone(w.db, c).containers
    ensures LockMeansRunning(Next(w, DoCallBack(c, success, file, fault)))
  {
    var w' := Next(w, DoCallBack(c, success, file, fault));
    assert Running(w.db, c.ip) && ContainerKnown(w.db, c);
    assert forall ip :: Running(w'.db, ip) <==> Running(Gone(w.db, c), ip);
  }

  lemma {:induction false} CallBackKeeps(w: World, c: Container, success: bool, file: string, fault: Fault)
    requires Invariant(w) && c in w.db.containers
    ensures Invariant(Next(w, DoCallBack(c, success, file, fault)))
    ensures Grown(w.db, Next(w, DoCallBack(c, success, file, fault)).db)
  {
    assert ContainerKnown(w.db, c);
    CallBackLogs(w, c, success, file, fault);
    CallBackLock(w, c, success, file, fault);
    CallBackStatus(w, c, success, file, fault);
  }

  lemma {:induction false} CallBackStatus(w: World, c: Container, success: bool, file: string, fault: Fault)
    requires StatusIsLastAdd(w) && (c.logId in w.db.logs ==> w.db.logs[c.logId].time == c.time)
    ensures StatusIsLastAdd(Next(w, DoCallBack(c, success, file, fault)))
  {
    var w' := Next(w, DoCallBack(c, success, file, fault));
    if Completes(w.db, c.logId, fault) && success && fault != StatusNotWritten {
      StatusChange(w, c.ip, c.kind, c.time);
      var changed := WithStatus(w.db, c.ip, c.kind, c.time);
      assert w'.db.status == changed.status;
      assert forall ip :: InStatus(w'.db, ip) <==> InStatus(changed, ip);
    } else {
      assert w'.db.status == w.db.status;
      assert forall ip :: InStatus(w'.db, ip) <==> InStatus(w.db, ip);
    }
  }

  /** The state once a start request has opened its log. */
  function Begun(d: Db, ip: string, kind: Kind, time: int, outcome: Outcome): Db
    requires outcome.LaunchFails? || outcome.Launched?
  {
    Logged(Opened(d, ip, outcome.text + Heading(ip, kind) + outcome.output), ip, kind, time)
  }

  /** A start request that is not refused adds a log row that nothing else uses yet. */
  lemma {:induction false} BegunKeeps(d: Db, ip: string, kind: Kind, time: int, outcome: Outcome)
    requires LogsKnown(d) && (outcome.LaunchFails? || outcome.Launched?)
    ensures var t := Begun(d, ip, kind, time, outcome);
            && LogsKnown(t) && Grown(d, t) && t.status == d.status && t.details == d.details
            && t.containers == d.containers && OwnRow(t, Container(ip, d.nextId, kind, time))
  {
    var t := Begun(d, ip, kind, time, outcome);
    assert forall id :: id in d.logs ==> id in t.logs && t.logs[id] == d.logs[id];
    assert forall c :: c in d.containers ==> ContainerKnown(d, c);
    forall at | HasLog(d, at)
      ensures HasLog(t, at)
    {
      var id :| id in d.logs && d.logs[id].time == at;
      assert id in t.logs;
    }
  }

  lemma {:induction false} FailedLaunch(d: Db, ip: string, kind: Kind, time: int, outcome: Outcome)
    requires ip !in d.cache && outcome.LaunchFails?
    ensures var t := Start(d, ip, kind, time, outcome).0;
            t.cache == d.cache && t.containers == d.containers && t.status == d.status
  {
    var begun := Begun(d, ip, kind, time, outcome);
    UnlockOpened(d, ip, outcome.text + Heading(ip, kind) + outcome.output);
    assert Unlock(begun, ip).cache == d.cache;
  }

  /** A start request that fails at its launch leaves one more log row, and a transcript if that could be stored. */
  lemma {:induction false} LaunchFailureLogs(w: World, ip: string, kind: Kind, time: int, outcome: Outcome)
    requires Invariant(w) && ip !in w.db.cache && outcome.LaunchFails?
    ensures var t := Start(w.db, ip, kind, time, outcome).0; LogsKnown(t) && Grown(w.db, t)
  {
    var d := w.db;
    var begun := Begun(d, ip, kind, time, outcome);
    var completed := Complete(begun, d.nextId, ip, kind, false, outcome.file, outcome.fault);
    assert !Running(d, ip);
    BegunKeeps(d, ip, kind, time, outcome);
    assert begun.containers == d.containers;
    CompleteKeepsLogs(begun, Container(ip, d.nextId, kind, time), false, outcome.file, outcome.fault);
  }

  lemma {:induction false} LaunchFailureKeeps(w: World, ip: string, kind: Kind, time: int, outcome: Outcome)
    requires Invariant(w) && ip !in w.db.cache && outcome.LaunchFails?
    ensures Invariant(Next(w, DoStart(ip, kind, time, outcome)))
    ensures Grown(w.db, Next(w, DoStart(ip, kind, time, outcome)).db)
  {
    var t := Next(w, DoStart(ip, kind, time, outcome)).db;
    LaunchFailureLogs(w, ip, kind, time, outcome);
    FailedLaunch(w.db, ip, kind, time, outcome);
    assert forall other :: InStatus(t, other) <==> InStatus(w.db, other);
    assert forall other :: Running(t, other) <==> Running(w.db, other);
  }

  lemma {:induction false} LaunchKeeps(w: World, ip: string, kind: Kind, time: int, outcome: Outcome)
    requires Invariant(w) && ip !in w.db.cache && outcome.Launched?
    ensures Invariant(Next(w, DoStart(ip, kind, time, outcome)))
    ensures Grown(w.db, Next(w, DoStart(ip, kind, time, outcome)).db)
  {
    var d, t := w.db, Next(w, DoStart(ip, kind, time, outcome)).db;
    var begun := Begun(d, ip, kind, time, outcome);
    assert !Running(d, ip) && ip !in w.stuck;
    BegunKeeps(d, ip, kind, time, outcome);
    assert forall c' :: c' in d.containers ==> c'.ip != ip;
    assert forall other :: InStatus(t, other) <==> InStatus(d, other);
  }

  lemma {:induction false} StartKeeps(w: World, ip: string, kind: Kind, time: int, outcome: Outcome)
    requires Invariant(w)
    ensures Invariant(Next(w, DoStart(ip, kind, time, outcome)))
    ensures Grown(w.db, Next(w, DoStart(ip, kind, time, outcome)).db)
  {
    if ip !in w.db.cache {
      if outcome.LaunchFails? {
        LaunchFailureKeeps(w, ip, kind, time, outcome);
      } else if outcome.Launched? {
        LaunchKeeps(w, ip, kind, time, outcome);
      }
    }
  }

  lemma {:induction false} DeleteKeeps(w: World, time: int, fault: DeleteFault)
    requires Invariant(w)
    ensures Invariant(Next(w, DoDelete(time, fault)))
  {
    var d, t := w.db, Next(w, DoDelete(time, fault)).db;
    assert t.status == d.status && t.containers == d.containers && t.cache == d.cache;
    assert forall ip :: InStatus(t, ip) <==> InStatus(d, ip);
    assert forall ip :: Running(t, ip) <==> Running(d, ip);
    assert forall c :: c in t.containers ==> ContainerKnown(d, c);
  }

  /** A log that the status table uses is deleted because the guard could not read that table. */
  ghost predicate DropsUsedLog(w: World, step: Step) {
    step.DoDelete? && LogInUse(w.db, step.time) && DeletesRows(w.db, step.time, step.failing)
  }

  lemma {:induction false} DeleteKeepsLogged(w: World, time: int, fault: DeleteFault)
    requires StatusIsLogged(w.db)
    ensures StatusIsLogged(DeleteLog(w.db, time, fault)) <==> !DropsUsedLog(w, DoDelete(time, fault))
  {
    var d, t := w.db, DeleteLog(w.db, time, fault);
    if DropsUsedLog(w, DoDelete(time, fault)) {
      var r :| r in d.status && r.time == time;
      var i :| 0 <= i < |d.status| && d.status[i] == r;
      assert t.status[i].time == time && !HasLog(t, time);
    } else if DeletesRows(d, time, fault) {
      forall i | 0 <= i < |t.status|
        ensures HasLog(t, t.status[i].time) && t.status[i].time in t.details
      {
        assert d.status[i] in d.status && d.status[i].time != time;
        var id :| id in d.logs && d.logs[id].time == d.status[i].time;
        assert id in t.logs;
      }
    }
  }

  // ---------- Whole runs ----------

  ghost function WorldAt(run: seq<Step>, k: nat): World
    requires k <= |run|
  {
    if k == 0 then START else Next(WorldAt(run, k - 1), run[k - 1])
  }

  ghost predicate PossibleAt(run: seq<Step>, k: nat)
    requires k < |run|
  {
    Possible(WorldAt(run, k), run[k])
  }

  ghost predicate PossibleRun(run: seq<Step>) {
    forall k :: 0 <= k < |run| ==> PossibleAt(run, k)
  }

  /** Every status row keeps its log row and its transcript unless the step deletes a log in use. */
  lemma {:induction false} StatusLoggedKept(w: World, step: Step)
    requires Invariant(w) && Possible(w, step) && StatusIsLogged(w.db)
    ensures StatusIsLogged(Next(w, step).db) <==> !DropsUsedLog(w, step)
  {
    match step
    case DoStart(ip, kind, time, outcome) =>
      StartKeeps(w, ip, kind, time, outcome);
    case DoCallBack(c, success, file, fault) =>
      CallBackKeeps(w, c, success, file, fault);
    case DoDelete(time, fault) =>
      DeleteKeepsLogged(w, time, fault);
  }

  lemma {:induction false} StepKeeps(w: World, step: Step)
    requires Invariant(w) && Possible(w, step)
    ensures Invariant(Next(w, step))
  {
    match step
    case DoStart(ip, kind, time, outcome) => StartKeeps(w, ip, kind, time, outcome);
    case DoCallBack(c, success, file, fault) => CallBackKeeps(w, c, success, file, fault);
    case DoDelete(time, fault) => DeleteKeeps(w, time, fault);
  }

  /** In every reachable state: one container per node, locked exactly while it runs (or for good after an
      operation that could not be completed), and the status table lists the last recorded adds. */
  lemma {:induction false} InvariantAlways(run: seq<Step>, k: nat)
    requires PossibleRun(run) && k <= |run|
    ensures Invariant(WorldAt(run, k))
  {
    if k > 0 {
      InvariantAlways(run, k - 1);
      assert PossibleAt(run, k - 1);
      StepKeeps(WorldAt(run, k - 1), run[k - 1]);
    }
  }

  ghost predicate UsedLogStays(run: seq<Step>, i: nat)
    requires i < |run|
  {
    !DropsUsedLog(WorldAt(run, i), run[i])
  }

  /** As long as no log in use is deleted every status row has its log row and its transcript. */
  lemma {:induction false} LoggedWhileUsedLogsStay(run: seq<Step>, k: nat)
    requires PossibleRun(run) && k <= |run| && forall i :: 0 <= i < k ==> UsedLogStays(run, i)
    ensures StatusIsLogged(WorldAt(run, k).db)
  {
    if k > 0 {
      LoggedWhileUsedLogsStay(run, k - 1);
      InvariantAlways(run, k - 1);
      assert PossibleAt(run, k - 1) && UsedLogStays(run, k - 1);
      StatusLoggedKept(WorldAt(run, k - 1), run[k - 1]);
    }
  }

  /** A start request that fails ends with its lock released and every other lock, the containers
      and the status table as they were; one that is refused changes nothing at all. */
  lemma {:induction false} FailedStartReleases(d: Db, ip: string, kind: Kind, time: int, outcome: Outcome)
    ensures var (t, answer) := Start(d, ip, kind, time, outcome);
            && (answer == Failed ==>
                ip !in d.cache && t.cache == d.cache && t.containers == d.containers && t.status == d.status)
            && (answer == Locked <==> ip in d.cache)
            && (answer == Locked ==> t == d)
  {
    if ip !in d.cache && outcome.LaunchFails? {
      FailedLaunch(d, ip, kind, time, outcome);
    }
  }

  // ---------- When a lock outlives its container ----------

  ghost predicate RowsPresent(d: Db) {
    forall c :: c in d.containers ==> c.logId in d.logs
  }

  /** Deleting the log of an operation that is still running. */
  ghost predicate DropsRunningLog(w: World, step: Step) {
    step.DoDelete? && DeletesRows(w.db, step.time, step.failing) &&
    exists c :: c in w.db.containers && c.time == step.time
  }

  lemma {:induction false} StartKeepsRows(d: Db, ip: string, kind: Kind, time: int, outcome: Outcome)
    requires RowsPresent(d)
    ensures RowsPresent(Start(d, ip, kind, time, outcome).0)
  {
  }

  lemma {:induction false} CallBackKeepsRows(d: Db, c: Container, success: bool, file: string, fault: Fault)
    requires RowsPresent(d)
    ensures RowsPresent(CallBack(d, c, success, file, fault))
  {
  }

  lemma {:induction false} DeleteDropsRows(w: World, time: int, fault: DeleteFault)
    requires Invariant(w) && RowsPresent(w.db)
    ensures RowsPresent(DeleteLog(w.db, time, fault)) <==> !DropsRunningLog(w, DoDelete(time, fault))
  {
    forall c | c in w.db.containers
      ensures ContainerKnown(w.db, c) && w.db.logs[c.logId].time == c.time
    {
    }
  }

  /** The log rows of running containers stay exactly as long as nobody deletes the log of a running operation. */
  lemma {:induction false} RowsPresentKept(w: World, step: Step)
    requires Invariant(w) && RowsPresent(w.db) && Possible(w, step)
    ensures RowsPresent(Next(w, step).db) <==> !DropsRunningLog(w, step)
    ensures !(step.DoCallBack? && step.fault in {RowNotWritten, TranscriptFails}) ==> Next(w, step).stuck == w.stuck
  {
    match step
    case DoStart(ip, kind, time, outcome) => StartKeepsRows(w.db, ip, kind, time, outcome);
    case DoCallBack(c, success, file, fault) => CallBackKeepsRows(w.db, c, success, file, fault);
    case DoDelete(time, fault) => DeleteDropsRows(w, time, fault);
  }

  ghost predicate LocksExact(d: Db) {
    forall ip :: ip in d.cache <==> Running(d, ip)
  }

  /** Step i is a callback, if it is one, whose operation is completed. */
  ghost predicate CompletedAt(run: seq<Step>, i: nat)
    requires i < |run|
  {
    run[i].DoCallBack? ==> Completes(WorldAt(run, i).db, run[i].c.logId, run[i].fault)
  }

  /** Step i is a callback from the address whose operation is not completed. */
  ghost predicate FailsAt(run: seq<Step>, i: nat, ip: string)
    requires i < |run|
  {
    run[i].DoCallBack? && run[i].c.ip == ip && !CompletedAt(run, i)
  }

  /** One of the first k steps is such a callback. */
  ghost predicate HasFailed(run: seq<Step>, k: nat, ip: string)
    requires k <= |run|
  {
    exists i :: 0 <= i < k && FailsAt(run, i, ip)
  }

  lemma {:induction false} FailedStep(run: seq<Step>, k: nat, ip: string)
    requires k < |run|
    ensures HasFailed(run, k + 1, ip) <==> HasFailed(run, k, ip) || FailsAt(run, k, ip)
  {
  }

  lemma {:induction false} StuckIff(run: seq<Step>, k: nat, ip: string)
    requires k <= |run|
    ensures ip in WorldAt(run, k).stuck <==> HasFailed(run, k, ip)
  {
    if k > 0 {
      StuckIff(run, k - 1, ip);
      FailedStep(run, k - 1, ip);
    }
  }

  /** In every run an address is locked with nothing running exactly if a callback from it could not complete. */
  lemma {:induction false} LockedForGoodIff(run: seq<Step>, k: nat, ip: string)
    requires PossibleRun(run) && k <= |run|
    ensures ip in WorldAt(run, k).db.cache && !Running(WorldAt(run, k).db, ip) <==> HasFailed(run, k, ip)
  {
    InvariantAlways(run, k);
    StuckIff(run, k, ip);
  }

  /**
   In every run, every address is locked exactly while its container runs if and only if every callback so far
   could complete its operation.
   */
  lemma {:induction false} LockedExactlyIff(run: seq<Step>, k: nat)
    requires PossibleRun(run) && k <= |run|
    ensures LocksExact(WorldAt(run, k).db) <==> forall i :: 0 <= i < k ==> CompletedAt(run, i)
  {
    var d := WorldAt(run, k).db;
    InvariantAlways(run, k);
    forall ip
      ensures ip in d.cache && !Running(d, ip) <==> HasFailed(run, k, ip)
    {
      LockedForGoodIff(run, k, ip);
    }
    if i :| 0 <= i < k && !CompletedAt(run, i) {
      assert FailsAt(run, i, run[i].c.ip);
      assert HasFailed(run, k, run[i].c.ip);
    }
  }

  ghost predicate Careful(w: World, step: Step) {
    && Possible(w, step) && !DropsRunningLog(w, step)
    && (step.DoCallBack? ==> step.fault != RowNotWritten && step.fault != TranscriptFails)
  }

  ghost predicate CarefulAt(run: seq<Step>, k: nat)
    requires k < |run|
  {
    Careful(WorldAt(run, k), run[k])
  }

  lemma {:induction false} RowsAlwaysPresent(run: seq<Step>, k: nat)
    requires k <= |run| && PossibleRun(run) && forall i :: 0 <= i < k ==> CarefulAt(run, i)
    ensures RowsPresent(WorldAt(run, k).db)
  {
    if k > 0 {
      RowsAlwaysPresent(run, k - 1);
      InvariantAlways(run, k - 1);
      assert CarefulAt(run, k - 1);
      RowsPresentKept(WorldAt(run, k - 1), run[k - 1]);
    }
  }

  /** It is enough that no log of a running operation is deleted and that rows and transcripts can be written. */
  lemma {:induction false} LockedExactlyWhileRunning(run: seq<Step>, k: nat)
    requires k <= |run| && forall i :: 0 <= i < |run| ==> CarefulAt(run, i)
    ensures LocksExact(WorldAt(run, k).db)
  {
    assert forall i :: 0 <= i < |run| ==> CarefulAt(run, i) ==> PossibleAt(run, i);
    forall i | 0 <= i < k
      ensures CompletedAt(run, i)
    {
      assert CarefulAt(run, i);
      RowsAlwaysPresent(run, i);
    }
    LockedExactlyIff(run, k);
  }

  /** A log deleted while its operation runs: the callback then fails and the node stays locked with nothing running. */
  lemma {:induction false} DeletedLogLeavesLock()
    ensures var c := Container("10.0.0.1", 0, AddNode, 7);
            var run := [DoStart("10.0.0.1", AddNode, 7, Launched("", "")), DoDelete(7, NO_DELETE_FAULT),
                        DoCallBack(c, true, "", NoFault)];
            && PossibleRun(run)
            && "10.0.0.1" in WorldAt(run, 3).db.cache && WorldAt(run, 3).db.containers == {}
  {
    var c := Container("10.0.0.1", 0, AddNode, 7);
    var run := [DoStart("10.0.0.1", AddNode, 7, Launched("", "")), DoDelete(7, NO_DELETE_FAULT),
                DoCallBack(c, true, "", NoFault)];
    assert WorldAt(run, 1).db.containers == {c};
    assert WorldAt(run, 2) == Next(WorldAt(run, 1), run[1]);
    assert !LogInUse(WorldAt(run, 1).db, 7);
    assert WorldAt(run, 2).db.containers == {c} && WorldAt(run, 2).db.logs == map[];
    assert PossibleAt(run, 0) && PossibleAt(run, 1) && PossibleAt(run, 2);
    assert WorldAt(run, 3) == Next(WorldAt(run, 2), run[2]);
  }

  /** A node added, and its log then deleted under a guard that could not read the status table. */
  lemma {:induction false} BlindGuardDropsLog()
    ensures var c := Container("10.0.0.1", 0, AddNode, 7);
            var run := [DoStart("10.0.0.1", AddNode, 7, Launched("", "")), DoCallBack(c, true, "", NoFault),
                        DoDelete(7, DeleteFault(true, false, false))];
            && PossibleRun(run)
            && WorldAt(run, 3).db.status == [StatusRow("10.0.0.1", 7)] && !HasLog(WorldAt(run, 3).db, 7)
  {
    var c := Container("10.0.0.1", 0, AddNode, 7);
    var run := [DoStart("10.0.0.1", AddNode, 7, Launched("", "")), DoCallBack(c, true, "", NoFault),
                DoDelete(7, DeleteFault(true, false, false))];
    var w1, w2 := WorldAt(run, 1), WorldAt(run, 2);
    assert WorldAt(run, 0) == START && run[0] == DoStart("10.0.0.1", AddNode, 7, Launched("", ""));
    assert w1 == Next(START, run[0]) && w1.db.containers == {c} && 0 in w1.db.logs;
    assert w2 == Next(w1, run[1]) && w2.db.status == [StatusRow("10.0.0.1", 7)];
    assert PossibleAt(run, 0) && PossibleAt(run, 1) && PossibleAt(run, 2);
    assert WorldAt(run, 3) == Next(w2, run[2]);
  }

  /** A callback whose log row or transcript cannot be written leaves the node locked with nothing running. */
  lemma {:induction false} UnwrittenLeavesLock(fault: Fault)
    requires fault == RowNotWritten || fault == TranscriptFails
    ensures var c := Container("10.0.0.1", 0, AddNode, 7);
            var run := [DoStart("10.0.0.1", AddNode, 7, Launched("", "")), DoCallBack(c, true, "", fault)];
            && PossibleRun(run)
            && "10.0.0.1" in WorldAt(run, 2).db.cache && WorldAt(run, 2).db.containers == {}
  {
    var c := Container("10.0.0.1", 0, AddNode, 7);
    var run := [DoStart("10.0.0.1", AddNode, 7, Launched("", "")), DoCallBack(c, true, "", fault)];
    var w := WorldAt(run, 1);
    assert WorldAt(run, 0) == START && run[0] == DoStart("10.0.0.1", AddNode, 7, Launched("", ""));
    assert w == Next(START, run[0]) && w.db.containers == {c};
    assert WorldAt(run, 2) == Next(w, run[1]);
    assert PossibleAt(run, 0) && PossibleAt(run, 1);
  }
}
