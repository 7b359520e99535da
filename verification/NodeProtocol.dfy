/**
 The add/remove-node protocol of the admin server: a lock per node address kept in a
 cache together with the transcript so far, a row per operation, a table of nodes
 added through Board, and a transcript row per operation.

 An ansible container does the work and calls back once.  Requests are atomic, outcomes and
 faults say which writes fail, and cache entries do not expire.
 */
module NodeProtocol {

  datatype Kind = AddNode | RemoveNode

  datatype LogRow = LogRow(ip: string, kind: Kind, success: bool, completed: bool, time: int)

  datatype StatusRow = StatusRow(ip: string, time: int)

  datatype Container = Container(ip: string, logId: nat, kind: Kind, time: int)

  /** Creation times are in seconds and are the key of the transcripts. */
  datatype Db = Db(
    cache: map<string, string>,
    logs: map<nat, LogRow>,
    nextId: nat,
    status: seq<StatusRow>,
    details: map<int, string>,
    containers: set<Container>)

  /** Where a start request stops.  The texts are what the secure shell writes to
      the transcript before and after its heading, and what the log file on disk contains. */
  datatype Outcome =
    | NoConfiguration
    | ShellFails(text: string)
    | InsertFails(text: string)
    | LaunchFails(text: string, output: string, file: string, fault: Fault)
    | Launched(text: string, output: string)

  datatype Answer = Locked | Failed | Started

  /** Where the completion of an operation fails: the log row cannot be updated, its transcript cannot
      be read or stored, or the status table cannot be changed, which is only logged. */
  datatype Fault = NoFault | RowNotWritten | TranscriptFails | StatusNotWritten

  /** What the API server says to the deletion of a removed node, and what the container is told. */
  datatype Deletion = Deleted | TokenExpired | DeletionFails

  datatype CallBackAnswer = Acknowledged | BadRequest | Unauthorized

  /** What fails while a log is deleted: a guard that cannot read the status table takes the log for unused. */
  datatype DeleteFault = DeleteFault(guardBlind: bool, rowStays: bool, transcriptStays: bool)

  const NO_DELETE_FAULT := DeleteFault(false, false, false)

  datatype DeleteAnswer = LogDeleted | InUse | NotDeleted

  // ---------- Row-level operations ----------

  function Heading(ip: string, kind: Kind): string {
    match kind
    case AddNode => "---Begin add node:" + ip + "----\n"
    case RemoveNode => "---Begin remove node:" + ip + "----\n"
  }

  function Transcript(d: Db, ip: string, file: string): string {
    (if ip in d.cache then d.cache[ip] else "No cache data for node:" + ip + " \n") + file + "---End log---\n"
  }

  /** An existing transcript is updated through a record without a primary key, which changes no row. */
  function WithDetail(d: Db, ip: string, file: string, time: int): Db {
    if time in d.details then d else d.(details := d.details[time := Transcript(d, ip, file)])
  }

  function Unlock(d: Db, ip: string): Db {
    d.(cache := d.cache - {ip})
  }

  function WithoutNode(rows: seq<StatusRow>, ip: string): seq<StatusRow> {
    if rows == [] then []
    else if rows[0].ip == ip then WithoutNode(rows[1..], ip)
    else [rows[0]] + WithoutNode(rows[1..], ip)
  }

  function WithStatus(d: Db, ip: string, kind: Kind, time: int): Db {
    match kind
    case AddNode => d.(status := d.status + [StatusRow(ip, time)])
    case RemoveNode => d.(status := WithoutNode(d.status, ip))
  }

  /** The completion gets as far as releasing the lock. */
  predicate Completes(d: Db, id: nat, fault: Fault) {
    id in d.logs && fault != RowNotWritten && fault != TranscriptFails
  }

  /** The log row of an operation that has ended. */
  function Ended(d: Db, id: nat, success: bool): Db
    requires id in d.logs
  {
    d.(logs := d.logs[id := d.logs[id].(success := success, completed := true)])
  }

  /** Completes an operation. If its log row is gone or cannot be written nothing changes; if its transcript
      fails the row alone is written, and the lock stays. */
  function Complete(d: Db, id: nat, ip: string, kind: Kind, success: bool, file: string, fault: Fault): Db {
    if id !in d.logs || fault == RowNotWritten then d
    else if fault == TranscriptFails then Ended(d, id, success)
    else
      var row := d.logs[id];
      var d2 := WithDetail(Ended(d, id, success), row.ip, file, row.time);
      var d3 := if success && fault != StatusNotWritten then WithStatus(d2, ip, kind, row.time) else d2;
      Unlock(d3, ip)
  }

  predicate LogInUse(d: Db, time: int) {
    exists r :: r in d.status && r.time == time
  }

  function WithoutLogs(d: Db, time: int): Db {
    d.(logs := map id | id in d.logs && d.logs[id].time != time :: d.logs[id])
  }

  /** The deletion gets past its guard and deletes the log rows of that second. */
  predicate DeletesRows(d: Db, time: int, fault: DeleteFault) {
    (fault.guardBlind || !LogInUse(d, time)) && !fault.rowStays
  }

  // ---------- Requests ----------

  /** The address locked, with the transcript so far. */
  function Opened(d: Db, ip: string, transcript: string): Db {
    d.(cache := d.cache[ip := transcript])
  }

  lemma {:induction false} UnlockOpened(d: Db, ip: string, transcript: string)
    requires ip !in d.cache
    ensures Unlock(Opened(d, ip, transcript), ip) == d == Unlock(d, ip)
  {
    assert d.cache[ip := transcript] - {ip} == d.cache == d.cache - {ip};
  }

  lemma {:induction false} OpenedTwice(d: Db, ip: string, first: string, second: string)
    ensures Opened(Opened(d, ip, first), ip, second) == Opened(d, ip, second)
  {
    assert d.cache[ip := first][ip := second] == d.cache[ip := second];
  }

  function Logged(d: Db, ip: string, kind: Kind, time: int): Db {
    d.(logs := d.logs[d.nextId := LogRow(ip, kind, false, false, time)], nextId := d.nextId + 1)
  }

  function Start(d: Db, ip: string, kind: Kind, time: int, outcome: Outcome): (Db, Answer) {
    if ip in d.cache then (d, Locked)
    else
      match outcome
      case NoConfiguration => (d, Failed)
      case ShellFails(_) => (d, Failed)
      case InsertFails(_) => (d, Failed)
      case LaunchFails(text, output, file, fault) =>
        var logged := Logged(Opened(d, ip, text + Heading(ip, kind) + output), ip, kind, time);
        (Unlock(Complete(logged, d.nextId, ip, kind, false, file, fault), ip), Failed)
      case Launched(text, output) =>
        var logged := Logged(Opened(d, ip, text + Heading(ip, kind) + output), ip, kind, time);
        (logged.(containers := d.containers + {Container(ip, d.nextId, kind, time)}), Started)
  }

  function CallBack(d: Db, c: Container, success: bool, file: string, fault: Fault): Db {
    Complete(d.(containers := d.containers - {c}), c.logId, c.ip, c.kind, success, file, fault)
  }

  function DeleteLog(d: Db, time: int, fault: DeleteFault): Db {
    if !DeletesRows(d, time, fault) then d
    else
      var rest := WithoutLogs(d, time);
      if fault.transcriptStays then rest else rest.(details := d.details - {time})
  }

  lemma {:induction false} OutputAppended(d: Db, ip: string, kind: Kind, time: int, transcript: string, output: string)
    ensures var logged := Logged(Opened(d, ip, transcript), ip, kind, time);
            logged.(cache := logged.cache[ip := transcript + output]) ==
            Logged(Opened(d, ip, transcript + output), ip, kind, time)
  {
  }

  class NodeServer {
    var cache: map<string, string>
    var logs: map<nat, LogRow>
    var nextId: nat
    var status: seq<StatusRow>
    var details: map<int, string>
    var containers: set<Container>

    ghost function Current(): Db
      reads this
    {
      Db(cache, logs, nextId, status, details, containers)
    }

    constructor ()
      ensures Current() == Db(map[], map[], 0, [], map[], {})
    {
      cache, logs, nextId, status, details, containers := map[], map[], 0, [], map[], {};
    }

    method RemoveCacheData(ip: string)
      modifies this`cache
      ensures Current() == Unlock(old(Current()), ip)
    {
      if ip in cache {
        cache := cache - {ip};
      }
      assert ip !in old(cache) ==> old(cache) - {ip} == old(cache);
    }

    method InsertLog(ip: string, kind: Kind, time: int, accepted: bool) returns (id: nat)
      requires ip in cache
      modifies this`cache, this`logs, this`nextId
      ensures id == old(nextId)
      ensures var headed := Opened(old(Current()), ip, old(cache)[ip] + Heading(ip, kind));
              Current() == if accepted then Logged(headed, ip, kind, time) else headed
    {
      id := nextId;
      cache := cache[ip := cache[ip] + Heading(ip, kind)];
      if accepted {
        logs := logs[id := LogRow(ip, kind, false, false, time)];
        nextId := nextId + 1;
      }
    }

    method InsertLogDetail(ip: string, file: string, time: int, fails: bool) returns (ok: bool)
      modifies this`details
      ensures ok == !fails
      ensures Current() == if ok then WithDetail(old(Current()), ip, file, time) else old(Current())
    {
      if fails {
        return false;
      }
      var buffer := if ip in cache then cache[ip] else "No cache data for node:" + ip + " \n";
      buffer := buffer + file;
      buffer := buffer + "---End log---\n";
      if time !in details {
        details := details[time := buffer];
      }
      ok := true;
    }

    method DeleteNodeStatus(ip: string)
      modifies this`status
      ensures status == WithoutNode(old(status), ip)
    {
      var kept := [];
      for i := 0 to |status|
        invariant kept + WithoutNode(status[i..], ip) == WithoutNode(status, ip)
      {
        if status[i].ip != ip {
          kept := kept + [status[i]];
        }
        assert status[i..][1..] == status[i + 1..];
      }
      status := kept;
    }

    method UpdateLog(id: nat, ip: string, kind: Kind, success: bool, file: string, fault: Fault) returns (ok: bool)
      modifies this`cache, this`logs, this`status, this`details
      ensures ok == Completes(old(Current()), id, fault)
      ensures Current() == Complete(old(Current()), id, ip, kind, success, file, fault)
    {
      if id !in logs || fault == RowNotWritten {
        return false;
      }
      var row := logs[id];
      logs := logs[id := row.(success := success, completed := true)];
      ok := InsertLogDetail(row.ip, file, row.time, fault == TranscriptFails);
      if !ok {
        return false;
      }
      if success && fault != StatusNotWritten {
        match kind {
          case AddNode => status := status + [StatusRow(ip, row.time)];
          case RemoveNode => DeleteNodeStatus(ip);
        }
      }
      RemoveCacheData(ip);
      ok := true;
    }

    /** The controller's guard, the service call, and the release of the lock on every error. */
    method AddRemoveNode(ip: string, kind: Kind, time: int, outcome: Outcome) returns (answer: Answer)
      modifies this
      ensures (Current(), answer) == Start(old(Current()), ip, kind, time, outcome)
    {
      if ip in cache {
        return Locked;
      }
      answer := AddRemoveNodeByContainer(ip, kind, time, outcome);
      if answer == Failed {
        RemoveCacheData(ip);
      }
    }

    /** Locks the address and inserts the log row; on failure at most the lock is left behind. */
    method OpenLog(ip: string, kind: Kind, time: int, outcome: Outcome) returns (id: nat, ok: bool)
      requires ip !in cache && !outcome.NoConfiguration?
      modifies this`cache, this`logs, this`nextId
      ensures ok == (outcome.LaunchFails? || outcome.Launched?) && id == old(nextId)
      ensures !ok ==> Unlock(Current(), ip) == old(Current())
      ensures ok ==> Current() == Logged(Opened(old(Current()), ip, outcome.text + Heading(ip, kind)), ip, kind, time)
    {
      ghost var d := Current();
      cache := cache[ip := ""];
      assert cache[ip] + outcome.text == outcome.text;
      cache := cache[ip := cache[ip] + outcome.text];
      assert Current() == Opened(d, ip, outcome.text);
      UnlockOpened(d, ip, outcome.text);
      if outcome.ShellFails? {
        RemoveCacheData(ip);
        return nextId, false;
      }
      ok := !outcome.InsertFails?;
      id := InsertLog(ip, kind, time, ok);
      OpenedTwice(d, ip, outcome.text, outcome.text + Heading(ip, kind));
      UnlockOpened(d, ip, outcome.text + Heading(ip, kind));
    }

    /** On failure at most the lock is left behind, for the caller to release. */
    method AddRemoveNodeByContainer(ip: string, kind: Kind, time: int, outcome: Outcome) returns (answer: Answer)
      requires ip !in cache
      modifies this
      ensures answer == Start(old(Current()), ip, kind, time, outcome).1
      ensures (if answer == Failed then Unlock(Current(), ip) else Current()) ==
              Start(old(Current()), ip, kind, time, outcome).0
    {
      ghost var d := Current();
      if outcome.NoConfiguration? {
        assert Unlock(d, ip) == d;
        return Failed;
      }
      var id, ok := OpenLog(ip, kind, time, outcome);
      if !ok {
        return Failed;
      }
      OutputAppended(d, ip, kind, time, outcome.text + Heading(ip, kind), outcome.output);
      answer := LaunchAnsibleContainer(id, ip, kind, time, outcome);
      assert Unlock(Unlock(Current(), ip), ip) == Unlock(Current(), ip);
    }

    method LaunchAnsibleContainer(id: nat, ip: string, kind: Kind, time: int, outcome: Outcome) returns (answer: Answer)
      requires ip in cache && (outcome.LaunchFails? || outcome.Launched?)
      modifies this
      ensures var written := old(Current()).(cache := old(cache)[ip := old(cache)[ip] + outcome.output]);
              if outcome.LaunchFails?
              then answer == Failed && Current() == Complete(written, id, ip, kind, false, outcome.file, outcome.fault)
              else
                var c := Container(ip, id, kind, time);
                answer == Started && Current() == written.(containers := written.containers + {c})
    {
      cache := cache[ip := cache[ip] + outcome.output];
      if outcome.LaunchFails? {
        var ok := UpdateLog(id, ip, kind, false, outcome.file, outcome.fault);
        return Failed;
      }
      containers := containers + {Container(ip, id, kind, time)};
      answer := Started;
    }

    /** The one call of a container, which is over with it. A removed node is then deleted from the cluster. */
    method CallBackAction(c: Container, success: bool, file: string, fault: Fault, deletion: Deletion)
      returns (answer: CallBackAnswer)
      modifies this
      ensures Current() == CallBack(old(Current()), c, success, file, fault)
      ensures answer == Unauthorized <==>
              Completes(old(Current()), c.logId, fault) && success && c.kind == RemoveNode && deletion == TokenExpired
      ensures answer == BadRequest <==>
              Completes(old(Current()), c.logId, fault) ==> success && c.kind == RemoveNode && deletion == DeletionFails
    {
      containers := containers - {c};
      var ok := UpdateLog(c.logId, c.ip, c.kind, success, file, fault);
      if !ok {
        return BadRequest;
      }
      if success && c.kind == RemoveNode {
        if deletion == TokenExpired {
          return Unauthorized;
        }
        if deletion == DeletionFails {
          return BadRequest;
        }
      }
      answer := Acknowledged;
    }

    /** The guard's search of the status table, which finds nothing when the table cannot be read. */
    method CheckNodeLogInUse(time: int, blind: bool) returns (inUse: bool)
      ensures inUse == (!blind && LogInUse(Current(), time))
    {
      inUse := false;
      if blind {
        return;
      }
      for i := 0 to |status|
        invariant inUse <==> exists k :: 0 <= k < i && status[k].time == time
      {
        if status[i].time == time {
          inUse := true;
        }
      }
      assert inUse <==> LogInUse(Current(), time);
    }

    /** The log row goes before its transcript; what has gone stays gone when the transcript cannot be deleted. */
    method DeleteNodeLog(time: int, fault: DeleteFault) returns (answer: DeleteAnswer)
      modifies this`logs, this`details
      ensures Current() == DeleteLog(old(Current()), time, fault)
      ensures answer == InUse <==> LogInUse(old(Current()), time) && !fault.guardBlind
      ensures answer == LogDeleted <==> DeletesRows(old(Current()), time, fault) && !fault.transcriptStays
    {
      var inUse := CheckNodeLogInUse(time, fault.guardBlind);
      if inUse {
        return InUse;
      }
      if fault.rowStays {
        return NotDeleted;
      }
      logs := map id | id in logs && logs[id].time != time :: logs[id];
      if fault.transcriptStays {
        return NotDeleted;
      }
      details := details - {time};
      answer := LogDeleted;
    }
  }
}
