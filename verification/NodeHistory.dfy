/** What the log table, the transcripts and the status table record of a run of node operations. */
module NodeHistory {
  import opened Wrappers
  import opened NodeProtocol
  import opened NodeRuns

  // ---------- What a step does to the log table ----------

  /** The step starts an operation that gets its log row, the one with the next number. */
  ghost predicate OpensRow(d: Db, step: Step) {
    step.DoStart? && step.ip !in d.cache && (step.outcome.LaunchFails? || step.outcome.Launched?)
  }

  /** The step is a callback or a failed launch that gets as far as writing the row of the operation. */
  ghost predicate WritesRow(d: Db, step: Step, id: nat) {
    || (step.DoCallBack? && step.c.logId == id && id in d.logs && step.fault != RowNotWritten)
    || (OpensRow(d, step) && d.nextId == id && step.outcome.LaunchFails? && step.outcome.fault != RowNotWritten)
  }

  /** What the container says of its operation; a failed launch has no container and counts as a failure. */
  ghost predicate Reported(step: Step) {
    step.DoCallBack? && step.success
  }

  /** The step deletes the log rows of the second. */
  ghost predicate DeletesSecond(d: Db, step: Step, time: int) {
    && step.DoDelete? && step.time == time && !step.failing.rowStays
    && (step.failing.guardBlind || forall r :: r in d.status ==> r.time != time)
  }

  function Written(row: LogRow, report: Option<bool>): LogRow {
    if report.Some? then row.(success := report.value, completed := true) else row
  }

  ghost function Report(d: Db, step: Step, id: nat): Option<bool> {
    if WritesRow(d, step, id) then Some(Reported(step)) else None
  }

  /** What a step makes of one row: it is opened, deleted, written or left as it was, and written only while open. */
  ghost predicate RowStep(d: Db, step: Step, t: Db, id: nat) {
    && t.nextId == d.nextId + (if OpensRow(d, step) then 1 else 0) && (id in d.logs ==> id < d.nextId)
    && (if OpensRow(d, step) && id == d.nextId then
          var row := LogRow(step.ip, step.kind, false, false, step.time);
          id in t.logs && t.logs[id] == Written(row, Report(d, step, id))
        else
          && (id in t.logs <==> id in d.logs && !DeletesSecond(d, step, d.logs[id].time))
          && (id in t.logs ==> t.logs[id] == Written(d.logs[id], Report(d, step, id)))
          && (WritesRow(d, step, id) ==> id in d.logs && !d.logs[id].completed))
  }

  lemma {:induction false} CompletedRow(d: Db, id: nat, ip: string, kind: Kind, success: bool, file: string,
                                        fault: Fault, other: nat)
    ensures
      var t := Complete(d, id, ip, kind, success, file, fault);
      && (other in t.logs <==> other in d.logs) && t.nextId == d.nextId
      && (other in d.logs ==>
            t.logs[other] ==
            Written(d.logs[other], if other == id && fault != RowNotWritten then Some(success) else None))
  {
  }

  lemma {:induction false} StartRow(w: World, step: Step, id: nat)
    requires step.DoStart? && LogsKnown(w.db)
    ensures RowStep(w.db, step, Next(w, step).db, id)
  {
    if OpensRow(w.db, step) && step.outcome.LaunchFails? {
      var begun := Begun(w.db, step.ip, step.kind, step.time, step.outcome);
      CompletedRow(begun, w.db.nextId, step.ip, step.kind, false, step.outcome.file, step.outcome.fault, id);
    }
  }

  lemma {:induction false} CallBackRow(w: World, step: Step, id: nat)
    requires step.DoCallBack? && LogsKnown(w.db) && step.c in w.db.containers
    ensures RowStep(w.db, step, Next(w, step).db, id)
  {
    var c := step.c;
    assert ContainerKnown(w.db, c);
    CompletedRow(Gone(w.db, c), c.logId, c.ip, c.kind, step.success, step.file, step.fault, id);
  }

  lemma {:induction false} DeletedRow(w: World, step: Step, id: nat)
    requires step.DoDelete? && LogsKnown(w.db)
    ensures RowStep(w.db, step, Next(w, step).db, id)
  {
  }

  // ---------- What the log table says ----------

  /** The states of a run. */
  ghost function States(run: seq<Step>): (dbs: seq<Db>)
    ensures |dbs| == |run| + 1
    ensures forall k :: 0 <= k <= |run| ==> dbs[k] == WorldAt(run, k).db
  {
    seq(|run| + 1, k requires 0 <= k <= |run| => WorldAt(run, k).db)
  }

  /** One state before each step, and one at the end. */
  ghost predicate Fit(dbs: seq<Db>, run: seq<Step>) {
    |dbs| == |run| + 1
  }

  ghost predicate Opens(dbs: seq<Db>, run: seq<Step>, o: nat, id: nat)
    requires Fit(dbs, run)
  {
    o < |run| && OpensRow(dbs[o], run[o]) && dbs[o].nextId == id
  }

  ghost predicate Deletes(dbs: seq<Db>, run: seq<Step>, j: nat, time: int)
    requires Fit(dbs, run) && j < |run|
  {
    DeletesSecond(dbs[j], run[j], time)
  }

  /** Step o, among the first k, opened the row, and none of them after it deletes the rows of its second. */
  ghost predicate OpenSince(dbs: seq<Db>, run: seq<Step>, o: nat, k: nat, id: nat)
    requires Fit(dbs, run) && k <= |run|
  {
    o < k && Opens(dbs, run, o, id) && forall j :: o < j < k ==> !Deletes(dbs, run, j, run[o].time)
  }

  /** What each step reported of the operation as it wrote its row. */
  ghost function Reports(dbs: seq<Db>, run: seq<Step>, id: nat): (reports: seq<Option<bool>>)
    requires Fit(dbs, run)
    ensures |reports| == |run| && forall i :: 0 <= i < |run| ==> reports[i] == Report(dbs[i], run[i], id)
  {
    seq(|run|, i requires 0 <= i < |run| => Report(dbs[i], run[i], id))
  }

  /** The row says completed exactly if one of the first k steps wrote it, and success if that one reported it. */
  ghost predicate Tells(row: LogRow, reports: seq<Option<bool>>, k: nat)
    requires k <= |reports|
  {
    && (row.completed <==> exists i :: 0 <= i < k && reports[i].Some?)
    && (row.success ==> row.completed)
    && forall i :: 0 <= i < k && reports[i].Some? ==> row.success == reports[i].value
  }

  /** After k steps the row is there, with the address, the kind and the time of its start. */
  ghost predicate Records(dbs: seq<Db>, run: seq<Step>, o: nat, k: nat, id: nat)
    requires Fit(dbs, run) && o < k <= |run| && Opens(dbs, run, o, id)
  {
    id in dbs[k].logs &&
    var row := dbs[k].logs[id];
    row.ip == run[o].ip && row.kind == run[o].kind && row.time == run[o].time && Tells(row, Reports(dbs, run, id), k)
  }

  ghost predicate RowStepAt(dbs: seq<Db>, run: seq<Step>, k: nat, id: nat)
    requires Fit(dbs, run) && k < |run|
  {
    RowStep(dbs[k], run[k], dbs[k + 1], id)
  }

  ghost predicate RowHistory(dbs: seq<Db>, run: seq<Step>, id: nat) {
    Fit(dbs, run) && dbs[0].logs == map[] && forall k :: 0 <= k < |run| ==> RowStepAt(dbs, run, k, id)
  }

  lemma {:induction false} RunHistory(run: seq<Step>, id: nat)
    requires PossibleRun(run)
    ensures RowHistory(States(run), run, id)
  {
    var dbs := States(run);
    forall k | 0 <= k < |run|
      ensures RowStepAt(dbs, run, k, id)
    {
      InvariantAlways(run, k);
      assert PossibleAt(run, k);
      match run[k]
      case DoStart(_, _, _, _) => StartRow(WorldAt(run, k), run[k], id);
      case DoCallBack(_, _, _, _) => CallBackRow(WorldAt(run, k), run[k], id);
      case DoDelete(_, _) => DeletedRow(WorldAt(run, k), run[k], id);
    }
  }

  /** Nothing is written to a row before it is opened, nor is it opened twice. */
  lemma {:induction false} UsedBelow(dbs: seq<Db>, run: seq<Step>, i: nat, k: nat, id: nat)
    requires RowHistory(dbs, run, id) && i < k <= |run|
    requires WritesRow(dbs[i], run[i], id) || Opens(dbs, run, i, id)
    ensures id < dbs[k].nextId
  {
    assert RowStepAt(dbs, run, k - 1, id);
    if i < k - 1 {
      UsedBelow(dbs, run, i, k - 1, id);
    }
  }

  lemma {:induction false} OpenedRecords(dbs: seq<Db>, run: seq<Step>, o: nat, id: nat)
    requires RowHistory(dbs, run, id) && Opens(dbs, run, o, id)
    ensures Records(dbs, run, o, o + 1, id)
  {
    assert RowStepAt(dbs, run, o, id);
    forall i: nat | i < o
      ensures Reports(dbs, run, id)[i].None?
    {
      if WritesRow(dbs[i], run[i], id) {
        UsedBelow(dbs, run, i, o, id);
      }
    }
  }

  lemma {:induction false} TellsStep(row: LogRow, reports: seq<Option<bool>>, k: nat)
    requires k < |reports| && Tells(row, reports, k) && (reports[k].Some? ==> !row.completed)
    ensures Tells(Written(row, reports[k]), reports, k + 1)
  {
  }

  lemma {:induction false} RowStays(dbs: seq<Db>, run: seq<Step>, o: nat, k: nat, id: nat)
    requires RowHistory(dbs, run, id) && k <= |run| && OpenSince(dbs, run, o, k, id)
    ensures Records(dbs, run, o, k, id)
  {
    if o == k - 1 {
      OpenedRecords(dbs, run, o, id);
    } else {
      RowStays(dbs, run, o, k - 1, id);
      assert RowStepAt(dbs, run, k - 1, id) && !Deletes(dbs, run, k - 1, run[o].time);
      UsedBelow(dbs, run, o, k - 1, id);
      TellsStep(dbs[k - 1].logs[id], Reports(dbs, run, id), k - 1);
    }
  }

  lemma {:induction false} OpenedBefore(dbs: seq<Db>, run: seq<Step>, k: nat, id: nat) returns (o: nat)
    requires RowHistory(dbs, run, id) && k <= |run| && id in dbs[k].logs
    ensures OpenSince(dbs, run, o, k, id)
  {
    assert RowStepAt(dbs, run, k - 1, id);
    if Opens(dbs, run, k - 1, id) {
      o := k - 1;
    } else {
      o := OpenedBefore(dbs, run, k - 1, id);
      RowStays(dbs, run, o, k - 1, id);
      assert !Deletes(dbs, run, k - 1, run[o].time);
    }
  }

  /** In every run a log row is in the table exactly if some start opened it and no later step deleted the rows of
      its second. It then tells the address, kind and time of that start, whether a callback or a failed launch of
      the operation got as far as writing it, and as its success what that callback reported. */
  lemma {:induction false} LogTableRecords(run: seq<Step>, k: nat, id: nat)
    requires PossibleRun(run) && k <= |run|
    ensures id in States(run)[k].logs <==> exists o: nat :: OpenSince(States(run), run, o, k, id)
    ensures forall o: nat :: OpenSince(States(run), run, o, k, id) ==> Records(States(run), run, o, k, id)
  {
    var dbs := States(run);
    RunHistory(run, id);
    if id in dbs[k].logs {
      var o := OpenedBefore(dbs, run, k, id);
    }
    forall o: nat | OpenSince(dbs, run, o, k, id)
      ensures Records(dbs, run, o, k, id)
    {
      RowStays(dbs, run, o, k, id);
    }
  }

  lemma {:induction false} OpenedOnce(dbs: seq<Db>, run: seq<Step>, o: nat, o': nat, id: nat)
    requires RowHistory(dbs, run, id) && Opens(dbs, run, o, id) && Opens(dbs, run, o', id)
    ensures o == o'
  {
    if o < o' {
      UsedBelow(dbs, run, o, o', id);
    } else if o' < o {
      UsedBelow(dbs, run, o', o, id);
    }
  }

  lemma {:induction false} TellsAgree(row: LogRow, row': LogRow, reports: seq<Option<bool>>, j: nat, k: nat)
    requires j <= k <= |reports| && Tells(row, reports, j) && Tells(row', reports, k) && row.completed
    ensures row'.completed && row'.success == row.success
  {
  }

  /** A completed row never changes again while it stays in the table. */
  lemma {:induction false} CompletedRowStays(run: seq<Step>, j: nat, k: nat, id: nat)
    requires PossibleRun(run) && j <= k <= |run|
    requires id in States(run)[j].logs && States(run)[j].logs[id].completed && id in States(run)[k].logs
    ensures States(run)[k].logs[id] == States(run)[j].logs[id]
  {
    var dbs := States(run);
    RunHistory(run, id);
    var o := OpenedBefore(dbs, run, j, id);
    var o' := OpenedBefore(dbs, run, k, id);
    OpenedOnce(dbs, run, o, o', id);
    RowStays(dbs, run, o, j, id);
    RowStays(dbs, run, o, k, id);
    TellsAgree(dbs[j].logs[id], dbs[k].logs[id], Reports(dbs, run, id), j, k);
  }

  // ---------- What the transcripts say ----------

  /** What is known of an operation when its container starts. */
  function Script(step: Step): string
    requires step.DoStart? && (step.outcome.LaunchFails? || step.outcome.Launched?)
  {
    step.outcome.text + "---Begin " + (if step.kind == AddNode then "add" else "remove") + " node:" + step.ip +
    "----\n" + step.outcome.output
  }

  /** The step starts the container. */
  ghost predicate Launches(d: Db, step: Step, c: Container) {
    OpensRow(d, step) && step.outcome.Launched? && c == Container(step.ip, d.nextId, step.kind, step.time)
  }

  /** The step gets as far as storing the transcript of an operation of that second. */
  ghost predicate Stores(d: Db, step: Step, time: int) {
    || (step.DoCallBack? && step.c.logId in d.logs && step.c.time == time &&
        step.fault != RowNotWritten && step.fault != TranscriptFails)
    || (OpensRow(d, step) && step.outcome.LaunchFails? && step.time == time &&
        step.outcome.fault != RowNotWritten && step.outcome.fault != TranscriptFails)
  }

  ghost predicate Drops(d: Db, step: Step, time: int) {
    DeletesSecond(d, step, time) && !step.failing.transcriptStays
  }

  /** The whole transcript, given the text before the log file. */
  function Ending(text: string, step: Step): string
    requires step.DoCallBack? || (step.DoStart? && step.outcome.LaunchFails?)
  {
    text + (if step.DoCallBack? then step.file else step.outcome.file) + "---End log---\n"
  }

  /** What a step makes of the transcript of a second: the first operation to end in it decides, until it is dropped. */
  ghost predicate TranscriptStep(d: Db, step: Step, t: Db, time: int) {
    && (time in t.details <==> Stores(d, step, time) || (time in d.details && !Drops(d, step, time)))
    && (time in d.details && time in t.details ==> t.details[time] == d.details[time])
    && (time !in d.details && Stores(d, step, time) ==>
          if step.DoCallBack?
          then step.c in d.containers && step.c.ip in d.cache && t.details[time] == Ending(d.cache[step.c.ip], step)
          else t.details[time] == Ending(Script(step), step))
  }

  /** The text of a running operation is the one it started with. */
  ghost predicate TextStep(d: Db, step: Step, t: Db, c: Container) {
    c in t.containers ==>
      && c.ip in t.cache
      && (if Launches(d, step, c) then t.cache[c.ip] == Script(step)
          else c in d.containers && c.ip in d.cache && t.cache[c.ip] == d.cache[c.ip])
  }

  lemma {:induction false} ScriptText(step: Step)
    requires step.DoStart? && (step.outcome.LaunchFails? || step.outcome.Launched?)
    ensures Script(step) == step.outcome.text + Heading(step.ip, step.kind) + step.outcome.output
  {
    var text, rest := step.outcome.text, " node:" + step.ip + "----\n";
    match step.kind
    case AddNode =>
      assert "---Begin add node:" == "---Begin " + "add" + " node:";
      assert Heading(step.ip, AddNode) == "---Begin " + "add" + rest;
    case RemoveNode =>
      assert "---Begin remove node:" == "---Begin " + "remove" + " node:";
      assert Heading(step.ip, RemoveNode) == "---Begin " + "remove" + rest;
  }

  lemma {:induction false} StartText(w: World, step: Step, c: Container)
    requires Invariant(w) && step.DoStart?
    ensures TextStep(w.db, step, Next(w, step).db, c)
  {
    if OpensRow(w.db, step) {
      ScriptText(step);
    }
    assert c in w.db.containers ==> Running(w.db, c.ip);
  }

  lemma {:induction false} StartTranscript(w: World, step: Step, time: int)
    requires step.DoStart?
    ensures TranscriptStep(w.db, step, Next(w, step).db, time)
  {
    if OpensRow(w.db, step) {
      ScriptText(step);
    }
  }

  lemma {:induction false} CallBackText(w: World, step: Step, c: Container)
    requires Invariant(w) && step.DoCallBack? && step.c in w.db.containers
    ensures TextStep(w.db, step, Next(w, step).db, c)
  {
    assert c in w.db.containers ==> Running(w.db, c.ip);
  }

  lemma {:induction false} CallBackTranscript(w: World, step: Step, time: int)
    requires Invariant(w) && step.DoCallBack? && step.c in w.db.containers
    ensures TranscriptStep(w.db, step, Next(w, step).db, time)
  {
    assert ContainerKnown(w.db, step.c) && Running(w.db, step.c.ip);
  }

  lemma {:induction false} DeletionText(w: World, step: Step, time: int, c: Container)
    requires Invariant(w) && step.DoDelete?
    ensures TranscriptStep(w.db, step, Next(w, step).db, time)
    ensures TextStep(w.db, step, Next(w, step).db, c)
  {
    assert c in w.db.containers ==> Running(w.db, c.ip);
  }

  ghost predicate TranscriptStepAt(dbs: seq<Db>, run: seq<Step>, k: nat, time: int)
    requires Fit(dbs, run) && k < |run|
  {
    TranscriptStep(dbs[k], run[k], dbs[k + 1], time)
  }

  ghost predicate TextStepAt(dbs: seq<Db>, run: seq<Step>, k: nat, c: Container)
    requires Fit(dbs, run) && k < |run|
  {
    TextStep(dbs[k], run[k], dbs[k + 1], c)
  }

  lemma {:induction false} RunTexts(run: seq<Step>, k: nat, time: int, c: Container)
    requires PossibleRun(run) && k < |run|
    ensures TranscriptStepAt(States(run), run, k, time)
    ensures TextStepAt(States(run), run, k, c)
  {
    InvariantAlways(run, k);
    assert PossibleAt(run, k);
    match run[k]
    case DoStart(_, _, _, _) =>
      StartText(WorldAt(run, k), run[k], c);
      StartTranscript(WorldAt(run, k), run[k], time);
    case DoCallBack(_, _, _, _) =>
      CallBackText(WorldAt(run, k), run[k], c);
      CallBackTranscript(WorldAt(run, k), run[k], time);
    case DoDelete(_, _) => DeletionText(WorldAt(run, k), run[k], time, c);
  }

  /** The text of a running container is that of the step that started it. */
  lemma {:induction false} RunningText(dbs: seq<Db>, run: seq<Step>, k: nat, c: Container) returns (o: nat)
    requires Fit(dbs, run) && k <= |run| && dbs[0].containers == {} && c in dbs[k].containers
    requires forall j :: 0 <= j < k ==> TextStepAt(dbs, run, j, c)
    ensures o < k && Launches(dbs[o], run[o], c) && c.ip in dbs[k].cache && dbs[k].cache[c.ip] == Script(run[o])
  {
    assert TextStepAt(dbs, run, k - 1, c);
    if Launches(dbs[k - 1], run[k - 1], c) {
      o := k - 1;
    } else {
      o := RunningText(dbs, run, k - 1, c);
    }
  }

  /** Step i, among the first k, is the first since the last drop to store a transcript of the second. */
  ghost predicate FirstStored(dbs: seq<Db>, run: seq<Step>, i: nat, k: nat, time: int)
    requires Fit(dbs, run) && k <= |run|
  {
    && i < k && Stores(dbs[i], run[i], time) && time !in dbs[i].details
    && forall j :: i < j < k ==> !Drops(dbs[j], run[j], time)
  }

  lemma {:induction false} StoredBefore(dbs: seq<Db>, run: seq<Step>, k: nat, time: int) returns (i: nat)
    requires Fit(dbs, run) && k <= |run| && dbs[0].details == map[] && time in dbs[k].details
    requires forall j :: 0 <= j < k ==> TranscriptStepAt(dbs, run, j, time)
    ensures FirstStored(dbs, run, i, k, time) && time in dbs[i + 1].details
    ensures dbs[k].details[time] == dbs[i + 1].details[time]
  {
    assert TranscriptStepAt(dbs, run, k - 1, time);
    if time in dbs[k - 1].details {
      i := StoredBefore(dbs, run, k - 1, time);
      assert !Drops(dbs[k - 1], run[k - 1], time);
    } else {
      i := k - 1;
    }
  }

  lemma {:induction false} StoredStays(dbs: seq<Db>, run: seq<Step>, i: nat, k: nat, time: int)
    requires Fit(dbs, run) && k <= |run| && FirstStored(dbs, run, i, k, time)
    requires forall j :: 0 <= j < k ==> TranscriptStepAt(dbs, run, j, time)
    ensures time in dbs[k].details
  {
    assert TranscriptStepAt(dbs, run, k - 1, time);
    if i < k - 1 {
      StoredStays(dbs, run, i, k - 1, time);
    }
  }

  /** Step i ends the operation that step o started. */
  ghost predicate EndsAt(dbs: seq<Db>, run: seq<Step>, o: nat, i: nat)
    requires Fit(dbs, run)
  {
    && o <= i < |run| && OpensRow(dbs[o], run[o])
    && if run[i].DoCallBack? then o < i && Launches(dbs[o], run[o], run[i].c)
       else o == i && run[i].outcome.LaunchFails?
  }

  /** In every run a second has a transcript exactly if an operation ended in storing one and none was dropped since.
      It is the whole text of the first such operation, from the secure shell's to the log file, and of no other. */
  lemma {:induction false} TranscriptRecords(run: seq<Step>, k: nat, time: int) returns (o: nat, i: nat)
    requires PossibleRun(run) && k <= |run|
    ensures time in States(run)[k].details <==> exists i: nat :: FirstStored(States(run), run, i, k, time)
    ensures
      time in States(run)[k].details ==>
        && FirstStored(States(run), run, i, k, time) && EndsAt(States(run), run, o, i)
        && States(run)[k].details[time] == Ending(Script(run[o]), run[i])
  {
    var dbs := States(run);
    o, i := 0, 0;
    forall j | 0 <= j < k
      ensures TranscriptStepAt(dbs, run, j, time)
    {
      RunTexts(run, j, time, Container("", 0, AddNode, 0));
    }
    forall i: nat | FirstStored(dbs, run, i, k, time)
      ensures time in dbs[k].details
    {
      StoredStays(dbs, run, i, k, time);
    }
    if time in dbs[k].details {
      i := StoredBefore(dbs, run, k, time);
      o := i;
      assert TranscriptStepAt(dbs, run, i, time);
      if run[i].DoCallBack? {
        forall j | 0 <= j < i
          ensures TextStepAt(dbs, run, j, run[i].c)
        {
          RunTexts(run, j, time, run[i].c);
        }
        o := RunningText(dbs, run, i, run[i].c);
      }
    }
  }

  // ---------- What the status table says ----------

  /** The step is a callback of a successful operation of that kind that gets as far as the status table. */
  ghost predicate Succeeds(d: Db, step: Step, kind: Kind) {
    step.DoCallBack? && step.success && step.c.kind == kind && step.c.logId in d.logs && step.fault == NoFault
  }

  ghost predicate Adds(d: Db, step: Step, r: StatusRow) {
    Succeeds(d, step, AddNode) && r.ip == step.c.ip && r.time == d.logs[step.c.logId].time
  }

  ghost predicate Removes(d: Db, step: Step, ip: string) {
    Succeeds(d, step, RemoveNode) && ip == step.c.ip
  }

  lemma {:induction false} StatusStep(w: World, step: Step, r: StatusRow)
    ensures r in Next(w, step).db.status <==>
            Adds(w.db, step, r) || (r in w.db.status && !Removes(w.db, step, r.ip))
  {
    if step.DoCallBack? {
      WithoutNodeRows(w.db.status, step.c.ip);
    }
  }

  /** In which states of the run the row is in the status table. */
  ghost function Listed(run: seq<Step>, r: StatusRow): (has: seq<bool>)
    ensures |has| == |run| + 1 && forall k :: 0 <= k <= |run| ==> has[k] == (r in WorldAt(run, k).db.status)
  {
    seq(|run| + 1, k requires 0 <= k <= |run| => r in WorldAt(run, k).db.status)
  }

  ghost function Additions(run: seq<Step>, r: StatusRow): (sets: seq<bool>)
    ensures |sets| == |run| && forall k :: 0 <= k < |run| ==> sets[k] == Adds(WorldAt(run, k).db, run[k], r)
  {
    seq(|run|, k requires 0 <= k < |run| => Adds(WorldAt(run, k).db, run[k], r))
  }

  ghost function Removals(run: seq<Step>, ip: string): (clears: seq<bool>)
    ensures |clears| == |run| && forall k :: 0 <= k < |run| ==> clears[k] == Removes(WorldAt(run, k).db, run[k], ip)
  {
    seq(|run|, k requires 0 <= k < |run| => Removes(WorldAt(run, k).db, run[k], ip))
  }

  /** In every run the status table has a row exactly if a successful callback added it, with the second of its log,
      and no later successful callback removed the node; a node added twice has both rows. */
  lemma {:induction false} StatusTableRecords(run: seq<Step>, k: nat, r: StatusRow)
    requires k <= |run|
    ensures r in WorldAt(run, k).db.status <==>
            exists i: nat :: SetSince(Additions(run, r), Removals(run, r.ip), i, k)
  {
    var has, sets, clears := Listed(run, r), Additions(run, r), Removals(run, r.ip);
    forall j | 0 <= j < |run|
      ensures has[j + 1] <==> sets[j] || (has[j] && !clears[j])
    {
      StatusStep(WorldAt(run, j), run[j], r);
    }
    HoldsSince(has, sets, clears, k);
  }
}
