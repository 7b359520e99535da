/**
 The service rows of the dashboard: row 0 counts everything, row i + 1 counts service i. Every
 line of a query answer is looked through for every timestamp.
 */
module Dashboard {
  import opened Wrappers

  datatype ServiceLogs = ServiceLogs(timeStamp: int, containerNumber: int, podNumber: int)

  datatype ServiceList = ServiceList(name: string, serviceLogsData: seq<ServiceLogs>)

  datatype QueryError = QueryError

  /** A pod of a service, with the answer of the query for its containers. */
  datatype PodLine = PodLine(text: string, containers: Result<seq<string>, QueryError>)

  /** A service, with the answer of the query for its pods if it has selector labels. */
  datatype ServiceLine = ServiceLine(name: string, hasLabels: bool, pods: Result<seq<PodLine>, QueryError>)

  /** Whether the text of a line contains a timestamp in decimal digits. */
  type Contains = (string, int) -> bool

  datatype Counter = Pods | Containers

  // ---------- Counting lines ----------

  function Hits(lines: seq<string>, time: int, contains: Contains): nat {
    if lines == [] then 0 else (if contains(lines[0], time) then 1 else 0) + Hits(lines[1..], time, contains)
  }

  function Number(l: ServiceLogs, counter: Counter): int {
    if counter.Pods? then l.podNumber else l.containerNumber
  }

  function Plus(l: ServiceLogs, counter: Counter, n: int): ServiceLogs {
    if counter.Pods? then l.(podNumber := l.podNumber + n) else l.(containerNumber := l.containerNumber + n)
  }

  /** A row after some lines have been counted in it. */
  function Add(row: ServiceList, lines: seq<string>, times: seq<int>, contains: Contains,
               counter: Counter): (r: ServiceList)
    requires |row.serviceLogsData| <= |times|
    ensures |r.serviceLogsData| == |row.serviceLogsData|
  {
    var logs := row.serviceLogsData;
    var added := seq(|logs|, s requires 0 <= s < |logs| => Plus(logs[s], counter, Hits(lines, times[s], contains)));
    row.(serviceLogsData := added)
  }

  lemma {:induction false} HitsConcat(a: seq<string>, b: seq<string>, time: int, contains: Contains)
    ensures Hits(a + b, time, contains) == Hits(a, time, contains) + Hits(b, time, contains)
  {
    if a == [] {
      assert a + b == b;
    } else {
      assert (a + b)[1..] == a[1..] + b;
      HitsConcat(a[1..], b, time, contains);
    }
  }

  lemma {:induction false} AddAdd(row: ServiceList, a: seq<string>, b: seq<string>, times: seq<int>, contains: Contains,
                                  counter: Counter)
    requires |row.serviceLogsData| <= |times|
    ensures Add(Add(row, a, times, contains, counter), b, times, contains, counter) ==
            Add(row, a + b, times, contains, counter)
  {
    forall s | 0 <= s < |row.serviceLogsData|
      ensures Hits(a + b, times[s], contains) == Hits(a, times[s], contains) + Hits(b, times[s], contains)
    {
      HitsConcat(a, b, times[s], contains);
    }
  }

  lemma {:induction false} AddNothing(row: ServiceList, times: seq<int>, contains: Contains, counter: Counter)
    requires |row.serviceLogsData| <= |times|
    ensures Add(row, [], times, contains, counter) == row
  {
    assert Add(row, [], times, contains, counter).serviceLogsData == row.serviceLogsData;
  }

  // ---------- All rows ----------

  function Flatten(results: seq<seq<string>>): seq<string> {
    if results == [] then [] else results[0] + Flatten(results[1..])
  }

  lemma {:induction false} FlattenSnoc(results: seq<seq<string>>, last: seq<string>)
    ensures Flatten(results + [last]) == Flatten(results) + last
  {
    if results == [] {
      assert ([] + [last])[1..] == [];
      assert last + [] == last && [] + last == last;
    } else {
      assert (results + [last])[1..] == results[1..] + [last];
      FlattenSnoc(results[1..], last);
    }
  }

  /** Row 0 has a counter for every timestamp; the other rows have as many or, without labels, none. */
  predicate Shaped(list: seq<ServiceList>, times: seq<int>) {
    && |list| > 0 && |list[0].serviceLogsData| == |times|
    && forall i :: 0 < i < |list| ==> |list[i].serviceLogsData| in [0, |times|]
  }

  /** Services with lines to count have their counters. */
  predicate Allocated(list: seq<ServiceList>, results: seq<seq<string>>, times: seq<int>) {
    && Shaped(list, times) && |list| == |results| + 1
    && forall i :: 0 <= i < |results| && results[i] != [] ==> |list[i + 1].serviceLogsData| == |times|
  }

  /** The rows after all results have been counted. */
  ghost predicate Counted(before: seq<ServiceList>, after: seq<ServiceList>, results: seq<seq<string>>, times: seq<int>,
                          contains: Contains, counter: Counter)
    requires Shaped(before, times) && |before| == |results| + 1
  {
    && |after| == |before|
    && after[0] == Add(before[0], Flatten(results), times, contains, counter)
    && forall i :: 0 <= i < |results| ==> after[i + 1] == Add(before[i + 1], results[i], times, contains, counter)
  }

  function At(row: ServiceList, s: nat, counter: Counter): int {
    if s < |row.serviceLogsData| then Number(row.serviceLogsData[s], counter) else 0
  }

  function Sum(rows: seq<ServiceList>, s: nat, counter: Counter): int {
    if rows == [] then 0 else At(rows[0], s, counter) + Sum(rows[1..], s, counter)
  }

  /** The first row is the sum of the others at every timestamp. */
  predicate Balanced(list: seq<ServiceList>, times: seq<int>, counter: Counter) {
    && Shaped(list, times)
    && forall s :: 0 <= s < |times| ==> At(list[0], s, counter) == Sum(list[1..], s, counter)
  }

  lemma {:induction false} SumCounted(before: seq<ServiceList>, after: seq<ServiceList>, results: seq<seq<string>>,
                                      times: seq<int>, contains: Contains, counter: Counter, s: nat)
    requires |before| == |after| == |results| && s < |times|
    requires forall i :: 0 <= i < |before| ==> |before[i].serviceLogsData| <= |times|
    requires forall i :: 0 <= i < |before| ==> after[i] == Add(before[i], results[i], times, contains, counter)
    requires forall i :: 0 <= i < |before| && results[i] != [] ==> |before[i].serviceLogsData| == |times|
    ensures Sum(after, s, counter) == Sum(before, s, counter) + Hits(Flatten(results), times[s], contains)
  {
    if results != [] {
      SumCounted(before[1..], after[1..], results[1..], times, contains, counter, s);
      HitsConcat(results[0], Flatten(results[1..]), times[s], contains);
      assert after[0] == Add(before[0], results[0], times, contains, counter);
    }
  }

  /** The other counter is not touched. */
  lemma {:induction false} OtherSum(before: seq<ServiceList>, after: seq<ServiceList>, results: seq<seq<string>>,
                                    times: seq<int>, contains: Contains, counter: Counter, other: Counter, s: nat)
    requires |before| == |after| == |results| && other != counter
    requires forall i :: 0 <= i < |before| ==> |before[i].serviceLogsData| <= |times|
    requires forall i :: 0 <= i < |before| ==> after[i] == Add(before[i], results[i], times, contains, counter)
    ensures Sum(after, s, other) == Sum(before, s, other)
  {
    if results != [] {
      OtherSum(before[1..], after[1..], results[1..], times, contains, counter, other, s);
      assert after[0] == Add(before[0], results[0], times, contains, counter);
    }
  }

  /** Conservation: counting with one counter keeps the first row equal to the sum of the others, for both. */
  lemma {:induction false} CountingKeepsBalance(before: seq<ServiceList>, after: seq<ServiceList>,
                                                results: seq<seq<string>>, times: seq<int>,
                                                contains: Contains, counter: Counter, either: Counter)
    requires Allocated(before, results, times) && Balanced(before, times, either)
    requires Counted(before, after, results, times, contains, counter)
    ensures Balanced(after, times, either)
  {
    assert forall i :: 0 < i < |after| ==> after[i] == Add(before[i], results[i - 1], times, contains, counter);
    forall s | 0 <= s < |times|
      ensures At(after[0], s, either) == Sum(after[1..], s, either)
    {
      if either == counter {
        SumCounted(before[1..], after[1..], results, times, contains, counter, s);
      } else {
        OtherSum(before[1..], after[1..], results, times, contains, counter, either, s);
      }
    }
  }

  /** The lines are counted for one service and in the first row. */
  function AddTo(list: seq<ServiceList>, i: nat, lines: seq<string>, times: seq<int>, contains: Contains,
                 counter: Counter): (r: seq<ServiceList>)
    requires Shaped(list, times) && i + 1 < |list|
    ensures |r| == |list| && Shaped(r, times) && |r[i + 1].serviceLogsData| == |list[i + 1].serviceLogsData|
  {
    list[0 := Add(list[0], lines, times, contains, counter)][i + 1 := Add(list[i + 1], lines, times, contains, counter)]
  }

  lemma {:induction false} AddToTwice(list: seq<ServiceList>, i: nat, a: seq<string>, b: seq<string>, times: seq<int>,
                                      contains: Contains, counter: Counter)
    requires Shaped(list, times) && i + 1 < |list|
    ensures AddTo(AddTo(list, i, a, times, contains, counter), i, b, times, contains, counter) ==
            AddTo(list, i, a + b, times, contains, counter)
  {
    AddAdd(list[0], a, b, times, contains, counter);
    AddAdd(list[i + 1], a, b, times, contains, counter);
  }

  lemma {:induction false} AddToNothing(list: seq<ServiceList>, i: nat, times: seq<int>, contains: Contains,
                                        counter: Counter)
    requires Shaped(list, times) && i + 1 < |list|
    ensures AddTo(list, i, [], times, contains, counter) == list
  {
    AddNothing(list[0], times, contains, counter);
    AddNothing(list[i + 1], times, contains, counter);
  }

  /** Counting so far: the services of the results are done, the others as before. */
  ghost predicate Underway(before: seq<ServiceList>, after: seq<ServiceList>, results: seq<seq<string>>,
                           times: seq<int>,
                           contains: Contains, counter: Counter)
    requires Shaped(before, times)
  {
    && |results| < |before| == |after|
    && Shaped(after, times)
    && after[0] == Add(before[0], Flatten(results), times, contains, counter)
    && (forall i :: 0 < i <= |results| ==> after[i] == Add(before[i], results[i - 1], times, contains, counter))
    && forall i :: |results| < i < |before| ==> after[i] == before[i]
  }

  lemma {:induction false} UnderwayStep(before: seq<ServiceList>, now: seq<ServiceList>, after: seq<ServiceList>,
                                        results: seq<seq<string>>,
                     lines: seq<string>, times: seq<int>, contains: Contains, counter: Counter)
    requires Shaped(before, times) && Underway(before, now, results, times, contains, counter)
    requires |results| + 1 < |before|
    requires after == AddTo(now, |results|, lines, times, contains, counter)
    ensures Underway(before, after, results + [lines], times, contains, counter)
  {
    FlattenSnoc(results, lines);
    AddAdd(before[0], Flatten(results), lines, times, contains, counter);
  }

  /** Services without lines need no step. */
  lemma {:induction false} UnderwayRest(before: seq<ServiceList>, after: seq<ServiceList>, results: seq<seq<string>>,
                                        n: nat,
                                        times: seq<int>, contains: Contains, counter: Counter)
    requires Shaped(before, times) && |before| == |results| + 1 && n <= |results|
    requires forall i :: n <= i < |results| ==> results[i] == []
    requires Underway(before, after, results[..n], times, contains, counter)
    ensures Counted(before, after, results, times, contains, counter)
    decreases |results| - n
  {
    if n < |results| {
      FlattenSnoc(results[..n], []);
      assert results[..n + 1] == results[..n] + [[]];
      assert Flatten(results[..n]) + [] == Flatten(results[..n]);
      AddNothing(before[n + 1], times, contains, counter);
      UnderwayRest(before, after, results, n + 1, times, contains, counter);
    } else {
      assert results[..n] == results;
    }
  }

  // ---------- What an interrupted count has seen ----------

  predicate Clean(pods: seq<PodLine>) {
    forall i :: 0 <= i < |pods| ==> pods[i].containers.Ok?
  }

  /** The pods counted before the first failing query, that query's pod included. */
  function Seen(pods: seq<PodLine>): seq<string> {
    if pods == [] then []
    else [pods[0].text] + if pods[0].containers.Err? then [] else Seen(pods[1..])
  }

  function Texts(pods: seq<PodLine>): seq<string> {
    if pods == [] then [] else [pods[0].text] + Texts(pods[1..])
  }

  function ContainersOf(pods: seq<PodLine>): seq<string> {
    if pods == [] then []
    else (if pods[0].containers.Ok? then pods[0].containers.value else []) + ContainersOf(pods[1..])
  }

  lemma {:induction false} CleanSeen(pods: seq<PodLine>)
    ensures Clean(pods) ==> Seen(pods) == Texts(pods)
  {
    if pods != [] && Clean(pods) {
      assert pods[0].containers.Ok?;
      CleanSeen(pods[1..]);
    }
  }

  lemma {:induction false} SeenStep(pods: seq<PodLine>, seen: seq<string>, containers: seq<string>)
    requires pods != []
    ensures Clean(pods) <==> pods[0].containers.Ok? && Clean(pods[1..])
    ensures pods[0].containers.Ok? ==>
      seen + Seen(pods) == seen + [pods[0].text] + Seen(pods[1..]) &&
      containers + ContainersOf(pods) == containers + pods[0].containers.value + ContainersOf(pods[1..])
    ensures pods[0].containers.Err? ==> Seen(pods) == [pods[0].text]
  {
    assert forall i :: 0 < i < |pods| ==> pods[i] == pods[1..][i - 1];
    if pods[0].containers.Ok? {
      assert seen + ([pods[0].text] + Seen(pods[1..])) == seen + [pods[0].text] + Seen(pods[1..]);
      var own, rest := pods[0].containers.value, ContainersOf(pods[1..]);
      assert containers + (own + rest) == containers + own + rest;
    }
  }

  /** The counted lines of each service: none after the service with the first failing query. */
  function SeenAll(pods: seq<seq<PodLine>>): (r: seq<seq<string>>)
    ensures |r| == |pods|
  {
    if pods == [] then []
    else if Clean(pods[0]) then [Seen(pods[0])] + SeenAll(pods[1..])
    else [Seen(pods[0])] + seq(|pods| - 1, i => [])
  }

  predicate AllClean(pods: seq<seq<PodLine>>) {
    forall i :: 0 <= i < |pods| ==> Clean(pods[i])
  }

  lemma {:induction false} SeenAllAt(pods: seq<seq<PodLine>>, k: nat)
    requires k < |pods| && forall i :: 0 <= i < k ==> Clean(pods[i])
    ensures SeenAll(pods)[k] == Seen(pods[k])
    ensures !Clean(pods[k]) ==> forall i :: k < i < |pods| ==> SeenAll(pods)[i] == []
  {
    if k > 0 {
      SeenAllAt(pods[1..], k - 1);
    }
  }

  // ---------- The three steps ----------

  function EmptyLogs(times: seq<int>): (r: seq<ServiceLogs>)
    ensures |r| == |times| && forall s :: 0 <= s < |times| ==> r[s] == ServiceLogs(times[s], 0, 0)
  {
    seq(|times|, s requires 0 <= s < |times| => ServiceLogs(times[s], 0, 0))
  }

  method MakeLogs(times: seq<int>) returns (logs: seq<ServiceLogs>)
    ensures logs == EmptyLogs(times)
  {
    logs := seq(|times|, s => ServiceLogs(0, 0, 0));
    for s := 0 to |times|
      invariant |logs| == |times|
      invariant forall k :: 0 <= k < |times| ==> logs[k] == ServiceLogs(if k < s then times[k] else 0, 0, 0)
    {
      logs := logs[s := logs[s].(timeStamp := times[s])];
    }
  }

  /** The first service whose pods cannot be queried, or the number of services. */
  function Failure(lines: seq<ServiceLine>): (n: nat)
    ensures n <= |lines|
  {
    if lines == [] || (lines[0].hasLabels && lines[0].pods.Err?) then 0 else 1 + Failure(lines[1..])
  }

  lemma {:induction false} FailureIsFirst(lines: seq<ServiceLine>, i: nat)
    requires i < |lines| && i <= Failure(lines)
    ensures i == Failure(lines) <==> lines[i].hasLabels && lines[i].pods.Err?
  {
    if i > 0 {
      FailureIsFirst(lines[1..], i - 1);
    }
  }

  function ZeroRow(line: ServiceLine, times: seq<int>): ServiceList {
    ServiceList(line.name, if line.hasLabels then EmptyLogs(times) else [])
  }

  function ZeroRows(lines: seq<ServiceLine>, times: seq<int>): (r: seq<ServiceList>)
    ensures |r| == |lines| + 1 && r[0] == ServiceList("total", EmptyLogs(times))
    ensures forall i :: 0 < i <= |lines| ==>
            r[i] == if i <= Failure(lines) + 1 then ZeroRow(lines[i - 1], times) else ServiceList("", [])
  {
    [ServiceList("total", EmptyLogs(times))] + seq(|lines|, i requires 0 <= i < |lines| =>
      if i <= Failure(lines) then ZeroRow(lines[i], times) else ServiceList("", []))
  }

  /** The first n services have their rows. */
  ghost predicate RowsUpTo(list: seq<ServiceList>, lines: seq<ServiceLine>, times: seq<int>, n: nat) {
    && |list| == |lines| + 1 && list[0] == ServiceList("total", EmptyLogs(times))
    && forall k :: 0 < k <= |lines| ==> list[k] == if k <= n then ZeroRow(lines[k - 1], times) else ServiceList("", [])
  }

  lemma {:induction false} RowsDone(list: seq<ServiceList>, lines: seq<ServiceLine>, times: seq<int>, n: nat)
    requires RowsUpTo(list, lines, times, n) && (n == Failure(lines) + 1 || n == Failure(lines) == |lines|)
    ensures list == ZeroRows(lines, times)
  {
  }

  /** Services without labels have no pods to count. */
  function PodsOf(line: ServiceLine): seq<PodLine> {
    if line.hasLabels && line.pods.Ok? then line.pods.value else []
  }

  function PodResults(lines: seq<ServiceLine>): (r: seq<seq<PodLine>>)
    ensures |r| == |lines| && forall i :: 0 <= i < |lines| ==> r[i] == PodsOf(lines[i])
  {
    seq(|lines|, i requires 0 <= i < |lines| => PodsOf(lines[i]))
  }

  lemma {:induction false} ZeroSum(rows: seq<ServiceList>, s: nat, counter: Counter)
    requires forall i :: 0 <= i < |rows| ==> At(rows[i], s, counter) == 0
    ensures Sum(rows, s, counter) == 0
  {
    if rows != [] {
      ZeroSum(rows[1..], s, counter);
    }
  }

  lemma {:induction false} ZeroRowsBalanced(lines: seq<ServiceLine>, times: seq<int>, counter: Counter)
    ensures Balanced(ZeroRows(lines, times), times, counter)
  {
    var rows := ZeroRows(lines, times);
    forall s | 0 <= s < |times|
      ensures At(rows[0], s, counter) == Sum(rows[1..], s, counter)
    {
      ZeroSum(rows[1..], s, counter);
    }
  }

  /** No counter is used before its row has been given one. */
  lemma {:induction false} SeenAllocated(lines: seq<ServiceLine>, times: seq<int>)
    requires Failure(lines) == |lines|
    ensures Allocated(ZeroRows(lines, times), SeenAll(PodResults(lines)), times)
  {
    var pods := PodResults(lines);
    forall i | 0 <= i < |lines| && SeenAll(pods)[i] != []
      ensures |ZeroRows(lines, times)[i + 1].serviceLogsData| == |times|
    {
      SeenOnlyOfPods(pods, i);
    }
  }

  lemma {:induction false} SeenOnlyOfPods(pods: seq<seq<PodLine>>, i: nat)
    requires i < |pods| && SeenAll(pods)[i] != []
    ensures pods[i] != []
  {
    if i > 0 {
      if Clean(pods[0]) {
        SeenOnlyOfPods(pods[1..], i - 1);
      }
    }
  }

  lemma {:induction false} ContainersAllocated(lines: seq<ServiceLine>, half: seq<ServiceList>,
                                               results: seq<seq<string>>, times: seq<int>, contains: Contains)
    requires Failure(lines) == |lines| == |results|
    requires Counted(ZeroRows(lines, times), half, SeenAll(PodResults(lines)), times, contains, Pods)
    requires forall i :: 0 <= i < |lines| ==> results[i] == ContainersOf(PodsOf(lines[i]))
    ensures Allocated(half, results, times)
  {
    assert forall i :: 0 < i < |half| ==>
      half[i] == Add(ZeroRows(lines, times)[i], SeenAll(PodResults(lines))[i - 1], times, contains, Pods);
    forall i | 0 <= i < |results| && results[i] != []
      ensures |half[i + 1].serviceLogsData| == |times|
    {
      assert PodsOf(lines[i]) != [];
    }
  }

  // ---------- Counts as numbers of lines ----------

  /** The lines among the first n that contain the timestamp. */
  function Where(lines: seq<string>, n: nat, time: int, contains: Contains): set<nat>
    requires n <= |lines|
  {
    set i: nat | i < n && contains(lines[i], time)
  }

  lemma {:induction false} HitsAreLines(lines: seq<string>, n: nat, time: int, contains: Contains)
    requires n <= |lines|
    ensures Hits(lines[..n], time, contains) == |Where(lines, n, time, contains)|
  {
    if n == 0 {
      assert Where(lines, 0, time, contains) == {};
    } else {
      HitsAreLines(lines, n - 1, time, contains);
      TakeNext(lines, n - 1);
      HitsConcat(lines[..n - 1], [lines[n - 1]], time, contains);
      HitsOne(lines[n - 1], time, contains);
      var before := Where(lines, n - 1, time, contains);
      assert Where(lines, n, time, contains) ==
             if contains(lines[n - 1], time) then before + {n - 1} else before;
    }
  }

  lemma {:induction false} HitsOne(line: string, time: int, contains: Contains)
    ensures Hits([line], time, contains) == if contains(line, time) then 1 else 0
  {
    assert [line][1..] == [];
  }

  /** The first n pods whose text contains the timestamp. */
  function PodsWith(pods: seq<PodLine>, n: nat, time: int, contains: Contains): set<nat>
    requires n <= |pods|
  {
    set j: nat | j < n && contains(pods[j].text, time)
  }

  lemma {:induction false} TextsAt(pods: seq<PodLine>, n: nat)
    requires n <= |pods|
    ensures |Texts(pods[..n])| == n && forall j :: 0 <= j < n ==> Texts(pods[..n])[j] == pods[j].text
    decreases |pods|
  {
    if n > 0 {
      TextsAt(pods[1..], n - 1);
      assert pods[..n][1..] == pods[1..][..n - 1];
    }
  }

  lemma {:induction false} TextHits(pods: seq<PodLine>, n: nat, time: int, contains: Contains)
    requires n <= |pods|
    ensures Hits(Texts(pods[..n]), time, contains) == |PodsWith(pods, n, time, contains)|
  {
    var texts := Texts(pods[..n]);
    TextsAt(pods, n);
    HitsAreLines(texts, n, time, contains);
    assert texts[..n] == texts && Where(texts, n, time, contains) == PodsWith(pods, n, time, contains);
  }

  /** How many containers of the first n pods have a line that contains the timestamp. */
  function ContainersWith(pods: seq<PodLine>, n: nat, time: int, contains: Contains): nat
    requires n <= |pods| && Clean(pods)
  {
    if n == 0 then 0
    else
      var lines := pods[n - 1].containers.value;
      ContainersWith(pods, n - 1, time, contains) + |set l: nat | l < |lines| && contains(lines[l], time)|
  }

  lemma {:induction false} ContainersOfSnoc(pods: seq<PodLine>, last: PodLine)
    requires last.containers.Ok?
    ensures ContainersOf(pods + [last]) == ContainersOf(pods) + last.containers.value
  {
    if pods == [] {
      assert [last][1..] == [];
      assert last.containers.value + [] == last.containers.value && [] + last.containers.value == last.containers.value;
    } else {
      assert (pods + [last])[1..] == pods[1..] + [last];
      ContainersOfSnoc(pods[1..], last);
      Regroup(if pods[0].containers.Ok? then pods[0].containers.value else [], ContainersOf(pods[1..]),
              last.containers.value);
    }
  }

  lemma {:induction false} ContainerHits(pods: seq<PodLine>, n: nat, time: int, contains: Contains)
    requires n <= |pods| && Clean(pods)
    ensures Hits(ContainersOf(pods[..n]), time, contains) == ContainersWith(pods, n, time, contains)
  {
    if n > 0 {
      var lines := pods[n - 1].containers.value;
      ContainerHits(pods, n - 1, time, contains);
      TakeNext(pods, n - 1);
      ContainersOfSnoc(pods[..n - 1], pods[n - 1]);
      HitsConcat(ContainersOf(pods[..n - 1]), lines, time, contains);
      HitsAreLines(lines, |lines|, time, contains);
      assert lines[..|lines|] == lines;
      assert Where(lines, |lines|, time, contains) == set l: nat | l < |lines| && contains(lines[l], time);
    }
  }

  /** The pods before the first failing query are counted, and that query's pod. */
  lemma {:induction false} SeenIsPrefix(pods: seq<PodLine>, n: nat)
    requires n < |pods| && pods[n].containers.Err? && forall j :: 0 <= j < n ==> pods[j].containers.Ok?
    ensures Seen(pods) == Texts(pods[..n + 1])
  {
    assert pods[..n + 1][1..] == pods[1..][..n];
    if n > 0 {
      SeenIsPrefix(pods[1..], n - 1);
    } else {
      assert Texts(pods[..1][1..]) == [];
    }
  }

  // ---------- What the table says ----------

  /** No pods are asked for, or the query for them was answered. */
  ghost predicate Answered(line: ServiceLine) {
    line.hasLabels ==> line.pods.Ok?
  }

  /** Service f is the first whose query for pods fails. */
  ghost predicate FirstUnanswered(lines: seq<ServiceLine>, f: nat) {
    f < |lines| && !Answered(lines[f]) && forall i :: 0 <= i < f ==> Answered(lines[i])
  }

  /** Every query for pods was answered, and the query for the containers of pod n of service k is the first to fail. */
  ghost predicate FirstFailing(lines: seq<ServiceLine>, k: nat, n: nat) {
    && AllAnswered(lines) && k < |lines| && lines[k].hasLabels
    && n < |lines[k].pods.value| && lines[k].pods.value[n].containers.Err?
    && (forall j :: 0 <= j < n ==> lines[k].pods.value[j].containers.Ok?)
    && forall i :: 0 <= i < k ==> FullyAnswered(lines[i])
  }

  ghost predicate FullyAnswered(line: ServiceLine) {
    line.hasLabels ==> line.pods.Ok? && Clean(line.pods.value)
  }

  /** A row of a service: its name, and counters for every timestamp if the service has labels. */
  ghost predicate RowOf(row: ServiceList, line: ServiceLine, times: seq<int>) {
    && row.name == line.name && |row.serviceLogsData| == (if line.hasLabels then |times| else 0)
    && forall s :: 0 <= s < |row.serviceLogsData| ==> row.serviceLogsData[s].timeStamp == times[s]
  }

  ghost predicate RowOfZeros(row: ServiceList, line: ServiceLine, times: seq<int>) {
    && RowOf(row, line, times)
    && forall l :: l in row.serviceLogsData ==> l.podNumber == 0 && l.containerNumber == 0
  }

  /** At each timestamp the row counts the first n pods whose text contains it, and no containers. */
  ghost predicate RowOfPods(row: ServiceList, line: ServiceLine, times: seq<int>, contains: Contains, n: nat) {
    && RowOf(row, line, times)
    && (line.hasLabels ==>
          line.pods.Ok? && n <= |line.pods.value| &&
          forall s :: 0 <= s < |times| ==>
            && row.serviceLogsData[s].podNumber == |PodsWith(line.pods.value, n, times[s], contains)|
            && row.serviceLogsData[s].containerNumber == 0)
  }

  /** At each timestamp the row counts the pods whose text contains it, and their containers likewise. */
  ghost predicate RowOfCounts(row: ServiceList, line: ServiceLine, times: seq<int>, contains: Contains) {
    && RowOf(row, line, times)
    && (line.hasLabels ==>
          line.pods.Ok? && Clean(line.pods.value) &&
          var pods := line.pods.value;
          forall s :: 0 <= s < |times| ==>
            && row.serviceLogsData[s].podNumber == |PodsWith(pods, |pods|, times[s], contains)|
            && row.serviceLogsData[s].containerNumber == ContainersWith(pods, |pods|, times[s], contains))
  }

  ghost predicate TotalRow(row: ServiceList, times: seq<int>) {
    && row.name == "total" && |row.serviceLogsData| == |times|
    && forall s :: 0 <= s < |times| ==> row.serviceLogsData[s].timeStamp == times[s]
  }

  ghost predicate AllAnswered(lines: seq<ServiceLine>) {
    forall i :: 0 <= i < |lines| ==> Answered(lines[i])
  }

  /** The pods are those that the queries gave, and none for a service without labels. */
  ghost predicate AsAnswered(podResults: seq<seq<PodLine>>, lines: seq<ServiceLine>) {
    && |podResults| == |lines|
    && forall i :: 0 <= i < |lines| ==>
         if lines[i].hasLabels then Ok(podResults[i]) == lines[i].pods else podResults[i] == []
  }

  /** After the total, the services up to the failing one have rows of zeros, the others blank ones. */
  ghost predicate ZerosUpTo(list: seq<ServiceList>, lines: seq<ServiceLine>, times: seq<int>, f: nat) {
    && |list| == |lines| + 1 && TotalRow(list[0], times)
    && forall i :: 0 <= i < |lines| ==>
         if i <= f then RowOfZeros(list[i + 1], lines[i], times) else list[i + 1] == ServiceList("", [])
  }

  lemma {:induction false} FailureMeans(lines: seq<ServiceLine>)
    ensures FirstUnanswered(lines, Failure(lines)) || (Failure(lines) == |lines| && AllAnswered(lines))
  {
    if lines != [] && Answered(lines[0]) {
      FailureMeans(lines[1..]);
      assert forall i :: 0 < i < |lines| ==> lines[i] == lines[1..][i - 1];
    }
  }

  /** What the zero rows and the pods found come to. */
  lemma {:induction false} InfoMeans(lines: seq<ServiceLine>, times: seq<int>)
    ensures forall f: nat :: FirstUnanswered(lines, f) ==> f == Failure(lines)
    ensures Failure(lines) == |lines| <==> AllAnswered(lines)
    ensures ZerosUpTo(ZeroRows(lines, times), lines, times, Failure(lines))
    ensures AllAnswered(lines) ==> AsAnswered(PodResults(lines), lines)
  {
    FailureMeans(lines);
    ZerosAreRows(lines, times);
  }

  lemma {:induction false} ZerosAreRows(lines: seq<ServiceLine>, times: seq<int>)
    ensures ZerosUpTo(ZeroRows(lines, times), lines, times, Failure(lines))
  {
    forall i | 0 <= i < |lines| && i <= Failure(lines)
      ensures RowOfZeros(ZeroRows(lines, times)[i + 1], lines[i], times)
    {
      ZeroRowIsZero(lines[i], times);
    }
  }

  lemma {:induction false} ZeroRowIsZero(line: ServiceLine, times: seq<int>)
    ensures RowOfZeros(ZeroRow(line, times), line, times)
  {
  }

  /** The row of a service with answered queries once its pods are counted, all of them or the first n. */
  lemma {:induction false} PodsCounted(line: ServiceLine, times: seq<int>, contains: Contains, n: nat)
    requires Answered(line) && n <= |PodsOf(line)|
    ensures RowOfPods(Add(ZeroRow(line, times), Texts(PodsOf(line)[..n]), times, contains, Pods), line, times, contains,
                      n)
  {
    forall s | 0 <= s < |times|
      ensures Hits(Texts(PodsOf(line)[..n]), times[s], contains) == |PodsWith(PodsOf(line), n, times[s], contains)|
    {
      TextHits(PodsOf(line), n, times[s], contains);
    }
  }

  lemma {:induction false} AllCounted(line: ServiceLine, row: ServiceList, times: seq<int>, contains: Contains)
    requires FullyAnswered(line) && RowOfPods(row, line, times, contains, |PodsOf(line)|)
    ensures RowOfCounts(Add(row, ContainersOf(PodsOf(line)), times, contains, Containers), line, times, contains)
  {
    var pods := PodsOf(line);
    assert pods[..|pods|] == pods;
    forall s | 0 <= s < |times|
      ensures Hits(ContainersOf(pods), times[s], contains) == ContainersWith(pods, |pods|, times[s], contains)
    {
      ContainerHits(pods, |pods|, times[s], contains);
    }
  }

  /** What the pods of service i count for: all, or up to the failing query, or none. */
  ghost function CountedPods(lines: seq<ServiceLine>, k: nat, n: nat, i: nat): nat
    requires i < |lines|
  {
    if i < k then |PodsOf(lines[i])| else if i == k then n + 1 else 0
  }

  lemma {:induction false} SeenUntil(lines: seq<ServiceLine>, k: nat, n: nat, i: nat)
    requires FirstFailing(lines, k, n) && i < |lines|
    ensures CountedPods(lines, k, n, i) <= |PodsOf(lines[i])|
    ensures SeenAll(PodResults(lines))[i] == Texts(PodsOf(lines[i])[..CountedPods(lines, k, n, i)])
  {
    var pods := PodResults(lines);
    forall j | 0 <= j < k
      ensures Clean(pods[j])
    {
      assert FullyAnswered(lines[j]);
    }
    if i <= k {
      SeenAllAt(pods, i);
    } else {
      SeenAllAt(pods, k);
    }
    if i == k {
      SeenIsPrefix(pods[k], n);
    } else if i < k {
      assert pods[i][..|pods[i]|] == pods[i] && Clean(pods[i]);
      CleanSeen(pods[i]);
    }
  }

  /** A counted table: the total first, and a row of counts for every service. */
  ghost predicate Complete(list: seq<ServiceList>, lines: seq<ServiceLine>, times: seq<int>, contains: Contains) {
    && |list| == |lines| + 1 && TotalRow(list[0], times)
    && forall i :: 0 <= i < |lines| ==> RowOfCounts(list[i + 1], lines[i], times, contains)
  }

  /** A table whose count ended with pod n of service k: later services have zeros, and no container is counted. */
  ghost predicate Interrupted(list: seq<ServiceList>, lines: seq<ServiceLine>, times: seq<int>, contains: Contains,
                              k: nat, n: nat) {
    && |list| == |lines| + 1 && TotalRow(list[0], times)
    && AllAnswered(lines)
    && forall i :: 0 <= i < |lines| ==>
         RowOfPods(list[i + 1], lines[i], times, contains,
                   if i < k && lines[i].hasLabels then |lines[i].pods.value| else if i == k then n + 1 else 0)
  }

  /** Every service whose queries are all answered ends with the numbers of its pods and of their containers. */
  lemma {:induction false} FinalCounts(lines: seq<ServiceLine>, half: seq<ServiceList>, last: seq<ServiceList>,
                                       results: seq<seq<string>>, times: seq<int>, contains: Contains, i: nat)
    requires Failure(lines) == |lines| == |results| && AllClean(PodResults(lines)) && i < |lines|
    requires Counted(ZeroRows(lines, times), half, SeenAll(PodResults(lines)), times, contains, Pods)
    requires results[i] == ContainersOf(PodsOf(lines[i]))
    requires Shaped(half, times) && Counted(half, last, results, times, contains, Containers)
    ensures RowOfCounts(last[i + 1], lines[i], times, contains)
  {
    var pods := PodResults(lines);
    FailureMeans(lines);
    SeenAllAt(pods, i);
    CleanSeen(pods[i]);
    assert pods[i] == PodsOf(lines[i]) == pods[i][..|pods[i]|];
    PodsCounted(lines[i], times, contains, |pods[i]|);
    assert half[i + 1] == Add(ZeroRow(lines[i], times), Texts(pods[i]), times, contains, Pods);
    AllCounted(lines[i], half[i + 1], times, contains);
    assert last[i + 1] == Add(half[i + 1], results[i], times, contains, Containers);
  }

  lemma {:induction false} HalfCounts(lines: seq<ServiceLine>, half: seq<ServiceList>, times: seq<int>,
                                      contains: Contains, k: nat, n: nat)
    requires FirstFailing(lines, k, n)
    requires Counted(ZeroRows(lines, times), half, SeenAll(PodResults(lines)), times, contains, Pods)
    ensures Interrupted(half, lines, times, contains, k, n)
  {
    FailureMeans(lines);
    forall i | 0 <= i < |lines|
      ensures RowOfPods(half[i + 1], lines[i], times, contains,
                        if i < k && lines[i].hasLabels then |lines[i].pods.value| else if i == k then n + 1 else 0)
    {
      SeenUntil(lines, k, n, i);
      PodsCounted(lines[i], times, contains, CountedPods(lines, k, n, i));
      assert half[i + 1] ==
             Add(ZeroRow(lines[i], times), SeenAll(PodResults(lines))[i], times, contains, Pods);
    }
  }

  lemma {:induction false} AnsweredIff(lines: seq<ServiceLine>)
    ensures Failure(lines) == |lines| && AllClean(PodResults(lines)) <==>
            forall i :: 0 <= i < |lines| ==> FullyAnswered(lines[i])
  {
    FailureMeans(lines);
    forall i | 0 <= i < |lines| && Answered(lines[i])
      ensures FullyAnswered(lines[i]) <==> Clean(PodResults(lines)[i])
    {
    }
  }

  class DashboardInfo {
    var serviceCount: int
    var serviceListData: seq<ServiceList>

    constructor ()
      ensures serviceCount == 0 && serviceListData == []
    {
      serviceCount, serviceListData := 0, [];
    }

    /**
     One row per service, of zeros, and the pods of those that have labels. A failing query for
     the services leaves the table alone; one for pods leaves rows of zeros, and blank ones after it.
     */
    method GetServiceInfo(answer: Result<seq<ServiceLine>, QueryError>, times: seq<int>)
      returns (r: Result<seq<seq<PodLine>>, QueryError>)
      modifies this
      ensures answer.Err? ==> r == Err(answer.error) && unchanged(this)
      ensures answer.Ok? ==> serviceListData == ZeroRows(answer.value, times)
      ensures answer.Ok? && Failure(answer.value) == |answer.value| ==>
        r == Ok(PodResults(answer.value)) && serviceCount == old(serviceCount) + |answer.value|
      ensures answer.Ok? && Failure(answer.value) < |answer.value| ==>
        r.Err? && serviceCount == old(serviceCount) + Failure(answer.value) + 1
      ensures r.Ok? <==> answer.Ok? && AllAnswered(answer.value)
      ensures r.Ok? ==>
        ZerosUpTo(serviceListData, answer.value, times, |answer.value|) && AsAnswered(r.value, answer.value)
      ensures answer.Ok? ==> forall f: nat :: FirstUnanswered(answer.value, f) ==>
        serviceCount == old(serviceCount) + f + 1 && ZerosUpTo(serviceListData, answer.value, times, f)
    {
      if answer.Err? {
        return Err(answer.error);
      }
      var lines := answer.value;
      InfoMeans(lines, times);
      var logs := MakeLogs(times);
      serviceListData := seq(|lines| + 1, i => ServiceList("", []));
      serviceListData := serviceListData[0 := ServiceList("total", logs)];
      var podResults := seq(|lines|, i => []);
      for i := 0 to |lines|
        invariant i <= Failure(lines) && serviceCount == old(serviceCount) + i
        invariant RowsUpTo(serviceListData, lines, times, i)
        invariant PodsUpTo(podResults, lines, i)
      {
        FailureIsFirst(lines, i);
        serviceCount := serviceCount + 1;
        FillRow(i, lines, times);
        if lines[i].hasLabels {
          if lines[i].pods.Err? {
            RowsDone(serviceListData, lines, times, i + 1);
            return Err(lines[i].pods.error);
          }
          podResults := podResults[i := lines[i].pods.value];
        }
      }
      RowsDone(serviceListData, lines, times, |lines|);
      assert podResults == PodResults(lines);
      r := Ok(podResults);
    }

    /** The row of a service: its name, and counters if it has labels. */
    method FillRow(i: nat, lines: seq<ServiceLine>, times: seq<int>)
      requires i < |lines| && RowsUpTo(serviceListData, lines, times, i)
      modifies this`serviceListData
      ensures RowsUpTo(serviceListData, lines, times, i + 1)
    {
      serviceListData := serviceListData[i + 1 := serviceListData[i + 1].(name := lines[i].name)];
      if lines[i].hasLabels {
        var logs := MakeLogs(times);
        serviceListData := serviceListData[i + 1 := serviceListData[i + 1].(serviceLogsData := logs)];
      }
    }

    /** The pods of the first i services are in place. */
    static ghost predicate PodsUpTo(podResults: seq<seq<PodLine>>, lines: seq<ServiceLine>, i: nat) {
      && |podResults| == |lines|
      && forall k :: 0 <= k < |lines| ==> podResults[k] == if k < i then PodsOf(lines[k]) else []
    }

    /** One line is looked through for every timestamp; its service and the total count each hit. */
    method CountLine(i: nat, line: string, times: seq<int>, contains: Contains, counter: Counter)
      requires Shaped(serviceListData, times) && i + 1 < |serviceListData|
      requires |serviceListData[i + 1].serviceLogsData| == |times|
      modifies this`serviceListData
      ensures serviceListData == AddTo(old(serviceListData), i, [line], times, contains, counter)
    {
      ghost var total, row := serviceListData[0], serviceListData[i + 1];
      for s := 0 to |times|
        invariant |serviceListData| == old(|serviceListData|)
        invariant forall k :: 0 < k < |serviceListData| && k != i + 1 ==> serviceListData[k] == old(serviceListData[k])
        invariant serviceListData[0] == total.(serviceLogsData := serviceListData[0].serviceLogsData)
        invariant serviceListData[i + 1] == row.(serviceLogsData := serviceListData[i + 1].serviceLogsData)
        invariant Partly(total.serviceLogsData, serviceListData[0].serviceLogsData, line, times, contains, counter, s)
        invariant Partly(row.serviceLogsData, serviceListData[i + 1].serviceLogsData, line, times, contains, counter, s)
      {
        if contains(line, times[s]) {
          var logs := serviceListData[0].serviceLogsData;
          logs := logs[s := Plus(logs[s], counter, 1)];
          serviceListData := serviceListData[0 := serviceListData[0].(serviceLogsData := logs)];
          logs := serviceListData[i + 1].serviceLogsData;
          logs := logs[s := Plus(logs[s], counter, 1)];
          serviceListData := serviceListData[i + 1 := serviceListData[i + 1].(serviceLogsData := logs)];
        }
        HitsOne(line, times[s], contains);
      }
      PartlyAll(total, serviceListData[0].serviceLogsData, line, times, contains, counter);
      PartlyAll(row, serviceListData[i + 1].serviceLogsData, line, times, contains, counter);
    }

    /** Once all timestamps have been looked for the row has its hits. */
    static lemma {:induction false} PartlyAll(row: ServiceList, after: seq<ServiceLogs>, line: string, times: seq<int>,
                                              contains: Contains, counter: Counter)
      requires Partly(row.serviceLogsData, after, line, times, contains, counter, |times|)
      ensures row.(serviceLogsData := after) == Add(row, [line], times, contains, counter)
    {
      assert after == Add(row, [line], times, contains, counter).serviceLogsData;
    }

    /** The first s timestamps have been looked for. */
    static ghost predicate Partly(before: seq<ServiceLogs>, after: seq<ServiceLogs>, line: string, times: seq<int>,
                                  contains: Contains, counter: Counter, s: nat)
      requires s <= |times|
    {
      && |before| == |after| == |times|
      && (forall k :: 0 <= k < s ==> after[k] == Plus(before[k], counter, Hits([line], times[k], contains)))
      && forall k :: s <= k < |times| ==> after[k] == before[k]
    }

    /** The lines of one service. */
    method CountLines(i: nat, lines: seq<string>, times: seq<int>, contains: Contains, counter: Counter)
      requires Shaped(serviceListData, times) && i + 1 < |serviceListData|
      requires lines != [] ==> |serviceListData[i + 1].serviceLogsData| == |times|
      modifies this`serviceListData
      ensures serviceListData == AddTo(old(serviceListData), i, lines, times, contains, counter)
    {
      ghost var before := serviceListData;
      AddToNothing(before, i, times, contains, counter);
      for j := 0 to |lines|
        invariant serviceListData == AddTo(before, i, lines[..j], times, contains, counter)
      {
        AddToTwice(before, i, lines[..j], [lines[j]], times, contains, counter);
        assert lines[..j + 1] == lines[..j] + [lines[j]];
        CountLine(i, lines[j], times, contains, counter);
      }
      assert lines[..|lines|] == lines;
    }

    /** The containers of all pods, service by service. */
    method CountContainer(times: seq<int>, containerResults: seq<seq<string>>, contains: Contains)
      requires Allocated(serviceListData, containerResults, times)
      modifies this`serviceListData
      ensures Counted(old(serviceListData), serviceListData, containerResults, times, contains, Containers)
    {
      ghost var before := serviceListData;
      AddNothing(before[0], times, contains, Containers);
      for i := 0 to |containerResults|
        invariant Underway(before, serviceListData, containerResults[..i], times, contains, Containers)
      {
        ghost var now := serviceListData;
        CountLines(i, containerResults[i], times, contains, Containers);
        UnderwayStep(before, now, serviceListData, containerResults[..i], containerResults[i], times, contains,
                     Containers);
        assert containerResults[..i + 1] == containerResults[..i] + [containerResults[i]];
      }
      assert containerResults[..|containerResults|] == containerResults;
    }

    /**
     The pods of all services. A failing query for a pod's containers ends the count after that
     pod, which has been counted.
     */
    method CountPod(times: seq<int>, podResults: seq<seq<PodLine>>, contains: Contains)
      returns (r: Result<seq<seq<string>>, QueryError>)
      requires Allocated(serviceListData, SeenAll(podResults), times)
      modifies this`serviceListData
      ensures Counted(old(serviceListData), serviceListData, SeenAll(podResults), times, contains, Pods)
      ensures r.Ok? <==> AllClean(podResults)
      ensures r.Ok? ==> |r.value| == |podResults|
      ensures r.Ok? ==> forall i :: 0 <= i < |podResults| ==> r.value[i] == ContainersOf(podResults[i])
    {
      ghost var before := serviceListData;
      ghost var seen := SeenAll(podResults);
      AddNothing(before[0], times, contains, Pods);
      var containerResults := seq(|podResults|, i => []);
      for i := 0 to |podResults|
        invariant Underway(before, serviceListData, seen[..i], times, contains, Pods)
        invariant ReadUpTo(podResults, containerResults, i)
      {
        SeenAllAt(podResults, i);
        ghost var now := serviceListData;
        var containers := CountPodsOf(i, podResults[i], times, contains);
        UnderwayStep(before, now, serviceListData, seen[..i], seen[i], times, contains, Pods);
        TakeNext(seen, i);
        if containers.Err? {
          UnderwayRest(before, serviceListData, seen, i + 1, times, contains, Pods);
          return Err(containers.error);
        }
        ReadNext(podResults, containerResults, i);
        containerResults := containerResults[i := containers.value];
      }
      assert seen[..|seen|] == seen;
      r := Ok(containerResults);
    }

    /** The pods of the first i services are clean, and their containers in place. */
    static ghost predicate ReadUpTo(pods: seq<seq<PodLine>>, results: seq<seq<string>>, i: nat) {
      && |results| == |pods|
      && forall k :: 0 <= k < i <= |pods| ==> Clean(pods[k]) && results[k] == ContainersOf(pods[k])
    }

    static lemma {:induction false} ReadNext(pods: seq<seq<PodLine>>, results: seq<seq<string>>, i: nat)
      requires i < |pods| && ReadUpTo(pods, results, i) && Clean(pods[i])
      ensures ReadUpTo(pods, results[i := ContainersOf(pods[i])], i + 1)
    {
    }

    /** The pods of one service, and the containers of those. */
    method CountPodsOf(i: nat, svc: seq<PodLine>, times: seq<int>, contains: Contains) returns (r: Result<seq<string>,
                       QueryError>)
      requires Shaped(serviceListData, times) && i + 1 < |serviceListData|
      requires Seen(svc) != [] ==> |serviceListData[i + 1].serviceLogsData| == |times|
      modifies this`serviceListData
      ensures serviceListData == AddTo(old(serviceListData), i, Seen(svc), times, contains, Pods)
      ensures if Clean(svc) then r == Ok(ContainersOf(svc)) else r.Err?
    {
      ghost var before := serviceListData;
      AddToNothing(before, i, times, contains, Pods);
      var containers := [];
      ghost var seen := [];
      for j := 0 to |svc|
        invariant Seen(svc) == seen + Seen(svc[j..])
        invariant Clean(svc) <==> Clean(svc[j..])
        invariant ContainersOf(svc) == containers + ContainersOf(svc[j..])
        invariant serviceListData == AddTo(before, i, seen, times, contains, Pods)
      {
        SeenStep(svc[j..], seen, containers);
        assert svc[j..][1..] == svc[j + 1..];
        AddToTwice(before, i, seen, [svc[j].text], times, contains, Pods);
        CountLine(i, svc[j].text, times, contains, Pods);
        seen := seen + [svc[j].text];
        if svc[j].containers.Err? {
          return Err(svc[j].containers.error);
        }
        containers := containers + svc[j].containers.value;
      }
      assert seen + [] == seen && containers + [] == containers;
      r := Ok(containers);
    }

    /** The three steps as the dashboard takes them; any failing query ends it. */
    method CollectServices(answer: Result<seq<ServiceLine>, QueryError>, times: seq<int>, contains: Contains)
      returns (r: Result<(), QueryError>)
      modifies this
      ensures r.Ok? <==> answer.Ok? && forall i :: 0 <= i < |answer.value| ==> FullyAnswered(answer.value[i])
      ensures answer.Ok? ==> Balanced(serviceListData, times, Pods) && Balanced(serviceListData, times, Containers)
      ensures r.Ok? ==> Complete(serviceListData, answer.value, times, contains)
      ensures answer.Ok? ==> forall k, n :: FirstFailing(answer.value, k, n) ==>
        Interrupted(serviceListData, answer.value, times, contains, k, n)
    {
      var podInfo := GetServiceInfo(answer, times);
      if answer.Ok? {
        ZeroRowsBalanced(answer.value, times, Pods);
        ZeroRowsBalanced(answer.value, times, Containers);
        AnsweredIff(answer.value);
      }
      if podInfo.Err? {
        return Err(podInfo.error);
      }
      ghost var zero := serviceListData;
      ghost var seen := SeenAll(podInfo.value);
      SeenAllocated(answer.value, times);
      var containerInfo := CountPod(times, podInfo.value, contains);
      ghost var half := serviceListData;
      CountingKeepsBalance(zero, half, seen, times, contains, Pods, Pods);
      CountingKeepsBalance(zero, half, seen, times, contains, Pods, Containers);
      if containerInfo.Err? {
        forall k, n | FirstFailing(answer.value, k, n)
          ensures Interrupted(half, answer.value, times, contains, k, n)
        {
          HalfCounts(answer.value, half, times, contains, k, n);
        }
        return Err(containerInfo.error);
      }
      ContainersAllocated(answer.value, half, containerInfo.value, times, contains);
      CountContainer(times, containerInfo.value, contains);
      CountingKeepsBalance(half, serviceListData, containerInfo.value, times, contains, Containers, Containers);
      CountingKeepsBalance(half, serviceListData, containerInfo.value, times, contains, Containers, Pods);
      forall i | 0 <= i < |answer.value|
        ensures RowOfCounts(serviceListData[i + 1], answer.value[i], times, contains)
      {
        FinalCounts(answer.value, half, serviceListData, containerInfo.value, times, contains, i);
      }
      r := Ok(());
    }
  }
}
