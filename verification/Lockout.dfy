/**
 The sign-in lockout counter of the API server: one record per principal, kept in
 a memory cache whose entries live 300 seconds after their last write.

 Time is an integer number of nanoseconds.  One call of CheckAuthFailedTimes reads
 the clock up to six times; the readings are inputs, ordered but otherwise free.
 */
module Lockout {

  const SECOND: int := 1_000_000_000
  const DEFAULT_FAILED_TIMES: int := 10
  const DEFAULT_DENY_DURATION: int := 120
  const STORE_SECONDS: int := 300

  datatype AuthCheckResult = AuthCheckResult(
    timeNow: int,
    failedTimes: int,
    blocked: bool,
    timeElapsed: int,
    timeRemain: int)

  const ZERO_RESULT := AuthCheckResult(0, 0, false, 0, 0)

  datatype Item = Item(val: AuthCheckResult, createdTime: int) {
    predicate Expired(now: int) {
      now - createdTime > STORE_SECONDS * SECOND
    }
  }

  type Store = map<string, Item>

  /** The clock readings of one call, in program order: the existence test, the
      lookup, the start of a block, the elapsed time, the unlock, the write back. */
  datatype Readings = Readings(exist: int, get: int, block: int, since: int, unlock: int, put: int) {
    ghost predicate Ordered() {
      exist <= get <= block <= since <= unlock <= put
    }
  }

  // ---------- What one attempt does to a live record ----------

  /** Durations are never negative in a plausible call, so rounding down is truncation. */
  function WholeSeconds(duration: int): int {
    duration / SECOND
  }

  /** A block started now, or kept from an earlier attempt. */
  function BlockStart(r: AuthCheckResult, t: Readings): int {
    if r.blocked then r.timeNow else t.block
  }

  ghost predicate Plausible(r: AuthCheckResult, t: Readings) {
    t.Ordered() && (r.blocked ==> r.timeNow <= t.exist)
  }

  /** The second of the block an attempt is recorded at; frozen once it reads 120. */
  function RecordedSecond(r: AuthCheckResult, t: Readings): int {
    if r.timeElapsed < DEFAULT_DENY_DURATION then WholeSeconds(t.since - BlockStart(r, t)) else r.timeElapsed
  }

  function Bump(r: AuthCheckResult, t: Readings): AuthCheckResult {
    var n := r.failedTimes + 1;
    if n < DEFAULT_FAILED_TIMES then
      r.(failedTimes := n)
    else if RecordedSecond(r, t) <= DEFAULT_DENY_DURATION then
      AuthCheckResult(BlockStart(r, t), n, r.blocked || r.timeElapsed < DEFAULT_DENY_DURATION,
                      RecordedSecond(r, t), DEFAULT_DENY_DURATION - RecordedSecond(r, t))
    else
      AuthCheckResult(t.unlock, 0, false, 0, 0)
  }

  // ---------- The store ----------

  predicate Live(s: Store, p: string, now: int) {
    p in s && !s[p].Expired(now)
  }

  /** The entry expired between the existence test and the lookup. */
  predicate Lost(s: Store, p: string, t: Readings) {
    Live(s, p, t.exist) && !Live(s, p, t.get)
  }

  ghost predicate PlausibleFor(s: Store, p: string, t: Readings) {
    t.Ordered() && (p in s ==> Plausible(s[p].val, t))
  }

  function Checked(s: Store, p: string, t: Readings): AuthCheckResult {
    if Live(s, p, t.get) && Live(s, p, t.exist) then Bump(s[p].val, t) else ZERO_RESULT
  }

  function StoreAfterCheck(s: Store, p: string, t: Readings): Store {
    if Lost(s, p, t) then s else s[p := Item(Checked(s, p, t), t.put)]
  }

  class TemporaryStore {
    var items: Store

    constructor ()
      ensures items == map[]
    {
      items := map[];
    }

    method CheckAuthFailedTimes(principal: string, t: Readings) returns (result: AuthCheckResult)
      requires PlausibleFor(items, principal, t)
      modifies this
      ensures result == Checked(old(items), principal, t)
      ensures items == StoreAfterCheck(old(items), principal, t)
    {
      result := ZERO_RESULT;
      if principal in items && !items[principal].Expired(t.exist) {
        if principal in items && !items[principal].Expired(t.get) {
          var r := items[principal].val;
          r := r.(failedTimes := r.failedTimes + 1);
          if r.failedTimes >= DEFAULT_FAILED_TIMES {
            if !r.blocked {
              r := r.(timeNow := t.block);
            }
            if r.timeElapsed < DEFAULT_DENY_DURATION {
              r := r.(blocked := true, timeElapsed := WholeSeconds(t.since - r.timeNow));
            }
            var timeRemain := DEFAULT_DENY_DURATION - r.timeElapsed;
            if timeRemain >= 0 {
              r := r.(timeRemain := timeRemain);
            } else {
              r := AuthCheckResult(t.unlock, 0, false, 0, 0);
            }
          }
          items := items[principal := Item(r, t.put)];
          result := r;
        }
      } else {
        items := items[principal := Item(result, t.put)];
      }
    }

    /** Deleting an absent key is an error. */
    method ResetAuthFailedTimes(principal: string) returns (ok: bool)
      modifies this
      ensures ok == (principal in old(items))
      ensures items == old(items) - {principal}
    {
      ok := principal in items;
      items := items - {principal};
    }
  }

  // ---------- What every record keeps ----------

  ghost predicate GoodRecord(r: AuthCheckResult) {
    && 0 <= r.failedTimes
    && (r.blocked <==> r.failedTimes >= DEFAULT_FAILED_TIMES)
    && 0 <= r.timeElapsed <= DEFAULT_DENY_DURATION
    && (r.blocked ==> r.timeRemain == DEFAULT_DENY_DURATION - r.timeElapsed)
    && (!r.blocked ==> r.timeElapsed == 0 && r.timeRemain == 0)
  }

  ghost predicate GoodItem(i: Item) {
    && GoodRecord(i.val)
    && (i.val.blocked ==> i.val.timeNow <= i.createdTime)
  }

  lemma {:induction false} BumpKeepsRecord(r: AuthCheckResult, t: Readings)
    requires GoodRecord(r) && Plausible(r, t)
    ensures GoodRecord(Bump(r, t))
    ensures Bump(r, t).blocked ==> Bump(r, t).timeNow <= t.put
    ensures r.blocked && Bump(r, t).blocked ==> Bump(r, t).timeNow == r.timeNow
  {
  }

  // ---------- One block, from its start to its end ----------

  /** r is a record inside a block, and ts are later attempts that all find it alive. */
  ghost predicate InBlock(r: AuthCheckResult, ts: seq<Readings>) {
    && GoodRecord(r) && r.blocked
    && forall t :: t in ts ==> t.Ordered() && r.timeNow <= t.exist
  }

  /** Every one of the attempts ts, made one after the other, is refused. */
  ghost predicate AllRefused(r: AuthCheckResult, ts: seq<Readings>)
    requires InBlock(r, ts)
    decreases |ts|
  {
    ts == [] ||
    (assert ts[0] in ts;
     BumpKeepsRecord(r, ts[0]);
     Bump(r, ts[0]).blocked && AllRefused(Bump(r, ts[0]), ts[1..]))
  }

  ghost function SecondOf(r: AuthCheckResult, t: Readings): int {
    (t.since - r.timeNow) / SECOND
  }

  /** Each attempt past second 120 comes after one made during second 120. */
  ghost predicate TouchedAt120(r: AuthCheckResult, ts: seq<Readings>) {
    forall k :: 0 <= k < |ts| && SecondOf(r, ts[k]) > DEFAULT_DENY_DURATION ==>
      exists i :: 0 <= i < k && SecondOf(r, ts[i]) == DEFAULT_DENY_DURATION
  }

  /** Once the elapsed time reads 120 it is frozen: no later attempt ends the block. */
  lemma {:induction false} FrozenBlockNeverEnds(r: AuthCheckResult, ts: seq<Readings>)
    requires InBlock(r, ts) && r.timeElapsed == DEFAULT_DENY_DURATION
    ensures AllRefused(r, ts)
    decreases |ts|
  {
    if ts != [] {
      assert ts[0] in ts;
      BumpKeepsRecord(r, ts[0]);
      FrozenBlockNeverEnds(Bump(r, ts[0]), ts[1..]);
    }
  }

  /** A block that has not reached second 120 refuses every attempt of ts exactly
      when TouchedAt120: the deny duration ends the block only if nobody tried during its last second. */
  lemma {:induction false} BlockEndsUnlessTouchedAt120(r: AuthCheckResult, ts: seq<Readings>)
    requires InBlock(r, ts) && r.timeElapsed < DEFAULT_DENY_DURATION
    ensures AllRefused(r, ts) <==> TouchedAt120(r, ts)
    decreases |ts|
  {
    if ts != [] {
      assert ts[0] in ts;
      BumpKeepsRecord(r, ts[0]);
      var next, rest := Bump(r, ts[0]), ts[1..];
      if SecondOf(r, ts[0]) < DEFAULT_DENY_DURATION {
        BlockEndsUnlessTouchedAt120(next, rest);
        assert TouchedAt120(next, rest) <==> TouchedAt120(r, rest);
      } else if SecondOf(r, ts[0]) == DEFAULT_DENY_DURATION {
        FrozenBlockNeverEnds(next, rest);
      } else {
        assert !TouchedAt120(r, ts);
      }
    }
  }

  // ---------- Whole runs over many principals ----------

  /** A sign-in attempt, or the reset that follows a successful one. */
  datatype Event = Attempt(principal: string, t: Readings) | Reset(principal: string)

  ghost predicate AttemptOf(run: seq<Event>, k: nat, p: string) {
    k < |run| && run[k].Attempt? && run[k].principal == p
  }

  /** Attempt i of a principal is over before its attempt j starts. */
  ghost predicate Precedes(run: seq<Event>, i: nat, j: nat)
    requires i < j < |run|
  {
    run[i].Attempt? && AttemptOf(run, j, run[i].principal) ==> run[i].t.put <= run[j].t.exist
  }

  /** Attempts of one principal happen one after the other. */
  ghost predicate WellTimed(run: seq<Event>) {
    && (forall i :: 0 <= i < |run| && run[i].Attempt? ==> run[i].t.Ordered())
    && (forall i, j :: 0 <= i < j < |run| ==> Precedes(run, i, j))
  }

  /** Each record of the store is good and was written by one of the first k events, an attempt of its principal. */
  ghost predicate Explained(s: Store, run: seq<Event>, k: nat) {
    forall p :: p in s ==> GoodItem(s[p]) && WrittenBefore(run, k, p, s[p].createdTime)
  }

  ghost predicate WrittenBefore(run: seq<Event>, k: nat, p: string, time: int) {
    exists i: nat :: i < k && AttemptOf(run, i, p) && run[i].t.put == time
  }

  function Apply(s: Store, e: Event): Store {
    match e
    case Attempt(p, t) => StoreAfterCheck(s, p, t)
    case Reset(p) => s - {p}
  }

  /** The store after the first k events of a run from an empty store. */
  ghost function StoreAt(run: seq<Event>, k: nat): Store
    requires k <= |run|
  {
    if k == 0 then map[] else Apply(StoreAt(run, k - 1), run[k - 1])
  }

  lemma {:induction false} StoreAtPrefix(before: seq<Event>, after: seq<Event>, k: nat)
    requires k <= |before|
    ensures StoreAt(before + after, k) == StoreAt(before, k)
  {
    if k > 0 {
      StoreAtPrefix(before, after, k - 1);
    }
  }

  /** In every well-timed run every record is good: blocked exactly from ten failures on, the elapsed
      time within the deny duration, and counting down what remains of it while blocked. */
  lemma {:induction false} StoreIsGood(run: seq<Event>, k: nat)
    requires WellTimed(run) && k <= |run|
    ensures Explained(StoreAt(run, k), run, k)
    ensures k < |run| && run[k].Attempt? ==> PlausibleFor(StoreAt(run, k), run[k].principal, run[k].t)
  {
    if k > 0 {
      StoreIsGood(run, k - 1);
    }
    NextIsPlausible(StoreAt(run, k), run, k);
  }

  lemma {:induction false} NextIsPlausible(s: Store, run: seq<Event>, k: nat)
    requires WellTimed(run) && k <= |run| && Explained(s, run, k)
    ensures k < |run| && run[k].Attempt? ==> PlausibleFor(s, run[k].principal, run[k].t)
  {
    if k < |run| && run[k].Attempt? && run[k].principal in s {
      var p := run[k].principal;
      var i: nat :| i < k && AttemptOf(run, i, p) && run[i].t.put == s[p].createdTime;
      assert Precedes(run, i, k);
    }
  }

  // ---------- The rate bound ----------

  /** Attempt k was left unblocked. */
  ghost predicate Unblocked(run: seq<Event>, k: nat, p: string)
    requires k < |run|
  {
    AttemptOf(run, k, p) && !Checked(StoreAt(run, k), p, run[k].t).blocked
  }

  ghost function CountUnblocked(run: seq<Event>, p: string, i: nat, j: nat): nat
    requires i <= j <= |run|
  {
    if i == j then 0
    else CountUnblocked(run, p, i, j - 1) + if Unblocked(run, j - 1, p) then 1 else 0
  }

  /** The attempts of p in run[i..j] start at attempt i, see no reset, and all end within 121 seconds of its start. */
  ghost predicate Window(run: seq<Event>, p: string, i: nat, j: nat) {
    && WellTimed(run) && i < j <= |run| && AttemptOf(run, i, p)
    && (forall k :: i <= k < j ==> run[k] != Reset(p))
    && (forall k :: i <= k < j && AttemptOf(run, k, p) ==> run[k].t.put < run[i].t.exist + 121 * SECOND)
  }

  /** One extra unblocked answer is possible when the entry expires inside the very first attempt. */
  ghost function Slack(run: seq<Event>, p: string, i: nat): nat
    requires AttemptOf(run, i, p)
  {
    if Lost(StoreAt(run, i), p, run[i].t) then 1 else 0
  }

  ghost predicate WindowState(s: Store, p: string, start: int, count: nat, slack: nat, now: int) {
    && p in s
    && var r := s[p].val;
       || (slack == 1 && count == 1 && !Live(s, p, now))
       || (s[p].createdTime >= start &&
           if !r.blocked then count <= r.failedTimes + 1 + slack
           else if r.timeNow >= start then count <= DEFAULT_FAILED_TIMES + slack
           else count == 0 && slack == 0)
  }

  /** A store in mid-window meets one more attempt of p that ends before start + 121 seconds. */
  lemma {:induction false} WindowAttempt(s: Store, p: string, t: Readings, start: int, count: nat, slack: nat, now: int)
    requires WindowState(s, p, start, count, slack, now) && PlausibleFor(s, p, t) && GoodItem(s[p]) && slack <= 1
    requires start <= now <= t.exist && t.put < start + 121 * SECOND
    ensures WindowState(StoreAfterCheck(s, p, t), p, start,
                        count + if Checked(s, p, t).blocked then 0 else 1, slack, t.put)
  {
    if Live(s, p, t.exist) && Live(s, p, t.get) {
      BumpKeepsRecord(s[p].val, t);
    }
  }

  ghost function LastAttempt(run: seq<Event>, p: string, i: nat, j: nat): (k: nat)
    requires i < j <= |run| && AttemptOf(run, i, p)
    ensures i <= k < j && AttemptOf(run, k, p)
  {
    if j == i + 1 || AttemptOf(run, j - 1, p) then j - 1 else LastAttempt(run, p, i, j - 1)
  }

  ghost predicate WindowOk(run: seq<Event>, p: string, i: nat, j: nat)
    requires Window(run, p, i, j)
  {
    WindowState(StoreAt(run, j), p, run[i].t.exist, CountUnblocked(run, p, i, j),
                Slack(run, p, i), run[LastAttempt(run, p, i, j)].t.put)
  }

  lemma {:induction false} EarlierEnd(run: seq<Event>, p: string, i: nat, k: nat, j: nat)
    requires WellTimed(run) && i <= k < j < |run| && AttemptOf(run, i, p) && AttemptOf(run, k, p)
    ensures run[i].t.exist <= run[k].t.put
    ensures AttemptOf(run, j, p) ==> run[k].t.put <= run[j].t.exist
  {
    assert Precedes(run, k, j);
    if i < k {
      assert Precedes(run, i, k);
    }
  }

  /** One more event of the run, an attempt of p or not. */
  lemma {:induction false} WindowStep(run: seq<Event>, p: string, i: nat, j: nat)
    requires Window(run, p, i, j) && Window(run, p, i, j + 1)
    requires WindowOk(run, p, i, j)
    ensures WindowOk(run, p, i, j + 1)
  {
    StoreIsGood(run, j);
    var last := LastAttempt(run, p, i, j);
    EarlierEnd(run, p, i, last, j);
    if AttemptOf(run, j, p) {
      WindowAttempt(StoreAt(run, j), p, run[j].t, run[i].t.exist, CountUnblocked(run, p, i, j), Slack(run, p, i),
                    run[last].t.put);
    }
  }

  lemma {:induction false} WindowInvariant(run: seq<Event>, p: string, i: nat, j: nat)
    requires Window(run, p, i, j)
    ensures WindowOk(run, p, i, j)
    decreases j
  {
    if j == i + 1 {
      StoreIsGood(run, i);
      assert CountUnblocked(run, p, i, i) == 0;
      if Live(StoreAt(run, i), p, run[i].t.exist) && Live(StoreAt(run, i), p, run[i].t.get) {
        BumpKeepsRecord(StoreAt(run, i)[p].val, run[i].t);
      }
    } else {
      WindowInvariant(run, p, i, j - 1);
      WindowStep(run, p, i, j - 1);
    }
  }

  /** Eleven attempts of one principal left unblocked, with no successful sign-in among
      the attempts i to j - 1, take at least 121 seconds from the first to the last;
      twelve are needed if the entry expired between the two cache reads of attempt i. */
  lemma {:induction false} RateBound(run: seq<Event>, p: string, i: nat, j: nat)
    requires WellTimed(run) && i < j <= |run| && AttemptOf(run, i, p) && AttemptOf(run, j - 1, p)
    requires forall k :: i <= k < j ==> run[k] != Reset(p)
    requires CountUnblocked(run, p, i, j) >= 11 + Slack(run, p, i)
    ensures run[j - 1].t.put - run[i].t.exist >= 121 * SECOND
  {
    if run[j - 1].t.put - run[i].t.exist < 121 * SECOND {
      forall k | i <= k < j && AttemptOf(run, k, p)
        ensures run[k].t.put <= run[j - 1].t.put
      {
        if k < j - 1 {
          assert Precedes(run, k, j - 1);
        }
      }
      WindowInvariant(run, p, i, j);
      StoreIsGood(run, j);
    }
  }

  // ---------- Why the eleventh needs the proviso ----------

  /** A first attempt; 300 seconds later one whose entry expires between the two cache
      reads; ten more at the very next nanosecond. */
  ghost function ExpiryRun(p: string): seq<Event> {
    var late := STORE_SECONDS * SECOND;
    seq(12, k => Attempt(p, if k == 0 then Readings(0, 0, 0, 0, 0, 0)
                            else if k == 1 then Readings(late, late + 1, late + 1, late + 1, late + 1, late + 1)
                            else Readings(late + 1, late + 1, late + 1, late + 1, late + 1, late + 1)))
  }

  lemma {:induction false} ExpiryRunAt(p: string, n: nat)
    requires n <= 9
    ensures WellTimed(ExpiryRun(p))
    ensures StoreAt(ExpiryRun(p), 3 + n) ==
            map[p := Item(AuthCheckResult(0, n, false, 0, 0), STORE_SECONDS * SECOND + 1)]
    ensures CountUnblocked(ExpiryRun(p), p, 1, 3 + n) == 2 + n
  {
    var run := ExpiryRun(p);
    if n == 0 {
      assert StoreAt(run, 1) == map[p := Item(ZERO_RESULT, 0)];
      assert StoreAt(run, 2) == StoreAt(run, 1);
      assert CountUnblocked(run, p, 1, 1) == 0;
      assert Unblocked(run, 1, p);
      assert CountUnblocked(run, p, 1, 2) == 1;
    } else {
      ExpiryRunAt(p, n - 1);
      assert Unblocked(run, 2 + n, p);
    }
  }

  /** Eleven unblocked attempts in one nanosecond, the first of them with an expiring entry. */
  lemma {:induction false} ElevenInOneNanosecond(p: string)
    ensures var run := ExpiryRun(p);
            && WellTimed(run) && |run| == 12
            && (forall k :: 0 <= k < 12 ==> AttemptOf(run, k, p))
            && Slack(run, p, 1) == 1 && CountUnblocked(run, p, 1, 12) == 11
            && run[11].t.put - run[1].t.exist == 1
  {
    ExpiryRunAt(p, 9);
    assert StoreAt(ExpiryRun(p), 1) == map[p := Item(ZERO_RESULT, 0)];
  }
}
