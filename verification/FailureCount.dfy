/**
 What the failure count of a principal means in a run: the attempts since its record began, that is since its
 entry started or its last block ended.
 */
module FailureCount {
  import opened Lockout

  /** Attempt k found an entry and kept it: the entry did not expire between the two reads of the store. */
  ghost predicate Kept(run: seq<Event>, p: string, k: nat)
    requires k < |run|
  {
    AttemptOf(run, k, p) && !Lost(StoreAt(run, k), p, run[k].t)
  }

  ghost function CountKept(run: seq<Event>, p: string, i: nat, j: nat): nat
    requires i <= j <= |run|
  {
    if i == j then 0 else CountKept(run, p, i, j - 1) + if Kept(run, p, j - 1) then 1 else 0
  }

  /** Attempt k finds no entry of p, or one last written more than 300 seconds ago. */
  ghost predicate StartsEntry(run: seq<Event>, p: string, k: nat) {
    AttemptOf(run, k, p) &&
    var s := StoreAt(run, k); p in s ==> run[k].t.exist - s[p].createdTime > 300_000_000_000
  }

  /** Attempt k is left unblocked although p had failed nine times or more. */
  ghost predicate EndsBlock(run: seq<Event>, p: string, k: nat) {
    AttemptOf(run, k, p) && Kept(run, p, k) && Unblocked(run, k, p) &&
    var s := StoreAt(run, k); p in s && s[p].val.failedTimes >= 9
  }

  ghost predicate Begins(run: seq<Event>, p: string, k: nat) {
    StartsEntry(run, p, k) || EndsBlock(run, p, k)
  }

  /** Attempt i is the latest among the first k events at which the record of p began, and no reset came after it. */
  ghost predicate LatestBegin(run: seq<Event>, p: string, i: nat, k: nat) {
    && i < k <= |run| && Begins(run, p, i)
    && forall j :: i < j < k ==> !Begins(run, p, j) && run[j] != Reset(p)
  }

  ghost predicate Counted(run: seq<Event>, p: string, i: nat, k: nat) {
    && LatestBegin(run, p, i, k) && p in StoreAt(run, k)
    && StoreAt(run, k)[p].val.failedTimes == CountKept(run, p, i + 1, k)
  }

  lemma {:induction false} CountedStep(run: seq<Event>, p: string, i: nat, k: nat)
    requires WellTimed(run) && k < |run| && Counted(run, p, i, k) && run[k] != Reset(p) && !Begins(run, p, k)
    ensures Counted(run, p, i, k + 1)
  {
    StoreIsGood(run, k);
  }

  lemma {:induction false} CountedStart(run: seq<Event>, p: string, k: nat)
    requires k < |run| && Begins(run, p, k)
    requires p in StoreAt(run, k) ==> GoodRecord(StoreAt(run, k)[p].val)
    ensures Counted(run, p, k, k + 1)
  {
    assert CountKept(run, p, k + 1, k + 1) == 0;
  }

  /** In every well-timed run the failure count of a principal is the number of its attempts since its record began,
      less those that lost the entry. */
  lemma {:induction false} FailuresCounted(run: seq<Event>, p: string, k: nat) returns (i: nat)
    requires WellTimed(run) && k <= |run| && p in StoreAt(run, k)
    ensures LatestBegin(run, p, i, k)
    ensures StoreAt(run, k)[p].val.failedTimes == CountKept(run, p, i + 1, k)
  {
    StoreIsGood(run, k - 1);
    if Begins(run, p, k - 1) {
      i := k - 1;
      CountedStart(run, p, i);
    } else {
      assert run[k - 1] != Reset(p);
      i := FailuresCounted(run, p, k - 1);
      CountedStep(run, p, i, k - 1);
    }
  }

  lemma {:induction false} CountKeptMonotone(run: seq<Event>, p: string, i: nat, i': nat, k: nat)
    requires i <= i' <= k <= |run|
    ensures CountKept(run, p, i', k) <= CountKept(run, p, i, k)
    decreases k
  {
    if i' < k {
      CountKeptMonotone(run, p, i, i', k - 1);
    }
  }

  /** From the start of an entry or the end of a block on, an attempt with at most eight such attempts in between is
      left unblocked; one with nine since the latest beginning is blocked unless it takes 121 seconds itself. */
  lemma {:induction false} NineAfterBegin(run: seq<Event>, p: string, i: nat, k: nat)
    requires WellTimed(run) && i < k < |run| && AttemptOf(run, k, p) && Begins(run, p, i)
    ensures CountKept(run, p, i + 1, k) <= 8 ==> Unblocked(run, k, p)
    ensures CountKept(run, p, i + 1, k) == 9 && LatestBegin(run, p, i, k) && Kept(run, p, k) && !StartsEntry(run, p, k)
            ==>
              (Unblocked(run, k, p) <==> run[k].t.since - run[k].t.block >= 121 * SECOND)
  {
    StoreIsGood(run, k);
    if p in StoreAt(run, k) {
      var i' := FailuresCounted(run, p, k);
      assert i <= i';
      CountKeptMonotone(run, p, i + 1, i' + 1, k);
    }
  }
}
