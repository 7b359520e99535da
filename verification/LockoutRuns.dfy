/**
 The lockout counter over whole runs: exactly when eleven attempts are enough for the
 rate bound, and exactly which attempts a block refuses.
 */
module LockoutRuns {
  import opened Lockout

  // ---------- When eleven attempts suffice ----------

  /** The last event of the run is an attempt of p. */
  ghost predicate EndsIn(run: seq<Event>, p: string) {
    run != [] && AttemptOf(run, |run| - 1, p)
  }

  /** The run goes on, without a reset of p, to another attempt of p. */
  ghost predicate GoesOnTo(run: seq<Event>, later: seq<Event>, p: string) {
    && 0 < |run| <= |later| && run == later[..|run|] && WellTimed(later)
    && AttemptOf(later, |later| - 1, p)
    && forall k :: |run| - 1 <= k < |later| ==> later[k] != Reset(p)
  }

  /** However the run goes on, eleven attempts left unblocked from its last one on take 121 seconds. */
  ghost predicate ElevenSuffice(run: seq<Event>, p: string)
    requires EndsIn(run, p)
  {
    forall later: seq<Event> :: GoesOnTo(run, later, p) && CountUnblocked(later, p, |run| - 1, |later|) >= 11 ==>
      later[|later| - 1].t.put - run[|run| - 1].t.exist >= 121 * SECOND
  }

  function Instant(time: int): Readings {
    Readings(time, time, time, time, time, time)
  }

  /** Attempts at one instant. */
  function Burst(p: string, time: int, n: nat): (r: seq<Event>)
    ensures |r| == n && forall i :: 0 <= i < n ==> r[i] == Attempt(p, Instant(time))
  {
    seq(n, i => Attempt(p, Instant(time)))
  }

  lemma {:induction false} BurstIsWellTimed(run: seq<Event>, p: string, n: nat)
    requires WellTimed(run) && EndsIn(run, p)
    ensures WellTimed(run + Burst(p, run[|run| - 1].t.put, n))
  {
    var last := |run| - 1;
    var later := run + Burst(p, run[last].t.put, n);
    forall i, j | 0 <= i < j < |later|
      ensures Precedes(later, i, j)
    {
      if j <= last {
        assert Precedes(run, i, j);
      } else if i < last && AttemptOf(run, i, p) {
        assert Precedes(run, i, last);
      }
    }
  }

  /** Ten attempts at the instant at which a lost one ends are all left unblocked. */
  lemma {:induction false} BurstAfterLost(run: seq<Event>, p: string, n: nat)
    requires WellTimed(run) && EndsIn(run, p) && 1 <= n <= 10
    requires Lost(StoreAt(run, |run| - 1), p, run[|run| - 1].t)
    ensures
      var time := run[|run| - 1].t.put;
      var later := run + Burst(p, time, 10);
      && p in StoreAt(later, |run| + n)
      && StoreAt(later, |run| + n)[p] == Item(AuthCheckResult(0, n - 1, false, 0, 0), time)
      && CountUnblocked(later, p, |run| - 1, |run| + n) == 1 + n
  {
    var last := |run| - 1;
    var t := run[last].t;
    var later := run + Burst(p, t.put, 10);
    assert later[|run| + n - 1] == Attempt(p, Instant(t.put));
    if n == 1 {
      StoreAtPrefix(run, Burst(p, t.put, 10), last);
      assert StoreAt(later, |run|) == StoreAt(run, last);
      assert CountUnblocked(later, p, last, last) == 0;
      assert Unblocked(later, last, p);
      assert CountUnblocked(later, p, last, |run|) == 1;
      assert Unblocked(later, |run|, p);
    } else {
      BurstAfterLost(run, p, n - 1);
      assert Unblocked(later, |run| + n - 1, p);
    }
  }

  /** Every run that loses its entry inside an attempt goes on to eleven unblocked attempts that end with that one. */
  lemma {:induction false} LostGoesOn(run: seq<Event>, p: string)
    requires WellTimed(run) && EndsIn(run, p)
    requires Lost(StoreAt(run, |run| - 1), p, run[|run| - 1].t)
    ensures
      var later := run + Burst(p, run[|run| - 1].t.put, 10);
      && GoesOnTo(run, later, p)
      && CountUnblocked(later, p, |run| - 1, |later|) == 11
      && later[|later| - 1].t.put == run[|run| - 1].t.put
  {
    BurstIsWellTimed(run, p, 10);
    BurstAfterLost(run, p, 10);
    var later := run + Burst(p, run[|run| - 1].t.put, 10);
    assert later[|run| - 1] == run[|run| - 1] && later[..|run|] == run;
  }

  /**
   Eleven attempts suffice from an attempt on, whatever follows, exactly if that attempt does not
   lose its entry between the two cache reads (or takes the whole 121 seconds itself).
   */
  lemma {:induction false} ElevenSufficeUnlessLost(run: seq<Event>, p: string)
    requires WellTimed(run) && EndsIn(run, p)
    ensures
      var t := run[|run| - 1].t;
      ElevenSuffice(run, p) <==> !Lost(StoreAt(run, |run| - 1), p, t) || t.put - t.exist >= 121 * SECOND
  {
    var last := |run| - 1;
    var t := run[last].t;
    if !Lost(StoreAt(run, last), p, t) || t.put - t.exist >= 121 * SECOND {
      forall later: seq<Event> | GoesOnTo(run, later, p) && CountUnblocked(later, p, last, |later|) >= 11
        ensures later[|later| - 1].t.put - t.exist >= 121 * SECOND
      {
        assert later == run + later[|run|..] && later[last] == run[last];
        StoreAtPrefix(run, later[|run|..], last);
        if Lost(StoreAt(run, last), p, t) {
          if last < |later| - 1 {
            assert Precedes(later, last, |later| - 1);
          }
        } else {
          assert Slack(later, p, last) == 0;
          RateBound(later, p, last, |later|);
        }
      }
    } else {
      LostGoesOn(run, p);
    }
  }

  // ---------- What a block refuses ----------

  /** The attempts of p from event k on, in order. */
  ghost function AttemptsOf(run: seq<Event>, p: string, k: nat, j: nat): seq<Readings>
    requires k <= j <= |run|
    decreases j - k
  {
    if k == j then [] else (if AttemptOf(run, k, p) then [run[k].t] else []) + AttemptsOf(run, p, k + 1, j)
  }

  /**
   Each attempt of p after attempt a comes within 300 seconds of the end of the one before it, and there is no
   reset.
   */
  ghost predicate Steady(run: seq<Event>, p: string, a: nat, j: nat)
    requires AttemptOf(run, a, p) && j <= |run|
  {
    && (forall k :: a < k < j ==> run[k] != Reset(p))
    && forall k :: a < k < j && AttemptOf(run, k, p) ==>
         run[k].t.get - run[LastAttempt(run, p, a, k)].t.put <= STORE_SECONDS * SECOND
  }

  /** No attempt of p from event k on is left unblocked. */
  ghost predicate RefusedFrom(run: seq<Event>, p: string, k: nat, j: nat)
    requires j <= |run|
  {
    forall i :: k <= i < j && AttemptOf(run, i, p) ==> !Unblocked(run, i, p)
  }

  /** Before event k the record of p is r, written by its last attempt. */
  ghost predicate RecordIs(run: seq<Event>, p: string, a: nat, k: nat, r: AuthCheckResult)
    requires AttemptOf(run, a, p) && a < k <= |run|
  {
    p in StoreAt(run, k) && StoreAt(run, k)[p] == Item(r, run[LastAttempt(run, p, a, k)].t.put)
  }

  lemma {:induction false} LaterAttempts(run: seq<Event>, p: string, a: nat, k: nat, j: nat)
    requires WellTimed(run) && AttemptOf(run, a, p) && a < k <= j <= |run|
    ensures forall t :: t in AttemptsOf(run, p, k, j) ==> t.Ordered() && run[LastAttempt(run, p, a, k)].t.put <= t.exist
    decreases j - k
  {
    if k < j {
      LaterAttempts(run, p, a, k + 1, j);
      var last := LastAttempt(run, p, a, k);
      assert Precedes(run, last, k);
    }
  }

  lemma {:induction false} RefusedStep(run: seq<Event>, p: string, k: nat, j: nat)
    requires k < j <= |run|
    ensures RefusedFrom(run, p, k, j) <==>
            (AttemptOf(run, k, p) ==> !Unblocked(run, k, p)) && RefusedFrom(run, p, k + 1, j)
  {
  }

  /** An attempt that keeps the entry alive answers with the next record of the block, and stores it. */
  lemma {:induction false} BlockStep(run: seq<Event>, p: string, a: nat, k: nat, j: nat, r: AuthCheckResult)
    requires AttemptOf(run, a, p) && a < k < j <= |run| && Steady(run, p, a, j)
    requires RecordIs(run, p, a, k, r) && (AttemptOf(run, k, p) ==> run[k].t.Ordered())
    ensures RecordIs(run, p, a, k + 1, if AttemptOf(run, k, p) then Bump(r, run[k].t) else r)
    ensures AttemptOf(run, k, p) ==> (Unblocked(run, k, p) <==> !Bump(r, run[k].t).blocked)
  {
    assert run[k] != Reset(p);
  }

  /** A block record after one attempt that stays refused is one of the same block for the attempts that follow. */
  lemma {:induction false} BlockRest(r: AuthCheckResult, ts: seq<Readings>)
    requires ts != [] && InBlock(r, ts)
    ensures Bump(r, ts[0]).blocked ==> InBlock(Bump(r, ts[0]), ts[1..])
    ensures AllRefused(r, ts) <==> Bump(r, ts[0]).blocked && AllRefused(Bump(r, ts[0]), ts[1..])
  {
    assert ts[0] in ts;
    BumpKeepsRecord(r, ts[0]);
    assert forall u :: u in ts[1..] ==> u in ts;
  }

  /** Before event k the record of p is one of a block, and the attempts up to j find it alive. */
  ghost predicate AtBlock(run: seq<Event>, p: string, a: nat, k: nat, j: nat, r: AuthCheckResult) {
    && WellTimed(run) && AttemptOf(run, a, p) && a < k <= j <= |run| && Steady(run, p, a, j)
    && RecordIs(run, p, a, k, r) && InBlock(r, AttemptsOf(run, p, k, j))
  }

  /** From event k on the run refuses p exactly if the block r refuses the attempts to come. */
  ghost predicate Agrees(run: seq<Event>, p: string, a: nat, k: nat, j: nat, r: AuthCheckResult)
    requires AtBlock(run, p, a, k, j, r)
  {
    RefusedFrom(run, p, k, j) <==> AllRefused(r, AttemptsOf(run, p, k, j))
  }

  /** An event of others changes nothing for the block. */
  lemma {:induction false} OthersPass(run: seq<Event>, p: string, a: nat, k: nat, j: nat, r: AuthCheckResult)
    requires AtBlock(run, p, a, k, j, r) && k < j && !AttemptOf(run, k, p)
    ensures AtBlock(run, p, a, k + 1, j, r)
    ensures Agrees(run, p, a, k + 1, j, r) ==> Agrees(run, p, a, k, j, r)
  {
    RefusedStep(run, p, k, j);
    BlockStep(run, p, a, k, j, r);
    assert AttemptsOf(run, p, k, j) == AttemptsOf(run, p, k + 1, j);
  }

  /** An attempt of p is refused exactly if the next record is one of the block, which then goes on from there. */
  lemma {:induction false} AttemptPasses(run: seq<Event>, p: string, a: nat, k: nat, j: nat, r: AuthCheckResult)
    requires AtBlock(run, p, a, k, j, r) && k < j && AttemptOf(run, k, p)
    ensures
      var next := Bump(r, run[k].t);
      && (!next.blocked ==> Agrees(run, p, a, k, j, r))
      && (next.blocked ==>
            AtBlock(run, p, a, k + 1, j, next) && (Agrees(run, p, a, k + 1, j, next) ==> Agrees(run, p, a, k, j, r)))
  {
    var ts, rest := AttemptsOf(run, p, k, j), AttemptsOf(run, p, k + 1, j);
    assert ts == [run[k].t] + rest && ts[0] == run[k].t && ts[1..] == rest;
    BlockRest(r, ts);
    RefusedStep(run, p, k, j);
    BlockStep(run, p, a, k, j, r);
  }

  /** While the record of p is one of a block, the run refuses what the block refuses. */
  lemma {:induction false} BlockFrom(run: seq<Event>, p: string, a: nat, k: nat, j: nat, r: AuthCheckResult)
    requires AtBlock(run, p, a, k, j, r)
    ensures Agrees(run, p, a, k, j, r)
    decreases j - k
  {
    if k == j {
      assert AttemptsOf(run, p, k, j) == [];
    } else if AttemptOf(run, k, p) {
      AttemptPasses(run, p, a, k, j, r);
      if Bump(r, run[k].t).blocked {
        BlockFrom(run, p, a, k + 1, j, Bump(r, run[k].t));
      }
    } else {
      OthersPass(run, p, a, k, j, r);
      BlockFrom(run, p, a, k + 1, j, r);
    }
  }

  /** The record that attempt a leaves behind. */
  ghost function Left(run: seq<Event>, p: string, a: nat): AuthCheckResult
    requires AttemptOf(run, a, p) && !Lost(StoreAt(run, a), p, run[a].t)
  {
    Checked(StoreAt(run, a), p, run[a].t)
  }

  lemma {:induction false} LeftInBlock(run: seq<Event>, p: string, a: nat, j: nat)
    requires WellTimed(run) && AttemptOf(run, a, p) && a < j <= |run| && !Lost(StoreAt(run, a), p, run[a].t)
    requires Left(run, p, a).blocked
    ensures RecordIs(run, p, a, a + 1, Left(run, p, a))
    ensures InBlock(Left(run, p, a), AttemptsOf(run, p, a + 1, j))
  {
    StoreIsGood(run, a);
    BumpKeepsRecord(StoreAt(run, a)[p].val, run[a].t);
    LaterAttempts(run, p, a, a + 1, j);
  }

  /**
   After an attempt that leaves p blocked short of second 120, the attempts that keep the entry
   alive are all refused exactly if none comes after second 120 before one is made in second 120.
   */
  lemma {:induction false} BlockInRun(run: seq<Event>, p: string, a: nat, j: nat)
    requires WellTimed(run) && AttemptOf(run, a, p) && a < j <= |run| && !Lost(StoreAt(run, a), p, run[a].t)
    requires Left(run, p, a).blocked && Steady(run, p, a, j)
    ensures Left(run, p, a).timeElapsed < DEFAULT_DENY_DURATION ==>
              (RefusedFrom(run, p, a + 1, j) <==> TouchedAt120(Left(run, p, a), AttemptsOf(run, p, a + 1, j)))
    ensures Left(run, p, a).timeElapsed == DEFAULT_DENY_DURATION ==> RefusedFrom(run, p, a + 1, j)
  {
    var r, ts := Left(run, p, a), AttemptsOf(run, p, a + 1, j);
    LeftInBlock(run, p, a, j);
    BlockFrom(run, p, a, a + 1, j, r);
    if r.timeElapsed < DEFAULT_DENY_DURATION {
      BlockEndsUnlessTouchedAt120(r, ts);
    } else if r.timeElapsed == DEFAULT_DENY_DURATION {
      FrozenBlockNeverEnds(r, ts);
    }
  }

  // ---------- A block that never ends ----------

  /** Eleven attempts at once, one in second 120 of the block that they start, and one two minutes later. */
  function FrozenRun(p: string): seq<Event> {
    Burst(p, 0, 11) + [Attempt(p, Instant(120 * SECOND)), Attempt(p, Instant(240 * SECOND))]
  }

  lemma {:induction false} FrozenRunStart(p: string, n: nat)
    requires n <= 10
    ensures
      StoreAt(FrozenRun(p), n + 1) ==
      map[p := Item(if n < 10 then AuthCheckResult(0, n, false, 0, 0) else AuthCheckResult(0, 10, true, 0, 120), 0)]
  {
    assert FrozenRun(p)[n] == Attempt(p, Instant(0));
    if n > 0 {
      FrozenRunStart(p, n - 1);
    } else {
      assert StoreAt(FrozenRun(p), 0) == map[];
    }
  }

  /** Two minutes after its last second this block still refuses, with its elapsed time at 120. */
  lemma {:induction false} BlockFrozenAt120(p: string)
    ensures
      var run := FrozenRun(p);
      && WellTimed(run) && |run| == 13 && (forall k :: 0 <= k < 13 ==> AttemptOf(run, k, p))
      && !Unblocked(run, 12, p) && run[12].t.exist - run[10].t.put == 240 * SECOND
      && p in StoreAt(run, 12) && StoreAt(run, 12)[p].val.timeElapsed == 120
  {
    var run := FrozenRun(p);
    FrozenRunStart(p, 10);
    assert run[11] == Attempt(p, Instant(120 * SECOND)) && run[12] == Attempt(p, Instant(240 * SECOND));
    assert StoreAt(run, 12) == map[p := Item(AuthCheckResult(0, 11, true, 120, 0), 120 * SECOND)];
    forall i, j | 0 <= i < j < |run|
      ensures Precedes(run, i, j)
    {
    }
  }
}
