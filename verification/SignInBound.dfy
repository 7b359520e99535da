/**
 The rate bound for whole runs of the API server: how fast sign-ins of one principal can be answered without a
 block, whatever requests and sign-ins of others come between them.
 */
module SignInBound {
  import opened Wrappers
  import opened Lockout
  import opened Session
  import opened SessionRuns

  ghost predicate SignInOf(run: seq<Step>, k: nat, p: string) {
    k < |run| && run[k].DoSignIn? && run[k].attempt.principal == p
  }

  ghost function ClockOf(run: seq<Step>, k: nat): Readings
    requires k < |run| && run[k].DoSignIn?
  {
    run[k].attempt.clock
  }

  /** Sign-in i of a principal is over before its sign-in j starts. */
  ghost predicate Before(run: seq<Step>, i: nat, j: nat)
    requires i < j < |run|
  {
    run[i].DoSignIn? && SignInOf(run, j, run[i].attempt.principal) ==> ClockOf(run, i).put <= ClockOf(run, j).exist
  }

  /** Sign-ins of one principal are checked one after the other. */
  ghost predicate WellTimedRun(run: seq<Step>) {
    && (forall k :: 0 <= k < |run| && run[k].DoSignIn? ==> ClockOf(run, k).Ordered())
    && (forall i, j :: 0 <= i < j < |run| ==> Before(run, i, j))
  }

  /** Step k is a sign-in of p that the lockout does not refuse. */
  ghost predicate NotBlocked(users: Users, run: seq<Step>, k: nat, p: string)
    requires k < |run|
  {
    SignInOf(run, k, p) && !Checked(WorldAt(users, run, k).store, p, ClockOf(run, k)).blocked
  }

  /** Step k is a sign-in of p that is accepted. */
  ghost predicate SignedIn(users: Users, run: seq<Step>, k: nat, p: string)
    requires k < |run|
  {
    SignInOf(run, k, p) && Responds(users, WorldAt(users, run, k), run[k]).2.Accepted?
  }

  /** Which steps are such sign-ins. */
  ghost function Unrefused(users: Users, run: seq<Step>, p: string): (flags: seq<bool>)
    ensures |flags| == |run|
    ensures forall k :: 0 <= k < |run| ==> flags[k] == NotBlocked(users, run, k, p)
  {
    seq(|run|, k requires 0 <= k < |run| => NotBlocked(users, run, k, p))
  }

  function Count(flags: seq<bool>, i: nat, j: nat): nat
    requires i <= j <= |flags|
  {
    if i == j then 0 else Count(flags, i, j - 1) + if flags[j - 1] then 1 else 0
  }

  /** How many of the steps i to j - 1 are sign-ins of p that the lockout does not refuse. */
  ghost function CountNotBlocked(users: Users, run: seq<Step>, p: string, i: nat, j: nat): nat
    requires i <= j <= |run|
  {
    Count(Unrefused(users, run, p), i, j)
  }

  // ---------- Events in parts ----------

  /** The events of the parts i to k - 1. */
  function FlatFrom(parts: seq<seq<Event>>, i: nat, k: nat): seq<Event>
    requires i <= k <= |parts|
    decreases k - i
  {
    if i == k then [] else parts[i] + FlatFrom(parts, i + 1, k)
  }

  lemma {:induction false} FlatSplit(parts: seq<seq<Event>>, i: nat, k: nat)
    requires i <= k <= |parts|
    ensures Flat(parts, k) == Flat(parts, i) + FlatFrom(parts, i, k)
    decreases k - i
  {
    if i < k {
      FlatSplit(parts, i + 1, k);
      Regroup(Flat(parts, i), parts[i], FlatFrom(parts, i + 1, k));
    }
  }

  lemma {:induction false} NotInParts(parts: seq<seq<Event>>, e: Event, i: nat, k: nat)
    requires i <= k <= |parts| && forall s :: i <= s < k ==> e !in parts[s]
    ensures e !in FlatFrom(parts, i, k)
    decreases k - i
  {
    if i < k {
      NotInParts(parts, e, i + 1, k);
    }
  }

  /** Part k adds one to the unblocked attempts of p since event a exactly if its flag is set. */
  ghost predicate PartCounts(parts: seq<seq<Event>>, flags: seq<bool>, p: string, a: nat, k: nat)
    requires k < |parts| == |flags|
  {
    var events := Flat(parts, k);
    a <= |events| ==>
      CountUnblocked(events + parts[k], p, a, |events + parts[k]|) ==
      CountUnblocked(events, p, a, |events|) + if flags[k] then 1 else 0
  }

  lemma {:induction false} PartsCount(parts: seq<seq<Event>>, flags: seq<bool>, p: string, i: nat, k: nat)
    requires i <= k <= |parts| == |flags|
    requires forall s :: i <= s < k ==> PartCounts(parts, flags, p, |Flat(parts, i)|, s)
    ensures |Flat(parts, i)| <= |Flat(parts, k)|
    ensures CountUnblocked(Flat(parts, k), p, |Flat(parts, i)|, |Flat(parts, k)|) == Count(flags, i, k)
    decreases k - i
  {
    if i < k {
      PartsCount(parts, flags, p, i, k - 1);
      assert PartCounts(parts, flags, p, |Flat(parts, i)|, k - 1);
    }
  }

  // ---------- The lockout events of a run are well timed ----------

  /** Every attempt among the events is that of one of the first k steps. */
  ghost predicate FromSteps(events: seq<Event>, run: seq<Step>, k: nat)
    requires k <= |run|
  {
    forall e :: 0 <= e < |events| && events[e].Attempt? ==> exists s :: 0 <= s < k && SignsAs(run, s, events[e])
  }

  ghost predicate SignsAs(run: seq<Step>, s: nat, e: Event) {
    e.Attempt? && SignInOf(run, s, e.principal) && ClockOf(run, s) == e.t
  }

  lemma {:induction false} WellTimedReset(events: seq<Event>, p: string)
    requires WellTimed(events)
    ensures WellTimed(events + [Reset(p)])
  {
    var all := events + [Reset(p)];
    forall i, j | 0 <= i < j < |all|
      ensures Precedes(all, i, j)
    {
      if j < |events| {
        assert Precedes(events, i, j);
      }
    }
  }

  lemma {:induction false} WellTimedAttempt(events: seq<Event>, p: string, t: Readings)
    requires WellTimed(events) && t.Ordered()
    requires forall e :: 0 <= e < |events| && AttemptOf(events, e, p) ==> events[e].t.put <= t.exist
    ensures WellTimed(events + [Attempt(p, t)])
  {
    var all := events + [Attempt(p, t)];
    forall i, j | 0 <= i < j < |all|
      ensures Precedes(all, i, j)
    {
      if j < |events| {
        assert Precedes(events, i, j);
      }
    }
  }

  /** The attempt of step k can follow the lockout events of the steps before it. */
  lemma {:induction false} StepFollows(run: seq<Step>, k: nat, events: seq<Event>)
    requires WellTimedRun(run) && k < |run| && run[k].DoSignIn?
    requires WellTimed(events) && FromSteps(events, run, k)
    ensures WellTimed(events + [Attempt(run[k].attempt.principal, ClockOf(run, k))])
  {
    var p := run[k].attempt.principal;
    forall e | 0 <= e < |events| && AttemptOf(events, e, p)
      ensures events[e].t.put <= ClockOf(run, k).exist
    {
      var s :| 0 <= s < k && SignsAs(run, s, events[e]);
      assert Before(run, s, k);
    }
    WellTimedAttempt(events, p, ClockOf(run, k));
  }

  lemma {:induction false} FromMoreSteps(events: seq<Event>, run: seq<Step>, k: nat)
    requires k < |run| && FromSteps(events, run, k)
    ensures FromSteps(events, run, k + 1)
    ensures run[k].DoSignIn? ==>
              FromSteps(events + [Attempt(run[k].attempt.principal, ClockOf(run, k))], run, k + 1)
  {
    forall e | 0 <= e < |events| && events[e].Attempt?
      ensures exists s :: 0 <= s < k + 1 && SignsAs(run, s, events[e])
    {
      var s :| 0 <= s < k && SignsAs(run, s, events[e]);
    }
    if run[k].DoSignIn? {
      assert SignsAs(run, k, Attempt(run[k].attempt.principal, ClockOf(run, k)));
    }
  }

  /** The events of step k, should they be its attempt and perhaps a reset. */
  ghost predicate Fits(events: seq<Event>, run: seq<Step>, k: nat)
    requires k < |run|
  {
    if !run[k].DoSignIn? then events == []
    else
      var p := run[k].attempt.principal;
      events == [Attempt(p, ClockOf(run, k))] || events == [Attempt(p, ClockOf(run, k)), Reset(p)]
  }

  lemma {:induction false} FlatWellTimed(parts: seq<seq<Event>>, run: seq<Step>, k: nat)
    requires WellTimedRun(run) && k <= |run| == |parts| && forall s :: 0 <= s < k ==> Fits(parts[s], run, s)
    ensures WellTimed(Flat(parts, k)) && FromSteps(Flat(parts, k), run, k)
  {
    if k > 0 {
      FlatWellTimed(parts, run, k - 1);
      var events, next := Flat(parts, k - 1), parts[k - 1];
      FromMoreSteps(events, run, k - 1);
      if run[k - 1].DoSignIn? {
        var p := run[k - 1].attempt.principal;
        var tried := events + [Attempt(p, ClockOf(run, k - 1))];
        StepFollows(run, k - 1, events);
        if |next| == 2 {
          WellTimedReset(tried, p);
          assert events + next == tried + [Reset(p)];
        }
      } else {
        assert events + next == events;
      }
    }
  }

  lemma {:induction false} EventsShape(users: Users, run: seq<Step>, k: nat)
    requires k < |run|
    ensures Fits(Events(users, run, k), run, k)
    ensures run[k].DoSignIn? ==> (|Events(users, run, k)| == 2 <==> SignedIn(users, run, k, run[k].attempt.principal))
  {
  }

  // ---------- The events count what the run counts ----------

  lemma {:induction false} CountPrefix(before: seq<Event>, after: seq<Event>, p: string, a: nat, b: nat)
    requires a <= b <= |before|
    ensures CountUnblocked(before + after, p, a, b) == CountUnblocked(before, p, a, b)
    decreases b
  {
    if a < b {
      CountPrefix(before, after, p, a, b - 1);
      StoreAtPrefix(before, after, b - 1);
      assert (before + after)[b - 1] == before[b - 1];
    }
  }

  /** One more attempt counts if the store so far does not refuse it. */
  lemma {:induction false} CountAttempt(events: seq<Event>, p: string, a: nat, q: string, t: Readings)
    requires a <= |events|
    ensures var all := events + [Attempt(q, t)];
            CountUnblocked(all, p, a, |all|) ==
            CountUnblocked(events, p, a, |events|) +
            if q == p && !Checked(StoreAt(events, |events|), p, t).blocked then 1 else 0
  {
    CountPrefix(events, [Attempt(q, t)], p, a, |events|);
    StoreAtPrefix(events, [Attempt(q, t)], |events|);
  }

  lemma {:induction false} CountReset(events: seq<Event>, p: string, a: nat, q: string)
    requires a <= |events|
    ensures var all := events + [Reset(q)]; CountUnblocked(all, p, a, |all|) == CountUnblocked(events, p, a, |events|)
  {
    CountPrefix(events, [Reset(q)], p, a, |events|);
  }

  lemma {:induction false} CountEvents(users: Users, run: seq<Step>, p: string, a: nat, k: nat, events: seq<Event>)
    requires k < |run| && a <= |events| && StoreAt(events, |events|) == WorldAt(users, run, k).store
    ensures var longer := events + Events(users, run, k);
            CountUnblocked(longer, p, a, |longer|) ==
            CountUnblocked(events, p, a, |events|) + if NotBlocked(users, run, k, p) then 1 else 0
  {
    EventsShape(users, run, k);
    if run[k].DoSignIn? {
      var q, t := run[k].attempt.principal, ClockOf(run, k);
      CountAttempt(events, p, a, q, t);
      if SignedIn(users, run, k, q) {
        CountReset(events + [Attempt(q, t)], p, a, q);
        assert Events(users, run, k) == [Attempt(q, t)] + [Reset(q)];
        Regroup(events, [Attempt(q, t)], [Reset(q)]);
      }
    } else {
      assert events + Events(users, run, k) == events;
    }
  }

  /** No sign-in of p among the steps i to j - 1 is accepted. */
  ghost predicate NoneSignedIn(users: Users, run: seq<Step>, p: string, i: nat, j: nat)
    requires j <= |run|
  {
    forall s :: i <= s < j ==> !SignedIn(users, run, s, p)
  }

  /** The entry of the principal expires inside sign-in i, between the two reads of the store. */
  ghost predicate EntryLost(users: Users, run: seq<Step>, i: nat, p: string)
    requires SignInOf(run, i, p)
  {
    Lost(WorldAt(users, run, i).store, p, ClockOf(run, i))
  }

  lemma {:induction false} FirstSlack(before: seq<Event>, p: string, t: Readings, after: seq<Event>)
    requires after != [] && after[0] == Attempt(p, t)
    ensures AttemptOf(before + after, |before|, p)
    ensures Slack(before + after, p, |before|) == if Lost(StoreAt(before, |before|), p, t) then 1 else 0
  {
    StoreAtPrefix(before, after, |before|);
  }

  lemma {:induction false} NoneAfter(before: seq<Event>, after: seq<Event>, p: string)
    requires Reset(p) !in after
    ensures forall e :: |before| <= e < |before + after| ==> (before + after)[e] != Reset(p)
  {
  }

  /** The lockout events of the sign-ins i to j: those before, and a rest that starts with the attempt of step i,
      ends with that of step j, has no reset and counts as many unblocked attempts as the steps do sign-ins. */
  lemma {:induction false} Windowed(users: Users, run: seq<Step>, p: string, i: nat, j: nat) returns (rest: seq<Event>)
    requires i < j < |run| && SignInOf(run, i, p) && SignInOf(run, j, p) && NoneSignedIn(users, run, p, i, j)
    ensures rest != [] && rest[0] == Attempt(p, ClockOf(run, i)) && Reset(p) !in rest
    ensures var before, last := LockoutRun(users, run, i), [Attempt(p, ClockOf(run, j))];
            && before + rest == LockoutRun(users, run, j) + last
            && CountUnblocked(before + rest, p, |before|, |before + rest|) == CountNotBlocked(users, run, p, i, j + 1)
  {
    var parts, t := Parts(users, run), ClockOf(run, j);
    var events, a := LockoutRun(users, run, j), |LockoutRun(users, run, i)|;
    var middle := FlatFrom(parts, i, j);
    rest := middle + [Attempt(p, t)];
    FlatSplit(parts, i, j);
    Regroup(LockoutRun(users, run, i), middle, [Attempt(p, t)]);
    EventsShape(users, run, i);
    forall s | i <= s < j
      ensures Reset(p) !in parts[s] && PartCounts(parts, Unrefused(users, run, p), p, a, s)
    {
      EventsShape(users, run, s);
      LockoutRunExplainsStore(users, run, s);
      if a <= |LockoutRun(users, run, s)| {
        CountEvents(users, run, p, a, s, LockoutRun(users, run, s));
      }
    }
    NotInParts(parts, Reset(p), i, j);
    PartsCount(parts, Unrefused(users, run, p), p, i, j);
    LockoutRunExplainsStore(users, run, j);
    CountAttempt(events, p, a, p, t);
  }

  /** In every run whose sign-ins are well timed, eleven sign-ins of one principal that are not blocked, none of them
      but the last accepted, span at least 121 seconds; twelve do if the entry expired within the first. */
  lemma {:induction false} SignInRateBound(users: Users, run: seq<Step>, p: string, i: nat, j: nat)
    requires WellTimedRun(run) && i < j < |run| && SignInOf(run, i, p) && SignInOf(run, j, p)
    requires NoneSignedIn(users, run, p, i, j)
    requires CountNotBlocked(users, run, p, i, j + 1) >= 11 + if EntryLost(users, run, i, p) then 1 else 0
    ensures ClockOf(run, j).put - ClockOf(run, i).exist >= 121 * SECOND
  {
    var before := LockoutRun(users, run, i);
    var rest := Windowed(users, run, p, i, j);
    FirstSlack(before, p, ClockOf(run, i), rest);
    LockoutRunExplainsStore(users, run, i);
    forall s | 0 <= s < j
      ensures Fits(Parts(users, run)[s], run, s)
    {
      EventsShape(users, run, s);
    }
    FlatWellTimed(Parts(users, run), run, j);
    StepFollows(run, j, LockoutRun(users, run, j));
    NoneAfter(before, rest, p);
    RateBound(before + rest, p, |before|, |before + rest|);
  }
}
