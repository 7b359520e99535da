/**
 The byte stream behind a pod terminal: Run receives web socket messages and appends
 their input to a shared buffer, Read waits on a condition variable and takes bytes out.

 The two goroutines are modelled as interleaved steps over the mutex, the waiting list
 of the condition variable and the buffer.  Waiting joins the list before it releases
 the mutex, as sync.Cond does.
 */
module TerminalStream {

  newtype byte = x: int | 0 <= x < 256

  function TakeSize(n: nat, buffer: seq<byte>): (size: nat)
    ensures size <= n && size <= |buffer|
    ensures size == n || size == |buffer|
  {
    if n < |buffer| then n else |buffer|
  }

  // ---------- The protocol ----------

  datatype Owner = Free | Producer | Reader

  datatype RunPc =
    | Receiving
    | Wanting(input: seq<byte>)
    | Holding(input: seq<byte>)
    | Appended
    | Signalled

  datatype ReadPc =
    | Outside
    | Locking(n: nat)
    | Testing(n: nat)
    | Enqueued(n: nat)
    | Waiting(n: nat)
    | Woken(n: nat)
    | Copying(n: nat)
    | Leaving(n: nat, size: nat)

  /** received and returned are the history: every byte that arrived, every byte handed to a caller of Read. */
  datatype State = State(
    lock: Owner,
    run: RunPc,
    read: ReadPc,
    rbuf: seq<byte>,
    received: seq<byte>,
    returned: seq<byte>)

  datatype Action =
    | Receive(input: seq<byte>) | RunLocks | RunAppends | RunSignals | RunUnlocks
    | CallRead(n: nat) | ReadLocks | ReadTests | ReadReleases | ReadRelocks | ReadCopies | ReadReturns

  const INITIAL := State(Free, Receiving, Outside, [], [], [])

  predicate Enabled(s: State, a: Action) {
    match a
    case Receive(_) => s.run.Receiving?
    case RunLocks => s.run.Wanting? && s.lock == Free
    case RunAppends => s.run.Holding?
    case RunSignals => s.run.Appended?
    case RunUnlocks => s.run.Signalled?
    case CallRead(_) => s.read.Outside?
    case ReadLocks => s.read.Locking? && s.lock == Free
    case ReadTests => s.read.Testing?
    case ReadReleases => s.read.Enqueued?
    case ReadRelocks => s.read.Woken? && s.lock == Free
    case ReadCopies => s.read.Copying?
    case ReadReturns => s.read.Leaving?
  }

  function Next(s: State, a: Action): State
    requires Enabled(s, a)
  {
    match a
    case Receive(input) => s.(run := Wanting(input), received := s.received + input)
    case RunLocks => s.(run := Holding(s.run.input), lock := Producer)
    case RunAppends => s.(run := Appended, rbuf := s.rbuf + s.run.input)
    case RunSignals => s.(run := Signalled, read := if s.read.Waiting? then Woken(s.read.n) else s.read)
    case RunUnlocks => s.(run := Receiving, lock := Free)
    case CallRead(n) => s.(read := Locking(n))
    case ReadLocks => s.(read := Testing(s.read.n), lock := Reader)
    case ReadTests => s.(read := if s.rbuf == [] then Enqueued(s.read.n) else Copying(s.read.n))
    case ReadReleases => s.(read := Waiting(s.read.n), lock := Free)
    case ReadRelocks => s.(read := Testing(s.read.n), lock := Reader)
    case ReadCopies =>
      var size := TakeSize(s.read.n, s.rbuf);
      s.(read := Leaving(s.read.n, size), rbuf := s.rbuf[size..], returned := s.returned + s.rbuf[..size])
    case ReadReturns => s.(read := Outside, lock := Free)
  }

  /** The state after the actions of run, or none if one of them was not enabled. */
  ghost predicate Leads(s: State, run: seq<Action>, t: State)
    decreases |run|
  {
    if run == [] then s == t
    else Enabled(s, run[0]) && Leads(Next(s, run[0]), run[1..], t)
  }

  // ---------- What every interleaving keeps ----------

  ghost predicate MutualExclusion(s: State) {
    && (s.lock == Producer <==> s.run.Holding? || s.run.Appended? || s.run.Signalled?)
    && (s.lock == Reader <==> s.read.Testing? || s.read.Enqueued? || s.read.Copying? || s.read.Leaving?)
  }

  function InFlight(s: State): seq<byte> {
    if s.run.Wanting? || s.run.Holding? then s.run.input else []
  }

  /** The bytes returned, then the buffer, then the message in flight are the bytes received, in order. */
  ghost predicate Fifo(s: State) {
    s.returned + s.rbuf + InFlight(s) == s.received
  }

  /** A reader waits beside a non-empty buffer only while the producer is about to signal. */
  ghost predicate NoLostWakeup(s: State) {
    && (s.read.Waiting? && s.rbuf != [] ==> s.run.Appended?)
    && (s.read.Enqueued? ==> s.rbuf == [])
    && (s.read.Copying? ==> s.rbuf != [])
  }

  /** A read into a non-empty slice hands out at least one byte. */
  ghost predicate ReadsSomething(s: State) {
    s.read.Leaving? ==> s.read.size <= s.read.n && (s.read.n > 0 ==> s.read.size > 0)
  }

  ghost predicate Invariant(s: State) {
    MutualExclusion(s) && Fifo(s) && NoLostWakeup(s) && ReadsSomething(s)
  }

  lemma {:induction false} FifoStep(s: State, a: Action)
    requires Fifo(s) && Enabled(s, a)
    ensures Fifo(Next(s, a))
  {
    var t := Next(s, a);
    match a
    case Receive(input) =>
      assert InFlight(s) == [];
      assert t.returned + t.rbuf + input == (s.returned + s.rbuf + []) + input;
    case RunAppends =>
      assert s.returned + (s.rbuf + s.run.input) + [] == s.returned + s.rbuf + s.run.input;
    case ReadCopies =>
      var size := TakeSize(s.read.n, s.rbuf);
      assert s.rbuf == s.rbuf[..size] + s.rbuf[size..];
      assert (s.returned + s.rbuf[..size]) + s.rbuf[size..] == s.returned + s.rbuf;
    case _ =>
      assert t.returned == s.returned && t.rbuf == s.rbuf && InFlight(t) == InFlight(s);
  }

  /** Every interleaving of Run and one reader keeps the bytes in order, never both in a
      critical section, and never leaves the reader asleep beside a non-empty buffer. */
  lemma {:induction false} InvariantAlways(s: State, run: seq<Action>, t: State)
    requires Invariant(s) && Leads(s, run, t)
    ensures Invariant(t)
    decreases |run|
  {
    if run != [] {
      FifoStep(s, run[0]);
      InvariantAlways(Next(s, run[0]), run[1..], t);
    }
  }

  /** From the start, what callers of Read got is always a prefix of what was received. */
  lemma {:induction false} ReturnedIsPrefix(run: seq<Action>, t: State)
    requires Leads(INITIAL, run, t)
    ensures t.returned <= t.received
    ensures t.rbuf == [] && InFlight(t) == [] ==> t.returned == t.received
  {
    InvariantAlways(INITIAL, run, t);
    assert t.received == t.returned + (t.rbuf + InFlight(t));
  }

  // ---------- How much a read hands out ----------

  /** A read of n bytes is under way that found this many returned; what it has handed out, if it has, is all it asked
      for or all there was. */
  ghost predicate Reading(s: State, n: nat, before: seq<byte>) {
    match s.read
    case Outside => false
    case Leaving(m, size) =>
      m == n && before <= s.returned && |s.returned| == |before| + size && size <= n && (size == n || s.rbuf == [])
    case Locking(m) => m == n && s.returned == before
    case Testing(m) => m == n && s.returned == before
    case Enqueued(m) => m == n && s.returned == before
    case Waiting(m) => m == n && s.returned == before
    case Woken(m) => m == n && s.returned == before
    case Copying(m) => m == n && s.returned == before
  }

  lemma {:induction false} ReadingStep(s: State, a: Action, n: nat, before: seq<byte>)
    requires Invariant(s) && Enabled(s, a) && Reading(s, n, before) && a != ReadReturns
    ensures Reading(Next(s, a), n, before)
  {
  }

  /** However a read of n bytes is interleaved with Run, it hands out nothing before it leaves, and then n bytes, or
      fewer if it has emptied the buffer. */
  lemma {:induction false} ReadHandsOut(s: State, n: nat, before: seq<byte>, run: seq<Action>, t: State)
    requires Invariant(s) && Reading(s, n, before) && Leads(s, run, t) && ReadReturns !in run
    ensures Reading(t, n, before)
    decreases |run|
  {
    if run != [] {
      assert run[0] in run && forall a :: a in run[1..] ==> a in run;
      ReadingStep(s, run[0], n, before);
      FifoStep(s, run[0]);
      ReadHandsOut(Next(s, run[0]), n, before, run[1..], t);
    }
  }

  // ---------- The two critical sections ----------

  /** The handler with its history: what it does to the buffer are steps of the protocol. */
  class WSStreamHandler {
    var rbuf: seq<byte>
    ghost var lock: Owner
    ghost var run: RunPc
    ghost var read: ReadPc
    ghost var received: seq<byte>
    ghost var returned: seq<byte>

    ghost function Current(): State
      reads this
    {
      State(lock, run, read, rbuf, received, returned)
    }

    constructor ()
      ensures Current() == INITIAL
    {
      rbuf, lock, run, read, received, returned := [], Free, Receiving, Outside, [], [];
    }

    /** What Run does under the lock with the message it holds: its bytes move from the message to the
        buffer, behind those that wait there, and a waiting reader is due a signal. */
    method AppendInput(input: seq<byte>)
      requires Invariant(Current()) && run == Holding(input)
      modifies this
      ensures Current() == Next(old(Current()), RunAppends) && Invariant(Current())
      ensures received == returned + rbuf
    {
      FifoStep(Current(), RunAppends);
      rbuf := rbuf + input;
      run := Appended;
      assert returned + rbuf + [] == returned + rbuf;
    }

    /** What Read does under the lock once the buffer is non-empty: the bytes it puts into b are the
        next ones received, the rest of b is untouched, and a non-empty b gets at least one. */
    method CopyOut(b: array<byte>) returns (size: nat)
      requires Invariant(Current()) && read == Copying(b.Length)
      modifies this, b
      ensures Current() == Next(old(Current()), ReadCopies) && Invariant(Current())
      ensures read == Leaving(b.Length, size) && (b.Length > 0 ==> size > 0)
      ensures size == if b.Length < |old(rbuf)| then b.Length else |old(rbuf)|
      ensures returned == old(returned) + b[..size] && b[size..] == old(b[size..])
    {
      FifoStep(Current(), ReadCopies);
      size := TakeSize(b.Length, rbuf);
      forall i | 0 <= i < size {
        b[i] := rbuf[i];
      }
      assert b[..size] == rbuf[..size];
      returned, read := returned + rbuf[..size], Leaving(b.Length, size);
      rbuf := rbuf[size..];
    }
  }

  // ---------- A read beside a non-empty buffer returns ----------

  /** Steps that neither bring a new message nor start a new read. */
  predicate Internal(a: Action) {
    !a.Receive? && !a.CallRead?
  }

  function RunRank(pc: RunPc): nat {
    match pc
    case Receiving => 0
    case Signalled => 1
    case Appended => 2
    case Holding(_) => 3
    case Wanting(_) => 4
  }

  function ReadRank(pc: ReadPc): nat {
    match pc
    case Outside => 0
    case Leaving(_, _) => 1
    case Copying(_) => 2
    case Testing(_) => 3
    case Locking(_) => 4
    case Woken(_) => 4
    case Waiting(_) => 5
    case Enqueued(_) => 6
  }

  function Rank(s: State): nat {
    RunRank(s.run) + ReadRank(s.read)
  }

  /** The reader is inside Read with bytes to take, or has just taken them. */
  ghost predicate Served(s: State) {
    s.read.Leaving? || (!s.read.Outside? && s.rbuf != [])
  }

  /** A served reader that has not returned yet can always be helped by an internal step. */
  lemma {:induction false} SomeInternalStep(s: State) returns (a: Action)
    requires Invariant(s) && Served(s)
    ensures Internal(a) && Enabled(s, a)
  {
    if s.run.Holding? {
      a := RunAppends;
    } else if s.run.Appended? {
      a := RunSignals;
    } else if s.run.Signalled? {
      a := RunUnlocks;
    } else {
      match s.read
      case Locking(_) => a := ReadLocks;
      case Testing(_) => a := ReadTests;
      case Woken(_) => a := ReadRelocks;
      case Copying(_) => a := ReadCopies;
      case Leaving(_, _) => a := ReadReturns;
    }
  }

  lemma {:induction false} InternalStepRanks(s: State, a: Action)
    requires Invariant(s) && Served(s) && Internal(a) && Enabled(s, a)
    ensures Rank(Next(s, a)) < Rank(s)
    ensures Served(Next(s, a)) || Next(s, a).read.Outside?
  {
  }

  /** However Run and Read are scheduled, and even if no further message arrives, a reader
      beside a non-empty buffer returns within Rank(s) <= 9 steps: a run of internal steps
      that leaves it inside Read is no longer than that and can be continued. */
  lemma {:induction false} ReadCompletes(s: State, run: seq<Action>, t: State)
    requires Invariant(s) && Served(s) && Leads(s, run, t)
    requires forall a :: a in run ==> Internal(a)
    requires forall k: nat, u: State :: k < |run| && Leads(s, run[..k], u) ==> !u.read.Outside?
    ensures |run| <= Rank(s) <= 9
    ensures t.read.Outside? || exists a :: Internal(a) && Enabled(t, a)
    decreases |run|
  {
    if run == [] {
      var a := SomeInternalStep(s);
    } else {
      assert run[0] in run;
      var next := Next(s, run[0]);
      InternalStepRanks(s, run[0]);
      FifoStep(s, run[0]);
      if |run| == 1 {
        if !next.read.Outside? {
          var a := SomeInternalStep(next);
        }
      } else {
        assert Leads(s, run[..1], next) by {
          assert run[..1][0] == run[0] && run[..1][1..] == [];
        }
        forall k: nat, u: State | k < |run[1..]| && Leads(next, run[1..][..k], u)
          ensures !u.read.Outside?
        {
          assert run[..k + 1][1..] == run[1..][..k] && run[..k + 1][0] == run[0];
          assert Leads(s, run[..k + 1], u);
        }
        ReadCompletes(next, run[1..], t);
      }
    }
  }
}
