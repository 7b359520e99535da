/**
 Start-up of the API server: a goroutine that initializes in five steps and a goroutine that
 receives one value from its unbuffered error channel and writes the outcome. Every
 interleaving of the two is a run.
 */
module Boot {
  import opened Wrappers

  datatype Status = Unset | NotReady | Stage(step: nat) | Failed(step: nat) | Ready

  /**
   Where the initializer is. Step 0 is reading the system information; steps 1 to 5 begin with
   a check of the context. A body has up to left more actions that can fail, each of which
   sends its error and then cancels the context, without returning.
   */
  datatype Initializer =
    | Body(step: nat, left: nat)
    | Sending(step: nat, left: nat)
    | Cancelling(step: nat, left: nat)
    | Settling
    | Detecting(step: nat)
    | Refused(step: nat)
    | Entering(step: nat)
    | Doomed
    | Crashed
    | Closed

  datatype Receiver = Waiting | Got(outcome: Option<nat>) | Done

  /** errors lists the steps that failed, bodies the steps entered, both in order. */
  datatype State = State(
    init: Initializer,
    receiver: Receiver,
    cancelled: bool,
    status: Status,
    errors: seq<nat>,
    bodies: seq<nat>)

  datatype Action =
    | Fail | Finish | HandOver | Cancel | Settle | Detect | HandOverRefusal | Enter | Crash
    | ReceiveClosed | WriteOutcome

  const INITIAL := State(Body(0, 1), Waiting, false, Unset, [], [])

  /** How many actions of a step report an error. */
  function Failures(step: nat): nat {
    if step == 3 then 3 else if step == 5 then 2 else 1
  }

  predicate Enabled(s: State, a: Action) {
    s.init != Crashed &&
    match a
    case Fail => s.init.Body? && s.init.left > 0
    case Finish => s.init.Body?
    case HandOver => s.init.Sending? && s.receiver == Waiting
    case Cancel => s.init.Cancelling?
    case Settle => s.init == Settling
    case Detect => s.init.Detecting?
    case HandOverRefusal => s.init.Refused? && s.receiver == Waiting
    case Enter => s.init.Entering?
    case Crash => s.init == Doomed
    case ReceiveClosed => s.init == Closed && s.receiver == Waiting
    case WriteOutcome => s.receiver.Got?
  }

  /** After step 5 both channels are closed. */
  function After(step: nat): Initializer {
    if step >= 5 then Closed else Detecting(step + 1)
  }

  /** After its error, step 4 reads the version of a missing answer. */
  function Next(s: State, a: Action): State
    requires Enabled(s, a)
  {
    match a
    case Fail => s.(init := Sending(s.init.step, s.init.left - 1), errors := s.errors + [s.init.step])
    case Finish => s.(init := if s.init.step == 0 then Settling else After(s.init.step))
    case HandOver => s.(init := Cancelling(s.init.step, s.init.left), receiver := Got(Some(s.init.step)))
    case Cancel => s.(init := if s.init.step == 4 then Doomed else Body(s.init.step, s.init.left), cancelled := true)
    case Settle => s.(init := Detecting(1), status := NotReady)
    case Detect => s.(init := if s.cancelled then Refused(s.init.step) else Entering(s.init.step))
    case HandOverRefusal => s.(init := After(s.init.step), receiver := Got(Some(s.init.step)))
    case Enter =>
      s.(init := Body(s.init.step, Failures(s.init.step)), status := Stage(s.init.step),
         bodies := s.bodies + [s.init.step])
    case Crash => s.(init := Crashed)
    case ReceiveClosed => s.(receiver := Got(None))
    case WriteOutcome =>
      s.(receiver := Done, status := if s.receiver.outcome.None? then Ready else Failed(s.receiver.outcome.value))
  }

  /** The run leads from s to t. */
  ghost predicate Leads(s: State, run: seq<Action>, t: State)
    decreases |run|
  {
    if run == [] then s == t
    else Enabled(s, run[0]) && Leads(Next(s, run[0]), run[1..], t)
  }

  // ---------- What every interleaving keeps ----------

  /** The steps are entered in order, and the position says how many have been. */
  ghost predicate InOrder(s: State) {
    && |s.bodies| <= 5
    && (forall i :: 0 <= i < |s.bodies| ==> s.bodies[i] == i + 1)
    && match s.init
       case Body(step, left) => step == |s.bodies| && left <= Failures(step)
       case Sending(step, left) => step == |s.bodies| && left < Failures(step)
       case Cancelling(step, left) => step == |s.bodies| && left < Failures(step)
       case Settling => s.bodies == []
       case Detecting(step) => step == |s.bodies| + 1 && step <= 5
       case Refused(step) => step == |s.bodies| + 1 && step <= 5
       case Entering(step) => step == |s.bodies| + 1 && step <= 5
       case Doomed => |s.bodies| == 4
       case Crashed => |s.bodies| == 4
       case Closed => |s.bodies| == 5
  }

  /** All errors come from one step, and no step is entered after it. */
  ghost predicate OneFailingStep(s: State) {
    forall i :: 0 <= i < |s.errors| ==> s.errors[i] == |s.bodies|
  }

  /** Past an error there is only the rest of that body and, from step 0, the first status. */
  ghost predicate ErrorStops(s: State) {
    && (s.cancelled ==> s.errors != [])
    && (s.errors != [] && !s.cancelled ==> (s.init.Sending? || s.init.Cancelling?) && |s.errors| == 1)
    && (s.init.Sending? && s.cancelled ==> |s.errors| > 1)
    && (|s.errors| > 1 ==> s.init.Sending?)
    && (s.init.Sending? || s.init.Cancelling? || s.init.Refused? || s.init == Doomed || s.init == Crashed ==>
        s.errors != [])
    && (s.init.Entering? ==> s.errors == [])
    && (s.init.Body? || s.init.Sending? || s.init.Cancelling? ==> |s.errors| + s.init.left == Failures(s.init.step))
    && (|s.bodies| == 4 && s.errors != [] ==>
        s.init.Sending? || s.init.Cancelling? || s.init == Doomed || s.init == Crashed)
  }

  /** The receiver has an error if one was handed over, the nil of the closed channel if none was sent. */
  ghost predicate ReceiverKnows(s: State) {
    && (s.receiver == Waiting ==> s.errors == [] || (s.init.Sending? && !s.cancelled))
    && (s.receiver != Waiting ==> s.init == Closed || (s.errors != [] && (s.cancelled || s.init.Cancelling?)))
    && (s.receiver.Got? ==> s.receiver.outcome == if s.errors == [] then None else Some(s.errors[0]))
  }

  ghost predicate StatusSays(s: State) {
    && (s.status == Ready ==> s.receiver == Done && s.errors == [] && s.init == Closed)
    && (s.receiver == Done && s.errors == [] ==> s.status == Ready)
    && (s.receiver == Done && s.errors != [] && s.errors[0] > 0 ==> s.status == Failed(s.errors[0]))
    && (s.receiver == Done && s.errors != [] && s.errors[0] == 0 ==> s.status in {Failed(0), NotReady})
  }

  ghost predicate Invariant(s: State) {
    InOrder(s) && OneFailingStep(s) && ErrorStops(s) && ReceiverKnows(s) && StatusSays(s)
  }

  lemma {:induction false} StepKeeps(s: State, a: Action)
    requires Invariant(s) && Enabled(s, a)
    ensures Invariant(Next(s, a))
  {
  }

  lemma {:induction false} InvariantAlways(s: State, run: seq<Action>, t: State)
    requires Invariant(s) && Leads(s, run, t)
    ensures Invariant(t)
    decreases |run|
  {
    if run != [] {
      StepKeeps(s, run[0]);
      InvariantAlways(Next(s, run[0]), run[1..], t);
    }
  }

  /** Once a step has reported an error, no later step's body is ever entered. */
  lemma {:induction false} NoLaterBody(run: seq<Action>, t: State)
    requires Leads(INITIAL, run, t) && t.errors != []
    ensures |t.bodies| == t.errors[0]
    ensures forall step :: step in t.bodies ==> 1 <= step <= t.errors[0]
    ensures forall step :: step in t.errors ==> step == t.errors[0]
  {
    InvariantAlways(INITIAL, run, t);
  }

  /** The outcome is written once; it is READY iff no step has ever reported an error, and then all five have run. */
  lemma {:induction false} ReadyIffNoError(run: seq<Action>, t: State)
    requires Leads(INITIAL, run, t)
    ensures t.receiver == Done ==> (t.status == Ready <==> t.errors == [])
    ensures t.status == Ready ==> t.receiver == Done && t.errors == [] && t.bodies == [1, 2, 3, 4, 5]
  {
    InvariantAlways(INITIAL, run, t);
  }

  // ---------- Every run ends, and how ----------

  function InitRank(i: Initializer): nat {
    match i
    case Body(step, left) => Before(step) + 4 * left + 3
    case Sending(step, left) => Before(step) + 4 * left + 6
    case Cancelling(step, left) => Before(step) + 4 * left + 5
    case Settling => Before(0) + 2
    case Detecting(step) => Before(step) + 19
    case Refused(step) => Before(step) + 18
    case Entering(step) => Before(step) + 18
    case Doomed => 2
    case Crashed => 0
    case Closed => 1
  }

  function Before(step: nat): nat {
    if step > 5 then 0 else 20 * (5 - step)
  }

  function Rank(s: State): nat {
    InitRank(s.init) + if s.receiver == Waiting then 2 else if s.receiver.Got? then 1 else 0
  }

  lemma {:induction false} StepRanks(s: State, a: Action)
    requires Invariant(s) && Enabled(s, a)
    ensures Rank(Next(s, a)) < Rank(s)
  {
  }

  /** No run is longer than its rank. */
  lemma {:induction false} RunsEnd(s: State, run: seq<Action>, t: State)
    requires Invariant(s) && Leads(s, run, t)
    ensures |run| + Rank(t) <= Rank(s)
    decreases |run|
  {
    if run != [] {
      StepKeeps(s, run[0]);
      StepRanks(s, run[0]);
      RunsEnd(Next(s, run[0]), run[1..], t);
    }
  }

  ghost predicate Stuck(s: State) {
    forall a :: !Enabled(s, a)
  }

  /**
   How a run ends. Without an error, ready with both channels closed. With one, the outcome is
   that step's error, except that a failure to read the system information may end as not ready.
   The initializer then blocks for good on its next send (at the next step's check, or at a
   second failure of the same body), unless step 4 failed, which ends the process, or step 5
   failed once, after which it still ends.
   */
  lemma {:induction false} RunsEndAs(run: seq<Action>, t: State)
    requires Leads(INITIAL, run, t) && Stuck(t)
    ensures t.errors == [] ==> t.init == Closed && t.receiver == Done && t.status == Ready
    ensures t.errors != [] ==>
      var step := t.errors[0];
      && (step == 4 <==> t.init == Crashed)
      && (step != 4 ==> t.receiver == Done && t.status in (if step == 0 then {Failed(0), NotReady} else {Failed(step)}))
      && (step != 4 && |t.errors| > 1 ==> t.init.Sending? && t.init.step == step)
      && (step != 4 && |t.errors| == 1 ==> t.init == if step == 5 then Closed else Refused(step + 1))
  {
    InvariantAlways(INITIAL, run, t);
    StuckMeans(t);
  }

  /** Only sends that nobody will receive, the end and the crash enable nothing. */
  lemma {:induction false} StuckMeans(t: State)
    ensures Stuck(t) <==>
            t.init == Crashed || (t.receiver == Done && (t.init.Sending? || t.init.Refused? || t.init == Closed))
  {
    if Stuck(t) && t.init != Crashed {
      assert !Enabled(t, Finish) && !Enabled(t, HandOver) && !Enabled(t, Cancel) && !Enabled(t, Settle) &&
             !Enabled(t, Detect);
      assert !Enabled(t, HandOverRefusal) && !Enabled(t, Enter) && !Enabled(t, Crash);
      assert !Enabled(t, ReceiveClosed) && !Enabled(t, WriteOutcome);
    }
  }

  // ---------- Which status a failure to read the system information ends with ----------

  /** The receiver writes the outcome before the initializer writes NOT_READY. */
  ghost predicate OutcomeFirst(run: seq<Action>) {
    exists i, j :: 0 <= i < j < |run| && run[i] == WriteOutcome && run[j] == Settle
  }

  /** With the outcome written and step 0 failed, only Settle still writes a status. */
  lemma {:induction false} AfterOutcome(s: State, run: seq<Action>, t: State)
    requires Invariant(s) && s.receiver == Done && s.errors != [] && s.errors[0] == 0 && Leads(s, run, t)
    ensures t.status == if Settle in run then NotReady else s.status
    decreases |run|
  {
    if run != [] {
      StepKeeps(s, run[0]);
      assert run == [run[0]] + run[1..];
      AfterOutcome(Next(s, run[0]), run[1..], t);
    }
  }

  lemma {:induction false} ErrorsStay(s: State, run: seq<Action>, t: State)
    requires Leads(s, run, t)
    ensures s.errors <= t.errors
    ensures s.init == Closed ==> t.errors == s.errors
    decreases |run|
  {
    if run != [] {
      ErrorsStay(Next(s, run[0]), run[1..], t);
    }
  }

  lemma {:induction false} BeforeOutcome(s: State, run: seq<Action>, t: State)
    requires Invariant(s) && s.receiver != Done && Leads(s, run, t)
    requires t.receiver == Done && t.errors != [] && t.errors[0] == 0
    ensures t.status == if OutcomeFirst(run) then NotReady else Failed(0)
    decreases |run|
  {
    var next, rest := Next(s, run[0]), run[1..];
    StepKeeps(s, run[0]);
    ErrorsStay(s, run, t);
    if run[0] == WriteOutcome {
      AfterOutcome(next, rest, t);
    } else {
      BeforeOutcome(next, rest, t);
    }
  }

  /**
   After a failure to read the system information a run that is over says NOT_READY if its
   receiver wrote the error before the initializer wrote NOT_READY, and the error otherwise.
   */
  lemma {:induction false} EarlyFailureStatus(run: seq<Action>, t: State)
    requires Leads(INITIAL, run, t) && Stuck(t) && t.errors != [] && t.errors[0] == 0
    ensures t.status == if OutcomeFirst(run) then NotReady else Failed(0)
  {
    InvariantAlways(INITIAL, run, t);
    StuckMeans(t);
    BeforeOutcome(INITIAL, run, t);
  }

  lemma {:induction false} LeadsFrom(s: State, a: Action, rest: seq<Action>, t: State)
    requires Enabled(s, a) && Leads(Next(s, a), rest, t)
    ensures Leads(s, [a] + rest, t)
  {
    assert ([a] + rest)[1..] == rest;
  }

  /** The state after the failure to read the system information has been handed over. */
  const SENT := State(Cancelling(0, 0), Got(Some(0)), false, Unset, [0], [])

  lemma {:induction false} HandedOver(rest: seq<Action>, t: State)
    requires Leads(SENT, rest, t)
    ensures Leads(INITIAL, [Fail, HandOver] + rest, t)
  {
    LeadsFrom(INITIAL.(init := Sending(0, 0), errors := [0]), HandOver, rest, t);
    assert Next(INITIAL, Fail) == INITIAL.(init := Sending(0, 0), errors := [0]);
    LeadsFrom(INITIAL, Fail, [HandOver] + rest, t);
    assert [Fail] + ([HandOver] + rest) == [Fail, HandOver] + rest;
  }

  /** The receiver's message and the initializer's NOT_READY race: NOT_READY may hide the message... */
  lemma {:induction false} MessageHidden()
    ensures
      var t := State(Refused(1), Done, true, NotReady, [0], []);
      Leads(INITIAL, [Fail, HandOver] + [WriteOutcome, Cancel, Finish, Settle, Detect], t) && Stuck(t)
  {
    var t := State(Refused(1), Done, true, NotReady, [0], []);
    var written := SENT.(receiver := Done, status := Failed(0));
    LeadsFrom(t.(init := Detecting(1)), Detect, [], t);
    LeadsFrom(written.(init := Settling, cancelled := true), Settle, [Detect], t);
    LeadsFrom(written.(init := Body(0, 0), cancelled := true), Finish, [Settle, Detect], t);
    LeadsFrom(written, Cancel, [Finish, Settle, Detect], t);
    LeadsFrom(SENT, WriteOutcome, [Cancel, Finish, Settle, Detect], t);
    HandedOver([WriteOutcome, Cancel, Finish, Settle, Detect], t);
    StuckMeans(t);
  }

  /** ...or not. */
  lemma {:induction false} MessageStays()
    ensures
      var t := State(Refused(1), Done, true, Failed(0), [0], []);
      Leads(INITIAL, [Fail, HandOver] + [Cancel, Finish, Settle, WriteOutcome, Detect], t) && Stuck(t)
  {
    var t := State(Refused(1), Done, true, Failed(0), [0], []);
    var gone := SENT.(cancelled := true);
    LeadsFrom(t.(init := Detecting(1)), Detect, [], t);
    LeadsFrom(gone.(init := Detecting(1), status := NotReady), WriteOutcome, [Detect], t);
    LeadsFrom(gone.(init := Settling), Settle, [WriteOutcome, Detect], t);
    LeadsFrom(gone.(init := Body(0, 0)), Finish, [Settle, WriteOutcome, Detect], t);
    LeadsFrom(SENT, Cancel, [Finish, Settle, WriteOutcome, Detect], t);
    HandedOver([Cancel, Finish, Settle, WriteOutcome, Detect], t);
    StuckMeans(t);
  }

  function FirstSteps(n: nat): (r: seq<nat>)
    ensures |r| == n && forall i :: 0 <= i < n ==> r[i] == i + 1
  {
    seq(n, i requires 0 <= i < n => i + 1)
  }

  /** A state without errors in which n steps have been entered. */
  function Quietly(init: Initializer, n: nat): State {
    State(init, Waiting, false, if n == 0 then NotReady else Stage(n), [], FirstSteps(n))
  }

  lemma {:induction false} StepDone(step: nat, rest: seq<Action>, t: State)
    requires 1 <= step <= 4 && Leads(Quietly(Detecting(step + 1), step), rest, t)
    ensures Leads(Quietly(Detecting(step), step - 1), ONE_STEP + rest, t)
  {
    assert FirstSteps(step) == FirstSteps(step - 1) + [step];
    LeadsFrom(Quietly(Body(step, Failures(step)), step), Finish, rest, t);
    LeadsFrom(Quietly(Entering(step), step - 1), Enter, [Finish] + rest, t);
    LeadsFrom(Quietly(Detecting(step), step - 1), Detect, [Enter] + ([Finish] + rest), t);
    assert [Detect] + ([Enter] + ([Finish] + rest)) == ONE_STEP + rest;
  }

  const ONE_STEP := [Detect, Enter, Finish]

  /** The run that leads through n good steps. */
  function GoodSteps(n: nat, last: seq<Action>): seq<Action> {
    if n == 0 then [Finish, Settle] + last else GoodSteps(n - 1, ONE_STEP + last)
  }

  lemma {:induction false} StepsDone(n: nat, last: seq<Action>, t: State)
    requires n <= 4 && Leads(Quietly(Detecting(n + 1), n), last, t)
    ensures Leads(INITIAL, GoodSteps(n, last), t)
  {
    if n > 0 {
      StepDone(n, last, t);
      StepsDone(n - 1, ONE_STEP + last, t);
    } else {
      assert FirstSteps(0) == [];
      LeadsFrom(INITIAL.(init := Settling), Settle, last, t);
      LeadsFrom(INITIAL, Finish, [Settle] + last, t);
      assert [Finish] + ([Settle] + last) == [Finish, Settle] + last;
    }
  }

  /** The run that crashes: three steps go well, the fourth fails. */
  function CrashRun(): seq<Action> {
    GoodSteps(3, [Detect, Enter, Fail, HandOver, Cancel, Crash])
  }

  lemma {:induction false} FourthStepFails(t: State)
    requires t == State(Crashed, Got(Some(4)), true, Stage(4), [4], [1, 2, 3, 4])
    ensures Leads(Quietly(Detecting(4), 3), [Detect, Enter, Fail, HandOver, Cancel, Crash], t)
  {
    assert FirstSteps(4) == FirstSteps(3) + [4] == [1, 2, 3, 4];
    var sending := t.(init := Sending(4, 0), cancelled := false, receiver := Waiting);
    LeadsFrom(t.(init := Doomed), Crash, [], t);
    LeadsFrom(t.(init := Cancelling(4, 0), cancelled := false), Cancel, [Crash], t);
    LeadsFrom(sending, HandOver, [Cancel, Crash], t);
    assert Next(Quietly(Body(4, 1), 4), Fail) == sending;
    LeadsFrom(Quietly(Body(4, 1), 4), Fail, [HandOver, Cancel, Crash], t);
    LeadsFrom(Quietly(Entering(4), 3), Enter, [Fail, HandOver, Cancel, Crash], t);
    LeadsFrom(Quietly(Detecting(4), 3), Detect, [Enter, Fail, HandOver, Cancel, Crash], t);
  }

  /** A server whose Kubernetes version cannot be read crashes, here with the error handed over but not written. */
  lemma {:induction false} FourthStepCrashes()
    ensures
      var t := State(Crashed, Got(Some(4)), true, Stage(4), [4], [1, 2, 3, 4]);
      Leads(INITIAL, CrashRun(), t) && Stuck(t)
  {
    var t := State(Crashed, Got(Some(4)), true, Stage(4), [4], [1, 2, 3, 4]);
    StuckMeans(t);
    FourthStepFails(t);
    StepsDone(3, [Detect, Enter, Fail, HandOver, Cancel, Crash], t);
  }

  // ---------- Which steps can fail twice ----------

  /** The initializer is left with the second error of that step, which nobody receives. */
  function StuckTwice(step: nat): State {
    State(Sending(step, if step == 3 then 1 else 0), Done, true, Failed(step), [step, step], FirstSteps(step))
  }

  lemma {:induction false} FailsTwice(step: nat)
    requires step in {3, 5}
    ensures Leads(Quietly(Detecting(step), step - 1), [Detect, Enter, Fail, HandOver, Cancel, Fail, WriteOutcome],
                  StuckTwice(step))
  {
    var t, n := StuckTwice(step), Failures(step);
    assert FirstSteps(step) == FirstSteps(step - 1) + [step];
    var unwritten := t.(receiver := Got(Some(step)), status := Stage(step));
    LeadsFrom(unwritten, WriteOutcome, [], t);
    assert [step] + [step] == [step, step];
    LeadsFrom(unwritten.(init := Body(step, n - 1), errors := [step]), Fail, [WriteOutcome], t);
    var given := unwritten.(init := Cancelling(step, n - 1), errors := [step], cancelled := false);
    LeadsFrom(given, Cancel, [Fail, WriteOutcome], t);
    LeadsFrom(given.(init := Sending(step, n - 1), receiver := Waiting), HandOver, [Cancel, Fail, WriteOutcome], t);
    var inside := Quietly(Body(step, n), step);
    assert [] + [step] == [step];
    LeadsFrom(inside, Fail, [HandOver, Cancel, Fail, WriteOutcome], t);
    LeadsFrom(Quietly(Entering(step), step - 1), Enter, [Fail, HandOver, Cancel, Fail, WriteOutcome], t);
    LeadsFrom(Quietly(Detecting(step), step - 1), Detect, [Enter, Fail, HandOver, Cancel, Fail, WriteOutcome], t);
  }

  /** The run is finished with a second error of its failing step. */
  ghost predicate EndsWithTwo(run: seq<Action>, t: State, step: nat) {
    Leads(INITIAL, run, t) && Stuck(t) && |t.errors| > 1 && t.errors[0] == step
  }

  lemma {:induction false} TwoErrors(run: seq<Action>, t: State, step: nat)
    requires EndsWithTwo(run, t, step)
    ensures step in {3, 5} && t.errors[1] == step && t.init.Sending?
  {
    InvariantAlways(INITIAL, run, t);
    StuckMeans(t);
  }

  lemma {:induction false} TwoErrorsHappen(step: nat) returns (run: seq<Action>)
    requires step in {3, 5}
    ensures EndsWithTwo(run, StuckTwice(step), step)
  {
    var last := [Detect, Enter, Fail, HandOver, Cancel, Fail, WriteOutcome];
    run := GoodSteps(step - 1, last);
    FailsTwice(step);
    StepsDone(step - 1, last, StuckTwice(step));
    StuckMeans(StuckTwice(step));
  }

  /** A run can finish with two errors of a step, its initializer blocked on the second for good, exactly if the step
      is the third or the fifth. */
  lemma {:induction false} SecondErrorBlocks(step: nat)
    ensures step in {3, 5} <==> exists run, t :: EndsWithTwo(run, t, step)
  {
    if step in {3, 5} {
      var run := TwoErrorsHappen(step);
    }
    forall run, t | EndsWithTwo(run, t, step)
      ensures step in {3, 5}
    {
      TwoErrors(run, t, step);
    }
  }
}
