/**
  Termination of the shutdown: once the signal is given, the threads that are already inside a call
  need only so many steps until the drain has finished and every shutdown call has returned.
 */
module ShutdownProgress {
  import opened ShutdownProtocol

  /** Steps left to a registrar that holds the list lock; a task it may still push costs the drain three. */
  function RegistrarWork(r: Registrar): nat {
    match r
    case Entered => 6
    case Permitted => 5
    case Denied => 2
    case Pushed => 1
    case Rejected => 1
    case _ => 0
  }

  function CallerWork(c: Caller): nat {
    match c
    case Holding => 3
    case Joining => 2
    case Leaving => 1
    case _ => 0
  }

  /** Steps left to the drain: three for each task, and the others once. */
  function DrainWork(s: State): int {
    match s.drain
    case Watching => 7 + 3 * |s.tasks|
    case Started => 6 + 3 * |s.tasks|
    case ListLocked => 5 + 3 * |s.tasks|
    case ListTaken => 4 + 3 * |s.taken|
    case Between(n) => 3 + 3 * (|s.taken| - n)
    case Armed(n, _) => 2 + 3 * (|s.taken| - n)
    case Waiting(n, _, _) => 1 + 3 * (|s.taken| - n)
    case Drained(_) => 2
    case TearingDown(_, _) => 1
    case Finished => 0
  }

  /** Waiting time that is left of the budget. */
  function WaitLeft(s: State): int {
    match s.drain
    case Waiting(_, since, _) => s.budget - s.waited - (s.now - since)
    case TearingDown(since, _) => s.budget - s.waited - (s.now - since)
    case _ => s.budget - s.waited
  }

  /** The calls that have signalled and wait for the join handle. */
  function Signalling(s: State): set<CallId> {
    set c | c in s.callers && s.callers[c] == Signalled
  }

  function ListWork(s: State): nat {
    if s.lock.ByRegistrar? then RegistrarWork(RegistrarOf(s, s.lock.task)) else 0
  }

  function JoinWork(s: State): nat {
    if s.joinLock.ByCaller? then CallerWork(CallerOf(s, s.joinLock.call)) else 0
  }

  /** A bound on the steps until everything is quiet. */
  function Work(s: State): int {
    WaitLeft(s) + DrainWork(s) + ListWork(s) + JoinWork(s) + 4 * |Signalling(s)|
  }

  lemma {:induction false} WorkIsNatural(s: State)
    requires Inv(s)
    ensures WaitLeft(s) >= 0 && DrainWork(s) >= 0 && Work(s) >= 0
  {
  }

  // ----- every kind of step does some of the work -------------------------------------------------

  lemma {:induction false} ListStepDescends(s: State, e: Step)
    requires Inv(s) && Enabled(s, e) && (e.ReadFlag? || e.Push? || e.AbortRefused? || e.ReturnFromTrack?)
    ensures Work(Apply(s, e)) < Work(s)
  {
    assert HoldsList(RegistrarOf(s, e.t)) && s.lock == ByRegistrar(e.t);
    assert Signalling(Apply(s, e)) == Signalling(s);
  }

  lemma {:induction false} JoinStepDescends(s: State, e: Step)
    requires Inv(s) && Enabled(s, e) && (e.TakeHandle? || e.Join? || e.ReturnFromShutdown?)
    ensures Work(Apply(s, e)) < Work(s)
  {
    assert HoldsJoin(CallerOf(s, e.c)) && s.joinLock == ByCaller(e.c);
    assert Signalling(Apply(s, e)) == Signalling(s);
  }

  lemma {:induction false} LockJoinDescends(s: State, e: Step)
    requires Inv(s) && Enabled(s, e) && e.LockJoin?
    ensures Work(Apply(s, e)) < Work(s)
  {
    assert e.c in Signalling(s);
    assert Signalling(Apply(s, e)) == Signalling(s) - {e.c};
  }

  lemma {:induction false} DrainStepDescends(s: State, e: Step)
    requires TimeInv(s) && ReportInv(s) && TakeInv(s) && SignalInv(s) && Enabled(s, e)
    requires e.SeeFlag? || e.DrainLock? || e.DrainTake? || e.DrainUnlock? || e.Arm? || e.StartWait? || e.EndWait? || e.EndDrain?
      || e.StartTeardown? || e.EndTeardown?
    ensures Work(Apply(s, e)) < Work(s)
  {
    assert Signalling(Apply(s, e)) == Signalling(s);
  }

  /** Time can only use up waiting time. */
  lemma {:induction false} TickDescends(s: State, e: Step)
    requires Enabled(s, e) && e.Tick?
    ensures Work(Apply(s, e)) <= Work(s)
    ensures Unaided(s, e) ==> Work(Apply(s, e)) < Work(s)
  {
    assert Signalling(Apply(s, e)) == Signalling(s);
  }

  /** A step of a call that is new to the protocol. */
  predicate NewCall(e: Step) {
    e.LockList? || e.Send?
  }

  /** Every step but a new call and a tick does some of the work that is left, also a task that ends
      by itself; a tick adds none. */
  lemma {:induction false} StepDescends(s: State, e: Step)
    requires Inv(s) && Enabled(s, e) && !NewCall(e)
    ensures 0 <= Work(Apply(s, e)) <= Work(s) && (!e.Tick? ==> Work(Apply(s, e)) < Work(s))
  {
    InvKept(s, e);
    WorkIsNatural(Apply(s, e));
    if e.ReadFlag? || e.Push? || e.AbortRefused? || e.ReturnFromTrack? {
      ListStepDescends(s, e);
    } else if e.TakeHandle? || e.Join? || e.ReturnFromShutdown? {
      JoinStepDescends(s, e);
    } else if e.LockJoin? {
      LockJoinDescends(s, e);
    } else if e.Tick? {
      TickDescends(s, e);
    } else {
      DrainStepDescends(s, e);
    }
  }

  /** Every unaided step does some of the work that is left. */
  lemma {:induction false} UnaidedStepDescends(s: State, e: Step)
    requires Inv(s) && Enabled(s, e) && Unaided(s, e)
    ensures 0 <= Work(Apply(s, e)) < Work(s)
  {
    StepDescends(s, e);
    if e.Tick? {
      TickDescends(s, e);
    }
  }

  // ----- runs -------------------------------------------------------------------------------------

  /** These are the steps of the run. */
  ghost predicate StepsOf(b: seq<State>, steps: seq<Step>) {
    && |steps| == |b| - 1
    && forall k {:trigger b[k + 1]} :: 0 <= k < |steps| ==> Enabled(b[k], steps[k]) && b[k + 1] == Apply(b[k], steps[k])
  }

  /** How many of the steps from i to j are more than the passing of time. */
  function Moves(steps: seq<Step>, i: nat, j: nat): nat
    requires i <= j <= |steps|
  {
    if i == j then 0 else Moves(steps, i, j - 1) + if steps[j - 1].Tick? then 0 else 1
  }

  /** Along any run without new calls, however the tasks end and whatever time passes, the threads
      take at most Work steps. */
  lemma {:induction false} RunIsBounded(b: seq<State>, steps: seq<Step>, i: nat, j: nat)
    requires Behavior(b) && StepsOf(b, steps) && i <= j < |b|
    requires forall k :: i <= k < j ==> !NewCall(steps[k])
    ensures 0 <= Work(b[j]) <= Work(b[i]) - Moves(steps, i, j)
    decreases j
  {
    InvHolds(b, j);
    WorkIsNatural(b[j]);
    if i < j {
      var k := j - 1;
      RunIsBounded(b, steps, i, k);
      InvHolds(b, k);
      assert Enabled(b[k], steps[k]) && b[k + 1] == Apply(b[k], steps[k]);
      StepDescends(b[k], steps[k]);
    }
  }

  ghost predicate UnaidedNext(s: State, s': State) {
    exists e :: Enabled(s, e) && Unaided(s, e) && s' == Apply(s, e)
  }

  /** Without new calls and without help from tasks, a run from state i on takes at most Work steps. */
  lemma {:induction false} UnaidedRunIsBounded(b: seq<State>, i: nat, j: nat)
    requires Behavior(b) && i <= j < |b|
    requires forall k {:trigger b[k + 1]} :: i <= k < j ==> UnaidedNext(b[k], b[k + 1])
    ensures 0 <= Work(b[j]) <= Work(b[i]) - (j - i)
  {
    InvHolds(b, j);
    WorkIsNatural(b[j]);
    if i < j {
      UnaidedRunIsBounded(b, i, j - 1);
      var k := j - 1;
      InvHolds(b, k);
      assert UnaidedNext(b[k], b[k + 1]);
      var e :| Enabled(b[k], e) && Unaided(b[k], e) && b[k + 1] == Apply(b[k], e);
      UnaidedStepDescends(b[k], e);
    }
  }

  /** The drain has finished and no shutdown call is under way. */
  ghost predicate Quiet(s: State) {
    s.drain == Finished && forall c: CallId :: CallerOf(s, c) == Idle || CallerOf(s, c) == Returned
  }

  /** After the signal, a run that can take no further unaided step is quiet: every call has returned. */
  lemma {:induction false} StuckMeansQuiet(b: seq<State>, i: nat)
    requires Behavior(b) && i < |b| && b[i].flag
    requires forall e :: Enabled(b[i], e) ==> !Unaided(b[i], e)
    ensures Quiet(b[i])
  {
    if !Quiet(b[i]) {
      var c: CallId := if s: CallId :| CallerOf(b[i], s) != Idle && CallerOf(b[i], s) != Returned then s else 0;
      NoDeadlock(b, i, c);
    }
  }

  lemma {:induction false} Extends(b: seq<State>, e: Step)
    requires Behavior(b) && Enabled(b[|b| - 1], e)
    ensures Behavior(b + [Apply(b[|b| - 1], e)])
  {
    var longer := b + [Apply(b[|b| - 1], e)];
    forall i {:trigger longer[i + 1]} | 0 <= i < |longer| - 1
      ensures Next(longer[i], longer[i + 1])
    {
      if i < |b| - 1 {
        assert longer[i] == b[i] && longer[i + 1] == b[i + 1];
      } else {
        assert longer[i] == b[|b| - 1];
      }
    }
  }

  /** A run is quiet or goes on with less work left. */
  lemma {:induction false} QuietOrNext(b: seq<State>) returns (quiet: bool, longer: seq<State>)
    requires Behavior(b) && b[|b| - 1].flag
    ensures quiet ==> Quiet(b[|b| - 1]) && Work(b[|b| - 1]) >= 0
    ensures !quiet ==> Behavior(longer) && b <= longer && |longer| == |b| + 1 && longer[|b|].flag
    ensures !quiet ==> 0 <= Work(longer[|b|]) < Work(b[|b| - 1]) && UnaidedNext(b[|b| - 1], longer[|b|])
  {
    var s := b[|b| - 1];
    InvHolds(b, |b| - 1);
    WorkIsNatural(s);
    if e :| Enabled(s, e) && Unaided(s, e) {
      UnaidedStepDescends(s, e);
      Extends(b, e);
      quiet, longer := false, b + [Apply(s, e)];
    } else {
      StuckMeansQuiet(b, |b| - 1);
      quiet, longer := true, b;
    }
  }

  /** After the signal, every run can be continued to a quiet state within Work unaided steps: every
      shutdown call returns, whatever the tasks do. */
  lemma {:induction false} ShutdownTerminates(b: seq<State>) returns (longer: seq<State>)
    requires Behavior(b) && b[|b| - 1].flag
    ensures Behavior(longer) && b <= longer && Quiet(longer[|longer| - 1])
    ensures |longer| - |b| <= Work(b[|b| - 1])
    ensures forall k {:trigger longer[k + 1]} :: |b| - 1 <= k < |longer| - 1 ==> UnaidedNext(longer[k], longer[k + 1])
    decreases Work(b[|b| - 1])
  {
    var quiet, next := QuietOrNext(b);
    if quiet {
      longer := b;
    } else {
      longer := ShutdownTerminates(next);
      assert longer[|b| - 1] == next[|b| - 1] == b[|b| - 1] && longer[|b|] == next[|b|];
    }
  }
}
