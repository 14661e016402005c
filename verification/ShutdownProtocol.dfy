/**
  The background-runtime shutdown protocol.

  Registrars (`track_shutdown_task`), shutdown callers (`shutdown_blocking`, also run by `Drop`)
  and one drain thread share a watch flag, a locked task list and a locked join handle.  The
  protocol is a step relation: every lock acquisition, flag read, flag write, list update, timed
  wait and release is a step of its own, so any other thread may run in between.

  A `JoinHandle` is moved into its registration, so a handle is registered at most once and a
  registrar is named by its handle.  Time is a natural number of clock units.
 */
module ShutdownProtocol {
  import opened Basics

  type Task = nat
  type CallId = nat
  type Time = nat

  // ----- program counters ---------------------------------------------------------------------

  datatype Registrar =
    | Fresh       // not called yet
    | Entered     // holds the list lock, flag not read yet
    | Permitted   // holds the list lock, read the flag as false
    | Pushed      // holds the list lock, task is in the list
    | Denied      // holds the list lock, read the flag as true
    | Rejected    // holds the list lock, task aborted
    | Accepted    // returned Ok
    | Refused     // returned Err

  datatype Caller =
    | Idle
    | Signalled   // has executed send(true)
    | Holding     // holds the join-handle lock
    | Joining     // holds the lock and the join handle it took
    | Leaving     // holds the lock, nothing left to join
    | Returned

  datatype Drain =
    | Watching                                                // waits for the flag
    | Started                                                 // recorded the start instant
    | ListLocked                                              // holds the list lock
    | ListTaken                                               // took the list, still holds the lock
    | Between(next: nat)                                      // about to look at taken[next]
    | Armed(next: nat, remaining: Time)                       // computed the remaining budget
    | Waiting(next: nat, since: Time, deadline: Time)         // awaits taken[next]
    | Drained(remaining: Time)                                // block_on is over, receiver dropped
    | TearingDown(since: Time, deadline: Time)                // runtime.shutdown_timeout
    | Finished

  datatype Holder = Free | ByRegistrar(task: Task) | ByDrain

  datatype JoinHolder = Nobody | ByCaller(call: CallId)

  datatype Outcome = Completed | JoinFailed | TimedOut

  datatype Report = Report(task: Task, outcome: Outcome)

  datatype State = State(
    budget: Time,                        // shutdown_timeout
    flag: bool,                          // the watched value
    lock: Holder,                        // mutex of the task list
    tasks: seq<Task>,                    // the task list
    registrars: map<Task, Registrar>,
    joinLock: JoinHolder,                // mutex of the join handle
    handleStored: bool,                  // the join handle is still Some
    joins: nat,                          // completed thread joins
    callers: map<CallId, Caller>,
    drain: Drain,
    taken: seq<Task>,                    // what mem::take moved out of the list
    reports: seq<Report>,                // logged outcomes, oldest first
    aborted: set<Task>,                  // handles whose abort() was called
    now: Time,
    started: Time,                       // the drain's start instant
    waited: Time)                        // time spent inside finished timed waits

  function RegistrarOf(s: State, t: Task): Registrar {
    if t in s.registrars then s.registrars[t] else Fresh
  }

  function CallerOf(s: State, c: CallId): Caller {
    if c in s.callers then s.callers[c] else Idle
  }

  /** The receiver lives in the async block, which ends when the drain loop ends. */
  predicate ReceiverAlive(s: State) {
    !s.drain.Drained? && !s.drain.TearingDown? && !s.drain.Finished?
  }

  predicate TookList(s: State) {
    !s.drain.Watching? && !s.drain.Started? && !s.drain.ListLocked?
  }

  predicate Init(s: State) {
    && !s.flag && s.lock == Free && s.tasks == [] && s.registrars == map[]
    && s.joinLock == Nobody && s.handleStored && s.joins == 0 && s.callers == map[]
    && s.drain == Watching && s.taken == [] && s.reports == [] && s.aborted == {}
    && s.waited == 0
  }

  function Minus(a: Time, b: Time): Time {
    if a >= b then a - b else 0
  }

  // ----- steps --------------------------------------------------------------------------------

  datatype Step =
    | LockList(t: Task) | ReadFlag(t: Task) | Push(t: Task) | AbortRefused(t: Task) | ReturnFromTrack(t: Task)
    | Send(c: CallId) | LockJoin(c: CallId) | TakeHandle(c: CallId) | Join(c: CallId) | ReturnFromShutdown(c: CallId)
    | SeeFlag | DrainLock | DrainTake | DrainUnlock | Arm | StartWait | EndWait(o: Outcome) | EndDrain
    | StartTeardown | EndTeardown
    | Tick(d: Time)

  /** Timed waits end by their deadline: the clock cannot pass one that is running. */
  predicate MayTick(s: State, d: Time) {
    match s.drain
    case Waiting(_, _, deadline) => s.now + d <= deadline
    case TearingDown(_, deadline) => s.now + d <= deadline
    case _ => true
  }

  predicate Enabled(s: State, e: Step) {
    match e
    case LockList(t) => RegistrarOf(s, t) == Fresh && s.lock == Free
    case ReadFlag(t) => RegistrarOf(s, t) == Entered
    case Push(t) => RegistrarOf(s, t) == Permitted
    case AbortRefused(t) => RegistrarOf(s, t) == Denied
    case ReturnFromTrack(t) => RegistrarOf(s, t) == Pushed || RegistrarOf(s, t) == Rejected
    case Send(c) => CallerOf(s, c) == Idle
    case LockJoin(c) => CallerOf(s, c) == Signalled && s.joinLock == Nobody
    case TakeHandle(c) => CallerOf(s, c) == Holding
    case Join(c) => CallerOf(s, c) == Joining && s.drain == Finished
    case ReturnFromShutdown(c) => CallerOf(s, c) == Leaving
    case SeeFlag => s.drain == Watching && s.flag
    case DrainLock => s.drain == Started && s.lock == Free
    case DrainTake => s.drain == ListLocked
    case DrainUnlock => s.drain == ListTaken
    case Arm => s.drain.Between? && s.drain.next < |s.taken|
    case StartWait => s.drain.Armed?
    case EndWait(o) =>
      && s.drain.Waiting? && s.drain.next < |s.taken|
      && (o == TimedOut ==> s.now >= s.drain.deadline)
    case EndDrain => s.drain.Between? && s.drain.next >= |s.taken|
    case StartTeardown => s.drain.Drained?
    case EndTeardown => s.drain.TearingDown?
    case Tick(d) => MayTick(s, d)
  }

  function Apply(s: State, e: Step): State
    requires Enabled(s, e)
  {
    match e
    case LockList(t) => s.(lock := ByRegistrar(t), registrars := s.registrars[t := Entered])
    case ReadFlag(t) => s.(registrars := s.registrars[t := if s.flag then Denied else Permitted])
    case Push(t) => s.(tasks := s.tasks + [t], registrars := s.registrars[t := Pushed])
    case AbortRefused(t) => s.(aborted := s.aborted + {t}, registrars := s.registrars[t := Rejected])
    case ReturnFromTrack(t) =>
      s.(lock := Free, registrars := s.registrars[t := if RegistrarOf(s, t) == Pushed then Accepted else Refused])
    // A watch send without a receiver fails and leaves the value alone.
    case Send(c) => s.(flag := s.flag || ReceiverAlive(s), callers := s.callers[c := Signalled])
    case LockJoin(c) => s.(joinLock := ByCaller(c), callers := s.callers[c := Holding])
    case TakeHandle(c) =>
      s.(handleStored := false, callers := s.callers[c := if s.handleStored then Joining else Leaving])
    case Join(c) => s.(joins := s.joins + 1, callers := s.callers[c := Leaving])
    case ReturnFromShutdown(c) => s.(joinLock := Nobody, callers := s.callers[c := Returned])
    case SeeFlag => s.(drain := Started, started := s.now)
    case DrainLock => s.(drain := ListLocked, lock := ByDrain)
    case DrainTake => s.(drain := ListTaken, taken := s.tasks, tasks := [])
    case DrainUnlock => s.(drain := Between(0), lock := Free)
    case Arm => s.(drain := Armed(s.drain.next, Minus(s.budget, Minus(s.now, s.started))))
    case StartWait => s.(drain := Waiting(s.drain.next, s.now, s.now + s.drain.remaining))
    case EndWait(o) =>
      var t := s.taken[s.drain.next];
      s.(drain := Between(s.drain.next + 1),
         reports := s.reports + [Report(t, o)],
         aborted := if o == TimedOut then s.aborted + {t} else s.aborted,
         waited := s.waited + Minus(s.now, s.drain.since))
    case EndDrain => s.(drain := Drained(Minus(s.budget, Minus(s.now, s.started))))
    case StartTeardown => s.(drain := TearingDown(s.now, s.now + s.drain.remaining))
    case EndTeardown => s.(drain := Finished, waited := s.waited + Minus(s.now, s.drain.since))
    case Tick(d) => s.(now := s.now + d)
  }

  ghost predicate Next(s: State, s': State) {
    exists e: Step :: Enabled(s, e) && s' == Apply(s, e)
  }

  /** A finite run of the protocol: any interleaving of any number of threads. */
  ghost predicate Behavior(b: seq<State>) {
    && |b| > 0
    && Init(b[0])
    && forall i {:trigger b[i + 1]} :: 0 <= i < |b| - 1 ==> Next(b[i], b[i + 1])
  }

  // ----- the invariant ------------------------------------------------------------------------

  predicate HoldsList(r: Registrar) {
    r.Entered? || r.Permitted? || r.Pushed? || r.Denied? || r.Rejected?
  }

  predicate Registered(r: Registrar) {
    r.Pushed? || r.Accepted?
  }

  predicate HoldsJoin(c: Caller) {
    c.Holding? || c.Joining? || c.Leaving?
  }

  /** Every task a registrar has pushed, whether or not the drain took it. */
  function Ledger(s: State): seq<Task> {
    s.taken + s.tasks
  }

  function ReportedCount(s: State): nat {
    match s.drain
    case Between(n) => n
    case Armed(n, _) => n
    case Waiting(n, _, _) => n
    case Drained(_) => |s.taken|
    case TearingDown(_, _) => |s.taken|
    case Finished => |s.taken|
    case _ => 0
  }

  ghost predicate ListLockInv(s: State) {
    && (forall t: Task :: HoldsList(RegistrarOf(s, t)) <==> s.lock == ByRegistrar(t))
    && (s.lock == ByDrain <==> s.drain.ListLocked? || s.drain.ListTaken?)
  }

  ghost predicate JoinLockInv(s: State) {
    forall c: CallId :: HoldsJoin(CallerOf(s, c)) <==> s.joinLock == ByCaller(c)
  }

  ghost predicate LockInv(s: State) {
    ListLockInv(s) && JoinLockInv(s)
  }

  ghost predicate LedgerInv(s: State) {
    && Distinct(Ledger(s))
    && forall t: Task :: t in Ledger(s) <==> Registered(RegistrarOf(s, t))
  }

  ghost predicate TakeInv(s: State) {
    && (!TookList(s) ==> s.taken == [])
    && (TookList(s) ==>
          && s.tasks == []
          && forall t: Task :: !RegistrarOf(s, t).Permitted? && !RegistrarOf(s, t).Pushed?)
  }

  ghost predicate ReportInv(s: State) {
    && ReportedCount(s) <= |s.taken|
    && |s.reports| == ReportedCount(s)
    && (forall i :: 0 <= i < |s.reports| ==> s.reports[i].task == s.taken[i])
    && (s.drain.Armed? || s.drain.Waiting? ==> s.drain.next < |s.taken|)
  }

  ghost predicate AbortInv(s: State) {
    forall t: Task :: t in s.aborted <==>
      || RegistrarOf(s, t).Rejected? || RegistrarOf(s, t).Refused?
      || Report(t, TimedOut) in s.reports
  }

  ghost predicate SignalInv(s: State) {
    && (!s.drain.Watching? ==> s.flag)
    && (forall t: Task :: RegistrarOf(s, t).Denied? ==> s.flag)
    && (forall c: CallId :: CallerOf(s, c) != Idle ==> s.flag)
  }

  predicate CallerInv(s: State, c: CallId) {
    && (CallerOf(s, c).Joining? ==> !s.handleStored && s.joins == 0)
    && (CallerOf(s, c).Leaving? || CallerOf(s, c).Returned? ==> s.joins == 1)
  }

  predicate HandleInv(s: State) {
    && s.joins <= 1
    && (s.joins == 1 ==> s.drain == Finished && !s.handleStored)
    && (!s.handleStored && s.joins == 0 ==> s.joinLock.ByCaller? && CallerOf(s, s.joinLock.call).Joining?)
  }

  ghost predicate JoinInv(s: State) {
    HandleInv(s) && forall c: CallId :: CallerInv(s, c)
  }

  ghost predicate TimeInv(s: State) {
    && s.waited <= s.budget
    && (!s.drain.Watching? ==> s.started <= s.now && s.waited <= s.now - s.started)
    && (s.drain.Watching? ==> s.waited == 0)
    && match s.drain
       case Armed(_, remaining) =>
         s.waited + remaining <= s.budget && s.started + s.budget <= s.now + remaining
       case Drained(remaining) =>
         s.waited + remaining <= s.budget
       case Waiting(_, since, deadline) =>
         && since <= s.now <= deadline && s.started <= since && s.waited <= since - s.started
         && s.waited + (deadline - since) <= s.budget && s.started + s.budget <= deadline
       case TearingDown(since, deadline) =>
         && since <= s.now <= deadline && s.started <= since && s.waited <= since - s.started
         && s.waited + (deadline - since) <= s.budget
       case _ => true
  }

  ghost predicate TimeoutInv(s: State) {
    forall r :: r in s.reports && r.outcome == TimedOut ==> s.now >= s.started + s.budget
  }

  ghost predicate Inv(s: State) {
    && LockInv(s) && LedgerInv(s) && TakeInv(s) && ReportInv(s) && AbortInv(s)
    && SignalInv(s) && JoinInv(s) && TimeInv(s) && TimeoutInv(s)
  }

  // ----- preservation, one conjunct at a time ----------------------------------------------------

  lemma {:induction false} ListLockKept(s: State, e: Step)
    requires Enabled(s, e) && ListLockInv(s)
    ensures ListLockInv(Apply(s, e))
  {
    var s' := Apply(s, e);
    assert s'.registrars == s.registrars ==> forall t: Task :: RegistrarOf(s', t) == RegistrarOf(s, t);
  }

  lemma {:induction false} JoinLockKept(s: State, e: Step)
    requires Enabled(s, e) && JoinLockInv(s)
    ensures JoinLockInv(Apply(s, e))
  {
    var s' := Apply(s, e);
    assert s'.callers == s.callers ==> forall c: CallId :: CallerOf(s', c) == CallerOf(s, c);
  }

  lemma {:induction false} SignalKept(s: State, e: Step)
    requires Enabled(s, e) && SignalInv(s)
    ensures SignalInv(Apply(s, e))
  {
    var s' := Apply(s, e);
    assert forall t: Task :: RegistrarOf(s', t).Denied? ==> RegistrarOf(s, t).Denied? || s.flag;
    assert forall c: CallId :: CallerOf(s', c) != Idle ==> CallerOf(s, c) != Idle || e == Send(c);
  }

  lemma {:induction false} TakeKept(s: State, e: Step)
    requires Enabled(s, e) && ListLockInv(s) && SignalInv(s) && TakeInv(s)
    ensures TakeInv(Apply(s, e))
  {
    var s' := Apply(s, e);
    forall t: Task | TookList(s')
      ensures !RegistrarOf(s', t).Permitted? && !RegistrarOf(s', t).Pushed?
    {
      assert HoldsList(RegistrarOf(s, t)) <==> s.lock == ByRegistrar(t);
    }
  }

  /** Only a push changes the ledger; taking the list moves it. */
  lemma {:induction false} LedgerAfter(s: State, e: Step)
    requires Enabled(s, e) && TakeInv(s)
    ensures Ledger(Apply(s, e)) == if e.Push? then Ledger(s) + [e.t] else Ledger(s)
  {
    if e.Push? {
      assert RegistrarOf(s, e.t).Permitted?;
    } else if e.DrainTake? {
    } else {
      assert Apply(s, e).taken == s.taken && Apply(s, e).tasks == s.tasks;
    }
  }

  lemma {:induction false} RegisteredAfter(s: State, e: Step, t: Task)
    requires Enabled(s, e)
    ensures Registered(RegistrarOf(Apply(s, e), t)) <==> Registered(RegistrarOf(s, t)) || e == Push(t)
    ensures e == Push(t) ==> !Registered(RegistrarOf(s, t))
  {
  }

  lemma {:induction false} LedgerKept(s: State, e: Step)
    requires Enabled(s, e) && LedgerInv(s) && TakeInv(s)
    ensures LedgerInv(Apply(s, e))
  {
    LedgerAfter(s, e);
    forall t: Task
      ensures t in Ledger(Apply(s, e)) <==> Registered(RegistrarOf(Apply(s, e), t))
      ensures e == Push(t) ==> t !in Ledger(s)
    {
      RegisteredAfter(s, e, t);
    }
  }

  lemma {:induction false} ReportKept(s: State, e: Step)
    requires Enabled(s, e) && TakeInv(s) && ReportInv(s)
    ensures ReportInv(Apply(s, e))
  {
    if !e.EndWait? {
      assert Apply(s, e).reports == s.reports;
    }
  }

  lemma {:induction false} AbortKept(s: State, e: Step)
    requires Enabled(s, e) && ReportInv(s) && AbortInv(s)
    ensures AbortInv(Apply(s, e))
  {
    var s' := Apply(s, e);
    match e
    case EndWait(o) =>
      var r := Report(s.taken[s.drain.next], o);
      forall t: Task
        ensures Report(t, TimedOut) in s'.reports <==> Report(t, TimedOut) in s.reports || Report(t, TimedOut) == r
      {
      }
    case _ =>
      assert s'.reports == s.reports;
  }

  lemma {:induction false} HandleKept(s: State, e: Step)
    requires Enabled(s, e) && JoinLockInv(s) && JoinInv(s)
    ensures HandleInv(Apply(s, e))
  {
    if e.Join? || e.TakeHandle? || e.ReturnFromShutdown? || e.LockJoin? {
      assert CallerInv(s, e.c) && (HoldsJoin(CallerOf(s, e.c)) <==> s.joinLock == ByCaller(e.c));
    }
  }

  lemma {:induction false} CallerKept(s: State, e: Step, c: CallId)
    requires Enabled(s, e) && JoinLockInv(s) && HandleInv(s) && CallerInv(s, c)
    requires e.Join? ==> CallerInv(s, e.c)
    ensures CallerInv(Apply(s, e), c)
  {
    match e
    case Join(d) =>
      assert HoldsJoin(CallerOf(s, d)) && s.joinLock == ByCaller(d);
      assert c != d ==> !HoldsJoin(CallerOf(s, c));
    case TakeHandle(d) =>
      assert HoldsJoin(CallerOf(s, d)) && s.joinLock == ByCaller(d);
      assert !s.handleStored ==> s.joins == 1;
    case _ =>
      assert Apply(s, e).joins == s.joins && Apply(s, e).handleStored == s.handleStored;
  }

  lemma {:induction false} JoinKept(s: State, e: Step)
    requires Enabled(s, e) && JoinLockInv(s) && JoinInv(s)
    ensures JoinInv(Apply(s, e))
  {
    HandleKept(s, e);
    forall c: CallId
      ensures CallerInv(Apply(s, e), c)
    {
      assert CallerInv(s, c) && (e.Join? ==> CallerInv(s, e.c));
      CallerKept(s, e, c);
    }
  }

  lemma {:induction false} TimeKept(s: State, e: Step)
    requires Enabled(s, e) && TimeInv(s)
    ensures TimeInv(Apply(s, e))
  {
    var s' := Apply(s, e);
    if s'.drain == s.drain && !e.Tick? {
      assert s'.now == s.now && s'.started == s.started && s'.waited == s.waited && s'.budget == s.budget;
    }
  }

  lemma {:induction false} TimeoutKept(s: State, e: Step)
    requires Enabled(s, e) && TimeInv(s) && TimeoutInv(s) && ReportInv(s)
    ensures TimeoutInv(Apply(s, e))
  {
  }

  lemma {:induction false} InvKept(s: State, e: Step)
    requires Enabled(s, e) && Inv(s)
    ensures Inv(Apply(s, e))
  {
    ListLockKept(s, e);
    JoinLockKept(s, e);
    SignalKept(s, e);
    LedgerKept(s, e);
    TakeKept(s, e);
    ReportKept(s, e);
    AbortKept(s, e);
    JoinKept(s, e);
    TimeKept(s, e);
    TimeoutKept(s, e);
  }

  lemma {:induction false} InvHolds(b: seq<State>, i: nat)
    requires Behavior(b) && i < |b|
    ensures Inv(b[i])
  {
    if i > 0 {
      InvHolds(b, i - 1);
      var k := i - 1;
      assert Next(b[k], b[k + 1]);
      var e :| Enabled(b[k], e) && b[k + 1] == Apply(b[k], e);
      InvKept(b[k], e);
    }
  }

  // ----- what the protocol promises --------------------------------------------------------------

  /** The drain loop is over: every wait has ended and the budget left for teardown is fixed. */
  predicate DrainOver(s: State) {
    s.drain.Drained? || s.drain.TearingDown? || s.drain.Finished?
  }

  /** Entry k of the log is the only one about task t. */
  ghost predicate OnlyReport(reports: seq<Report>, k: nat, t: Task) {
    k < |reports| && forall j :: 0 <= j < |reports| ==> (reports[j].task == t <==> j == k)
  }

  /** A task whose registration returned Ok is never lost: it is in the list until the drain takes
      the list, in the taken list from then on, and has exactly one outcome once the drain loop is
      over.  It is aborted if and only if that outcome is a timeout. */
  lemma {:induction false} AcceptedTaskIsNeverLost(b: seq<State>, i: nat, t: Task)
    requires Behavior(b) && i < |b| && RegistrarOf(b[i], t).Accepted?
    ensures t in if TookList(b[i]) then b[i].taken else b[i].tasks
    ensures DrainOver(b[i]) ==> exists k: nat :: OnlyReport(b[i].reports, k, t)
    ensures t in b[i].aborted <==> Report(t, TimedOut) in b[i].reports
  {
    InvHolds(b, i);
    var s := b[i];
    assert t in Ledger(s);
    if DrainOver(s) {
      assert Ledger(s) == s.taken;
      var k: nat :| k < |s.taken| && s.taken[k] == t;
      assert OnlyReport(s.reports, k, t);
    }
  }

  /** A task whose registration returned Err was aborted, never enters a list and has no outcome. */
  lemma {:induction false} RefusedTaskIsAborted(b: seq<State>, i: nat, t: Task)
    requires Behavior(b) && i < |b| && RegistrarOf(b[i], t).Refused?
    ensures t in b[i].aborted
    ensures t !in b[i].tasks && t !in b[i].taken
    ensures forall r :: r in b[i].reports ==> r.task != t
  {
    InvHolds(b, i);
    assert t !in Ledger(b[i]);
    forall r | r in b[i].reports
      ensures r.task != t
    {
      var k :| 0 <= k < |b[i].reports| && b[i].reports[k] == r;
      assert b[i].taken[k] == r.task;
    }
  }

  /** The log is the taken list, in registration order, and each reported task was accepted. */
  lemma {:induction false} DrainReportsTheTakenList(b: seq<State>, i: nat)
    requires Behavior(b) && i < |b| && DrainOver(b[i])
    ensures |b[i].reports| == |b[i].taken|
    ensures forall k :: 0 <= k < |b[i].taken| ==>
      b[i].reports[k].task == b[i].taken[k] && RegistrarOf(b[i], b[i].taken[k]).Accepted?
    ensures forall t :: t in b[i].aborted && !RegistrarOf(b[i], t).Refused? && !RegistrarOf(b[i], t).Rejected? ==>
      Report(t, TimedOut) in b[i].reports
  {
    InvHolds(b, i);
    forall k | 0 <= k < |b[i].taken|
      ensures RegistrarOf(b[i], b[i].taken[k]).Accepted?
    {
      assert b[i].taken[k] in Ledger(b[i]);
    }
  }

  lemma {:induction false} NextStep(b: seq<State>, i: nat) returns (e: Step)
    requires Behavior(b) && i + 1 < |b|
    ensures Inv(b[i]) && Enabled(b[i], e) && b[i + 1] == Apply(b[i], e)
  {
    InvHolds(b, i);
    assert Next(b[i], b[i + 1]);
    e :| Enabled(b[i], e) && b[i + 1] == Apply(b[i], e);
  }

  lemma {:induction false} TakeIsFinal(s: State, e: Step)
    requires Enabled(s, e) && TookList(s)
    ensures TookList(Apply(s, e)) && Apply(s, e).taken == s.taken && s.reports <= Apply(s, e).reports
  {
  }

  /** The drain takes one list, once: from then on the shared list stays empty and the taken list
      is final. */
  lemma {:induction false} ListStaysEmptyAfterTake(b: seq<State>, i: nat, j: nat)
    requires Behavior(b) && i <= j < |b| && TookList(b[i])
    ensures TookList(b[j]) && b[j].tasks == [] && b[j].taken == b[i].taken
    ensures b[i].reports <= b[j].reports
  {
    if i == j {
      InvHolds(b, i);
    } else {
      ListStaysEmptyAfterTake(b, i, j - 1);
      var e := NextStep(b, j - 1);
      TakeIsFinal(b[j - 1], e);
      TakeKept(b[j - 1], e);
    }
  }

  /** Once shutdown has begun, a registration that has not read the flag yet can never succeed. */
  lemma {:induction false} LateRegistrationIsRefused(b: seq<State>, i: nat, j: nat, t: Task)
    requires Behavior(b) && i <= j < |b|
    requires b[i].flag && (RegistrarOf(b[i], t).Fresh? || RegistrarOf(b[i], t).Entered?)
    ensures b[j].flag
    ensures !RegistrarOf(b[j], t).Permitted? && !RegistrarOf(b[j], t).Pushed? && !RegistrarOf(b[j], t).Accepted?
  {
    if i < j {
      LateRegistrationIsRefused(b, i, j - 1, t);
      var e := NextStep(b, j - 1);
    }
  }

  /** No shutdown call returns before the drain thread has finished, whether it joined the thread
      or found the handle already taken; the thread is joined exactly once, and by then every
      accepted task has its one outcome. */
  lemma {:induction false} ShutdownReturnsAfterTheDrain(b: seq<State>, i: nat, c: CallId)
    requires Behavior(b) && i < |b| && CallerOf(b[i], c).Returned?
    ensures b[i].drain == Finished && b[i].joins == 1 && b[i].flag
    ensures forall t: Task :: RegistrarOf(b[i], t).Accepted? ==>
      exists k: nat :: OnlyReport(b[i].reports, k, t)
  {
    InvHolds(b, i);
    assert CallerInv(b[i], c);
    forall t: Task | RegistrarOf(b[i], t).Accepted?
      ensures exists k: nat :: OnlyReport(b[i].reports, k, t)
    {
      AcceptedTaskIsNeverLost(b, i, t);
    }
  }

  /** The join handle is joined at most once in any run, and never before the drain has finished. */
  lemma {:induction false} JoinedOnlyOnce(b: seq<State>, i: nat, j: nat)
    requires Behavior(b) && i <= j < |b|
    ensures b[i].joins <= b[j].joins <= 1
    ensures b[j].joins == 1 ==> b[j].drain == Finished
  {
    InvHolds(b, j);
    if i < j {
      JoinedOnlyOnce(b, i, j - 1);
      var e := NextStep(b, j - 1);
    }
  }

  /** Drain waits and the teardown wait share one budget, however much time passes in between.  A
      running wait is counted up to its deadline. */
  lemma {:induction false} WaitsShareOneBudget(b: seq<State>, i: nat)
    requires Behavior(b) && i < |b|
    ensures b[i].waited <= b[i].budget == b[0].budget
    ensures b[i].drain.Waiting? || b[i].drain.TearingDown? ==>
      b[i].drain.since <= b[i].now <= b[i].drain.deadline
      && b[i].waited + (b[i].drain.deadline - b[i].drain.since) <= b[i].budget
  {
    InvHolds(b, i);
    BudgetIsFixed(b, i);
  }

  lemma {:induction false} BudgetIsFixed(b: seq<State>, i: nat)
    requires Behavior(b) && i < |b|
    ensures b[i].budget == b[0].budget
  {
    if i > 0 {
      BudgetIsFixed(b, i - 1);
      var e := NextStep(b, i - 1);
    }
  }

  /** No task is timed out while some of the budget is left. */
  lemma {:induction false} TimeoutUsesTheWholeBudget(b: seq<State>, i: nat, t: Task)
    requires Behavior(b) && i < |b| && Report(t, TimedOut) in b[i].reports
    ensures b[i].now - b[i].started >= b[i].budget
  {
    InvHolds(b, i);
  }

  // ----- no deadlock -----------------------------------------------------------------------------

  /** A step that the threads already inside a call take without help: no new call, no task that
      happens to end, and the clock only while a timed wait is running. */
  predicate Unaided(s: State, e: Step) {
    match e
    case LockList(_) => false
    case Send(_) => false
    case EndWait(o) => o == TimedOut
    case EndTeardown => s.drain.TearingDown? && s.now >= s.drain.deadline
    case Tick(d) =>
      d > 0 && ((s.drain.Waiting? && s.now < s.drain.deadline) || (s.drain.TearingDown? && s.now < s.drain.deadline))
    case _ => true
  }

  lemma {:induction false} DrainCanStep(s: State) returns (e: Step)
    requires Inv(s) && s.flag && s.drain != Finished
    ensures Enabled(s, e) && Unaided(s, e)
  {
    match s.drain
    case Watching => e := SeeFlag;
    case Started =>
      match s.lock {
        case Free => e := DrainLock;
        case ByRegistrar(t) =>
          assert HoldsList(RegistrarOf(s, t));
          match RegistrarOf(s, t) {
            case Entered => e := ReadFlag(t);
            case Permitted => e := Push(t);
            case Denied => e := AbortRefused(t);
            case _ => e := ReturnFromTrack(t);
          }
        case ByDrain =>
          assert false;
      }
    case ListLocked => e := DrainTake;
    case ListTaken => e := DrainUnlock;
    case Between(n) => e := if n < |s.taken| then Arm else EndDrain;
    case Armed(_, _) => e := StartWait;
    case Waiting(_, _, deadline) => e := if s.now < deadline then Tick(deadline - s.now) else EndWait(TimedOut);
    case Drained(_) => e := StartTeardown;
    case TearingDown(_, deadline) => e := if s.now < deadline then Tick(deadline - s.now) else EndTeardown;
  }

  /** After the signal nobody blocks for good: while the drain has not finished, or some shutdown
      call has not returned, a thread can step, or the clock is running towards a deadline. */
  lemma {:induction false} NoDeadlock(b: seq<State>, i: nat, c: CallId)
    requires Behavior(b) && i < |b| && b[i].flag
    requires b[i].drain != Finished || (CallerOf(b[i], c) != Idle && CallerOf(b[i], c) != Returned)
    ensures exists e :: Enabled(b[i], e) && Unaided(b[i], e)
  {
    InvHolds(b, i);
    var s := b[i];
    if s.drain != Finished {
      var e := DrainCanStep(s);
    } else {
      var d := if s.joinLock.ByCaller? then s.joinLock.call else c;
      assert s.joinLock.ByCaller? ==> HoldsJoin(CallerOf(s, d));
      var pc := CallerOf(s, d);
      var e :=
        if pc == Signalled then LockJoin(d)
        else if pc == Holding then TakeHandle(d)
        else if pc == Joining then Join(d)
        else ReturnFromShutdown(d);
      assert Enabled(s, e) && Unaided(s, e);
    }
  }
}
