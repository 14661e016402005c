/**
  Focus mode: a session with an optional duration on the wall clock, and a cooldown on the monotone
  clock before the auto-activation rules may start the next one. Times are in nanoseconds.
 */
module FocusMode {
  import opened Basics

  const U32: nat := 0x1_0000_0000
  const SECOND: nat := 1_000_000_000
  const MINUTE: nat := 60_000_000_000

  type Count32 = n: int | 0 <= n < 0x1_0000_0000

  /** duration 0 is indefinite. */
  datatype Focus = Focus(active: bool, activatedAt: Option<int>, duration: Count32, auto: bool, lastDeactivation: Option<int>)

  function Started(f: Focus, duration: Count32, auto: bool, wall: int): Focus {
    f.(active := true, activatedAt := Some(wall), duration := duration, auto := auto)
  }

  function Ended(instant: int): Focus {
    Focus(false, None, 0, false, Some(instant))
  }

  /** Whole minutes from start to now, cut at 0 and cast to 32 bits. */
  function ElapsedMinutes(start: int, now: int): Count32 {
    if now < start then 0 else (now - start) / MINUTE % U32
  }

  function Remaining(f: Focus, wall: int): Option<Count32> {
    if !f.active || f.duration == 0 || f.activatedAt.None? then None
    else
      var elapsed: int := ElapsedMinutes(f.activatedAt.value, wall);
      Some(if f.duration as int < elapsed then 0 else f.duration as int - elapsed)
  }

  /** check_expiry would end the session. */
  predicate Expired(f: Focus, wall: int) {
    f.active && f.duration != 0 && f.activatedAt.Some? && ElapsedMinutes(f.activatedAt.value, wall) >= f.duration
  }

  predicate InCooldown(f: Focus, seconds: nat, instant: int) {
    && seconds != 0
    && f.lastDeactivation.Some?
    && (if instant < f.lastDeactivation.value then 0 else (instant - f.lastDeactivation.value) / SECOND) < seconds
  }

  class FocusModeState {
    var active: bool
    var activatedAt: Option<int>
    var duration: Count32
    var auto: bool
    var lastDeactivation: Option<int>

    ghost function Value(): Focus
      reads this
    {
      Focus(active, activatedAt, duration, auto, lastDeactivation)
    }

    constructor ()
      ensures Value() == Focus(false, None, 0, false, None)
    {
      active, activatedAt, duration, auto, lastDeactivation := false, None, 0, false, None;
    }

    method Activate(duration: Count32, auto: bool, wall: int)
      modifies this
      ensures Value() == Started(old(Value()), duration, auto, wall)
    {
      this.duration := duration;
      this.auto := auto;
      activatedAt := Some(wall);
      active := true;
    }

    method Deactivate(instant: int)
      modifies this
      ensures Value() == Ended(instant)
    {
      active := false;
      activatedAt := None;
      duration := 0;
      auto := false;
      lastDeactivation := Some(instant);
    }

    /** No minutes remain exactly when the expiry check would end the session at that moment. */
    method RemainingMinutes(wall: int) returns (r: Option<Count32>)
      ensures r == Remaining(Value(), wall)
      ensures r == Some(0) <==> Expired(Value(), wall)
    {
      if !active || duration == 0 || activatedAt.None? {
        return None;
      }
      var elapsed := ElapsedMinutes(activatedAt.value, wall);
      return Some(if duration < elapsed then 0 else duration - elapsed);
    }

    method CheckExpiry(wall: int, instant: int) returns (ended: bool)
      modifies this
      ensures ended == Expired(old(Value()), wall)
      ensures Value() == if ended then Ended(instant) else old(Value())
    {
      if !active || duration == 0 || activatedAt.None? {
        return false;
      }
      ended := ElapsedMinutes(activatedAt.value, wall) >= duration;
      if ended {
        Deactivate(instant);
      }
    }
  }

  /** A session has expired if and only if its full duration has passed, counted from its start or
      from the latest wrap of the 32-bit minute count; never when the wall clock went back. */
  lemma {:induction false} ExpiresIff(f: Focus, wall: int)
    requires f.active && f.activatedAt.Some?
    ensures Expired(f, wall) <==> f.duration != 0 && exists q: nat :: InCycle(f, wall, q)
  {
    var gone := wall - f.activatedAt.value;
    if gone >= 0 {
      var m := gone / MINUTE;
      assert m * MINUTE <= gone < m * MINUTE + MINUTE;
      if Expired(f, wall) {
        var q := m / U32;
        assert m == q * U32 + m % U32;
        assert InCycle(f, wall, q);
      }
      if q: nat :| InCycle(f, wall, q) {
        assert q * U32 + f.duration <= m < (q + 1) * U32;
        assert m % U32 == m - q * U32 by {
          CycleOf(m, q);
        }
      }
    }
  }

  lemma {:induction false} CycleOf(m: nat, q: nat)
    requires q * U32 <= m < (q + 1) * U32
    ensures m / U32 == q && m % U32 == m - q * U32
  {
  }

  /** The time lies in the q-th run of the minute count, at least the duration after it began. */
  ghost predicate InCycle(f: Focus, wall: int, q: nat)
    requires f.activatedAt.Some?
  {
    (q * U32 + f.duration) * MINUTE <= wall - f.activatedAt.value < (q + 1) * U32 * MINUTE
  }

  /** So until the count wraps, a session ends after its full duration and never before. */
  lemma {:induction false} ExpiresAfterItsDuration(f: Focus, wall: int)
    requires f.active && f.activatedAt.Some? && wall - f.activatedAt.value < U32 * MINUTE
    ensures Expired(f, wall) <==> f.duration != 0 && wall - f.activatedAt.value >= f.duration * MINUTE
  {
    ExpiresIff(f, wall);
    if f.duration != 0 && wall - f.activatedAt.value >= f.duration * MINUTE {
      assert InCycle(f, wall, 0);
    }
  }

  // ----- the auto-activation rules ----------------------------------------------------------------

  /** schedules holds, for each configured schedule, whether it matches the local time. */
  datatype AutoConfig = AutoConfig(enabled: bool, duration: Count32, triggerApps: seq<string>, schedules: seq<bool>, cooldown: nat)

  predicate Triggered(c: AutoConfig, app: string) {
    || (app != "" && exists k :: 0 <= k < |c.triggerApps| && Lower(c.triggerApps[k]) == Lower(app))
    || (exists k :: 0 <= k < |c.schedules| && c.schedules[k])
  }

  function Evaluate(c: AutoConfig, f: Focus, app: string, instant: int): Option<Count32> {
    if !c.enabled || f.active then None
    else if InCooldown(f, c.cooldown, instant) then None
    else if Triggered(c, app) then Some(c.duration)
    else None
  }

  // ----- runs -------------------------------------------------------------------------------------

  /**
    Commands activate and deactivate; the monitor loop checks the expiry, and evaluates the rules
    and then activates, which are two calls: commands can come between them.
   */
  datatype Step =
    | Activate(duration: Count32)
    | Deactivate
    | CheckExpiry
    | Decide(config: AutoConfig, app: string)
    | AutoActivate

  /** A step with the readings of the two clocks. */
  datatype Event = Event(step: Step, wall: int, instant: int)

  datatype Pending = Pending(duration: Count32, cooldown: nat)

  datatype State = State(focus: Focus, pending: Option<Pending>)

  ghost predicate Enabled(s: State, e: Event) {
    match e.step
    case Activate(_) => true
    case Deactivate => true
    case CheckExpiry => s.pending.None?
    case Decide(_, _) => s.pending.None?
    case AutoActivate => s.pending.Some?
  }

  ghost function Apply(s: State, e: Event): State
    requires Enabled(s, e)
  {
    match e.step
    case Activate(d) => s.(focus := Started(s.focus, d, false, e.wall))
    case Deactivate => s.(focus := Ended(e.instant))
    case CheckExpiry => s.(focus := if Expired(s.focus, e.wall) then Ended(e.instant) else s.focus)
    case Decide(c, app) =>
      var d := Evaluate(c, s.focus, app, e.instant);
      s.(pending := if d.Some? then Some(Pending(d.value, c.cooldown)) else None)
    case AutoActivate => State(Started(s.focus, s.pending.value.duration, true, e.wall), None)
  }

  /** The monotone clock never goes back; the wall clock may do anything. */
  ghost predicate Run(events: seq<Event>, states: seq<State>) {
    && |states| == |events| + 1
    && states[0] == State(Focus(false, None, 0, false, None), None)
    && (forall n :: 0 <= n < |events| ==> Enabled(states[n], events[n]) && states[n + 1] == Apply(states[n], events[n]))
    && (forall i, j :: 0 <= i < j < |events| ==> events[i].instant <= events[j].instant)
  }

  ghost predicate Tidy(f: Focus) {
    && (f.active <==> f.activatedAt.Some?)
    && (!f.active ==> f.duration == 0 && !f.auto)
  }

  /** An active session has its start; otherwise everything about it is cleared. */
  lemma {:induction false} TidyThroughout(events: seq<Event>, states: seq<State>, n: nat)
    requires Run(events, states) && n <= |events|
    ensures Tidy(states[n].focus)
  {
    if n > 0 {
      TidyThroughout(events, states, n - 1);
      assert states[n] == Apply(states[n - 1], events[n - 1]);
    }
  }

  /** The step at i put an end to focus mode: a command, or a check on an expired session. */
  ghost predicate Ends(events: seq<Event>, states: seq<State>, i: int) {
    && 0 <= i < |events| && i < |states|
    && (events[i].step.Deactivate? || (events[i].step.CheckExpiry? && Expired(states[i].focus, events[i].wall)))
  }

  /** When the latest deactivation of the run was. */
  ghost function LastEnd(events: seq<Event>, states: seq<State>, n: nat): Option<int>
    requires n <= |events| < |states|
  {
    if n == 0 then None
    else if Ends(events, states, n - 1) then Some(events[n - 1].instant)
    else LastEnd(events, states, n - 1)
  }

  lemma {:induction false} RemembersTheLastEnd(events: seq<Event>, states: seq<State>, n: nat)
    requires Run(events, states) && n <= |events|
    ensures states[n].focus.lastDeactivation == LastEnd(events, states, n)
  {
    if n > 0 {
      RemembersTheLastEnd(events, states, n - 1);
      assert states[n] == Apply(states[n - 1], events[n - 1]);
    }
  }

  /** At this instant nothing is active, and the cooldown since the last deactivation is over. */
  ghost predicate Clear(f: Focus, cooldown: nat, instant: int) {
    && !f.active
    && (cooldown == 0 || f.lastDeactivation.None? || instant - f.lastDeactivation.value >= cooldown * SECOND)
  }

  lemma {:induction false} OutOfCooldownIff(f: Focus, cooldown: nat, instant: int)
    requires !f.active
    ensures !InCooldown(f, cooldown, instant) <==> Clear(f, cooldown, instant)
  {
    if cooldown > 0 && f.lastDeactivation.Some? {
      var gone := instant - f.lastDeactivation.value;
      if gone >= 0 {
        var q := gone / SECOND;
        assert q * SECOND <= gone < q * SECOND + SECOND;
        if q >= cooldown {
          assert gone >= cooldown * SECOND;
        } else {
          assert q + 1 <= cooldown;
          assert gone < cooldown * SECOND;
        }
      } else {
        assert cooldown * SECOND > 0;
      }
    }
  }

  /** The latest command since the latest decision, if there was one. */
  ghost function Interference(events: seq<Event>, n: nat): Option<nat>
    requires n <= |events|
  {
    if n == 0 || events[n - 1].step.Decide? then None
    else if events[n - 1].step.Activate? || events[n - 1].step.Deactivate? then Some(n - 1)
    else Interference(events, n - 1)
  }

  /** What a pending decision still rests on after n steps. */
  ghost predicate Grounds(events: seq<Event>, states: seq<State>, n: nat)
    requires n <= |events| < |states|
  {
    states[n].pending.Some? ==>
      n > 0 &&
      match Interference(events, n)
      case None => Clear(states[n].focus, states[n].pending.value.cooldown, events[n - 1].instant)
      case Some(i) =>
        && i < n
        && (events[i].step.Activate? ==> states[n].focus.active)
        && (events[i].step.Deactivate? ==> states[n].focus == Ended(events[i].instant))
  }

  lemma {:induction false} GroundsHold(events: seq<Event>, states: seq<State>, n: nat)
    requires Run(events, states) && n <= |events|
    ensures Grounds(events, states, n)
  {
    if n > 0 {
      GroundsHold(events, states, n - 1);
      var s, e := states[n - 1], events[n - 1];
      assert Enabled(s, e) && states[n] == Apply(s, e);
      if e.step.Decide? && !s.focus.active {
        OutOfCooldownIff(s.focus, e.step.config.cooldown, e.instant);
      }
    }
  }

  /**
    An activation by the rules starts while nothing is active, at least the cooldown after the last
    deactivation, if and only if no command came between the decision and the activation, or the
    last such command was a deactivation and the cooldown has passed since.
   */
  lemma {:induction false} AutoStartIsClearIff(events: seq<Event>, states: seq<State>, n: nat)
    requires Run(events, states) && n < |events| && events[n].step.AutoActivate?
    ensures states[n].pending.Some?
    ensures
      var cooldown := states[n].pending.value.cooldown;
      Clear(states[n].focus, cooldown, events[n].instant) <==>
        match Interference(events, n)
        case None => true
        case Some(i) =>
          && i < n && events[i].step.Deactivate?
          && (cooldown == 0 || events[n].instant - events[i].instant >= cooldown * SECOND)
  {
    assert Enabled(states[n], events[n]);
    GroundsHold(events, states, n);
    InterferenceIsCommand(events, n);
  }

  lemma {:induction false} InterferenceIsCommand(events: seq<Event>, n: nat)
    requires n <= |events|
    ensures Interference(events, n).Some? ==>
      var i := Interference(events, n).value;
      i < n && (events[i].step.Activate? || events[i].step.Deactivate?)
  {
    if n > 0 {
      InterferenceIsCommand(events, n - 1);
    }
  }

  /** A command between the two calls: the rules start a session while the cooldown has just begun. */
  lemma {:induction false} CommandCanComeBetween(config: AutoConfig, events: seq<Event>, states: seq<State>)
    requires config == AutoConfig(true, 25, ["code"], [], 300)
    requires events == [Event(Decide(config, "code"), 0, 0), Event(Deactivate, 0, 0), Event(AutoActivate, 0, 0)]
    requires |states| == 4 && states[0] == State(Focus(false, None, 0, false, None), None)
    requires states[1] == State(states[0].focus, Some(Pending(25, 300)))
    requires states[2] == State(Ended(0), Some(Pending(25, 300)))
    requires states[3] == State(Started(Ended(0), 25, true, 0), None)
    ensures Run(events, states) && !Clear(states[2].focus, 300, events[2].instant)
  {
    assert Lower(config.triggerApps[0]) == Lower("code");
    assert Triggered(config, "code");
    forall n | 0 <= n < |events|
      ensures Enabled(states[n], events[n]) && states[n + 1] == Apply(states[n], events[n])
    {
      assert n == 0 || n == 1 || n == 2;
    }
  }
}
