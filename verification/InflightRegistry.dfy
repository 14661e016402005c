/** The registry of abortable in-flight drain tasks, one entry per session, guarded by tokens. */
module InflightRegistry {
  /** Tokens are 64-bit and wrap around. */
  const TOKENS: nat := 0x1_0000_0000_0000_0000

  type Handle = nat

  datatype Entry = Entry(token: nat, handle: Handle)

  /** stopped lists the handles told to abort, in order. */
  datatype Registry = Registry(nextToken: nat, tasks: map<string, Entry>, stopped: seq<Handle>)

  datatype Op =
    | Reserve
    | Bind(session: string, token: nat, handle: Handle)
    | Deregister(session: string, token: nat)
    | Abort(session: string)

  function Apply(r: Registry, op: Op): Registry {
    match op
    case Reserve => r.(nextToken := (r.nextToken + 1) % TOKENS)
    case Bind(session, token, handle) => r.(tasks := r.tasks[session := Entry(token, handle)])
    case Deregister(session, token) =>
      if session in r.tasks && r.tasks[session].token == token then r.(tasks := r.tasks - {session}) else r
    case Abort(session) =>
      if session in r.tasks then r.(tasks := r.tasks - {session}, stopped := r.stopped + [r.tasks[session].handle]) else r
  }

  class InflightRegistry {
    var nextToken: nat
    var tasks: map<string, Entry>
    var stopped: seq<Handle>

    ghost function Value(): Registry
      reads this
    {
      Registry(nextToken, tasks, stopped)
    }

    constructor ()
      ensures Value() == Registry(0, map[], [])
    {
      nextToken, tasks, stopped := 0, map[], [];
    }

    method ReserveToken() returns (token: nat)
      modifies this
      ensures token == old(nextToken) && Value() == Apply(old(Value()), Reserve)
    {
      token := nextToken;
      nextToken := (nextToken + 1) % TOKENS;
    }

    method BindTask(session: string, token: nat, handle: Handle)
      modifies this
      ensures Value() == Apply(old(Value()), Bind(session, token, handle))
    {
      tasks := tasks[session := Entry(token, handle)];
    }

    method DeregisterTask(session: string, token: nat)
      modifies this
      ensures Value() == Apply(old(Value()), Deregister(session, token))
    {
      if session in tasks && tasks[session].token == token {
        tasks := tasks - {session};
      }
    }

    method AbortTask(session: string) returns (found: bool)
      modifies this
      ensures found == (session in old(tasks))
      ensures Value() == Apply(old(Value()), Abort(session))
    {
      found := session in tasks;
      if found {
        stopped := stopped + [tasks[session].handle];
        tasks := tasks - {session};
      }
    }
  }

  // ----- any sequence of operations ---------------------------------------------------------------

  function After(ops: seq<Op>, n: nat): Registry
    requires n <= |ops|
  {
    if n == 0 then Registry(0, map[], []) else Apply(After(ops, n - 1), ops[n - 1])
  }

  /** The operation ends the entry that a session got with this token. */
  predicate Ends(op: Op, session: string, token: nat) {
    || (op.Bind? && op.session == session)
    || (op.Abort? && op.session == session)
    || op == Deregister(session, token)
  }

  /** The bind at i is in force after n operations. */
  ghost predicate InForce(ops: seq<Op>, n: nat, i: int) {
    && 0 <= i < n <= |ops| && ops[i].Bind?
    && forall j :: i < j < n ==> !Ends(ops[j], ops[i].session, ops[i].token)
  }

  /**
    The registry is what its history says: a session has exactly the entry of its latest bind,
    unless a later abort of the session or a deregistration with the same token ended it.
   */
  lemma {:induction false} EntryIffInForce(ops: seq<Op>, n: nat, session: string, entry: Entry)
    requires n <= |ops|
    ensures (session in After(ops, n).tasks && After(ops, n).tasks[session] == entry) <==>
      exists i :: InForce(ops, n, i) && ops[i] == Bind(session, entry.token, entry.handle)
  {
    if n > 0 {
      var before, op := After(ops, n - 1), ops[n - 1];
      EntryIffInForce(ops, n - 1, session, entry);
      if op == Bind(session, entry.token, entry.handle) {
        assert InForce(ops, n, n - 1);
      } else if session in After(ops, n).tasks && After(ops, n).tasks[session] == entry {
        var i :| InForce(ops, n - 1, i) && ops[i] == Bind(session, entry.token, entry.handle);
        assert InForce(ops, n, i);
      } else {
        assert forall i :: InForce(ops, n, i) && i != n - 1 ==> InForce(ops, n - 1, i) && !Ends(op, ops[i].session, ops[i].token);
      }
    }
  }

  /** Aborting a session stops the task of the bind in force, and finds none exactly if there is none. */
  lemma {:induction false} AbortStopsTheTaskInForce(ops: seq<Op>, n: nat)
    requires n < |ops| && ops[n].Abort?
    ensures forall i :: InForce(ops, n, i) && ops[i].session == ops[n].session ==>
      After(ops, n + 1).stopped == After(ops, n).stopped + [ops[i].handle]
    ensures (forall i :: InForce(ops, n, i) ==> ops[i].session != ops[n].session) ==> After(ops, n + 1) == After(ops, n)
  {
    var r, session := After(ops, n), ops[n].session;
    forall i | InForce(ops, n, i) && ops[i].session == session
      ensures After(ops, n + 1).stopped == r.stopped + [ops[i].handle]
    {
      EntryIffInForce(ops, n, session, Entry(ops[i].token, ops[i].handle));
    }
    if session in r.tasks {
      EntryIffInForce(ops, n, session, r.tasks[session]);
    }
  }

  // ----- turns ------------------------------------------------------------------------------------

  /**
    What one turn does: it reserves a token, spawns its task, and binds the task's handle; the task
    deregisters when it finishes, which can be before the bind.
   */
  datatype TurnStep =
    | StartTurn(turn: nat)
    | BindTurn(turn: nat, handle: Handle)
    | FinishTurn(turn: nat)
    | StopSession(session: string)

  /** How many tokens were reserved in the first n steps. */
  function Reserved(steps: seq<TurnStep>, n: nat): (r: nat)
    requires n <= |steps|
    ensures r <= n
  {
    if n == 0 then 0 else Reserved(steps, n - 1) + if steps[n - 1].StartTurn? then 1 else 0
  }

  /** How many tokens were reserved before the turn's own. */
  function Rank(steps: seq<TurnStep>, n: nat, turn: nat): nat
    requires n <= |steps|
  {
    if n == 0 then 0
    else if steps[n - 1] == StartTurn(turn) then Reserved(steps, n - 1)
    else Rank(steps, n - 1, turn)
  }

  function TokenOf(steps: seq<TurnStep>, n: nat, turn: nat): nat
    requires n <= |steps|
  {
    Rank(steps, n, turn) % TOKENS
  }

  ghost predicate Started(steps: seq<TurnStep>, n: nat, turn: nat)
    requires n <= |steps|
  {
    exists i :: 0 <= i < n && steps[i] == StartTurn(turn)
  }

  /** Every turn reserves once, binds at most once, and binds and finishes after it reserved. */
  ghost predicate TurnsInOrder(steps: seq<TurnStep>) {
    && (forall i, j :: 0 <= i < j < |steps| && steps[i].StartTurn? && steps[j].StartTurn? ==> steps[i].turn != steps[j].turn)
    && (forall i, j :: 0 <= i < j < |steps| && steps[i].BindTurn? && steps[j].BindTurn? ==> steps[i].turn != steps[j].turn)
    && (forall i :: 0 <= i < |steps| && (steps[i].BindTurn? || steps[i].FinishTurn?) ==> Started(steps, i, steps[i].turn))
  }

  /** The registry operation of the step at i. */
  function OpAt(session: nat -> string, steps: seq<TurnStep>, i: nat): Op
    requires i < |steps|
  {
    match steps[i]
    case StartTurn(_) => Reserve
    case BindTurn(t, handle) => Bind(session(t), TokenOf(steps, i, t), handle)
    case FinishTurn(t) => Deregister(session(t), TokenOf(steps, i, t))
    case StopSession(s) => Abort(s)
  }

  ghost function OpsOf(session: nat -> string, steps: seq<TurnStep>): (ops: seq<Op>)
    ensures |ops| == |steps| && forall i :: 0 <= i < |steps| ==> ops[i] == OpAt(session, steps, i)
  {
    seq(|steps|, i requires 0 <= i < |steps| => OpAt(session, steps, i))
  }

  /** The counter hands out exactly the token that the turn is modelled to hold. */
  lemma {:induction false} CounterCountsReservations(session: nat -> string, steps: seq<TurnStep>, n: nat)
    requires n <= |steps|
    ensures After(OpsOf(session, steps), n).nextToken == Reserved(steps, n) % TOKENS
  {
    if n > 0 {
      CounterCountsReservations(session, steps, n - 1);
      NextToken(Reserved(steps, n - 1));
    }
  }

  lemma {:induction false} NextToken(r: nat)
    ensures (r % TOKENS + 1) % TOKENS == (r + 1) % TOKENS
  {
    var q, m := r / TOKENS, r % TOKENS;
    assert r + 1 == q * TOKENS + (m + 1);
    if m + 1 == TOKENS {
      assert r + 1 == (q + 1) * TOKENS;
    }
  }

  lemma {:induction false} ReservedGrows(steps: seq<TurnStep>, i: nat, n: nat)
    requires i < n <= |steps| && steps[i].StartTurn?
    ensures Reserved(steps, i) < Reserved(steps, n)
    decreases n
  {
    if n - 1 > i {
      ReservedGrows(steps, i, n - 1);
    }
  }

  lemma {:induction false} RankIs(steps: seq<TurnStep>, i: nat, n: nat)
    requires TurnsInOrder(steps) && i < n <= |steps| && steps[i].StartTurn?
    ensures Rank(steps, n, steps[i].turn) == Reserved(steps, i) < Reserved(steps, n)
    decreases n
  {
    ReservedGrows(steps, i, n);
    if n - 1 > i {
      RankIs(steps, i, n - 1);
    }
  }

  /** Turns that have started have different ranks. */
  lemma {:induction false} RanksDiffer(steps: seq<TurnStep>, n: nat, a: nat, b: nat)
    requires TurnsInOrder(steps) && n <= |steps| && Started(steps, n, a) && Started(steps, n, b) && a != b
    ensures Rank(steps, n, a) != Rank(steps, n, b)
    ensures Rank(steps, n, a) < Reserved(steps, n) && Rank(steps, n, b) < Reserved(steps, n)
  {
    var i :| 0 <= i < n && steps[i] == StartTurn(a);
    var j :| 0 <= j < n && steps[j] == StartTurn(b);
    RankIs(steps, i, n);
    RankIs(steps, j, n);
    if i < j {
      ReservedGrows(steps, i, j);
    } else {
      ReservedGrows(steps, j, i);
    }
  }

  lemma {:induction false} RankKept(steps: seq<TurnStep>, m: nat, n: nat, turn: nat)
    requires TurnsInOrder(steps) && m <= n <= |steps| && Started(steps, m, turn)
    ensures Rank(steps, m, turn) == Rank(steps, n, turn) && Started(steps, n, turn)
  {
    var i :| 0 <= i < m && steps[i] == StartTurn(turn);
    RankIs(steps, i, m);
    RankIs(steps, i, n);
  }

  /**
    When a task finishes while turn b's entry is the one of its session, the entry goes exactly if
    the tokens coincide, that is if the ranks agree modulo 2^64.
   */
  lemma {:induction false} FinishRemovesIff(session: nat -> string, steps: seq<TurnStep>, n: nat, i: nat)
    requires TurnsInOrder(steps) && n < |steps| && steps[n].FinishTurn?
    requires InForce(OpsOf(session, steps), n, i) && OpsOf(session, steps)[i].session == session(steps[n].turn)
    ensures steps[i].BindTurn?
    ensures InForce(OpsOf(session, steps), n + 1, i) <==>
      Rank(steps, n, steps[n].turn) % TOKENS != Rank(steps, n, steps[i].turn) % TOKENS
  {
    var ops := OpsOf(session, steps);
    assert ops[i] == OpAt(session, steps, i) && ops[n] == OpAt(session, steps, n);
    RankKept(steps, i, n, steps[i].turn);
    if !Ends(ops[n], ops[i].session, ops[i].token) {
      assert InForce(ops, n + 1, i);
    }
  }

  /** With fewer than 2^64 reservations, a finishing task ends no entry but its own. */
  lemma {:induction false} FinishNeverEvictsAnotherTurn(session: nat -> string, steps: seq<TurnStep>, n: nat, i: nat)
    requires TurnsInOrder(steps) && n < |steps| && steps[n].FinishTurn? && Reserved(steps, n) <= TOKENS
    requires InForce(OpsOf(session, steps), n, i)
    ensures steps[i].BindTurn?
    ensures InForce(OpsOf(session, steps), n + 1, i) <==> steps[i].turn != steps[n].turn
  {
    var ops := OpsOf(session, steps);
    assert ops[i] == OpAt(session, steps, i) && ops[n] == OpAt(session, steps, n);
    var a, b := steps[n].turn, steps[i].turn;
    RankKept(steps, i, n, b);
    if session(a) == session(b) {
      FinishRemovesIff(session, steps, n, i);
      if a != b {
        RanksDiffer(steps, n, a, b);
      }
    } else {
      assert InForce(ops, n + 1, i);
    }
  }

  /** A task that finishes before its bind changes nothing. */
  lemma {:induction false} EarlyFinishChangesNothing(session: nat -> string, steps: seq<TurnStep>, n: nat)
    requires TurnsInOrder(steps) && n < |steps| && steps[n].FinishTurn? && Reserved(steps, n) <= TOKENS
    requires forall i :: 0 <= i < n && steps[i].BindTurn? ==> steps[i].turn != steps[n].turn
    ensures After(OpsOf(session, steps), n + 1) == After(OpsOf(session, steps), n)
  {
    var ops := OpsOf(session, steps);
    var r, s := After(ops, n), session(steps[n].turn);
    assert ops[n] == OpAt(session, steps, n);
    if s in r.tasks && r.tasks[s].token == ops[n].token {
      EntryIffInForce(ops, n, s, r.tasks[s]);
      var i :| InForce(ops, n, i) && ops[i] == Bind(s, r.tasks[s].token, r.tasks[s].handle);
      FinishNeverEvictsAnotherTurn(session, steps, n, i);
      assert Ends(ops[n], s, ops[i].token);
      assert false;
    }
  }

  // ----- entries of finished turns ----------------------------------------------------------------

  /** The task of the turn has finished within the first n steps. */
  ghost predicate Finished(steps: seq<TurnStep>, n: nat, turn: nat)
    requires n <= |steps|
  {
    exists j :: 0 <= j < n && steps[j] == FinishTurn(turn)
  }

  /** A finish after the bind would have ended the entry. */
  lemma {:induction false} NoFinishSinceBind(session: nat -> string, steps: seq<TurnStep>, n: nat, i: nat, j: nat)
    requires TurnsInOrder(steps) && n <= |steps| && InForce(OpsOf(session, steps), n, i) && i < j < n
    ensures steps[i].BindTurn? && steps[j] != FinishTurn(steps[i].turn)
  {
    var ops := OpsOf(session, steps);
    assert ops[i] == OpAt(session, steps, i) && ops[j] == OpAt(session, steps, j);
    assert !Ends(ops[j], ops[i].session, ops[i].token);
    RankKept(steps, i, j, steps[i].turn);
  }

  /** An entry in force belongs to a finished turn if and only if the turn finished before its bind. */
  lemma {:induction false} EntryIsStaleIff(session: nat -> string, steps: seq<TurnStep>, n: nat, i: nat)
    requires TurnsInOrder(steps) && n <= |steps| && InForce(OpsOf(session, steps), n, i)
    ensures steps[i].BindTurn?
    ensures Finished(steps, n, steps[i].turn) <==> Finished(steps, i, steps[i].turn)
  {
    assert OpsOf(session, steps)[i] == OpAt(session, steps, i);
    if j :| 0 <= j < n && steps[j] == FinishTurn(steps[i].turn) {
      if j > i {
        NoFinishSinceBind(session, steps, n, i, j);
        assert false;
      }
    }
  }

  /** A step that gives the session another entry or takes it away by an abort. */
  predicate Replaces(step: TurnStep, session: nat -> string, s: string) {
    || (step.BindTurn? && session(step.turn) == s)
    || step == StopSession(s)
  }

  /**
    The entry of a turn that finished before its bind outlives the task: it stays in force exactly
    until the next bind or abort of its session.
   */
  lemma {:induction false} StaleEntryStaysUntil(session: nat -> string, steps: seq<TurnStep>, i: nat, n: nat)
    requires TurnsInOrder(steps) && i < n <= |steps| && steps[i].BindTurn? && Reserved(steps, n) <= TOKENS
    requires forall j :: i < j < n ==> steps[j] != FinishTurn(steps[i].turn)
    ensures InForce(OpsOf(session, steps), n, i) <==>
      forall j :: i < j < n ==> !Replaces(steps[j], session, session(steps[i].turn))
    decreases n
  {
    var ops, turn := OpsOf(session, steps), steps[i].turn;
    assert ops[i] == OpAt(session, steps, i);
    if n - 1 > i {
      var k := n - 1;
      assert Reserved(steps, k) <= Reserved(steps, n);
      StaleEntryStaysUntil(session, steps, i, k);
      assert ops[k] == OpAt(session, steps, k);
      if InForce(ops, k, i) && steps[k].FinishTurn? {
        FinishNeverEvictsAnotherTurn(session, steps, k, i);
      }
      assert InForce(ops, n, i) <==> InForce(ops, k, i) && !Ends(ops[k], ops[i].session, ops[i].token);
    }
  }

  /** A run in which the task finishes first: its entry is left, and an abort then reports success
      and stops the handle of a task that is already gone. */
  lemma {:induction false} FinishedTaskCanBeAborted(session: nat -> string, steps: seq<TurnStep>)
    requires steps == [StartTurn(0), FinishTurn(0), BindTurn(0, 7), StopSession(session(0))]
    ensures TurnsInOrder(steps) && InForce(OpsOf(session, steps), 3, 2) && Finished(steps, 2, 0)
    ensures After(OpsOf(session, steps), 4).stopped == [7]
  {
    var ops := OpsOf(session, steps);
    assert steps[0] == StartTurn(0) && steps[1] == FinishTurn(0);
    assert ops[0] == OpAt(session, steps, 0) && ops[1] == OpAt(session, steps, 1);
    assert ops[2] == OpAt(session, steps, 2) && ops[3] == OpAt(session, steps, 3);
    assert After(ops, 1) == Registry(1, map[], []);
    assert After(ops, 2) == Registry(1, map[], []);
    assert After(ops, 3).tasks == map[session(0) := Entry(ops[2].token, 7)] && After(ops, 3).stopped == [];
  }
}
