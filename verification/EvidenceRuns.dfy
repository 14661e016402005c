/**
  The evidence file over whole runs: verification calls write it through a temporary file and a
  rename, erasure unlinks it, and readiness reads it in pieces while all of that goes on.

  A file is a node with contents; the evidence path names at most one node. A reader holds the node
  it opened, so unlinking or renaming does not take it away.
 */
module EvidenceRuns {
  import opened Basics
  import opened Fingerprint

  const SCHEMA_VERSION := 1

  datatype Record = Record(schema: int, fingerprint: string, verifiedAt: string)

  /** The digest, the JSON codec and the RFC 3339 recogniser are those of the environment. */
  datatype Codec = Codec(H: HashFunction, serialize: Record -> seq<Byte>, parse: seq<Byte> -> Option<Record>, isTime: string -> bool)

  /** What is written can be read. */
  ghost predicate Sound(e: Codec) {
    forall r: Record :: e.parse(e.serialize(r)) == Some(r)
  }

  function RecordOf(e: Codec, input: Input, at: string): Record {
    Record(SCHEMA_VERSION, FingerprintOf(e.H, input), at)
  }

  /** read_recorded_fingerprint, on the bytes of the file. */
  function RecordedFingerprint(e: Codec, bytes: seq<Byte>): Option<string> {
    match e.parse(bytes)
    case None => None
    case Some(r) =>
      if r.schema == SCHEMA_VERSION && IsFingerprint(r.fingerprint) && e.isTime(r.verifiedAt) then Some(r.fingerprint) else None
  }

  // ----- the configuration ------------------------------------------------------------------------

  datatype Target = Target(surface: string, model: string)

  /** The credential the session factory resolves; looking a secret up can fail or take too long. */
  datatype Source = NoCredentialNeeded | Lookup(found: Option<string>)

  datatype Settings = Settings(target: Option<Target>, source: Option<Source>)

  /** What a session opened now would send; a blank secret is no secret. */
  function CurrentInput(c: Settings): (r: Option<Input>)
    ensures r.Some? && r.value.credential.Secret? ==> !IsBlank(r.value.credential.secret)
  {
    if c.target.None? || c.source.None? then None
    else
      var t := c.target.value;
      match c.source.value
      case NoCredentialNeeded => Some(Input(t.surface, t.model, NoAuth))
      case Lookup(None) => None
      case Lookup(Some(secret)) => if IsBlank(secret) then None else Some(Input(t.surface, t.model, Secret(secret)))
  }

  // ----- steps ------------------------------------------------------------------------------------

  datatype Writer = Writer(node: nat, json: seq<Byte>)

  /** node is None when there was no file to open. */
  datatype Reader = Reader(node: Option<nat>, got: seq<Byte>)

  datatype State = State(
    contents: seq<seq<Byte>>,
    current: Option<nat>,
    writers: map<nat, Writer>,
    readers: map<nat, Reader>,
    settings: Settings)

  datatype Step =
    | Begin(w: nat, input: Input, at: string)
    | Append(w: nat, count: nat)
    | Persist(w: nat)
    | GiveUp(w: nat)
    | Erase
    | Configure(settings: Settings)
    | Open(r: nat)
    | Fetch(r: nat, count: nat)
    | Close(r: nat)

  function Init(settings: Settings): State {
    State([], None, map[], map[], settings)
  }

  ghost predicate Enabled(e: Codec, s: State, a: Step) {
    match a
    case Begin(w, input, at) => w !in s.writers && e.isTime(at)
    case Append(w, count) =>
      w in s.writers && s.writers[w].node < |s.contents| &&
      |s.contents[s.writers[w].node]| + count <= |s.writers[w].json|
    case Persist(w) =>
      w in s.writers && s.writers[w].node < |s.contents| &&
      |s.contents[s.writers[w].node]| == |s.writers[w].json|
    case GiveUp(w) => w in s.writers
    case Erase => true
    case Configure(_) => true
    case Open(r) => r !in s.readers
    case Fetch(r, count) =>
      r in s.readers && s.readers[r].node.Some? && s.readers[r].node.value < |s.contents| &&
      |s.readers[r].got| + count <= |s.contents[s.readers[r].node.value]|
    case Close(r) => r in s.readers
  }

  ghost function Apply(e: Codec, s: State, a: Step): State
    requires Enabled(e, s, a)
  {
    match a
    case Begin(w, input, at) =>
      s.(contents := s.contents + [[]], writers := s.writers[w := Writer(|s.contents|, e.serialize(RecordOf(e, input, at)))])
    case Append(w, count) =>
      var node := s.writers[w].node;
      var done := |s.contents[node]|;
      s.(contents := s.contents[node := s.contents[node] + s.writers[w].json[done..done + count]])
    case Persist(w) => s.(current := Some(s.writers[w].node), writers := s.writers - {w})
    case GiveUp(w) => s.(writers := s.writers - {w})
    case Erase => s.(current := None)
    case Configure(c) => s.(settings := c)
    case Open(r) => s.(readers := s.readers[r := Reader(s.current, [])])
    case Fetch(r, count) =>
      var Reader(node, got) := s.readers[r];
      s.(readers := s.readers[r := Reader(node, got + s.contents[node.value][|got|..|got| + count])])
    case Close(r) => s.(readers := s.readers - {r})
  }

  ghost predicate Run(e: Codec, steps: seq<Step>, states: seq<State>) {
    && |states| == |steps| + 1
    && (exists c :: states[0] == Init(c))
    && forall n :: 0 <= n < |steps| ==> Enabled(e, states[n], steps[n]) && states[n + 1] == Apply(e, states[n], steps[n])
  }

  // ----- what the steps alone say -----------------------------------------------------------------

  datatype Written = Written(input: Input, at: string)

  /** What writer w was last told to write. */
  ghost function Told(steps: seq<Step>, n: nat, w: nat): Option<Written>
    requires n <= |steps|
  {
    if n == 0 then None
    else if steps[n - 1].Begin? && steps[n - 1].w == w then Some(Written(steps[n - 1].input, steps[n - 1].at))
    else Told(steps, n - 1, w)
  }

  /** The latest completed write, unless the record was erased since. */
  ghost function LatestWrite(steps: seq<Step>, n: nat): Option<Written>
    requires n <= |steps|
  {
    if n == 0 || steps[n - 1].Erase? then None
    else if steps[n - 1].Persist? then Told(steps, n - 1, steps[n - 1].w)
    else LatestWrite(steps, n - 1)
  }

  /** The latest write at the moment reader r last opened the file. */
  ghost function WriteAtOpen(steps: seq<Step>, n: nat, r: nat): Option<Written>
    requires n <= |steps|
  {
    if n == 0 then None
    else if steps[n - 1] == Open(r) then LatestWrite(steps, n - 1)
    else WriteAtOpen(steps, n - 1, r)
  }

  ghost function Json(e: Codec, x: Written): seq<Byte> {
    e.serialize(RecordOf(e, x.input, x.at))
  }

  // ----- the invariant ----------------------------------------------------------------------------

  /** A node that is complete: it holds exactly what was written, if anything. */
  ghost predicate Holds(e: Codec, s: State, node: Option<nat>, x: Option<Written>) {
    && (node.Some? <==> x.Some?)
    && (node.Some? ==> node.value < |s.contents| && s.contents[node.value] == Json(e, x.value) && e.isTime(x.value.at))
  }

  ghost predicate WriterOk(e: Codec, s: State, w: nat, told: Option<Written>)
    requires w in s.writers
  {
    var Writer(node, json) := s.writers[w];
    && told.Some? && json == Json(e, told.value) && e.isTime(told.value.at)
    && node < |s.contents| && s.contents[node] <= json
  }

  /** A temporary file is no other writer's, not the record, and opened by nobody. */
  ghost predicate Private(s: State, w: nat)
    requires w in s.writers
  {
    var node := s.writers[w].node;
    && s.current != Some(node)
    && (forall v :: v in s.writers && v != w ==> s.writers[v].node != node)
    && (forall r :: r in s.readers ==> s.readers[r].node != Some(node))
  }

  ghost predicate ReaderOk(e: Codec, s: State, r: nat, x: Option<Written>)
    requires r in s.readers
  {
    && Holds(e, s, s.readers[r].node, x)
    && (x.Some? ==> s.readers[r].got <= Json(e, x.value))
    && (x.None? ==> s.readers[r].got == [])
  }

  ghost predicate Inv(e: Codec, s: State, steps: seq<Step>, n: nat)
    requires n <= |steps|
  {
    && Holds(e, s, s.current, LatestWrite(steps, n))
    && (forall w :: w in s.writers ==> WriterOk(e, s, w, Told(steps, n, w)))
    && (forall w :: w in s.writers ==> Private(s, w))
    && (forall r :: r in s.readers ==> ReaderOk(e, s, r, WriteAtOpen(steps, n, r)))
  }

  /** A complete node stays complete: no writer owns it. */
  lemma {:induction false} HoldsKept(e: Codec, s: State, a: Step, node: Option<nat>, x: Option<Written>)
    requires Enabled(e, s, a) && Holds(e, s, node, x)
    requires forall w :: w in s.writers ==> Some(s.writers[w].node) != node
    ensures Holds(e, Apply(e, s, a), node, x)
  {
  }

  lemma {:induction false} CurrentKept(e: Codec, s: State, steps: seq<Step>, n: nat)
    requires n < |steps| && Inv(e, s, steps, n) && Enabled(e, s, steps[n])
    ensures Holds(e, Apply(e, s, steps[n]), Apply(e, s, steps[n]).current, LatestWrite(steps, n + 1))
  {
    if steps[n].Persist? {
      var w := steps[n].w;
      assert WriterOk(e, s, w, Told(steps, n, w));
    } else if !steps[n].Erase? {
      forall w | w in s.writers
        ensures Some(s.writers[w].node) != s.current
      {
        assert Private(s, w);
      }
      HoldsKept(e, s, steps[n], s.current, LatestWrite(steps, n));
    }
  }

  /** A writer's file grows along what the writer was told to write; other files stay. */
  lemma {:induction false} AppendKept(e: Codec, s: State, a: Step, w: nat)
    requires Enabled(e, s, a) && w in s.writers && w in Apply(e, s, a).writers && Private(s, w)
    requires s.writers[w].node < |s.contents| && s.contents[s.writers[w].node] <= s.writers[w].json
    ensures
      var node := s.writers[w].node;
      && Apply(e, s, a).writers[w] == s.writers[w] && node < |Apply(e, s, a).contents|
      && Apply(e, s, a).contents[node] <= s.writers[w].json
  {
    if a.Append? && a.w == w {
      var done, json := s.contents[s.writers[w].node], s.writers[w].json;
      assert done + json[|done|..|done| + a.count] == json[..|done| + a.count];
    }
  }

  lemma {:induction false} WriterKept(e: Codec, s: State, steps: seq<Step>, n: nat, w: nat)
    requires n < |steps| && Inv(e, s, steps, n) && Enabled(e, s, steps[n])
    requires w in Apply(e, s, steps[n]).writers
    ensures WriterOk(e, Apply(e, s, steps[n]), w, Told(steps, n + 1, w))
  {
    if w in s.writers {
      assert WriterOk(e, s, w, Told(steps, n, w)) && Private(s, w);
      AppendKept(e, s, steps[n], w);
    }
  }

  /** Distinct writers keep distinct nodes; a new one gets a node that nothing refers to. */
  lemma {:induction false} PrivateKept(e: Codec, s: State, a: Step, w: nat)
    requires Enabled(e, s, a) && w in Apply(e, s, a).writers && NodesExist(s)
    requires forall v :: v in s.writers ==> Private(s, v)
    ensures Private(Apply(e, s, a), w)
  {
    if a.Begin? {
      BeginIsPrivate(e, s, a, w);
    } else {
      assert Private(s, w);
      if a.Persist? {
        assert Private(s, a.w);
      }
    }
  }

  lemma {:induction false} BeginIsPrivate(e: Codec, s: State, a: Step, w: nat)
    requires a.Begin? && Enabled(e, s, a) && w in Apply(e, s, a).writers && NodesExist(s)
    requires forall v :: v in s.writers ==> Private(s, v)
    ensures Private(Apply(e, s, a), w)
  {
    if w != a.w {
      assert Private(s, w);
    }
  }

  ghost predicate NodesExist(s: State) {
    && (s.current.Some? ==> s.current.value < |s.contents|)
    && (forall v :: v in s.writers ==> s.writers[v].node < |s.contents|)
    && (forall r :: r in s.readers && s.readers[r].node.Some? ==> s.readers[r].node.value < |s.contents|)
  }

  lemma {:induction false} InvNodesExist(e: Codec, s: State, steps: seq<Step>, n: nat)
    requires n <= |steps| && Inv(e, s, steps, n)
    ensures NodesExist(s)
  {
    assert forall v :: v in s.writers ==> WriterOk(e, s, v, Told(steps, n, v));
    assert forall r :: r in s.readers ==> ReaderOk(e, s, r, WriteAtOpen(steps, n, r));
  }

  /** What a reader has got grows along the contents of its node. */
  lemma {:induction false} GotKept(e: Codec, s: State, a: Step, r: nat, x: Option<Written>)
    requires Enabled(e, s, a) && r in s.readers && r in Apply(e, s, a).readers && ReaderOk(e, s, r, x)
    ensures Apply(e, s, a).readers[r].node == s.readers[r].node
    ensures x.Some? ==> Apply(e, s, a).readers[r].got <= Json(e, x.value)
    ensures x.None? ==> Apply(e, s, a).readers[r].got == []
  {
    if a.Fetch? && a.r == r {
      var got, all := s.readers[r].got, Json(e, x.value);
      assert got + all[|got|..|got| + a.count] == all[..|got| + a.count];
    }
  }

  lemma {:induction false} ReaderKept(e: Codec, s: State, steps: seq<Step>, n: nat, r: nat)
    requires n < |steps| && Inv(e, s, steps, n) && Enabled(e, s, steps[n])
    requires r in Apply(e, s, steps[n]).readers
    ensures ReaderOk(e, Apply(e, s, steps[n]), r, WriteAtOpen(steps, n + 1, r))
  {
    if steps[n] != Open(r) {
      var x := WriteAtOpen(steps, n, r);
      assert ReaderOk(e, s, r, x);
      GotKept(e, s, steps[n], r, x);
      forall w | w in s.writers
        ensures Some(s.writers[w].node) != s.readers[r].node
      {
        assert Private(s, w);
      }
      HoldsKept(e, s, steps[n], s.readers[r].node, x);
    }
  }

  lemma {:induction false} InvKept(e: Codec, s: State, steps: seq<Step>, n: nat)
    requires n < |steps| && Inv(e, s, steps, n) && Enabled(e, s, steps[n])
    ensures Inv(e, Apply(e, s, steps[n]), steps, n + 1)
  {
    var t := Apply(e, s, steps[n]);
    CurrentKept(e, s, steps, n);
    InvNodesExist(e, s, steps, n);
    forall w | w in t.writers
      ensures WriterOk(e, t, w, Told(steps, n + 1, w)) && Private(t, w)
    {
      WriterKept(e, s, steps, n, w);
      PrivateKept(e, s, steps[n], w);
    }
    forall r | r in t.readers
      ensures ReaderOk(e, t, r, WriteAtOpen(steps, n + 1, r))
    {
      ReaderKept(e, s, steps, n, r);
    }
  }

  lemma {:induction false} InvHolds(e: Codec, steps: seq<Step>, states: seq<State>, n: nat)
    requires Run(e, steps, states) && n <= |steps|
    ensures Inv(e, states[n], steps, n)
  {
    if n > 0 {
      InvHolds(e, steps, states, n - 1);
      InvKept(e, states[n - 1], steps, n - 1);
    }
  }

  // ----- main results -----------------------------------------------------------------------------

  /** The reader has read to the end of what it opened. */
  ghost predicate AtEnd(s: State, r: nat) {
    && r in s.readers
    && (s.readers[r].node.Some? ==>
      s.readers[r].node.value < |s.contents| && |s.readers[r].got| == |s.contents[s.readers[r].node.value]|)
  }

  /** A reader sees the record that was latest when it opened the file, whole, or no file. */
  lemma {:induction false} ReaderSeesOneRecord(e: Codec, steps: seq<Step>, states: seq<State>, n: nat, r: nat)
    requires Run(e, steps, states) && n <= |steps| && AtEnd(states[n], r)
    ensures states[n].readers[r].node.Some? <==> WriteAtOpen(steps, n, r).Some?
    ensures WriteAtOpen(steps, n, r).Some? ==> states[n].readers[r].got == Json(e, WriteAtOpen(steps, n, r).value)
  {
    InvHolds(e, steps, states, n);
    assert ReaderOk(e, states[n], r, WriteAtOpen(steps, n, r));
  }

  /** http_chat_invocation_verified, once the reader is at the end. */
  ghost predicate Verified(e: Codec, s: State, r: nat) {
    && r in s.readers && s.readers[r].node.Some?
    && CurrentInput(s.settings).Some?
    && RecordedFingerprint(e, s.readers[r].got) == Some(FingerprintOf(e.H, CurrentInput(s.settings).value))
  }

  /** The verdict is true exactly when the latest write carried the current fingerprint. */
  lemma {:induction false} VerifiedIff(e: Codec, steps: seq<Step>, states: seq<State>, n: nat, r: nat)
    requires Sound(e) && Run(e, steps, states) && n <= |steps| && AtEnd(states[n], r)
    ensures Verified(e, states[n], r) <==>
      && WriteAtOpen(steps, n, r).Some? && CurrentInput(states[n].settings).Some?
      && FingerprintOf(e.H, WriteAtOpen(steps, n, r).value.input) == FingerprintOf(e.H, CurrentInput(states[n].settings).value)
  {
    ReaderSeesOneRecord(e, steps, states, n, r);
    InvHolds(e, steps, states, n);
    assert ReaderOk(e, states[n], r, WriteAtOpen(steps, n, r));
    if WriteAtOpen(steps, n, r).Some? {
      var x := WriteAtOpen(steps, n, r).value;
      EveryFingerprintIsRecognised(e.H, x.input);
      assert e.parse(Json(e, x)) == Some(RecordOf(e, x.input, x.at));
    }
  }

  /** A true verdict: the latest write used what a session would use now, or the digest collides. */
  lemma {:induction false} VerifiedMeansSameInput(e: Codec, steps: seq<Step>, states: seq<State>, n: nat, r: nat)
    requires Sound(e) && Run(e, steps, states) && n <= |steps| && AtEnd(states[n], r) && Verified(e, states[n], r)
    requires WriteAtOpen(steps, n, r).Some? ==> Sized(WriteAtOpen(steps, n, r).value.input)
    requires CurrentInput(states[n].settings).Some? ==> Sized(CurrentInput(states[n].settings).value)
    ensures WriteAtOpen(steps, n, r).Some? && CurrentInput(states[n].settings).Some?
    ensures
      var written, now := WriteAtOpen(steps, n, r).value.input, CurrentInput(states[n].settings).value;
      written == now || Collide(e.H, written, now)
  {
    VerifiedIff(e, steps, states, n, r);
    EqualInputsOrCollision(e.H, WriteAtOpen(steps, n, r).value.input, CurrentInput(states[n].settings).value);
  }
}
