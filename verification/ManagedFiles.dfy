/**
  Writing a list of files and withdrawing them again.

  The file system is a map from paths to nodes. Every call into it can fail; a Fault says how.
 */
module ManagedFiles {
  import opened Basics

  /** The components of a path. */
  type Path = seq<string>

  // ----- the file system --------------------------------------------------------------------------

  /** A node that is no text cannot be read as a string: other bytes, or a directory. */
  datatype Node = Text(text: string) | Unreadable

  type Files = map<Path, Node>

  /** Which calls fail; a write that fails can leave anything behind. */
  datatype Fault = Fault(mkdir: bool, stat: bool, read: bool, write: bool, remove: bool, left: Option<Node>)

  const NO_FAULT := Fault(false, false, false, false, false, None)

  function Put(fs: Files, p: Path, node: Option<Node>): Files {
    if node.Some? then fs[p := node.value] else fs - {p}
  }

  datatype Outcome = Changed | Kept | Failed

  /** A file and the contents it should have. */
  datatype Item = Item(path: Path, content: string)

  function Materialize(fs: Files, item: Item, fault: Fault): (Files, Outcome) {
    if fault.mkdir then (fs, Failed)
    else if !fault.read && item.path in fs && fs[item.path] == Text(item.content) then (fs, Kept)
    else if fault.write then (Put(fs, item.path, fault.left), Failed)
    else (fs[item.path := Text(item.content)], Changed)
  }

  function Revoke(fs: Files, path: Path, managed: string -> bool, fault: Fault): (Files, Outcome) {
    if fault.stat || path !in fs then (fs, Kept)
    else if fault.read || fs[path].Unreadable? then (fs, Failed)
    else if !managed(fs[path].text) then (fs, Kept)
    else if fault.remove then (fs, Failed)
    else (fs - {path}, Changed)
  }

  /** What to do with every item. managed recognises contents that may be removed. */
  datatype Action = Sync | Withdraw(managed: string -> bool)

  function Act(a: Action, fs: Files, item: Item, fault: Fault): (Files, Outcome) {
    if a.Sync? then Materialize(fs, item, fault) else Revoke(fs, item.path, a.managed, fault)
  }

  /** changed: written or removed; kept: unchanged or skipped; failed: named in an error. */
  datatype Report = Report(changed: seq<Path>, kept: seq<Path>, failed: seq<Path>)

  function Note(r: Report, path: Path, o: Outcome): Report {
    match o
    case Changed => r.(changed := r.changed + [path])
    case Kept => r.(kept := r.kept + [path])
    case Failed => r.(failed := r.failed + [path])
  }

  /** The files and the report after the first n items. */
  function Process(a: Action, fs: Files, items: seq<Item>, faults: seq<Fault>, n: nat): (Files, Report)
    requires n <= |items| == |faults|
  {
    if n == 0 then (fs, Report([], [], []))
    else
      var (before, report) := Process(a, fs, items, faults, n - 1);
      var (after, outcome) := Act(a, before, items[n - 1], faults[n - 1]);
      (after, Note(report, items[n - 1].path, outcome))
  }

  function OutcomeOf(r: Result<bool, Path>): Outcome {
    match r
    case Success(changed) => if changed then Changed else Kept
    case Failure(_) => Failed
  }

  class BridgeDisk {
    var fs: Files

    constructor (fs: Files)
      ensures this.fs == fs
    {
      this.fs := fs;
    }

    method MaterializeBridgeFile(item: Item, fault: Fault) returns (r: Result<bool, Path>)
      modifies this
      ensures (fs, OutcomeOf(r)) == Materialize(old(fs), item, fault)
    {
      if fault.mkdir {
        return Failure(item.path);
      }
      if !fault.read && item.path in fs && fs[item.path] == Text(item.content) {
        return Success(false);
      }
      if fault.write {
        fs := Put(fs, item.path, fault.left);
        return Failure(item.path);
      }
      fs := fs[item.path := Text(item.content)];
      return Success(true);
    }

    method RevokeBridgeFile(path: Path, managed: string -> bool, fault: Fault) returns (r: Result<bool, Path>)
      modifies this
      ensures (fs, OutcomeOf(r)) == Revoke(old(fs), path, managed, fault)
    {
      if fault.stat || path !in fs {
        return Success(false);
      }
      if fault.read || fs[path].Unreadable? {
        return Failure(path);
      }
      if !managed(fs[path].text) {
        return Success(false);
      }
      if fault.remove {
        return Failure(path);
      }
      fs := fs - {path};
      return Success(true);
    }

    method SyncFiles(items: seq<Item>, faults: seq<Fault>) returns (report: Report)
      requires |items| == |faults|
      modifies this
      ensures (fs, report) == Process(Sync, old(fs), items, faults, |items|)
    {
      report := Report([], [], []);
      for i := 0 to |items|
        invariant (fs, report) == Process(Sync, old(fs), items, faults, i)
      {
        var outcome := MaterializeBridgeFile(items[i], faults[i]);
        match outcome {
          case Success(true) => report := report.(changed := report.changed + [items[i].path]);
          case Success(false) => report := report.(kept := report.kept + [items[i].path]);
          case Failure(_) => report := report.(failed := report.failed + [items[i].path]);
        }
      }
    }

    method RevokeFiles(items: seq<Item>, managed: string -> bool, faults: seq<Fault>) returns (report: Report)
      requires |items| == |faults|
      modifies this
      ensures (fs, report) == Process(Withdraw(managed), old(fs), items, faults, |items|)
    {
      report := Report([], [], []);
      for i := 0 to |items|
        invariant (fs, report) == Process(Withdraw(managed), old(fs), items, faults, i)
      {
        var outcome := RevokeBridgeFile(items[i].path, managed, faults[i]);
        match outcome {
          case Success(true) => report := report.(changed := report.changed + [items[i].path]);
          case Success(false) => report := report.(kept := report.kept + [items[i].path]);
          case Failure(_) => report := report.(failed := report.failed + [items[i].path]);
        }
      }
    }
  }

  // ----- with any faults --------------------------------------------------------------------------

  function PathsOf(items: seq<Item>): (r: seq<Path>)
    ensures |r| == |items| && forall i :: 0 <= i < |r| ==> r[i] == items[i].path
  {
    seq(|items|, i requires 0 <= i < |items| => items[i].path)
  }

  /** Neither action touches a path outside the items. */
  lemma {:induction false} OtherPathsUntouched(a: Action, fs: Files, items: seq<Item>, faults: seq<Fault>, n: nat, p: Path)
    requires n <= |items| == |faults| && p !in PathsOf(items)
    ensures (p in Process(a, fs, items, faults, n).0 <==> p in fs)
    ensures p in fs ==> p in Process(a, fs, items, faults, n).0 && Process(a, fs, items, faults, n).0[p] == fs[p]
  {
    if n > 0 {
      OtherPathsUntouched(a, fs, items, faults, n - 1, p);
      assert items[n - 1].path == PathsOf(items)[n - 1];
    }
  }

  /** Withdrawing never deletes or changes what is not managed, and changes no contents at all. */
  lemma {:induction false} UnmanagedSurvives(managed: string -> bool, fs: Files, items: seq<Item>, faults: seq<Fault>, n: nat, p: Path)
    requires n <= |items| == |faults|
    ensures p in Process(Withdraw(managed), fs, items, faults, n).0 ==> p in fs && Process(Withdraw(managed), fs, items, faults, n).0[p] == fs[p]
    ensures p in fs && (fs[p].Unreadable? || !managed(fs[p].text)) ==> p in Process(Withdraw(managed), fs, items, faults, n).0
  {
    if n > 0 {
      UnmanagedSurvives(managed, fs, items, faults, n - 1, p);
    }
  }

  /** All the paths that a report mentions. */
  ghost function Mentioned(r: Report): multiset<Path> {
    multiset(r.changed) + multiset(r.kept) + multiset(r.failed)
  }

  /** The report on these outcomes. */
  ghost function Noted(log: seq<(Path, Outcome)>): Report {
    if log == [] then Report([], [], [])
    else
      var last := log[|log| - 1];
      Note(Noted(log[..|log| - 1]), last.0, last.1)
  }

  ghost function Logged(log: seq<(Path, Outcome)>): multiset<Path> {
    if log == [] then multiset{} else Logged(log[..|log| - 1]) + multiset{log[|log| - 1].0}
  }

  lemma {:induction false} NotedPartitions(log: seq<(Path, Outcome)>)
    ensures Mentioned(Noted(log)) == Logged(log)
  {
    if log != [] {
      var last := log[|log| - 1];
      NotedPartitions(log[..|log| - 1]);
      NoteAddsOne(Noted(log[..|log| - 1]), last.0, last.1);
    }
  }

  /** Processing the items is a matter of noting one outcome for each. */
  lemma {:induction false} LogOf(a: Action, fs: Files, items: seq<Item>, faults: seq<Fault>, n: nat) returns (log: seq<(Path, Outcome)>)
    requires n <= |items| == |faults|
    ensures Process(a, fs, items, faults, n).1 == Noted(log)
    ensures Logged(log) == multiset(PathsOf(items)[..n])
  {
    if n == 0 {
      log := [];
    } else {
      var before := LogOf(a, fs, items, faults, n - 1);
      var o := StepOutcome(a, fs, items, faults, n);
      log := before + [(items[n - 1].path, o)];
      assert log[..|log| - 1] == before;
      OneMore(PathsOf(items), n);
    }
  }

  lemma {:induction false} StepOutcome(a: Action, fs: Files, items: seq<Item>, faults: seq<Fault>, n: nat) returns (o: Outcome)
    requires 0 < n <= |items| == |faults|
    ensures Process(a, fs, items, faults, n).1 == Note(Process(a, fs, items, faults, n - 1).1, items[n - 1].path, o)
  {
    o := Act(a, Process(a, fs, items, faults, n - 1).0, items[n - 1], faults[n - 1]).1;
  }

  /** The report places every item exactly once, whatever fails. */
  lemma {:induction false} ReportPartitionsTheItems(a: Action, fs: Files, items: seq<Item>, faults: seq<Fault>)
    requires |items| == |faults|
    ensures Mentioned(Process(a, fs, items, faults, |items|).1) == multiset(PathsOf(items))
  {
    var log := LogOf(a, fs, items, faults, |items|);
    NotedPartitions(log);
    assert PathsOf(items)[..|items|] == PathsOf(items);
  }

  lemma {:induction false} NoteAddsOne(r: Report, path: Path, o: Outcome)
    ensures Mentioned(Note(r, path, o)) == Mentioned(r) + multiset{path}
  {
  }

  lemma {:induction false} OneMore(paths: seq<Path>, n: nat)
    requires 0 < n <= |paths|
    ensures multiset(paths[..n]) == multiset(paths[..n - 1]) + multiset{paths[n - 1]}
  {
    assert paths[..n] == paths[..n - 1] + [paths[n - 1]];
  }

  // ----- without faults ---------------------------------------------------------------------------

  ghost predicate NoFaults(faults: seq<Fault>) {
    forall i :: 0 <= i < |faults| ==> faults[i] == NO_FAULT
  }

  /** Items for one path want the same contents there. */
  ghost predicate Consistent(items: seq<Item>) {
    forall i, j :: 0 <= i < j < |items| && items[i].path == items[j].path ==> items[i].content == items[j].content
  }

  /** Every item's file holds what it should. */
  ghost predicate Synced(fs: Files, items: seq<Item>, n: nat)
    requires n <= |items|
  {
    forall i :: 0 <= i < n ==> items[i].path in fs && fs[items[i].path] == Text(items[i].content)
  }

  lemma {:induction false} SyncEstablishes(fs: Files, items: seq<Item>, faults: seq<Fault>, n: nat)
    requires n <= |items| == |faults| && NoFaults(faults) && Consistent(items)
    ensures Synced(Process(Sync, fs, items, faults, n).0, items, n)
    ensures Process(Sync, fs, items, faults, n).1.failed == []
  {
    if n > 0 {
      SyncEstablishes(fs, items, faults, n - 1);
    }
  }

  lemma {:induction false} SyncedStays(fs: Files, items: seq<Item>, faults: seq<Fault>, n: nat)
    requires n <= |items| == |faults| && NoFaults(faults) && Synced(fs, items, |items|)
    ensures Process(Sync, fs, items, faults, n) == (fs, Report([], PathsOf(items)[..n], []))
  {
    if n > 0 {
      SyncedStays(fs, items, faults, n - 1);
      assert PathsOf(items)[..n] == PathsOf(items)[..n - 1] + [items[n - 1].path];
    }
  }

  /** A second sync changes nothing and reports every item unchanged. */
  lemma {:induction false} SyncIsIdempotent(fs: Files, items: seq<Item>, faults: seq<Fault>)
    requires |items| == |faults| && NoFaults(faults) && Consistent(items)
    ensures
      var once := Process(Sync, fs, items, faults, |items|).0;
      Process(Sync, once, items, faults, |items|) == (once, Report([], PathsOf(items), []))
  {
    SyncEstablishes(fs, items, faults, |items|);
    SyncedStays(Process(Sync, fs, items, faults, |items|).0, items, faults, |items|);
    assert PathsOf(items)[..|items|] == PathsOf(items);
  }

  /** The paths in order of first appearance, and the repetitions. */
  function FirstOnes(paths: seq<Path>, n: nat): seq<Path>
    requires n <= |paths|
  {
    if n == 0 then [] else FirstOnes(paths, n - 1) + if paths[n - 1] in paths[..n - 1] then [] else [paths[n - 1]]
  }

  function Repeats(paths: seq<Path>, n: nat): seq<Path>
    requires n <= |paths|
  {
    if n == 0 then [] else Repeats(paths, n - 1) + if paths[n - 1] in paths[..n - 1] then [paths[n - 1]] else []
  }

  lemma {:induction false} FirstOnesAreDistinct(paths: seq<Path>, n: nat)
    requires n <= |paths|
    ensures Distinct(FirstOnes(paths, n))
    ensures forall p :: p in FirstOnes(paths, n) <==> p in paths[..n]
  {
    if n > 0 {
      FirstOnesAreDistinct(paths, n - 1);
      assert paths[..n] == paths[..n - 1] + [paths[n - 1]];
    }
  }

  /** The files without these paths. */
  function Drop(fs: Files, paths: seq<Path>): Files {
    map p | p in fs && p !in paths :: fs[p]
  }

  lemma {:induction false} WithdrawSynced(managed: string -> bool, fs: Files, items: seq<Item>, faults: seq<Fault>, n: nat)
    requires n <= |items| == |faults| && NoFaults(faults) && Synced(fs, items, |items|)
    requires forall i :: 0 <= i < |items| ==> managed(items[i].content)
    ensures Process(Withdraw(managed), fs, items, faults, n).0 == Drop(fs, PathsOf(items)[..n])
    ensures Process(Withdraw(managed), fs, items, faults, n).1 == Report(FirstOnes(PathsOf(items), n), Repeats(PathsOf(items), n), [])
  {
    if n > 0 {
      WithdrawSynced(managed, fs, items, faults, n - 1);
      var paths := PathsOf(items);
      assert paths[..n] == paths[..n - 1] + [paths[n - 1]];
    }
  }

  /**
    Sync, then revoke: every item's path is removed exactly once, and a repeated path (the home
    directory is the project root) is skipped the second time; nothing else changes.
   */
  lemma {:induction false} RevokeUndoesSync(managed: string -> bool, fs: Files, items: seq<Item>, faults: seq<Fault>)
    requires |items| == |faults| && NoFaults(faults) && Consistent(items)
    requires forall i :: 0 <= i < |items| ==> managed(items[i].content)
    ensures
      var synced := Process(Sync, fs, items, faults, |items|).0;
      var (end, report) := Process(Withdraw(managed), synced, items, faults, |items|);
      && end == Drop(fs, PathsOf(items))
      && report.failed == [] && Distinct(report.changed)
      && (forall p :: p in report.changed <==> p in PathsOf(items))
      && report.kept == Repeats(PathsOf(items), |items|)
  {
    var synced := Process(Sync, fs, items, faults, |items|).0;
    SyncEstablishes(fs, items, faults, |items|);
    WithdrawSynced(managed, synced, items, faults, |items|);
    var paths := PathsOf(items);
    assert paths[..|items|] == paths;
    FirstOnesAreDistinct(paths, |paths|);
    forall p | p !in paths
      ensures p in synced <==> p in fs
      ensures p in fs ==> synced[p] == fs[p]
    {
      OtherPathsUntouched(Sync, fs, items, faults, |items|, p);
    }
    assert Drop(synced, paths) == Drop(fs, paths);
  }

  /** Without faults, revoke removes exactly the managed files of the items. */
  lemma {:induction false} RevokeRemovesIff(managed: string -> bool, fs: Files, items: seq<Item>, faults: seq<Fault>, n: nat, p: Path)
    requires n <= |items| == |faults| && NoFaults(faults) && p in fs
    ensures p !in Process(Withdraw(managed), fs, items, faults, n).0 <==> p in PathsOf(items)[..n] && fs[p].Text? && managed(fs[p].text)
  {
    if n > 0 {
      RevokeRemovesIff(managed, fs, items, faults, n - 1, p);
      UnmanagedSurvives(managed, fs, items, faults, n - 1, p);
      assert PathsOf(items)[..n] == PathsOf(items)[..n - 1] + [items[n - 1].path];
    }
  }
}
