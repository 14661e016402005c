/**
  The bridge files that let command-line assistants read the exported context: one file for each
  client below the project root and, if wanted, below the home directory.
 */
module BridgeFiles {
  import opened Basics
  import opened ManagedFiles

  datatype Client = Codex | ClaudeCode | GeminiCli

  datatype Scope = Project | User

  datatype Artifact = MarkdownCommand | GeminiTomlCommand

  datatype Plan = Plan(client: Client, scope: Scope, artifact: Artifact, path: Path)

  // ----- the plans --------------------------------------------------------------------------------

  function ArtifactFor(client: Client): Artifact {
    if client == GeminiCli then GeminiTomlCommand else MarkdownCommand
  }

  function BridgePath(base: Path, client: Client): Path {
    match client
    case Codex => base + [".codex", "commands", "maekon-context.md"]
    case ClaudeCode => base + [".claude", "commands", "maekon-context.md"]
    case GeminiCli => base + [".gemini", "commands", "maekon-context.toml"]
  }

  function PlanFor(client: Client, scope: Scope, base: Path): Plan {
    Plan(client, scope, ArtifactFor(client), BridgePath(base, client))
  }

  function PlansBelow(scope: Scope, base: Path): seq<Plan> {
    [PlanFor(Codex, scope, base), PlanFor(ClaudeCode, scope, base), PlanFor(GeminiCli, scope, base)]
  }

  function DefaultPlans(root: Path, includeUser: bool, home: Option<Path>): seq<Plan> {
    PlansBelow(Project, root) + if includeUser && home.Some? then PlansBelow(User, home.value) else []
  }

  // ----- the templates ----------------------------------------------------------------------------

  /** The fixed texts of the templates; every result below holds for all of them. */
  datatype Texts = Texts(
    marker: string,
    codexHint: string, claudeHint: string, geminiHint: string,
    markdownOpen: string, markdownHead: string, tomlOpen: string, tomlHead: string,
    readOpen: string, contract: string, tomlEnd: string,
    legacy: seq<(string, string)>)

  function Hint(t: Texts, client: Client): string {
    match client
    case Codex => t.codexHint
    case ClaudeCode => t.claudeHint
    case GeminiCli => t.geminiHint
  }

  function Render(t: Texts, artifact: Artifact, client: Client, context: string): string {
    match artifact
    case MarkdownCommand =>
      t.markdownOpen + t.marker + (t.markdownHead + Hint(t, client) + "\n\n" + t.readOpen + context + t.contract)
    case GeminiTomlCommand =>
      t.tomlOpen + t.marker + (t.tomlHead + t.readOpen + context + t.contract + t.tomlEnd)
  }

  /** The contents carry the marker, or both phrases of a generation without one. */
  predicate IsManaged(t: Texts, contents: string) {
    || Contains(contents, t.marker)
    || exists k :: 0 <= k < |t.legacy| && Contains(contents, t.legacy[k].0) && Contains(contents, t.legacy[k].1)
  }

  // ----- the plans and the templates fit together -------------------------------------------------

  function ItemOf(t: Texts, plan: Plan, context: string): Item {
    Item(plan.path, Render(t, plan.artifact, plan.client, context))
  }

  /** What the plans want on disk. */
  function ItemsOf(t: Texts, plans: seq<Plan>, context: string): (items: seq<Item>)
    ensures |items| == |plans| && forall i :: 0 <= i < |plans| ==> items[i] == ItemOf(t, plans[i], context)
  {
    seq(|plans|, i requires 0 <= i < |plans| => ItemOf(t, plans[i], context))
  }

  /** The last components of a path name the client. */
  lemma {:induction false} PathNamesTheClient(a: Path, c: Client, b: Path, d: Client)
    requires BridgePath(a, c) == BridgePath(b, d)
    ensures c == d
  {
    assert BridgePath(a, c)[|BridgePath(a, c)| - 3] == BridgePath(b, d)[|BridgePath(b, d)| - 3];
    assert ".codex"[1..3] == "co" && ".claude"[1..3] == "cl" && ".gemini"[1..3] == "ge";
  }

  ghost predicate Built(plan: Plan, base: Path) {
    plan.artifact == ArtifactFor(plan.client) && plan.path == BridgePath(base, plan.client)
  }

  /** Default plans for the same path are for the same client and artifact. */
  lemma {:induction false} SamePathSamePlan(root: Path, includeUser: bool, home: Option<Path>, p: Plan, q: Plan)
    requires p in DefaultPlans(root, includeUser, home) && q in DefaultPlans(root, includeUser, home) && p.path == q.path
    ensures p.client == q.client && p.artifact == q.artifact
  {
    var a := BaseOf(root, includeUser, home, p);
    var b := BaseOf(root, includeUser, home, q);
    PathNamesTheClient(a, p.client, b, q.client);
  }

  lemma {:induction false} BaseOf(root: Path, includeUser: bool, home: Option<Path>, p: Plan) returns (base: Path)
    requires p in DefaultPlans(root, includeUser, home)
    ensures Built(p, base)
  {
    if p in PlansBelow(Project, root) {
      base := root;
    } else {
      assert includeUser && home.Some? && p in PlansBelow(User, home.value);
      base := home.value;
    }
  }

  lemma {:induction false} MarkedIsManaged(t: Texts, a: string, b: string)
    ensures IsManaged(t, a + t.marker + b)
  {
    var s := a + t.marker + b;
    assert s[|a|..|a| + |t.marker|] == t.marker;
    assert OccursAt(s, t.marker, |a|);
  }

  /** What sync writes, revoke recognises. */
  lemma {:induction false} RenderedIsManaged(t: Texts, artifact: Artifact, client: Client, context: string)
    ensures IsManaged(t, Render(t, artifact, client, context))
  {
    MarkedIsManaged(t, t.markdownOpen, t.markdownHead + Hint(t, client) + "\n\n" + t.readOpen + context + t.contract);
    MarkedIsManaged(t, t.tomlOpen, t.tomlHead + t.readOpen + context + t.contract + t.tomlEnd);
  }

  /** The default plans agree wherever they coincide, even when the home directory is the project
      root, and everything they write is managed. */
  lemma {:induction false} DefaultItems(t: Texts, root: Path, includeUser: bool, home: Option<Path>, context: string, items: seq<Item>)
    requires items == ItemsOf(t, DefaultPlans(root, includeUser, home), context)
    ensures Consistent(items)
    ensures forall i :: 0 <= i < |items| ==> IsManaged(t, items[i].content)
  {
    var plans := DefaultPlans(root, includeUser, home);
    forall i, j | 0 <= i < j < |items| && items[i].path == items[j].path
      ensures items[i].content == items[j].content
    {
      SamePathSamePlan(root, includeUser, home, plans[i], plans[j]);
    }
    forall i | 0 <= i < |items|
      ensures IsManaged(t, items[i].content)
    {
      RenderedIsManaged(t, plans[i].artifact, plans[i].client, context);
    }
  }

  /** Sync, sync again, revoke: the second sync finds everything unchanged, and the revocation leaves
      the file system without the files of the plans and otherwise as it was. */
  method SyncTwiceAndRevoke(disk: BridgeDisk, t: Texts, root: Path, includeUser: bool, home: Option<Path>, context: string)
    returns (second: Report, revoked: Report)
    modifies disk
    ensures
      var paths := PathsOf(ItemsOf(t, DefaultPlans(root, includeUser, home), context));
      && second == Report([], paths, [])
      && revoked.failed == [] && Distinct(revoked.changed) && (forall p :: p in revoked.changed <==> p in paths)
      && disk.fs == Drop(old(disk.fs), paths)
  {
    var items := ItemsOf(t, DefaultPlans(root, includeUser, home), context);
    var faults := seq(|items|, _ => NO_FAULT);
    DefaultItems(t, root, includeUser, home, context, items);
    var managed := (s: string) => IsManaged(t, s);
    var first := disk.SyncFiles(items, faults);
    SyncIsIdempotent(old(disk.fs), items, faults);
    RevokeUndoesSync(managed, old(disk.fs), items, faults);
    second := disk.SyncFiles(items, faults);
    revoked := disk.RevokeFiles(items, managed, faults);
  }
}
