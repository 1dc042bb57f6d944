/** Does the pane run a remote viewer? A breadth-first search of the pane's process tree,
    bounded in depth, over whatever child lists the system reports: duplicates, cycles and
    reused pids included. */
module ProcessTree {
  import opened Prelude

  type Pid = nat

  const MAX_DEPTH: nat := 4

  /** One process as probed: its argument list, its command name, and the executables that
      the known launcher shapes place in its argument list. */
  datatype Process = Process(argv: seq<string>, command: string, launched: seq<string>)

  /** What the probes answer. */
  datatype Tree = Tree(process: map<Pid, Process>, children: map<Pid, seq<Pid>>)

  const NO_PROCESS := Process([], "", [])

  function ProcessOf(t: Tree, pid: Pid): Process {
    if pid in t.process then t.process[pid] else NO_PROCESS
  }

  function ChildrenOf(t: Tree, pid: Pid): seq<Pid> {
    if pid in t.children then t.children[pid] else []
  }

  /** A codex-family process that carries the remote flag. */
  predicate IsViewer(p: Process, expected: set<string>) {
    && p.argv != []
    && (p.command in expected || exists i | 0 <= i < |p.launched| :: p.launched[i] in expected)
    && "--remote" in p.argv
  }

  /** `pid` is reached from `root` along a path of exactly `distance` child links. */
  ghost predicate Reaches(t: Tree, root: Pid, pid: Pid, distance: nat)
    decreases distance
  {
    if distance == 0 then pid == root
    else exists parent :: Reaches(t, root, parent, distance - 1) && pid in ChildrenOf(t, parent)
  }

  ghost predicate Within(t: Tree, root: Pid, pid: Pid, bound: int) {
    exists d: nat :: d <= bound && Reaches(t, root, pid, d)
  }

  ghost predicate ViewerWithin(t: Tree, root: Pid, expected: set<string>, bound: int) {
    exists pid :: Within(t, root, pid, bound) && IsViewer(ProcessOf(t, pid), expected)
  }

  // ---- What the loops keep ---------------------------------------------------------------

  /** Everything seen is near enough, is no viewer, and has its children seen or queued. */
  ghost predicate Explored(t: Tree, root: Pid, expected: set<string>, seen: set<Pid>, queued: seq<Pid>, bound: int) {
    && (forall pid | pid in seen :: Within(t, root, pid, bound) && !IsViewer(ProcessOf(t, pid), expected))
    && (forall pid, child | pid in seen && child in ChildrenOf(t, pid) :: child in seen || child in queued)
  }

  /** Every process at distance at most `bound` is seen or queued. */
  ghost predicate Covered(t: Tree, root: Pid, seen: set<Pid>, queued: seq<Pid>, bound: int) {
    forall pid | Within(t, root, pid, bound) :: pid in seen || pid in queued
  }

  lemma ChildIsWithin(t: Tree, root: Pid, pid: Pid, child: Pid, bound: int)
    requires Within(t, root, pid, bound) && child in ChildrenOf(t, pid)
    ensures Within(t, root, child, bound + 1)
  {
    var d: nat :| d <= bound && Reaches(t, root, pid, d);
    assert Reaches(t, root, child, d + 1);
  }

  /** A finished level: whatever is near is seen, so one level on, it is seen or queued. */
  lemma LevelCovers(t: Tree, root: Pid, expected: set<string>, seen: set<Pid>, queued: seq<Pid>, bound: nat)
    requires Covered(t, root, seen, [], bound) && Explored(t, root, expected, seen, queued, bound)
    ensures Covered(t, root, seen, queued, bound + 1)
  {
    forall pid | Within(t, root, pid, bound + 1) ensures pid in seen || pid in queued {
      var d: nat :| d <= bound + 1 && Reaches(t, root, pid, d);
      if d <= bound {
        assert Within(t, root, pid, bound);
      } else {
        var parent :| Reaches(t, root, parent, d - 1) && pid in ChildrenOf(t, parent);
        assert Within(t, root, parent, bound);
        assert parent in seen;
      }
    }
  }

  lemma RootIsCovered(t: Tree, root: Pid)
    ensures Covered(t, root, {}, [root], 0) && Within(t, root, root, 0)
  {
    assert Reaches(t, root, root, 0);
  }

  /** With nothing queued, nothing lies deeper either. */
  lemma {:induction false} NothingDeeper(t: Tree, root: Pid, expected: set<string>, seen: set<Pid>, at: nat, bound: nat)
    requires at <= bound && Covered(t, root, seen, [], at) && Explored(t, root, expected, seen, [], at)
    ensures Covered(t, root, seen, [], bound)
    decreases bound - at
  {
    if at < bound {
      LevelCovers(t, root, expected, seen, [], at);
      WidenExplored(t, root, expected, seen, [], at);
      NothingDeeper(t, root, expected, seen, at + 1, bound);
    }
  }

  lemma WidenExplored(t: Tree, root: Pid, expected: set<string>, seen: set<Pid>, queued: seq<Pid>, bound: int)
    requires Explored(t, root, expected, seen, queued, bound)
    ensures Explored(t, root, expected, seen, queued, bound + 1)
  {
    forall pid | pid in seen ensures Within(t, root, pid, bound + 1) {
      var d: nat :| d <= bound && Reaches(t, root, pid, d);
      assert d <= bound + 1;
    }
  }

  lemma SeenAllMeansNone(t: Tree, root: Pid, expected: set<string>, seen: set<Pid>, queued: seq<Pid>, at: int, bound: nat)
    requires Covered(t, root, seen, [], bound) && Explored(t, root, expected, seen, queued, at)
    ensures !ViewerWithin(t, root, expected, bound)
  {}

  lemma ExploreOne(
    t: Tree, root: Pid, expected: set<string>, seen: set<Pid>, rest: seq<Pid>, next: seq<Pid>, pid: Pid, depth: nat)
    requires Explored(t, root, expected, seen, [pid] + (rest + next), depth)
    requires Within(t, root, pid, depth) && !IsViewer(ProcessOf(t, pid), expected)
    ensures Explored(t, root, expected, seen + {pid}, rest + (next + ChildrenOf(t, pid)), depth)
    ensures forall child | child in ChildrenOf(t, pid) :: Within(t, root, child, depth + 1)
  {
    forall child | child in ChildrenOf(t, pid) ensures Within(t, root, child, depth + 1) {
      ChildIsWithin(t, root, pid, child, depth);
    }
  }

  /** A process seen before need not be queued. */
  lemma Requeue(t: Tree, root: Pid, expected: set<string>, seen: set<Pid>, pid: Pid, rest: seq<Pid>, depth: nat)
    requires Explored(t, root, expected, seen, [pid] + rest, depth) && pid in seen
    ensures Explored(t, root, expected, seen, rest, depth)
  {}

  // ---- The search --------------------------------------------------------------------------

  /** One level: expand every process of the frontier not seen before. */
  method ExpandLevel(t: Tree, root: Pid, expected: set<string>, frontier: seq<Pid>, seen: set<Pid>, depth: nat)
    returns (found: bool, next: seq<Pid>, seen': set<Pid>)
    requires forall pid | pid in frontier :: Within(t, root, pid, depth)
    requires Covered(t, root, seen, frontier, depth)
    requires Explored(t, root, expected, seen, frontier, depth)
    ensures found ==> ViewerWithin(t, root, expected, depth)
    ensures !found ==> Covered(t, root, seen', [], depth)
    ensures !found ==> Explored(t, root, expected, seen', next, depth)
    ensures !found ==> forall pid | pid in next :: Within(t, root, pid, depth + 1)
  {
    next, seen' := [], seen;
    var k := 0;
    while k < |frontier|
      invariant k <= |frontier|
      invariant seen <= seen' && forall i | 0 <= i < k :: frontier[i] in seen'
      invariant Explored(t, root, expected, seen', frontier[k..] + next, depth)
      invariant forall pid | pid in next :: Within(t, root, pid, depth + 1)
    {
      var pid := frontier[k];
      assert frontier[k..] + next == [pid] + (frontier[k + 1..] + next);
      if pid in seen' {
        Requeue(t, root, expected, seen', pid, frontier[k + 1..] + next, depth);
      } else {
        if IsViewer(ProcessOf(t, pid), expected) { return true, [], seen'; }
        ExploreOne(t, root, expected, seen', frontier[k + 1..], next, pid, depth);
        seen' := seen' + {pid};
        next := next + ChildrenOf(t, pid);
      }
      k := k + 1;
    }
    assert frontier[k..] + next == next;
    return false, next, seen';
  }

  /** paneRunsRemoteTui. The bound on depth is the only limit: marking a process as seen the
      first time it is reached never hides a viewer that lies within the bound. */
  method PaneRunsRemoteTui(t: Tree, panePid: Option<Pid>, expected: set<string>) returns (found: bool)
    ensures found <==> panePid.Some? && panePid.value > 0 && ViewerWithin(t, panePid.value, expected, MAX_DEPTH)
  {
    if panePid.None? || panePid.value == 0 { return false; }
    var root := panePid.value;
    var frontier := [root];
    var seen: set<Pid> := {};
    var depth := 0;
    RootIsCovered(t, root);
    while depth <= MAX_DEPTH && |frontier| > 0
      invariant depth <= MAX_DEPTH + 1
      invariant forall pid | pid in frontier :: Within(t, root, pid, depth)
      invariant Covered(t, root, seen, frontier, depth)
      invariant Explored(t, root, expected, seen, frontier, depth)
      invariant depth > 0 ==> Covered(t, root, seen, [], depth - 1)
      decreases MAX_DEPTH + 1 - depth
    {
      var hit, next, seen' := ExpandLevel(t, root, expected, frontier, seen, depth);
      if hit {
        ViewerIsNearer(t, root, expected, depth, MAX_DEPTH);
        return true;
      }
      LevelCovers(t, root, expected, seen', next, depth);
      WidenExplored(t, root, expected, seen', next, depth);
      frontier, seen, depth := next, seen', depth + 1;
    }
    if depth <= MAX_DEPTH {
      assert frontier == [];
      NothingDeeper(t, root, expected, seen, depth, MAX_DEPTH);
    }
    SeenAllMeansNone(t, root, expected, seen, frontier, depth, MAX_DEPTH);
    return false;
  }

  lemma ViewerIsNearer(t: Tree, root: Pid, expected: set<string>, bound: nat, wider: nat)
    requires ViewerWithin(t, root, expected, bound) && bound <= wider
    ensures ViewerWithin(t, root, expected, wider)
  {
    var pid :| Within(t, root, pid, bound) && IsViewer(ProcessOf(t, pid), expected);
    var d: nat :| d <= bound && Reaches(t, root, pid, d);
    assert Within(t, root, pid, wider);
  }
}
