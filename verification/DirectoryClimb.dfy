/** removeEmptyParentDirs over a file system. A path is the sequence of its components below the
    root, or below the working directory when it is relative; neither of those two can be
    removed. `denied` are entries whose removal fails for some other reason. */
module DirectoryClimb {

  type Path = seq<string>

  datatype Kind = File | Directory

  type Tree = map<Path, Kind>

  const BASE_RUNS: Path := ["data", "runs"]
  const BASE_ARTIFACTS: Path := ["data", "artifacts"]

  function Parent(p: Path): Path
    requires p != []
  {
    p[..|p| - 1]
  }

  /** Every entry lies in a directory that exists. */
  predicate TreeOk(tree: Tree) {
    && [] in tree && tree[[]] == Directory
    && forall p | p in tree && p != [] :: Parent(p) in tree && tree[Parent(p)] == Directory
  }

  predicate ChildOf(tree: Tree, q: Path, p: Path) {
    q in tree && q != [] && Parent(q) == p
  }

  /** os.Remove succeeds on files and empty directories. */
  predicate Removable(tree: Tree, denied: set<Path>, p: Path) {
    p in tree && p != [] && p !in denied && forall q | q in tree :: !ChildOf(tree, q, p)
  }

  /** Where the loop stops without trying: only an absolute path can name a base directory. */
  predicate Guarded(p: Path, absolute: bool) {
    p == [] || (absolute && (p == BASE_RUNS || p == BASE_ARTIFACTS))
  }

  // ---- Which directories go, told without the loop ----

  /** The ancestor of `start` with n components goes exactly if it and every ancestor below it is
      there, unguarded, not denied, and holds nothing but the next one down. */
  predicate Goes(tree: Tree, denied: set<Path>, absolute: bool, start: Path, n: nat)
    requires n <= |start|
  {
    forall k | n <= k <= |start| :: Vacated(tree, denied, absolute, start, k)
  }

  predicate Vacated(tree: Tree, denied: set<Path>, absolute: bool, start: Path, k: nat)
    requires k <= |start|
  {
    !Guarded(start[..k], absolute) && Alone(tree, denied, start, k)
  }

  predicate Alone(tree: Tree, denied: set<Path>, start: Path, k: nat)
    requires k <= |start|
  {
    && start[..k] in tree && start[..k] !in denied
    && forall q | q in tree && ChildOf(tree, q, start[..k]) :: k < |start| && q == start[..k + 1]
  }

  predicate Gone(tree: Tree, denied: set<Path>, absolute: bool, start: Path, p: Path) {
    p <= start && Goes(tree, denied, absolute, start, |p|)
  }

  function Climbed(tree: Tree, denied: set<Path>, absolute: bool, start: Path): Tree {
    map p | p in tree && !Gone(tree, denied, absolute, start, p) :: tree[p]
  }

  // ---- The loop ----

  /** The tree once the loop has come up to the ancestor with n components. */
  function UpTo(tree: Tree, start: Path, n: nat): Tree {
    map p | p in tree && !(p <= start && |p| > n) :: tree[p]
  }

  /** What os.Remove tests there is what was so in the tree before the loop. */
  lemma RemovableAsBefore(tree: Tree, denied: set<Path>, absolute: bool, start: Path, n: nat)
    requires n <= |start| && !Guarded(start[..n], absolute)
    ensures Removable(UpTo(tree, start, n), denied, start[..n]) <==> Vacated(tree, denied, absolute, start, n)
  {
    var now := UpTo(tree, start, n);
    forall q | q in tree && ChildOf(tree, q, start[..n])
      ensures q in now <==> !(n < |start| && q == start[..n + 1])
    {
      assert q == q[..|q| - 1] + [q[|q| - 1]];
      assert q <= start <==> n < |start| && q == start[..n + 1];
    }
    if Vacated(tree, denied, absolute, start, n) {
      forall q | q in now
        ensures !ChildOf(now, q, start[..n])
      {
        assert ChildOf(tree, q, start[..n]) <==> ChildOf(now, q, start[..n]);
      }
    }
  }

  lemma UpToNext(tree: Tree, start: Path, n: nat)
    requires 0 < n <= |start|
    ensures UpTo(tree, start, n) - {start[..n]} == UpTo(tree, start, n - 1)
  {
    forall p | p <= start && |p| == n
      ensures p == start[..n]
    {
    }
  }

  lemma StopsAt(tree: Tree, denied: set<Path>, absolute: bool, start: Path, n: nat)
    requires n <= |start| && !Vacated(tree, denied, absolute, start, n)
    requires forall k | n < k <= |start| :: Vacated(tree, denied, absolute, start, k)
    ensures UpTo(tree, start, n) == Climbed(tree, denied, absolute, start)
  {
  }

  class FileSystem {
    var tree: Tree

    constructor (tree: Tree)
      ensures this.tree == tree
    {
      this.tree := tree;
    }

    /** os.Remove. */
    method Remove(p: Path, denied: set<Path>) returns (ok: bool)
      modifies this
      ensures ok == Removable(old(tree), denied, p)
      ensures tree == if ok then old(tree) - {p} else old(tree)
    {
      ok := Removable(tree, denied, p);
      if ok {
        tree := tree - {p};
      }
    }

    method RemoveEmptyParentDirs(start: Path, absolute: bool, denied: set<Path>)
      modifies this
      ensures tree == Climbed(old(tree), denied, absolute, start)
    {
      ghost var before := tree;
      var dir := start;
      assert start[..|start|] == start;
      assert tree == UpTo(before, start, |start|);
      while !Guarded(dir, absolute)
        invariant |dir| <= |start| && dir == start[..|dir|]
        invariant tree == UpTo(before, start, |dir|)
        invariant forall k | |dir| < k <= |start| :: Vacated(before, denied, absolute, start, k)
        decreases |dir|
      {
        RemovableAsBefore(before, denied, absolute, start, |dir|);
        var ok := Remove(dir, denied);
        if !ok {
          break;
        }
        UpToNext(before, start, |dir|);
        dir := Parent(dir);
      }
      StopsAt(before, denied, absolute, start, |dir|);
    }
  }

  // ---- What the climb keeps ----

  /** No remaining entry loses its directory. */
  lemma ClimbKeepsTree(tree: Tree, denied: set<Path>, absolute: bool, start: Path)
    requires TreeOk(tree)
    ensures TreeOk(Climbed(tree, denied, absolute, start))
  {
    var left := Climbed(tree, denied, absolute, start);
    assert start[..0] == [] && !Vacated(tree, denied, absolute, start, 0);
    forall p | p in left && p != []
      ensures Parent(p) in left
    {
      if Gone(tree, denied, absolute, start, Parent(p)) {
        var k := |p| - 1;
        assert start[..k] == Parent(p) && ChildOf(tree, p, start[..k]);
        assert Vacated(tree, denied, absolute, start, k);
        assert Gone(tree, denied, absolute, start, p);
      }
    }
  }

  /** Files, guarded directories and everything off the path to `start` stay. */
  lemma ClimbKeeps(tree: Tree, denied: set<Path>, absolute: bool, start: Path, p: Path)
    requires TreeOk(tree) && p in tree
    requires (tree[p] == File && p != start) || Guarded(p, absolute) || p in denied || !(p <= start)
    ensures p in Climbed(tree, denied, absolute, start) && Climbed(tree, denied, absolute, start)[p] == tree[p]
  {
    if p <= start {
      assert start[..|p|] == p;
      if Guarded(p, absolute) || p in denied {
        assert !Vacated(tree, denied, absolute, start, |p|);
      } else {
        assert Parent(start[..|p| + 1]) == p && start[..|p| + 1] !in tree;
        assert !Vacated(tree, denied, absolute, start, |p| + 1);
      }
    }
  }

  /** The climb goes as far as it can: the lowest ancestor it leaves is guarded, or could not be
      removed in the tree it leaves. */
  lemma ClimbIsMaximal(tree: Tree, denied: set<Path>, absolute: bool, start: Path, n: nat)
    requires n <= |start| && !Goes(tree, denied, absolute, start, n)
    requires forall k | n < k <= |start| :: Goes(tree, denied, absolute, start, k)
    ensures Guarded(start[..n], absolute) || !Removable(Climbed(tree, denied, absolute, start), denied, start[..n])
  {
    forall k | n < k <= |start|
      ensures Vacated(tree, denied, absolute, start, k)
    {
      assert Goes(tree, denied, absolute, start, k);
    }
    StopsAt(tree, denied, absolute, start, n);
    if !Guarded(start[..n], absolute) {
      RemovableAsBefore(tree, denied, absolute, start, n);
    }
  }

  // ---- Whether the data directory itself goes ----

  /** `start` is the only thing below `data`, and nothing on the way to it resists. */
  predicate OnlyContent(tree: Tree, denied: set<Path>, data: Path, start: Path) {
    data <= start && forall k | |data| <= k <= |start| :: Alone(tree, denied, start, k)
  }

  lemma GoneUnlessGuarded(tree: Tree, denied: set<Path>, absolute: bool, data: Path, start: Path)
    requires data <= start
    ensures Gone(tree, denied, absolute, start, data) <==>
              && OnlyContent(tree, denied, data, start)
              && forall k | |data| <= k <= |start| :: !Guarded(start[..k], absolute)
  {
    if Gone(tree, denied, absolute, start, data) {
      forall k | |data| <= k <= |start|
        ensures Alone(tree, denied, start, k) && !Guarded(start[..k], absolute)
      {
        assert Vacated(tree, denied, absolute, start, k);
      }
    }
  }

  /** Artifacts are kept in <data>/tmp/artifacts, where neither of the guarded names lies. Wherever
      the data directory is, the climb from an artifact takes it exactly if it holds nothing else,
      unless it is itself the root or one of the two names. */
  lemma DataGoesWithArtifact(tree: Tree, denied: set<Path>, absolute: bool, data: Path, id: string)
    ensures Gone(tree, denied, absolute, data + ["tmp", "artifacts", id], data) <==>
              && data != [] && !(absolute && data in {["data", "runs"], ["data", "artifacts"]})
              && OnlyContent(tree, denied, data, data + ["tmp", "artifacts", id])
  {
    var start := data + ["tmp", "artifacts", id];
    GoneUnlessGuarded(tree, denied, absolute, data, start);
    assert start[..|data|] == data;
    forall k | |data| < k <= |start|
      ensures !Guarded(start[..k], absolute)
    {
      assert k == |data| + 1 ==> start[..k][k - 1] == "tmp";
      assert k == |data| + 2 ==> start[..k][k - 2] == "tmp";
    }
  }

  /** The climb from a run's artifacts meets a guarded name only with the data in /data. */
  lemma DataGoesWithRun(tree: Tree, denied: set<Path>, absolute: bool, data: Path, id: string)
    ensures Gone(tree, denied, absolute, data + ["runs", id, "artifacts"], data) <==>
              && !Guarded(data, absolute) && !(absolute && data == ["data"])
              && OnlyContent(tree, denied, data, data + ["runs", id, "artifacts"])
  {
    var start := data + ["runs", id, "artifacts"];
    GoneUnlessGuarded(tree, denied, absolute, data, start);
    assert start[..|data|] == data && start[..|data| + 1] == data + ["runs"];
    assert data + ["runs"] == BASE_RUNS <==> data == ["data"] by {
      if data + ["runs"] == BASE_RUNS {
        assert data == (data + ["runs"])[..|data|] == BASE_RUNS[..1];
      }
    }
    assert data + ["runs"] != BASE_ARTIFACTS by {
      assert (data + ["runs"])[|data|] == "runs";
    }
    forall k | |data| + 1 < k <= |start|
      ensures !Guarded(start[..k], absolute) || data == []
    {
      assert |data| > 0 ==> |start[..k]| > 2;
    }
  }

  /** Nothing but the way to one directory. */
  function Bare(start: Path): Tree {
    map p | p in Prefixes(start) :: Directory
  }

  function Prefixes(start: Path): set<Path> {
    set k | 0 <= k <= |start| :: start[..k]
  }

  lemma BarePaths(start: Path, p: Path)
    ensures p in Bare(start) <==> p <= start
  {
    if p <= start {
      var k := |p|;
      assert p == start[..k];
    }
  }

  lemma BareContent(data: Path, start: Path)
    requires data <= start
    ensures TreeOk(Bare(start)) && OnlyContent(Bare(start), {}, data, start)
  {
    var tree := Bare(start);
    BarePaths(start, []);
    forall q | q in tree && q != []
      ensures Parent(q) in tree
    {
      BarePaths(start, q);
      BarePaths(start, Parent(q));
    }
    forall k: nat, q | k <= |start| && q in tree && ChildOf(tree, q, start[..k])
      ensures k < |start| && q == start[..k + 1]
    {
      BarePaths(start, q);
      assert q == start[..|q|];
    }
    forall k: nat | k <= |start|
      ensures start[..k] in tree
    {
      BarePaths(start, start[..k]);
    }
  }

  /** With the data in /tmp/data and nothing in it but the directory of the last artifact, the climb
      takes the data directory. */
  lemma DataInTmpGoes(id: string)
    ensures var data := ["tmp", "data"];
            var start := data + ["tmp", "artifacts", id];
            TreeOk(Bare(start)) && data in Bare(start) && data !in Climbed(Bare(start), {}, true, start)
  {
    var data := ["tmp", "data"];
    var start := data + ["tmp", "artifacts", id];
    BareContent(data, start);
    BarePaths(start, data);
    DataGoesWithArtifact(Bare(start), {}, true, data, id);
    assert data[0] == "tmp" && |BASE_RUNS[0]| == 4 && |BASE_ARTIFACTS[0]| == 4;
  }
}
