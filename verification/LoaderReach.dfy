/** Which files the include loader reaches: chains of includes, the depth cut-off, failing includes. */
module LoaderReach {
  import opened Prelude
  import opened TomlConfig
  import opened ConfigLoader
  import opened LoaderTheorems

  /** c is a chain of includes. */
  ghost predicate Chain(fs: FileSystem, c: seq<Path>) {
    c != [] && forall i :: 0 <= i < |c| - 1 ==> c[i + 1] in Children(fs, c[i])
  }

  /** q is reached from root by following exactly n includes. */
  ghost predicate Reaches(fs: FileSystem, root: Path, q: Path, n: nat) {
    exists c :: Chain(fs, c) && |c| == n + 1 && c[0] == root && c[n] == q
  }

  lemma ReachesSelf(fs: FileSystem, root: Path)
    ensures Reaches(fs, root, root, 0)
  {
    assert Chain(fs, [root]);
  }

  lemma ReachesStep(fs: FileSystem, root: Path, p: Path, q: Path, n: nat)
    requires Reaches(fs, root, p, n) && q in Children(fs, p)
    ensures Reaches(fs, root, q, n + 1)
  {
    var c :| Chain(fs, c) && |c| == n + 1 && c[0] == root && c[n] == p;
    ChainSnoc(fs, c, q);
  }

  lemma ChainPrefix(fs: FileSystem, c: seq<Path>)
    requires Chain(fs, c) && |c| > 1
    ensures Chain(fs, c[..|c| - 1]) && c[|c| - 1] in Children(fs, c[|c| - 2])
  {
    assert c[|c| - 2 + 1] in Children(fs, c[|c| - 2]);
  }

  lemma ReachesBack(fs: FileSystem, root: Path, q: Path, n: nat) returns (p: Path)
    requires Reaches(fs, root, q, n) && n > 0
    ensures Reaches(fs, root, p, n - 1) && q in Children(fs, p)
  {
    var c :| Chain(fs, c) && |c| == n + 1 && c[0] == root && c[n] == q;
    ChainPrefix(fs, c);
    p := c[n - 1];
    assert c[..n][0] == root && c[..n][n - 1] == p;
  }

  // ---------------------------------------------------------------------
  // Soundness: at most ten includes away
  // ---------------------------------------------------------------------

  ghost predicate AllWithin(fs: FileSystem, root: Path, s: set<Path>) {
    forall q :: q in s ==> exists n: nat :: n <= MAX_IMPORT_DEPTH && Reaches(fs, root, q, n)
  }

  lemma {:induction false} VisitWithin(fs: FileSystem, root: Path, p: Path, visited: set<Path>, depth: nat)
    requires AllWithin(fs, root, visited) && Reaches(fs, root, p, depth)
    ensures AllWithin(fs, root, Visit(fs, p, visited, depth).visited)
    decreases Budget(depth), 0
  {
    if depth <= MAX_IMPORT_DEPTH && p !in visited {
      forall q | q in Children(fs, p) ensures Reaches(fs, root, q, depth + 1) {
        ReachesStep(fs, root, p, q, depth);
      }
      VisitAllWithin(fs, root, Children(fs, p), visited + {p}, depth + 1);
    }
  }

  lemma {:induction false} VisitAllWithin(fs: FileSystem, root: Path, ps: seq<Path>, visited: set<Path>, depth: nat)
    requires AllWithin(fs, root, visited) && forall q :: q in ps ==> Reaches(fs, root, q, depth)
    ensures AllWithin(fs, root, VisitAll(fs, ps, visited, depth).visited)
    decreases Budget(depth), 1 + |ps|
  {
    if ps != [] {
      VisitWithin(fs, root, ps[0], visited, depth);
      VisitAllWithin(fs, root, ps[1..], Visit(fs, ps[0], visited, depth).visited, depth);
    }
  }

  /** Every file the loader marks, hence every file it reads, is at most ten includes away from the root. */
  lemma LoadedWithinTenIncludes(fs: FileSystem, root: Path, q: Path)
    requires q in Load(fs, root, Marks({}, []), 0).1.visited
    ensures exists n: nat :: n <= 10 && Reaches(fs, root, q, n)
  {
    LoadMarks(fs, root, Marks({}, []), 0);
    ReachesSelf(fs, root);
    VisitWithin(fs, root, root, {}, 0);
  }

  // ---------------------------------------------------------------------
  // Completeness: what the cut-off loses
  // ---------------------------------------------------------------------

  /** Every path a walk marks has all its includes marked, unless it was marked at the depth limit. */
  ghost predicate Expanded(fs: FileSystem, pre: seq<Path>, cut: set<Path>, visited: set<Path>) {
    forall q, r :: q in pre && q !in cut && r in Children(fs, q) ==> r in visited
  }

  lemma {:induction false} VisitExpands(fs: FileSystem, p: Path, visited: set<Path>, depth: nat)
    ensures var w := Visit(fs, p, visited, depth); Expanded(fs, w.pre, w.cut, w.visited)
    decreases Budget(depth), 0
  {
    if depth <= MAX_IMPORT_DEPTH && p !in visited {
      VisitAllExpands(fs, Children(fs, p), visited + {p}, depth + 1);
    }
  }

  lemma {:induction false} VisitAllExpands(fs: FileSystem, ps: seq<Path>, visited: set<Path>, depth: nat)
    ensures var w := VisitAll(fs, ps, visited, depth);
            Expanded(fs, w.pre, w.cut, w.visited) && (depth <= MAX_IMPORT_DEPTH ==> SetOf(ps) <= w.visited)
    decreases Budget(depth), 1 + |ps|
  {
    if ps != [] {
      var a := Visit(fs, ps[0], visited, depth);
      var b := VisitAll(fs, ps[1..], a.visited, depth);
      VisitExpands(fs, ps[0], visited, depth);
      VisitAllExpands(fs, ps[1..], a.visited, depth);
      VisitFacts(fs, ps[0], visited, depth);
      VisitAllFacts(fs, ps[1..], a.visited, depth);
      assert ps == [ps[0]] + ps[1..];
      SetOfConcat([ps[0]], ps[1..]);
      assert SetOf([ps[0]]) == {ps[0]};
    }
  }

  /** Nothing reachable is left out. */
  ghost predicate Complete(fs: FileSystem, root: Path, visited: set<Path>) {
    forall q, n: nat :: Reaches(fs, root, q, n) ==> q in visited
  }

  lemma {:induction false} ClosedIsComplete(fs: FileSystem, root: Path, visited: set<Path>, q: Path, n: nat)
    requires root in visited && Reaches(fs, root, q, n)
    requires forall p, r :: p in visited && r in Children(fs, p) ==> r in visited
    ensures q in visited
    decreases n
  {
    if n > 0 {
      var p := ReachesBack(fs, root, q, n);
      ClosedIsComplete(fs, root, visited, p, n - 1);
    }
  }

  /** The loader marks everything reachable, at any distance, exactly when every include of every
      file it first reached at depth ten was marked anyway. */
  lemma CompleteIff(fs: FileSystem, root: Path)
    ensures var visited, cut := Load(fs, root, Marks({}, []), 0).1.visited, Visit(fs, root, {}, 0).cut;
            Complete(fs, root, visited) <==> forall q, r :: q in cut && r in Children(fs, q) ==> r in visited
  {
    LoadMarks(fs, root, Marks({}, []), 0);
    VisitFacts(fs, root, {}, 0);
    VisitExpands(fs, root, {}, 0);
    var w := Visit(fs, root, {}, 0);
    if forall q, r :: q in w.cut && r in Children(fs, q) ==> r in w.visited {
      forall p, r | p in w.visited && r in Children(fs, p) ensures r in w.visited {
        assert p in SetOf(w.pre);
      }
      forall q, n: nat | Reaches(fs, root, q, n) ensures q in w.visited {
        ClosedIsComplete(fs, root, w.visited, q, n);
      }
    }
    if Complete(fs, root, w.visited) {
      forall q, r | q in w.cut && r in Children(fs, q) ensures r in w.visited {
        assert q in w.visited;
        LoadedWithinTenIncludes(fs, root, q);
        var n: nat :| n <= MAX_IMPORT_DEPTH && Reaches(fs, root, q, n);
        ReachesStep(fs, root, q, r, n);
      }
    }
  }

  ghost predicate Within(fs: FileSystem, root: Path, q: Path) {
    exists n: nat :: n <= MAX_IMPORT_DEPTH && Reaches(fs, root, q, n)
  }

  /** "Every file at most ten includes away is loaded" holds exactly when the cut-off loses no such file: each
      include, itself at most ten away, of a file first reached at depth ten was marked anyway. */
  lemma WithinTenIff(fs: FileSystem, root: Path)
    ensures var visited, cut := Load(fs, root, Marks({}, []), 0).1.visited, Visit(fs, root, {}, 0).cut;
            (forall q :: Within(fs, root, q) ==> q in visited)
            <==> forall p, r :: p in cut && r in Children(fs, p) && Within(fs, root, r) ==> r in visited
  {
    LoadMarks(fs, root, Marks({}, []), 0);
    VisitFacts(fs, root, {}, 0);
    VisitExpands(fs, root, {}, 0);
    var w := Visit(fs, root, {}, 0);
    if forall p, r :: p in w.cut && r in Children(fs, p) && Within(fs, root, r) ==> r in w.visited {
      forall q | Within(fs, root, q) ensures q in w.visited {
        var n: nat :| n <= MAX_IMPORT_DEPTH && Reaches(fs, root, q, n);
        WithinIsMarked(fs, root, w, q, n);
      }
    }
  }

  lemma {:induction false} WithinIsMarked(fs: FileSystem, root: Path, w: Walk, q: Path, n: nat)
    requires root in w.visited && w.visited == SetOf(w.pre) && Expanded(fs, w.pre, w.cut, w.visited)
    requires forall p, r :: p in w.cut && r in Children(fs, p) && Within(fs, root, r) ==> r in w.visited
    requires n <= MAX_IMPORT_DEPTH && Reaches(fs, root, q, n)
    ensures q in w.visited
    decreases n
  {
    if n > 0 {
      var p := ReachesBack(fs, root, q, n);
      WithinIsMarked(fs, root, w, p, n - 1);
      assert p in SetOf(w.pre) && Within(fs, root, q);
    } else {
      assert q == root;
    }
  }

  // ---------------------------------------------------------------------
  // Graphs on which the cut-off loses nothing
  // ---------------------------------------------------------------------

  /** No chain of includes from the root goes through more than eleven different files. */
  ghost predicate ShortChains(fs: FileSystem, root: Path) {
    forall c :: Chain(fs, c) && NoDup(c) && c[0] == root ==> |c| <= MAX_IMPORT_DEPTH + 1
  }

  /** A caller can rule the cut-off out by looking at chains: if none without repetition is longer than eleven
      files, everything reachable is loaded, however many files there are. */
  lemma ShortChainsAreComplete(fs: FileSystem, root: Path)
    requires ShortChains(fs, root)
    ensures Complete(fs, root, Load(fs, root, Marks({}, []), 0).1.visited)
  {
    LoadMarks(fs, root, Marks({}, []), 0);
    VisitCovers(fs, root, root, {}, []);
    CompleteIff(fs, root);
  }

  ghost predicate Covered(fs: FileSystem, cut: set<Path>, visited: set<Path>) {
    forall q, r :: q in cut && r in Children(fs, q) ==> r in visited
  }

  /** The files being loaded at once: a chain from the root without repetition, ending before p. */
  ghost predicate OpenChain(fs: FileSystem, root: Path, open: seq<Path>, p: Path) {
    && NoDup(open) && (if open == [] then p == root else Chain(fs, open) && open[0] == root && p in Children(fs, open[|open| - 1]))
  }

  lemma ChainGrows(fs: FileSystem, root: Path, open: seq<Path>, p: Path)
    requires OpenChain(fs, root, open, p) && p !in open
    ensures var c := open + [p]; Chain(fs, c) && NoDup(c) && c[0] == root
  {
    NoDupSnoc(open, p);
    if open != [] {
      ChainSnoc(fs, open, p);
    }
  }

  lemma NoDupSnoc(open: seq<Path>, p: Path)
    requires NoDup(open) && p !in open
    ensures NoDup(open + [p])
  {
    assert SetOf([p]) == {p};
    NoDupConcat(open, [p]);
  }

  lemma ChainSnoc(fs: FileSystem, open: seq<Path>, p: Path)
    requires Chain(fs, open) && p in Children(fs, open[|open| - 1])
    ensures Chain(fs, open + [p])
  {
    var c := open + [p];
    forall i | 0 <= i < |c| - 1 ensures c[i + 1] in Children(fs, c[i]) {
      assert i < |open| - 1 ==> open[i + 1] in Children(fs, open[i]);
    }
  }

  lemma LongestChainReturns(fs: FileSystem, root: Path, c: seq<Path>, r: Path)
    requires ShortChains(fs, root) && c != [] && OpenChain(fs, root, c, r) && |c| == MAX_IMPORT_DEPTH + 1
    ensures r in c
  {
    if r !in c {
      ChainGrows(fs, root, c, r);
      assert false;
    }
  }

  lemma {:induction false} VisitCovers(fs: FileSystem, root: Path, p: Path, visited: set<Path>, open: seq<Path>)
    requires ShortChains(fs, root) && OpenChain(fs, root, open, p) && SetOf(open) <= visited
    ensures var w := Visit(fs, p, visited, |open|); Covered(fs, w.cut, w.visited)
    decreases Budget(|open|), 0
  {
    if |open| <= MAX_IMPORT_DEPTH && p !in visited {
      var c, w := open + [p], Visit(fs, p, visited, |open|);
      assert p !in SetOf(open);
      ChainGrows(fs, root, open, p);
      SetOfSnoc(open, p);
      VisitAllCovers(fs, root, Children(fs, p), visited + {p}, c);
      if |open| == MAX_IMPORT_DEPTH {
        VisitFacts(fs, p, visited, |open|);
        forall r | r in Children(fs, p) ensures r in w.visited {
          LongestChainReturns(fs, root, c, r);
          assert r in SetOf(c);
          VisitAllFacts(fs, Children(fs, p), visited + {p}, |c|);
        }
      }
    }
  }

  lemma {:induction false} VisitAllCovers(fs: FileSystem, root: Path, ps: seq<Path>, visited: set<Path>, open: seq<Path>)
    requires ShortChains(fs, root) && open != [] && SetOf(open) <= visited && forall q :: q in ps ==> OpenChain(fs, root, open, q)
    ensures var w := VisitAll(fs, ps, visited, |open|); Covered(fs, w.cut, w.visited)
    decreases Budget(|open|), 1 + |ps|
  {
    if ps != [] {
      var a := Visit(fs, ps[0], visited, |open|);
      VisitCovers(fs, root, ps[0], visited, open);
      VisitFacts(fs, ps[0], visited, |open|);
      VisitAllCovers(fs, root, ps[1..], a.visited, open);
      VisitAllFacts(fs, ps[1..], a.visited, |open|);
    }
  }

  /** In particular, up to eleven files that include only one another are always loaded whole. */
  lemma ElevenFilesAlwaysComplete(fs: FileSystem, root: Path, files: set<Path>)
    requires root in files && |files| <= 11
    requires forall p, r :: p in files && r in Children(fs, p) ==> r in files
    ensures Complete(fs, root, Load(fs, root, Marks({}, []), 0).1.visited)
  {
    forall c | Chain(fs, c) && NoDup(c) && c[0] == root ensures |c| <= MAX_IMPORT_DEPTH + 1 {
      forall i | 0 <= i < |c| ensures c[i] in files {
        ChainStaysInside(fs, c, files, i);
      }
      NoDupCardinality(c);
      CardinalityOfSubset(SetOf(c), files);
    }
    ShortChainsAreComplete(fs, root);
  }

  lemma {:induction false} ChainStaysInside(fs: FileSystem, c: seq<Path>, files: set<Path>, i: nat)
    requires Chain(fs, c) && c[0] in files && forall p, r :: p in files && r in Children(fs, p) ==> r in files
    requires i < |c|
    ensures c[i] in files
  {
    if i > 0 {
      ChainStaysInside(fs, c, files, i - 1);
      assert c[i - 1 + 1] in Children(fs, c[i - 1]);
    }
  }

  lemma {:induction false} NoDupCardinality(c: seq<Path>)
    requires NoDup(c)
    ensures |SetOf(c)| == |c|
    decreases |c|
  {
    if c != [] {
      var init, x := c[..|c| - 1], c[|c| - 1];
      NoDupCardinality(init);
      SetOfSnoc(init, x);
      assert c == init + [x] && x !in init;
    }
  }

  lemma {:induction false} CardinalityOfSubset(a: set<Path>, b: set<Path>)
    requires a <= b
    ensures |a| <= |b|
    decreases |a|
  {
    if a != {} {
      var x :| x in a;
      CardinalityOfSubset(a - {x}, b - {x});
    }
  }

  // ---------------------------------------------------------------------
  // A file two includes away that is never loaded
  // ---------------------------------------------------------------------

  function Name(n: nat): Path { seq(n, i => 'x') }

  /** A chain of twelve files, each including the next, whose root also includes the eleventh directly. */
  function ShortcutFiles(): FileSystem {
    FileSystem(p => Parsed(EMPTY.(includes := if |p| == 0 then ["next", "jump"] else if |p| <= 10 then ["next"] else [])),
               (p, pattern) => Matches([Absolute(if pattern == "next" then Name(|p| + 1) else Name(10))]))
  }

  lemma SingleMatch(p: Path)
    ensures AbsoluteMatches([Absolute(p)]) == [p]
  {
    assert [Absolute(p)][1..] == [];
  }

  lemma VisitPair(fs: FileSystem, p: Path, q: Path, visited: set<Path>, depth: nat)
    ensures VisitAll(fs, [p], visited, depth).visited == Visit(fs, p, visited, depth).visited
    ensures VisitAll(fs, [p, q], visited, depth).visited == Visit(fs, q, Visit(fs, p, visited, depth).visited, depth).visited
  {
    assert [p][1..] == [] && [p, q][1..] == [q] && [q][1..] == [];
    var v := Visit(fs, p, visited, depth).visited;
    assert VisitAll(fs, [], v, depth).visited == v;
    assert VisitAll(fs, [q], v, depth).visited == VisitAll(fs, [], Visit(fs, q, v, depth).visited, depth).visited;
  }

  /** Visiting an unmarked file with one include. */
  lemma VisitSingle(fs: FileSystem, p: Path, q: Path, visited: set<Path>, depth: nat)
    requires Children(fs, p) == [q] && p !in visited && depth <= MAX_IMPORT_DEPTH
    ensures Visit(fs, p, visited, depth).visited == Visit(fs, q, visited + {p}, depth + 1).visited
  {
    VisitPair(fs, q, q, visited + {p}, depth + 1);
  }

  lemma ShortcutChildren(n: nat)
    ensures n == 0 ==> Children(ShortcutFiles(), Name(0)) == [Name(1), Name(10)]
    ensures 1 <= n <= 10 ==> Children(ShortcutFiles(), Name(n)) == [Name(n + 1)]
  {
    NextMatches(n);
    if n == 0 {
      JumpMatches();
    }
  }

  lemma NextMatches(n: nat)
    ensures AllMatches(ShortcutFiles(), Name(n), ["next"]) == [Name(n + 1)]
  {
    SingleMatch(Name(n + 1));
    assert ["next"][1..] == [];
    assert PatternMatches(ShortcutFiles(), Name(n), "next") == [Name(n + 1)];
    Unit([Name(n + 1)]);
  }

  lemma JumpMatches()
    ensures AllMatches(ShortcutFiles(), Name(0), ["next", "jump"]) == [Name(1), Name(10)]
  {
    SingleMatch(Name(1));
    SingleMatch(Name(10));
    var fs := ShortcutFiles();
    assert ["next", "jump"][1..] == ["jump"] && ["jump"][1..] == [];
    assert PatternMatches(fs, Name(0), "next") == [Name(1)] && PatternMatches(fs, Name(0), "jump") == [Name(10)];
    Unit([Name(10)]);
    assert AllMatches(fs, Name(0), ["jump"]) == [Name(10)];
  }

  lemma {:induction false} ShortcutWalk(n: nat, visited: set<Path>)
    requires 1 <= n <= 10 && forall i: nat :: n <= i <= 11 ==> Name(i) !in visited
    ensures var v := Visit(ShortcutFiles(), Name(n), visited, n).visited; Name(10) in v && Name(11) !in v
    decreases 10 - n
  {
    var fs := ShortcutFiles();
    ShortcutChildren(n);
    var marked := visited + {Name(n)};
    forall i: nat | n < i <= 11 ensures Name(i) !in marked {
      assert |Name(i)| == i != |Name(n)|;
    }
    if n < 10 {
      VisitSingle(fs, Name(n), Name(n + 1), visited, n);
      ShortcutWalk(n + 1, marked);
    } else {
      VisitSingle(fs, Name(n), Name(n + 1), visited, n);
      assert Visit(fs, Name(11), marked, 11).visited == marked;
    }
  }

  /** "Every file within ten includes of the root is loaded" is false: here a file two includes away
      is not, because the file that includes it was first reached at depth ten. */
  lemma WithinTenIsNotEnough(fs: FileSystem, root: Path, lost: Path)
    requires fs == ShortcutFiles() && root == Name(0) && lost == Name(11)
    ensures Reaches(fs, root, lost, 2) && lost !in Load(fs, root, Marks({}, []), 0).1.visited
  {
    ShortcutChildren(0);
    ShortcutChildren(10);
    ReachesSelf(fs, root);
    ReachesStep(fs, root, root, Name(10), 0);
    ReachesStep(fs, root, Name(10), lost, 1);
    ShortcutRootWalk();
    LoadMarks(fs, root, Marks({}, []), 0);
  }

  lemma ShortcutRootWalk()
    ensures Name(11) !in Visit(ShortcutFiles(), Name(0), {}, 0).visited
  {
    var fs, marked := ShortcutFiles(), {} + {Name(0)};
    ShortcutChildren(0);
    assert forall i: nat :: 1 <= i <= 11 ==> |Name(i)| == i != |Name(0)|;
    ShortcutWalk(1, marked);
    VisitPair(fs, Name(1), Name(10), marked, 1);
  }

  // ---------------------------------------------------------------------
  // Failing includes
  // ---------------------------------------------------------------------

  function Replace(fs: FileSystem, q: Path, f: File): FileSystem {
    FileSystem(p => if p == q then f else fs.read(p), fs.glob)
  }

  lemma ReplaceKeepsChildren(fs: FileSystem, q: Path, bad: File, p: Path)
    requires !bad.Parsed?
    ensures Children(Replace(fs, q, bad), p) == Children(Replace(fs, q, Parsed(EMPTY)), p)
  {
    if p != q && fs.read(p).Parsed? {
      AllMatchesSameGlob(Replace(fs, q, bad), Replace(fs, q, Parsed(EMPTY)), p, fs.read(p).cfg.includes);
    }
  }

  lemma {:induction false} AllMatchesSameGlob(a: FileSystem, b: FileSystem, p: Path, patterns: seq<string>)
    requires a.glob == b.glob
    ensures AllMatches(a, p, patterns) == AllMatches(b, p, patterns)
    decreases |patterns|
  {
    if patterns != [] {
      AllMatchesSameGlob(a, b, p, patterns[1..]);
    }
  }

  /** An include that cannot be read or parsed has exactly the effect of an empty file: only its own
      contribution and its own includes are lost, everything else loads as before. */
  lemma {:induction false} FailingIncludeIsEmpty(fs: FileSystem, q: Path, bad: File, p: Path, m: Marks, depth: nat)
    requires !bad.Parsed?
    ensures var (r, n) := Load(Replace(fs, q, bad), p, m, depth);
            var (r', n') := Load(Replace(fs, q, Parsed(EMPTY)), p, m, depth);
            n == n' && (p != q ==> r == r') && (p == q && r' != r ==> r.Err? && r' == Ok(EMPTY))
    decreases Budget(depth), 0
  {
    if depth <= MAX_IMPORT_DEPTH && p !in m.visited && p != q && fs.read(p).Parsed? {
      ReplaceKeepsChildren(fs, q, bad, p);
      var cs := Children(Replace(fs, q, bad), p);
      FailingIncludesAreEmpty(fs, q, bad, cs, Marks(m.visited + {p}, m.read + [p]), depth + 1, EMPTY);
    }
  }

  lemma {:induction false} FailingIncludesAreEmpty(fs: FileSystem, q: Path, bad: File, ps: seq<Path>, m: Marks, depth: nat, acc: Config)
    requires !bad.Parsed?
    ensures LoadAll(Replace(fs, q, bad), ps, m, depth, acc) == LoadAll(Replace(fs, q, Parsed(EMPTY)), ps, m, depth, acc)
    decreases Budget(depth), 1 + |ps|
  {
    if ps != [] {
      FailingIncludeIsEmpty(fs, q, bad, ps[0], m, depth);
      var (r, n) := Load(Replace(fs, q, bad), ps[0], m, depth);
      MergeIdentity(acc);
      FailingIncludesAreEmpty(fs, q, bad, ps[1..], n, depth, if r.Ok? then MergeConfig(acc, r.value) else acc);
    }
  }
}
