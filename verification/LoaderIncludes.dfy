/** Which files an include list names, told from the file contents and the glob matches alone, and what becomes of them. */
module LoaderIncludes {
  import opened Prelude
  import opened TomlConfig
  import opened ConfigLoader
  import opened LoaderTheorems
  import opened LoaderReach
  import opened LoaderFields

  /** The j-th match of the i-th pattern of file p is q. */
  predicate NamedAt(fs: FileSystem, p: Path, i: int, j: int, q: Path) {
    && fs.read(p).Parsed? && 0 <= i < |fs.read(p).cfg.includes|
    && var r := fs.glob(p, fs.read(p).cfg.includes[i]); r.Matches? && 0 <= j < |r.matches| && r.matches[j] == Absolute(q)
  }

  /** Patterns in their order, and the matches of one pattern in theirs. */
  predicate Before(i: int, j: int, i': int, j': int) { i < i' || (i == i' && j < j') }

  // ---------------------------------------------------------------------
  // The direct includes of a file
  // ---------------------------------------------------------------------

  /** at gives the place of each element of ps among the absolute ones of ms: all of them, in order. */
  ghost predicate Places(ms: seq<Match>, ps: seq<Path>, at: seq<int>) {
    && |at| == |ps|
    && (forall k :: 0 <= k < |at| ==> 0 <= at[k] < |ms| && ms[at[k]] == Absolute(ps[k]))
    && (forall k, l :: 0 <= k < l < |at| ==> at[k] < at[l])
    && (forall j :: 0 <= j < |ms| && ms[j].Absolute? ==> j in at)
  }

  lemma {:induction false} AbsolutePlaces(ms: seq<Match>) returns (at: seq<int>)
    ensures Places(ms, AbsoluteMatches(ms), at)
    decreases |ms|
  {
    at := [];
    if ms != [] {
      var m := |ms| - 1;
      var at' := AbsolutePlaces(ms[..m]);
      AbsoluteSnoc(ms[..m], ms[m]);
      assert ms[..m] + [ms[m]] == ms;
      at := at' + if ms[m].Absolute? then [m] else [];
      forall j | 0 <= j < |ms| && ms[j].Absolute? ensures j in at {
        if j < m {
          assert ms[..m][j].Absolute? && j in at';
        }
      }
    }
  }

  lemma {:induction false} AbsoluteSnoc(ms: seq<Match>, m: Match)
    ensures AbsoluteMatches(ms + [m]) == AbsoluteMatches(ms) + (if m.Absolute? then [m.path] else [])
  {
    if ms == [] {
      assert [] + [m] == [m] && [m][1..] == [];
    } else {
      assert (ms + [m])[0] == ms[0] && (ms + [m])[1..] == ms[1..] + [m];
      AbsoluteSnoc(ms[1..], m);
    }
  }

  /** at gives the pattern and the match of each element of ps: every absolute match of the first n patterns, in order. */
  ghost predicate Tried(fs: FileSystem, p: Path, n: nat, ps: seq<Path>, at: seq<(int, int)>) {
    && |at| == |ps|
    && (forall k :: 0 <= k < |at| ==> at[k].0 < n && NamedAt(fs, p, at[k].0, at[k].1, ps[k]))
    && (forall k, l :: 0 <= k < l < |at| ==> Before(at[k].0, at[k].1, at[l].0, at[l].1))
    && (forall i, j, q :: i < n && NamedAt(fs, p, i, j, q) ==> (i, j) in at)
  }

  lemma {:induction false} AllMatchesSnoc(fs: FileSystem, p: Path, patterns: seq<string>, t: string)
    ensures AllMatches(fs, p, patterns + [t]) == AllMatches(fs, p, patterns) + PatternMatches(fs, p, t)
  {
    if patterns == [] {
      assert [] + [t] == [t] && [t][1..] == [];
      assert PatternMatches(fs, p, t) + [] == [] + PatternMatches(fs, p, t);
    } else {
      assert (patterns + [t])[0] == patterns[0] && (patterns + [t])[1..] == patterns[1..] + [t];
      AllMatchesSnoc(fs, p, patterns[1..], t);
      Assoc(PatternMatches(fs, p, patterns[0]), AllMatches(fs, p, patterns[1..]), PatternMatches(fs, p, t));
    }
  }

  /** The matches of pattern n, with their places. */
  lemma PatternPlaces(fs: FileSystem, p: Path, n: nat) returns (at: seq<int>)
    requires fs.read(p).Parsed? && n < |fs.read(p).cfg.includes|
    ensures var ps := PatternMatches(fs, p, fs.read(p).cfg.includes[n]);
            && |at| == |ps|
            && (forall k :: 0 <= k < |at| ==> NamedAt(fs, p, n, at[k], ps[k]))
            && (forall k, l :: 0 <= k < l < |at| ==> at[k] < at[l])
            && (forall j, q :: NamedAt(fs, p, n, j, q) ==> j in at)
  {
    at := [];
    var r := fs.glob(p, fs.read(p).cfg.includes[n]);
    if r.Matches? {
      at := AbsolutePlaces(r.matches);
    }
  }

  lemma {:induction false} TriedUpTo(fs: FileSystem, p: Path, n: nat) returns (at: seq<(int, int)>)
    requires fs.read(p).Parsed? && n <= |fs.read(p).cfg.includes|
    ensures Tried(fs, p, n, AllMatches(fs, p, fs.read(p).cfg.includes[..n]), at)
    decreases n
  {
    at := [];
    if n > 0 {
      var ts := fs.read(p).cfg.includes;
      var at' := TriedUpTo(fs, p, n - 1);
      var js := PatternPlaces(fs, p, n - 1);
      AllMatchesSnoc(fs, p, ts[..n - 1], ts[n - 1]);
      assert ts[..n - 1] + [ts[n - 1]] == ts[..n];
      at := at' + OfPattern(n - 1, js);
      OnePatternMore(fs, p, n - 1, AllMatches(fs, p, ts[..n - 1]), at', PatternMatches(fs, p, ts[n - 1]), js);
    }
  }

  function OfPattern(i: int, js: seq<int>): seq<(int, int)> { seq(|js|, k requires 0 <= k < |js| => (i, js[k])) }

  lemma OnePatternMore(fs: FileSystem, p: Path, n: nat, ps: seq<Path>, at: seq<(int, int)>, qs: seq<Path>, js: seq<int>)
    requires Tried(fs, p, n, ps, at) && |js| == |qs|
    requires forall k :: 0 <= k < |js| ==> NamedAt(fs, p, n, js[k], qs[k])
    requires forall k, l :: 0 <= k < l < |js| ==> js[k] < js[l]
    requires forall j, q :: NamedAt(fs, p, n, j, q) ==> j in js
    ensures Tried(fs, p, n + 1, ps + qs, at + OfPattern(n, js))
  {
    var more := OfPattern(n, js);
    var both := at + more;
    forall k | 0 <= k < |both| ensures both[k].0 < n + 1 && NamedAt(fs, p, both[k].0, both[k].1, (ps + qs)[k]) {
      assert k >= |at| ==> both[k] == (n as int, js[k - |at|]) && (ps + qs)[k] == qs[k - |at|];
    }
    forall i, j, q | i < n + 1 && NamedAt(fs, p, i, j, q) ensures (i, j) in both {
      InBoth(at, js, n, i, j, NamedAt(fs, p, i, j, q) && i < n);
    }
  }

  lemma InBoth(at: seq<(int, int)>, js: seq<int>, n: int, i: int, j: int, before: bool)
    requires if before then (i, j) in at else i == n && j in js
    ensures (i, j) in at + OfPattern(n, js)
  {
    if !before {
      var k :| 0 <= k < |js| && js[k] == j;
      assert OfPattern(n, js)[k] == (i, j);
    }
  }

  /** The includes of a parsed file are exactly the absolute matches of its patterns, pattern after pattern, match after
      match, each place once. */
  lemma IncludesInOrder(fs: FileSystem, p: Path) returns (at: seq<(int, int)>)
    ensures |at| == |Children(fs, p)|
    ensures forall k :: 0 <= k < |at| ==> NamedAt(fs, p, at[k].0, at[k].1, Children(fs, p)[k])
    ensures forall k, l :: 0 <= k < l < |at| ==> Before(at[k].0, at[k].1, at[l].0, at[l].1)
    ensures forall i, j, q :: NamedAt(fs, p, i, j, q) ==> (i, j) in at
  {
    at := [];
    if fs.read(p).Parsed? {
      var ts := fs.read(p).cfg.includes;
      at := TriedUpTo(fs, p, |ts|);
      assert ts[..|ts|] == ts;
    }
  }

  /** A file includes q exactly when q is an absolute match of one of its patterns. */
  lemma IncludesIff(fs: FileSystem, p: Path, q: Path)
    ensures q in Children(fs, p) <==> exists i, j :: NamedAt(fs, p, i, j, q)
  {
    var at := IncludesInOrder(fs, p);
    if q in Children(fs, p) {
      var k :| 0 <= k < |Children(fs, p)| && Children(fs, p)[k] == q;
      assert NamedAt(fs, p, at[k].0, at[k].1, q);
    }
    if i, j :| NamedAt(fs, p, i, j, q) {
      var k :| 0 <= k < |at| && at[k] == (i, j);
      assert NamedAt(fs, p, i, j, Children(fs, p)[k]);
    }
  }

  // ---------------------------------------------------------------------
  // What the loader makes of them
  // ---------------------------------------------------------------------

  /** Every include of a file that the loader marks, unless the file was cut off at depth ten, is marked and watched. */
  lemma IncludesAreLoaded(fs: FileSystem, path: Path, root: Path, p: Path, i: int, j: int, q: Path)
    requires p in Load(fs, root, Marks({}, []), 0).1.visited && p !in Visit(fs, root, {}, 0).cut && NamedAt(fs, p, i, j, q)
    ensures q in Load(fs, root, Marks({}, []), 0).1.visited && q in WatchList(fs, path, Some(root))
  {
    IncludesIff(fs, p, q);
    MarksAreVisit(fs, root, Marks({}, []), 0);
    VisitFacts(fs, root, {}, 0);
    VisitExpands(fs, root, {}, 0);
    WatchListIsReadLog(fs, path, root);
  }

  /** No file that root names has an include of its own. */
  ghost predicate Flat(fs: FileSystem, root: Path) {
    forall i, j, q, i', j', r :: NamedAt(fs, root, i, j, q) && q != root ==> !NamedAt(fs, q, i', j', r)
  }

  lemma FlatChildren(fs: FileSystem, root: Path, q: Path)
    requires Flat(fs, root) && q in Children(fs, root) && q != root
    ensures Children(fs, q) == []
  {
    IncludesIff(fs, root, q);
    NoneNamed(fs, q);
  }

  lemma NoneNamed(fs: FileSystem, q: Path)
    ensures Children(fs, q) == [] <==> forall i, j, r :: !NamedAt(fs, q, i, j, r)
  {
    if Children(fs, q) != [] {
      var r := Children(fs, q)[0];
      IncludesIff(fs, q, r);
    } else {
      forall i, j, r ensures !NamedAt(fs, q, i, j, r) {
        IncludesIff(fs, q, r);
      }
    }
  }

  /** The elements of ps at their first occurrence, without those in visited. */
  function FirstSeen(ps: seq<Path>, visited: set<Path>): seq<Path>
    decreases |ps|
  {
    if ps == [] then []
    else if ps[0] in visited then FirstSeen(ps[1..], visited)
    else [ps[0]] + FirstSeen(ps[1..], visited + {ps[0]})
  }

  function ParsedOf(fs: FileSystem, ps: seq<Path>): seq<Path> {
    if ps == [] then [] else (if fs.read(ps[0]).Parsed? then [ps[0]] else []) + ParsedOf(fs, ps[1..])
  }

  lemma {:induction false} FlatWalk(fs: FileSystem, ps: seq<Path>, visited: set<Path>, depth: nat)
    requires depth <= MAX_IMPORT_DEPTH && forall q :: q in ps && q !in visited ==> Children(fs, q) == []
    ensures var w := VisitAll(fs, ps, visited, depth);
            w.pre == FirstSeen(ps, visited) && w.post == ParsedOf(fs, FirstSeen(ps, visited))
    decreases |ps|
  {
    if ps != [] {
      var a := Visit(fs, ps[0], visited, depth);
      if ps[0] in visited {
        FlatWalk(fs, ps[1..], visited, depth);
        Unit(FirstSeen(ps[1..], visited));
        Unit(ParsedOf(fs, FirstSeen(ps[1..], visited)));
      } else {
        assert a == Walk(visited + {ps[0]}, [ps[0]], [] + (if fs.read(ps[0]).Parsed? then [ps[0]] else []), a.cut) by {
          assert VisitAll(fs, [], visited + {ps[0]}, depth + 1) == Walk(visited + {ps[0]}, [], [], {});
        }
        FlatWalk(fs, ps[1..], visited + {ps[0]}, depth);
        assert FirstSeen(ps, visited)[1..] == FirstSeen(ps[1..], visited + {ps[0]});
      }
    }
  }

  /** Each element of FirstSeen comes from ps, and an earlier one occurs in ps before every occurrence of a later one. */
  lemma {:induction false} FirstSeenOrder(ps: seq<Path>, visited: set<Path>, a: nat, b: nat, l: nat)
    requires a < b < |FirstSeen(ps, visited)| && l < |ps| && ps[l] == FirstSeen(ps, visited)[b]
    ensures exists k :: 0 <= k < l && ps[k] == FirstSeen(ps, visited)[a]
    decreases |ps|
  {
    var f := FirstSeen(ps, visited);
    if ps[0] in visited {
      SeenAreNew(ps, visited);
      assert l > 0 by { assert f[b] !in visited; }
      FirstSeenOrder(ps[1..], visited, a, b, l - 1);
      var k :| 0 <= k < l - 1 && ps[1..][k] == f[a];
      assert ps[k + 1] == f[a];
    } else {
      var rest := FirstSeen(ps[1..], visited + {ps[0]});
      SeenAreNew(ps[1..], visited + {ps[0]});
      assert f[b] == rest[b - 1] && rest[b - 1] !in visited + {ps[0]};
      if a > 0 {
        FirstSeenOrder(ps[1..], visited + {ps[0]}, a - 1, b - 1, l - 1);
        var k :| 0 <= k < l - 1 && ps[1..][k] == rest[a - 1];
        assert ps[k + 1] == f[a];
      }
    }
  }

  lemma {:induction false} SeenAreNew(ps: seq<Path>, visited: set<Path>)
    ensures forall q :: q in FirstSeen(ps, visited) <==> q in ps && q !in visited
    decreases |ps|
  {
    if ps != [] {
      SeenAreNew(ps[1..], visited);
      SeenAreNew(ps[1..], visited + {ps[0]});
      assert ps == [ps[0]] + ps[1..];
    }
  }

  /** The place (i, j) is the first at which p names q. */
  ghost predicate FirstNamed(fs: FileSystem, p: Path, i: int, j: int, q: Path) {
    NamedAt(fs, p, i, j, q) && forall i', j' :: Before(i', j', i, j) ==> !NamedAt(fs, p, i', j', q)
  }

  lemma SeenInOrder(fs: FileSystem, p: Path, visited: set<Path>, a: nat, b: nat, i: int, j: int, i': int, j': int)
    requires var f := FirstSeen(Children(fs, p), visited);
             a < b < |f| && FirstNamed(fs, p, i, j, f[a]) && FirstNamed(fs, p, i', j', f[b])
    ensures Before(i, j, i', j')
  {
    var ps := Children(fs, p);
    var f := FirstSeen(ps, visited);
    var at := IncludesInOrder(fs, p);
    var l :| 0 <= l < |at| && at[l] == (i', j');
    assert NamedAt(fs, p, i', j', ps[l]);
    FirstSeenOrder(ps, visited, a, b, l);
    var k :| 0 <= k < l && ps[k] == f[a];
    assert NamedAt(fs, p, at[k].0, at[k].1, f[a]);
  }

  lemma FlatVisit(fs: FileSystem, root: Path)
    requires Flat(fs, root)
    ensures var w, f := Visit(fs, root, {}, 0), FirstSeen(Children(fs, root), {root});
            w.pre == [root] + f && w.post == ParsedOf(fs, f) + (if fs.read(root).Parsed? then [root] else [])
  {
    forall q | q in Children(fs, root) && q != root ensures Children(fs, q) == [] {
      FlatChildren(fs, root, q);
    }
    FlatWalk(fs, Children(fs, root), {root}, 1);
    assert {} + {root} == {root};
  }

  /** Without nested includes, the watch list is the root followed by the files it names, each once, in the order in
      which it names them first. */
  lemma FlatWatchList(fs: FileSystem, path: Path, root: Path)
    requires Flat(fs, root)
    ensures var ws := WatchList(fs, path, Some(root));
            && ws != [] && ws[0] == root && NoDup(ws)
            && (forall q :: q in ws <==> q == root || exists i, j :: NamedAt(fs, root, i, j, q))
            && (forall a, b, i, j, i', j' :: 1 <= a < b < |ws| && FirstNamed(fs, root, i, j, ws[a]) && FirstNamed(fs, root, i', j', ws[b])
                                             ==> Before(i, j, i', j'))
  {
    var f := FirstSeen(Children(fs, root), {root});
    FlatVisit(fs, root);
    WatchIsVisit(fs, path, root);
    WatchListIsReadLog(fs, path, root);
    SeenAreNew(Children(fs, root), {root});
    forall q ensures q in Children(fs, root) <==> exists i, j :: NamedAt(fs, root, i, j, q) {
      IncludesIff(fs, root, q);
    }
    forall a, b, i, j, i', j' | 0 <= a < b < |f| && FirstNamed(fs, root, i, j, f[a]) && FirstNamed(fs, root, i', j', f[b])
      ensures Before(i, j, i', j')
    {
      SeenInOrder(fs, root, {root}, a, b, i, j, i', j');
    }
  }

  lemma {:induction false} LastOfParsed(fs: FileSystem, f: seq<Path>, k: nat, s: Setting)
    requires k < |f| && fs.read(f[k]).Parsed? && Read(fs.read(f[k]).cfg, s).Some?
    requires forall l :: k < l < |f| && fs.read(f[l]).Parsed? ==> Read(fs.read(f[l]).cfg, s).None?
    ensures LastWriter(ConfigsOf(fs, ParsedOf(fs, f)), s) == Read(fs.read(f[k]).cfg, s)
    decreases |f|
  {
    var m := |f| - 1;
    ParsedSnoc(fs, f[..m], f[m]);
    assert f[..m] + [f[m]] == f;
    var cs := ConfigsOf(fs, ParsedOf(fs, f));
    if fs.read(f[m]).Parsed? {
      assert cs[..|cs| - 1] == ConfigsOf(fs, ParsedOf(fs, f[..m])) && cs[|cs| - 1] == fs.read(f[m]).cfg;
    } else {
      Unit(ParsedOf(fs, f[..m]));
    }
    if k < m {
      LastOfParsed(fs, f[..m], k, s);
    }
  }

  lemma {:induction false} ParsedSnoc(fs: FileSystem, f: seq<Path>, q: Path)
    ensures ParsedOf(fs, f + [q]) == ParsedOf(fs, f) + (if fs.read(q).Parsed? then [q] else [])
  {
    if f == [] {
      assert [] + [q] == [q] && [q][1..] == [];
    } else {
      assert (f + [q])[0] == f[0] && (f + [q])[1..] == f[1..] + [q];
      ParsedSnoc(fs, f[1..], q);
    }
  }

  /** Without nested includes, a setting that the root leaves open comes from the file that sets it and is named last,
      each file counting where it is named first. */
  lemma FlatSetting(fs: FileSystem, root: Path, s: Setting, q: Path, i: int, j: int)
    requires Flat(fs, root) && fs.read(root).Parsed? && Read(fs.read(root).cfg, s).None?
    requires q != root && FirstNamed(fs, root, i, j, q) && fs.read(q).Parsed? && Read(fs.read(q).cfg, s).Some?
    requires forall r, i', j' :: FirstNamed(fs, root, i', j', r) && r != root && Before(i, j, i', j') && fs.read(r).Parsed? ==>
                                   Read(fs.read(r).cfg, s).None?
    ensures Load(fs, root, Marks({}, []), 0).0.Ok?
    ensures Read(Load(fs, root, Marks({}, []), 0).0.value, s) == Read(fs.read(q).cfg, s)
  {
    var f := FirstSeen(Children(fs, root), {root});
    var k := LaterDoNotSet(fs, root, s, q, i, j);
    LastOfParsed(fs, f, k, s);
    FlatVisit(fs, root);
    RootLeavesOpen(fs, ParsedOf(fs, f), root, s);
    LoadConfigIsPostOrderFold(fs, root);
    LoadedSettingIsLastWriter(fs, root, s);
  }

  lemma RootLeavesOpen(fs: FileSystem, post: seq<Path>, root: Path, s: Setting)
    requires fs.read(root).Parsed? && Read(fs.read(root).cfg, s).None?
    ensures LastWriter(ConfigsOf(fs, post + [root]), s) == LastWriter(ConfigsOf(fs, post), s)
  {
    var cs := ConfigsOf(fs, post + [root]);
    assert cs[..|cs| - 1] == ConfigsOf(fs, post) && cs[|cs| - 1] == fs.read(root).cfg;
  }

  lemma LaterDoNotSet(fs: FileSystem, root: Path, s: Setting, q: Path, i: int, j: int) returns (k: nat)
    requires q != root && FirstNamed(fs, root, i, j, q)
    requires forall r, i', j' :: FirstNamed(fs, root, i', j', r) && r != root && Before(i, j, i', j') && fs.read(r).Parsed? ==>
                                   Read(fs.read(r).cfg, s).None?
    ensures var f := FirstSeen(Children(fs, root), {root});
            k < |f| && f[k] == q && forall l :: k < l < |f| && fs.read(f[l]).Parsed? ==> Read(fs.read(f[l]).cfg, s).None?
  {
    var f := FirstSeen(Children(fs, root), {root});
    SeenAreNew(Children(fs, root), {root});
    IncludesIff(fs, root, q);
    k :| 0 <= k < |f| && f[k] == q;
    forall l | k < l < |f| && fs.read(f[l]).Parsed? ensures Read(fs.read(f[l]).cfg, s).None? {
      assert f[l] in f;
      var i', j' := FirstPlace(fs, root, f[l]);
      SeenInOrder(fs, root, {root}, k, l, i, j, i', j');
    }
  }

  lemma FirstPlace(fs: FileSystem, p: Path, q: Path) returns (i: int, j: int)
    requires q in Children(fs, p)
    ensures FirstNamed(fs, p, i, j, q)
  {
    var ps := Children(fs, p);
    var at := IncludesInOrder(fs, p);
    var k := FirstIndex(ps, q);
    i, j := at[k].0, at[k].1;
    forall l | 0 <= l < |at| && ps[l] == q ensures !Before(at[l].0, at[l].1, i, j) {
      assert l > k ==> Before(i, j, at[l].0, at[l].1);
    }
    forall i', j' | NamedAt(fs, p, i', j', q) ensures !Before(i', j', i, j) {
      var l :| 0 <= l < |at| && at[l] == (i', j');
      assert NamedAt(fs, p, i', j', ps[l]);
    }
  }

  lemma {:induction false} FirstIndex(ps: seq<Path>, q: Path) returns (k: nat)
    requires q in ps
    ensures k < |ps| && ps[k] == q && forall l :: 0 <= l < k ==> ps[l] != q
    decreases |ps|
  {
    if ps[0] == q {
      k := 0;
    } else {
      var m := FirstIndex(ps[1..], q);
      k := m + 1;
      assert forall l :: 0 < l < k ==> ps[l] == ps[1..][l - 1];
    }
  }
}
