/** What the include loader guarantees on every include graph: cycles, diamonds,
    unreadable and unparsable files, and the depth cut-off included. */
module LoaderTheorems {
  import opened Prelude
  import opened TomlConfig
  import opened ConfigLoader

  // ---------------------------------------------------------------------
  // The walk
  // ---------------------------------------------------------------------

  ghost predicate WalkFacts(fs: FileSystem, visited: set<Path>, w: Walk) {
    && w.visited == visited + SetOf(w.pre)
    && SetOf(w.pre) !! visited
    && NoDup(w.pre) && NoDup(w.post)
    && (forall q :: q in w.post <==> q in w.pre && fs.read(q).Parsed?)
    && w.cut <= SetOf(w.pre)
  }

  lemma {:induction false} VisitFacts(fs: FileSystem, p: Path, visited: set<Path>, depth: nat)
    ensures WalkFacts(fs, visited, Visit(fs, p, visited, depth))
    ensures depth <= MAX_IMPORT_DEPTH ==> p in Visit(fs, p, visited, depth).visited
    decreases Budget(depth), 0
  {
    if depth <= MAX_IMPORT_DEPTH && p !in visited {
      var w := VisitAll(fs, Children(fs, p), visited + {p}, depth + 1);
      VisitAllFacts(fs, Children(fs, p), visited + {p}, depth + 1);
      assert p !in w.pre by { assert p !in SetOf(w.pre); }
      NoDupConcat([p], w.pre);
      NoDupConcat(w.post, if fs.read(p).Parsed? then [p] else []);
      SetOfConcat([p], w.pre);
    }
  }

  lemma {:induction false} VisitAllFacts(fs: FileSystem, ps: seq<Path>, visited: set<Path>, depth: nat)
    ensures WalkFacts(fs, visited, VisitAll(fs, ps, visited, depth))
    decreases Budget(depth), 1 + |ps|
  {
    if ps != [] {
      var a := Visit(fs, ps[0], visited, depth);
      var b := VisitAll(fs, ps[1..], a.visited, depth);
      VisitFacts(fs, ps[0], visited, depth);
      VisitAllFacts(fs, ps[1..], a.visited, depth);
      WalkFactsSequence(fs, visited, a, b);
    }
  }

  lemma WalkFactsSequence(fs: FileSystem, visited: set<Path>, a: Walk, b: Walk)
    requires WalkFacts(fs, visited, a) && WalkFacts(fs, a.visited, b)
    ensures WalkFacts(fs, visited, Walk(b.visited, a.pre + b.pre, a.post + b.post, a.cut + b.cut))
  {
    SetOfConcat(a.pre, b.pre);
    NoDupConcat(a.pre, b.pre);
    assert SetOf(a.post) <= SetOf(a.pre) && SetOf(b.post) <= SetOf(b.pre);
    NoDupConcat(a.post, b.post);
  }

  // ---------------------------------------------------------------------
  // The watch list
  // ---------------------------------------------------------------------

  lemma {:induction false} VisitAllTooDeep(fs: FileSystem, ps: seq<Path>, visited: set<Path>, depth: nat)
    requires depth > MAX_IMPORT_DEPTH
    ensures VisitAll(fs, ps, visited, depth) == Walk(visited, [], [], {})
    decreases |ps|
  {
    if ps != [] {
      VisitAllTooDeep(fs, ps[1..], visited, depth);
    }
  }

  /** The collector tests the depth before a file's includes, the loader at each include: same walk. */
  lemma {:induction false} CollectIsVisit(fs: FileSystem, p: Path, visited: set<Path>, depth: nat, out: seq<Path>)
    ensures var w := VisitAll(fs, Children(fs, p), visited, depth + 1);
            Collect(fs, p, visited, depth, out) == (w.visited, out + w.pre)
    decreases Budget(depth), 0
  {
    if depth >= MAX_IMPORT_DEPTH {
      VisitAllTooDeep(fs, Children(fs, p), visited, depth + 1);
      assert out + [] == out;
    } else {
      CollectAllIsVisitAll(fs, Children(fs, p), visited, depth, out);
    }
  }

  lemma {:induction false} CollectAllIsVisitAll(fs: FileSystem, ps: seq<Path>, visited: set<Path>, depth: nat, out: seq<Path>)
    requires depth < MAX_IMPORT_DEPTH
    ensures var w := VisitAll(fs, ps, visited, depth + 1);
            CollectAll(fs, ps, visited, depth, out) == (w.visited, out + w.pre)
    decreases MAX_IMPORT_DEPTH - depth, 1 + |ps|
  {
    if ps == [] {
      assert out + [] == out;
    } else if ps[0] in visited {
      CollectAllIsVisitAll(fs, ps[1..], visited, depth, out);
      Unit(VisitAll(fs, ps[1..], visited, depth + 1).pre);
    } else {
      var a := VisitAll(fs, Children(fs, ps[0]), visited + {ps[0]}, depth + 2);
      CollectIsVisit(fs, ps[0], visited + {ps[0]}, depth + 1, out + [ps[0]]);
      CollectAllIsVisitAll(fs, ps[1..], a.visited, depth, out + [ps[0]] + a.pre);
      var b := VisitAll(fs, ps[1..], a.visited, depth + 1);
      assert Visit(fs, ps[0], visited, depth + 1).pre == [ps[0]] + a.pre;
      Assoc(out, [ps[0]], a.pre);
      Assoc(out, [ps[0]] + a.pre, b.pre);
    }
  }

  lemma MarksAreVisit(fs: FileSystem, p: Path, m: Marks, depth: nat)
    requires m.read == []
    ensures Load(fs, p, m, depth).1 == Marks(Visit(fs, p, m.visited, depth).visited, Visit(fs, p, m.visited, depth).pre)
  {
    LoadMarks(fs, p, m, depth);
    assert [] + Visit(fs, p, m.visited, depth).pre == Visit(fs, p, m.visited, depth).pre;
  }

  lemma WatchIsVisit(fs: FileSystem, path: Path, root: Path)
    ensures WatchList(fs, path, Some(root)) == Visit(fs, root, {}, 0).pre
  {
    CollectIsVisit(fs, root, {root}, 0, [root]);
    assert {} + {root} == {root};
  }

  /** The watched files are exactly the files the loader reads, in the order in which it reads
      them, each once; and they are exactly the files the loader marks visited. */
  lemma WatchListIsReadLog(fs: FileSystem, path: Path, root: Path)
    ensures var m := Load(fs, root, Marks({}, []), 0).1;
            var watched := WatchList(fs, path, Some(root));
            watched == m.read && NoDup(watched) && SetOf(watched) == m.visited
  {
    MarksAreVisit(fs, root, Marks({}, []), 0);
    WatchIsVisit(fs, path, root);
    VisitFacts(fs, root, {}, 0);
  }

  // ---------------------------------------------------------------------
  // The tree-shaped merge is a flat fold
  // ---------------------------------------------------------------------

  function ConfigOf(fs: FileSystem, p: Path): Config {
    match fs.read(p)
    case Parsed(cfg) => cfg
    case _ => EMPTY
  }

  function ConfigsOf(fs: FileSystem, ps: seq<Path>): seq<Config> {
    seq(|ps|, i requires 0 <= i < |ps| => ConfigOf(fs, ps[i]))
  }

  /** One left fold of the overlay. */
  function Fold(acc: Config, cs: seq<Config>): Config
    decreases |cs|
  {
    if cs == [] then acc else Fold(MergeConfig(acc, cs[0]), cs[1..])
  }

  lemma {:induction false} FoldConcat(acc: Config, a: seq<Config>, b: seq<Config>)
    ensures Fold(acc, a + b) == Fold(Fold(acc, a), b)
    decreases |a|
  {
    if a == [] {
      assert a + b == b;
    } else {
      assert (a + b)[0] == a[0] && (a + b)[1..] == a[1..] + b;
      FoldConcat(MergeConfig(acc, a[0]), a[1..], b);
    }
  }

  /** Associativity lets a fold start anywhere. */
  lemma {:induction false} FoldFromEmpty(acc: Config, cs: seq<Config>)
    ensures Fold(acc, cs) == MergeConfig(acc, Fold(EMPTY, cs))
    decreases |cs|
  {
    if cs == [] {
      MergeIdentity(acc);
    } else {
      var c, f := cs[0], Fold(EMPTY, cs[1..]);
      FoldFromEmpty(MergeConfig(acc, c), cs[1..]);
      FoldFromEmpty(MergeConfig(EMPTY, c), cs[1..]);
      MergeAssociative(acc, c, f);
      MergeAssociative(EMPTY, c, f);
      MergeIdentity(MergeConfig(c, f));
      MergeIgnoresDropped(acc, MergeConfig(c, f));
    }
  }

  lemma ConfigsOfConcat(fs: FileSystem, a: seq<Path>, b: seq<Path>)
    ensures ConfigsOf(fs, a + b) == ConfigsOf(fs, a) + ConfigsOf(fs, b)
  {
  }

  lemma {:induction false} LoadIsFold(fs: FileSystem, p: Path, m: Marks, depth: nat)
    ensures var r, post := Load(fs, p, m, depth).0, Visit(fs, p, m.visited, depth).post;
            && (r.Ok? ==> Carried(r.value) == Fold(EMPTY, ConfigsOf(fs, post)))
            && (r.Err? ==> post == [])
    decreases Budget(depth), 0
  {
    if depth <= MAX_IMPORT_DEPTH && p !in m.visited && fs.read(p).Parsed? {
      var cfg := fs.read(p).cfg;
      var marked := Marks(m.visited + {p}, m.read + [p]);
      var post := VisitAll(fs, Children(fs, p), marked.visited, depth + 1).post;
      LoadAllIsFold(fs, Children(fs, p), marked, depth + 1, EMPTY);
      FoldWithRoot(fs, post, p);
      if cfg.includes == [] {
        NoIncludes(fs, p, marked.visited, depth + 1);
      }
    }
  }

  lemma NoIncludes(fs: FileSystem, p: Path, visited: set<Path>, depth: nat)
    requires fs.read(p).Parsed? && fs.read(p).cfg.includes == []
    ensures VisitAll(fs, Children(fs, p), visited, depth).post == [] && Fold(EMPTY, ConfigsOf(fs, [])) == EMPTY
    ensures MergeConfig(EMPTY, fs.read(p).cfg) == Carried(fs.read(p).cfg)
  {
    assert Children(fs, p) == [];
    MergeIdentity(fs.read(p).cfg);
  }

  /** The root's own file comes last. */
  lemma FoldWithRoot(fs: FileSystem, post: seq<Path>, p: Path)
    requires fs.read(p).Parsed?
    ensures var f := Fold(EMPTY, ConfigsOf(fs, post));
            && Fold(EMPTY, ConfigsOf(fs, post + [p])) == MergeConfig(f, fs.read(p).cfg) == Carried(MergeConfig(f, fs.read(p).cfg))
  {
    var cfg, f := fs.read(p).cfg, Fold(EMPTY, ConfigsOf(fs, post));
    ConfigsOfConcat(fs, post, [p]);
    assert ConfigsOf(fs, [p]) == [cfg];
    FoldConcat(EMPTY, ConfigsOf(fs, post), [cfg]);
    assert Fold(f, [cfg]) == MergeConfig(f, cfg);
    FoldIsCarried(EMPTY, ConfigsOf(fs, post));
    MergeIgnoresDropped(f, cfg);
  }

  lemma {:induction false} FoldIsCarried(acc: Config, cs: seq<Config>)
    requires Carried(acc) == acc
    ensures Carried(Fold(acc, cs)) == Fold(acc, cs)
    decreases |cs|
  {
    if cs != [] {
      MergeIgnoresDropped(acc, cs[0]);
      FoldIsCarried(MergeConfig(acc, cs[0]), cs[1..]);
    }
  }

  lemma {:induction false} LoadAllIsFold(fs: FileSystem, ps: seq<Path>, m: Marks, depth: nat, acc: Config)
    ensures LoadAll(fs, ps, m, depth, acc).0 == Fold(acc, ConfigsOf(fs, VisitAll(fs, ps, m.visited, depth).post))
    decreases Budget(depth), 1 + |ps|
  {
    if ps != [] {
      var (r, m') := Load(fs, ps[0], m, depth);
      var a := Visit(fs, ps[0], m.visited, depth);
      var b := VisitAll(fs, ps[1..], a.visited, depth);
      var acc' := if r.Ok? then MergeConfig(acc, r.value) else acc;
      LoadIsFold(fs, ps[0], m, depth);
      LoadMarks(fs, ps[0], m, depth);
      LoadAllIsFold(fs, ps[1..], m', depth, acc');
      ConfigsOfConcat(fs, a.post, b.post);
      FoldConcat(acc, ConfigsOf(fs, a.post), ConfigsOf(fs, b.post));
      if r.Ok? {
        MergeIgnoresDropped(acc, r.value);
        FoldFromEmpty(acc, ConfigsOf(fs, a.post));
      }
    }
  }

  /** LoadConfig succeeds exactly when the root parses. Its result is then, on the carried fields,
      one left fold of the overlay over the files that were marked and parsed, each once, in
      post-order, the root last. */
  lemma LoadConfigIsPostOrderFold(fs: FileSystem, root: Path)
    ensures var (r, m) := Load(fs, root, Marks({}, []), 0);
            var post := Visit(fs, root, {}, 0).post;
            && (r.Ok? <==> fs.read(root).Parsed?)
            && NoDup(post)
            && (forall q :: q in post <==> q in m.visited && fs.read(q).Parsed?)
            && (r.Ok? ==> post != [] && post[|post| - 1] == root
                          && Carried(r.value) == Fold(EMPTY, ConfigsOf(fs, post)))
  {
    LoadIsFold(fs, root, Marks({}, []), 0);
    LoadMarks(fs, root, Marks({}, []), 0);
    VisitFacts(fs, root, {}, 0);
    var w := Visit(fs, root, {}, 0);
    assert w.visited == SetOf(w.pre);
  }
}
