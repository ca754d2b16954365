/** The include loader and the watch-list collector, over an arbitrary include graph. */
module ConfigLoader {
  import opened Prelude
  import opened TomlConfig

  const MAX_IMPORT_DEPTH: nat := 10

  type Path = string
  datatype File = Unreadable | Unparsable | Parsed(cfg: Config)
  /** One glob match: its absolute path, or a failure to make it absolute. */
  datatype Match = Absolute(path: Path) | NotAbsolute
  datatype GlobResult = BadPattern | Matches(matches: seq<Match>)

  /** The file system during one run: what reading a file gives, and what globbing
      a pattern relative to the directory of an including file gives. */
  datatype FileSystem = FileSystem(read: Path -> File, glob: (Path, string) -> GlobResult)

  datatype LoadError = DepthExceeded | CircularImport | ReadFailed | ParseFailed
  type LoadResult = Result<Config, LoadError>

  /** How many levels of includes may still be entered. */
  function Budget(depth: nat): nat {
    if depth <= MAX_IMPORT_DEPTH then MAX_IMPORT_DEPTH + 1 - depth else 0
  }

  // ---------------------------------------------------------------------
  // The include graph
  // ---------------------------------------------------------------------

  function AbsoluteMatches(ms: seq<Match>): seq<Path> {
    if ms == [] then [] else (if ms[0].Absolute? then [ms[0].path] else []) + AbsoluteMatches(ms[1..])
  }

  function PatternMatches(fs: FileSystem, p: Path, pattern: string): seq<Path> {
    match fs.glob(p, pattern)
    case BadPattern => []
    case Matches(ms) => AbsoluteMatches(ms)
  }

  function AllMatches(fs: FileSystem, p: Path, patterns: seq<string>): seq<Path> {
    if patterns == [] then [] else PatternMatches(fs, p, patterns[0]) + AllMatches(fs, p, patterns[1..])
  }

  /** The files that p includes, in the order in which both traversals try them. */
  function Children(fs: FileSystem, p: Path): seq<Path> {
    match fs.read(p)
    case Parsed(cfg) => AllMatches(fs, p, cfg.includes)
    case _ => []
  }

  // ---------------------------------------------------------------------
  // The walk: which files a depth-limited depth-first search marks
  // ---------------------------------------------------------------------

  /** visited: every path marked so far. pre: the paths this walk marked, in marking order.
      post: those of them that parsed, in completion order. cut: those marked at the depth limit. */
  datatype Walk = Walk(visited: set<Path>, pre: seq<Path>, post: seq<Path>, cut: set<Path>)

  function Visit(fs: FileSystem, p: Path, visited: set<Path>, depth: nat): Walk
    decreases Budget(depth), 0
  {
    if depth > MAX_IMPORT_DEPTH || p in visited then Walk(visited, [], [], {})
    else
      var w := VisitAll(fs, Children(fs, p), visited + {p}, depth + 1);
      Walk(w.visited, [p] + w.pre, w.post + (if fs.read(p).Parsed? then [p] else []),
           w.cut + (if depth == MAX_IMPORT_DEPTH then {p} else {}))
  }

  function VisitAll(fs: FileSystem, ps: seq<Path>, visited: set<Path>, depth: nat): Walk
    decreases Budget(depth), 1 + |ps|
  {
    if ps == [] then Walk(visited, [], [], {})
    else
      var a := Visit(fs, ps[0], visited, depth);
      var b := VisitAll(fs, ps[1..], a.visited, depth);
      Walk(b.visited, a.pre + b.pre, a.post + b.post, a.cut + b.cut)
  }

  // ---------------------------------------------------------------------
  // Loading as a function
  // ---------------------------------------------------------------------

  /** The marked paths, and every path handed to the file reader so far. */
  datatype Marks = Marks(visited: set<Path>, read: seq<Path>)

  /** loadRecursive: the configuration or the error, and the marks afterwards. */
  function Load(fs: FileSystem, p: Path, m: Marks, depth: nat): (LoadResult, Marks)
    decreases Budget(depth), 0
  {
    if depth > MAX_IMPORT_DEPTH then (Err(DepthExceeded), m)
    else if p in m.visited then (Err(CircularImport), m)
    else
      var marked := Marks(m.visited + {p}, m.read + [p]);
      match fs.read(p)
      case Unreadable => (Err(ReadFailed), marked)
      case Unparsable => (Err(ParseFailed), marked)
      case Parsed(cfg) =>
        if cfg.includes == [] then (Ok(cfg), marked)
        else
          var (merged, m') := LoadAll(fs, Children(fs, p), marked, depth + 1, EMPTY);
          (Ok(MergeConfig(merged, cfg)), m')
  }

  function LoadAll(fs: FileSystem, ps: seq<Path>, m: Marks, depth: nat, acc: Config): (Config, Marks)
    decreases Budget(depth), 1 + |ps|
  {
    if ps == [] then (acc, m)
    else
      var (r, m') := Load(fs, ps[0], m, depth);
      LoadAll(fs, ps[1..], m', depth, if r.Ok? then MergeConfig(acc, r.value) else acc)
  }

  // ---------------------------------------------------------------------
  // Collecting the watch list as a function
  // ---------------------------------------------------------------------

  /** collectIncludePaths over the includes of one file: the marked paths and the appended output.
      Unlike Load it tests the depth once per file, before looking at any include. */
  function Collect(fs: FileSystem, p: Path, visited: set<Path>, depth: nat, out: seq<Path>): (set<Path>, seq<Path>)
    decreases Budget(depth), 0
  {
    if depth >= MAX_IMPORT_DEPTH then (visited, out) else CollectAll(fs, Children(fs, p), visited, depth, out)
  }

  function CollectAll(fs: FileSystem, ps: seq<Path>, visited: set<Path>, depth: nat, out: seq<Path>): (set<Path>, seq<Path>)
    requires depth < MAX_IMPORT_DEPTH
    decreases MAX_IMPORT_DEPTH - depth, 1 + |ps|
  {
    if ps == [] then (visited, out)
    else if ps[0] in visited then CollectAll(fs, ps[1..], visited, depth, out)
    else
      var (v, o) := Collect(fs, ps[0], visited + {ps[0]}, depth + 1, out + [ps[0]]);
      CollectAll(fs, ps[1..], v, depth, o)
  }

  /** ResolveIncludePaths on the path as given and its resolution, if it has one. */
  function WatchList(fs: FileSystem, path: Path, resolved: Option<Path>): seq<Path> {
    match resolved
    case None => [path]
    case Some(root) => Collect(fs, root, {root}, 0, [root]).1
  }

  // ---------------------------------------------------------------------
  // The two traversals as the source runs them
  // ---------------------------------------------------------------------

  class Loader {
    const fs: FileSystem
    var visited: set<Path>
    /** Every path handed to the file reader, in order. */
    ghost var readLog: seq<Path>

    constructor (fs: FileSystem)
      ensures this.fs == fs && State() == Marks({}, [])
    {
      this.fs := fs;
      visited := {};
      readLog := [];
    }

    ghost function State(): Marks
      reads this
    {
      Marks(visited, readLog)
    }

    method LoadRecursive(p: Path, depth: nat) returns (r: LoadResult)
      modifies this
      ensures (r, State()) == Load(fs, p, old(State()), depth)
      decreases Budget(depth), 0
    {
      if depth > MAX_IMPORT_DEPTH {
        return Err(DepthExceeded);
      }
      if p in visited {
        return Err(CircularImport);
      }
      visited := visited + {p};
      readLog := readLog + [p];
      var file := fs.read(p);
      if file.Unreadable? {
        return Err(ReadFailed);
      }
      if file.Unparsable? {
        return Err(ParseFailed);
      }
      var cfg := file.cfg;
      if |cfg.includes| == 0 {
        return Ok(cfg);
      }

      var merged := new ConfigCell();
      LoadIncludes(p, cfg.includes, depth + 1, merged);
      merged.Merge(cfg.(includes := []));
      r := Ok(merged.Value());
    }

    /** The outer loop: one glob per include pattern; a bad pattern is skipped. */
    method LoadIncludes(p: Path, patterns: seq<string>, depth: nat, merged: ConfigCell)
      modifies this, merged
      ensures (merged.Value(), State()) == LoadAll(fs, AllMatches(fs, p, patterns), old(State()), depth, old(merged.Value()))
      decreases Budget(depth), 2
    {
      ghost var target := LoadAll(fs, AllMatches(fs, p, patterns), State(), depth, merged.Value());
      for i := 0 to |patterns|
        invariant target == LoadAll(fs, AllMatches(fs, p, patterns[i..]), State(), depth, merged.Value())
      {
        NextPattern(fs, p, patterns, i, State(), depth, merged.Value());
        match fs.glob(p, patterns[i]) {
          case BadPattern =>
          case Matches(ms) =>
            LoadMatches(ms, depth, merged);
        }
      }
    }

    /** The inner loop: one recursive load per match; a match that cannot be made absolute
        or whose load fails is skipped. */
    method LoadMatches(ms: seq<Match>, depth: nat, merged: ConfigCell)
      modifies this, merged
      ensures (merged.Value(), State()) == LoadAll(fs, AbsoluteMatches(ms), old(State()), depth, old(merged.Value()))
      decreases Budget(depth), 1
    {
      ghost var target := LoadAll(fs, AbsoluteMatches(ms), State(), depth, merged.Value());
      for j := 0 to |ms|
        invariant target == LoadAll(fs, AbsoluteMatches(ms[j..]), State(), depth, merged.Value())
      {
        NextMatch(ms, j);
        if ms[j].NotAbsolute? {
          continue;
        }
        var sub := LoadRecursive(ms[j].path, depth);
        if sub.Ok? {
          merged.Merge(sub.value);
        }
      }
    }
  }

  /** The watcher's own traversal, written separately from the loader's. */
  class Collector {
    const fs: FileSystem
    var visited: set<Path>
    var out: seq<Path>

    constructor (fs: FileSystem, root: Path)
      ensures this.fs == fs && visited == {root} && out == [root]
    {
      this.fs := fs;
      visited := {root};
      out := [root];
    }

    method CollectIncludePaths(p: Path, patterns: seq<string>, depth: nat)
      requires fs.read(p).Parsed? && patterns == fs.read(p).cfg.includes
      modifies this
      ensures (visited, out) == Collect(fs, p, old(visited), depth, old(out))
      decreases Budget(depth), 2
    {
      if depth >= MAX_IMPORT_DEPTH {
        return;
      }
      ghost var target := CollectAll(fs, Children(fs, p), visited, depth, out);
      for i := 0 to |patterns|
        invariant target == CollectAll(fs, AllMatches(fs, p, patterns[i..]), visited, depth, out)
      {
        CollectNextPattern(fs, p, patterns, i, visited, depth, out);
        match fs.glob(p, patterns[i]) {
          case BadPattern =>
          case Matches(ms) =>
            CollectMatches(ms, depth);
        }
      }
    }

    method CollectMatches(ms: seq<Match>, depth: nat)
      requires depth < MAX_IMPORT_DEPTH
      modifies this
      ensures (visited, out) == CollectAll(fs, AbsoluteMatches(ms), old(visited), depth, old(out))
      decreases Budget(depth), 1
    {
      ghost var target := CollectAll(fs, AbsoluteMatches(ms), visited, depth, out);
      for j := 0 to |ms|
        invariant target == CollectAll(fs, AbsoluteMatches(ms[j..]), visited, depth, out)
      {
        NextMatch(ms, j);
        if ms[j].NotAbsolute? {
          continue;
        }
        var abs := ms[j].path;
        if abs in visited {
          continue;
        }
        visited := visited + {abs};
        out := out + [abs];
        var file := fs.read(abs);
        if !file.Parsed? {
          assert Collect(fs, abs, visited, depth + 1, out) == (visited, out);
          continue;
        }
        CollectIncludePaths(abs, file.cfg.includes, depth + 1);
      }
    }
  }

  method ResolveIncludePaths(fs: FileSystem, path: Path, resolved: Option<Path>) returns (paths: seq<Path>)
    ensures paths == WatchList(fs, path, resolved)
    ensures resolved.None? ==> paths == [path]
    ensures resolved.Some? && !fs.read(resolved.value).Parsed? ==> paths == [resolved.value]
  {
    if resolved.None? {
      return [path];
    }
    var root := resolved.value;
    var file := fs.read(root);
    if !file.Parsed? {
      return [root];
    }
    var c := new Collector(fs, root);
    c.CollectIncludePaths(root, file.cfg.includes, 0);
    paths := c.out;
  }

  lemma CollectNextPattern(fs: FileSystem, p: Path, patterns: seq<string>, i: nat, visited: set<Path>, depth: nat, out: seq<Path>)
    requires i < |patterns| && depth < MAX_IMPORT_DEPTH
    ensures var (v, o) := CollectAll(fs, PatternMatches(fs, p, patterns[i]), visited, depth, out);
            CollectAll(fs, AllMatches(fs, p, patterns[i..]), visited, depth, out)
            == CollectAll(fs, AllMatches(fs, p, patterns[i + 1..]), v, depth, o)
  {
    assert patterns[i..][0] == patterns[i] && patterns[i..][1..] == patterns[i + 1..];
    CollectAllConcat(fs, PatternMatches(fs, p, patterns[i]), AllMatches(fs, p, patterns[i + 1..]), visited, depth, out);
  }

  lemma {:induction false} CollectAllConcat(fs: FileSystem, a: seq<Path>, b: seq<Path>, visited: set<Path>, depth: nat, out: seq<Path>)
    requires depth < MAX_IMPORT_DEPTH
    ensures var (v, o) := CollectAll(fs, a, visited, depth, out);
            CollectAll(fs, a + b, visited, depth, out) == CollectAll(fs, b, v, depth, o)
    decreases |a|
  {
    if a == [] {
      assert a + b == b;
    } else {
      assert (a + b)[0] == a[0] && (a + b)[1..] == a[1..] + b;
      if a[0] in visited {
        CollectAllConcat(fs, a[1..], b, visited, depth, out);
      } else {
        var (v, o) := Collect(fs, a[0], visited + {a[0]}, depth + 1, out + [a[0]]);
        CollectAllConcat(fs, a[1..], b, v, depth, o);
      }
    }
  }

  lemma NextMatch(ms: seq<Match>, j: nat)
    requires j < |ms|
    ensures ms[j].NotAbsolute? ==> AbsoluteMatches(ms[j..]) == AbsoluteMatches(ms[j + 1..])
    ensures ms[j].Absolute? ==> AbsoluteMatches(ms[j..]) == [ms[j].path] + AbsoluteMatches(ms[j + 1..])
  {
    assert ms[j..][1..] == ms[j + 1..];
  }

  /** Loading the matches of patterns[i..] is loading those of patterns[i], then those of the rest. */
  lemma NextPattern(fs: FileSystem, p: Path, patterns: seq<string>, i: nat, m: Marks, depth: nat, acc: Config)
    requires i < |patterns|
    ensures var (c, m') := LoadAll(fs, PatternMatches(fs, p, patterns[i]), m, depth, acc);
            LoadAll(fs, AllMatches(fs, p, patterns[i..]), m, depth, acc)
            == LoadAll(fs, AllMatches(fs, p, patterns[i + 1..]), m', depth, c)
  {
    assert patterns[i..][0] == patterns[i] && patterns[i..][1..] == patterns[i + 1..];
    LoadAllConcat(fs, PatternMatches(fs, p, patterns[i]), AllMatches(fs, p, patterns[i + 1..]), m, depth, acc);
  }

  lemma {:induction false} LoadAllConcat(fs: FileSystem, a: seq<Path>, b: seq<Path>, m: Marks, depth: nat, acc: Config)
    ensures var (c, m') := LoadAll(fs, a, m, depth, acc);
            LoadAll(fs, a + b, m, depth, acc) == LoadAll(fs, b, m', depth, c)
    decreases |a|
  {
    if a == [] {
      assert a + b == b;
    } else {
      var (r, m') := Load(fs, a[0], m, depth);
      assert (a + b)[0] == a[0] && (a + b)[1..] == a[1..] + b;
      LoadAllConcat(fs, a[1..], b, m', depth, if r.Ok? then MergeConfig(acc, r.value) else acc);
    }
  }

  // ---------------------------------------------------------------------
  // What loading marks and reads
  // ---------------------------------------------------------------------

  /** The loader marks what the walk marks, and reads each path it marks at the moment it marks it. */
  lemma {:induction false} LoadMarks(fs: FileSystem, p: Path, m: Marks, depth: nat)
    ensures var w := Visit(fs, p, m.visited, depth);
            Load(fs, p, m, depth).1 == Marks(w.visited, m.read + w.pre)
    decreases Budget(depth), 0
  {
    if depth <= MAX_IMPORT_DEPTH && p !in m.visited {
      var marked := Marks(m.visited + {p}, m.read + [p]);
      LoadAllMarks(fs, Children(fs, p), marked, depth + 1, EMPTY);
      var w := VisitAll(fs, Children(fs, p), marked.visited, depth + 1);
      assert m.read + ([p] + w.pre) == m.read + [p] + w.pre;
      assert !fs.read(p).Parsed? || fs.read(p).cfg.includes == [] ==> Children(fs, p) == [];
      assert m.read + [p] + [] == m.read + [p];
    } else {
      assert m.read + [] == m.read;
    }
  }

  lemma {:induction false} LoadAllMarks(fs: FileSystem, ps: seq<Path>, m: Marks, depth: nat, acc: Config)
    ensures var w := VisitAll(fs, ps, m.visited, depth);
            LoadAll(fs, ps, m, depth, acc).1 == Marks(w.visited, m.read + w.pre)
    decreases Budget(depth), 1 + |ps|
  {
    if ps == [] {
      Unit(m.read);
    } else {
      var (r, m') := Load(fs, ps[0], m, depth);
      LoadMarks(fs, ps[0], m, depth);
      LoadAllMarks(fs, ps[1..], m', depth, if r.Ok? then MergeConfig(acc, r.value) else acc);
      var a := Visit(fs, ps[0], m.visited, depth);
      var b := VisitAll(fs, ps[1..], a.visited, depth);
      Assoc(m.read, a.pre, b.pre);
    }
  }
}
