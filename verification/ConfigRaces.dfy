/** The requests of the server on niri when several run at once. One action is one step of one goroutine: changing
    the cache, writing and loading the file, reading the cache for the key monitor, setting the monitor's binds. */
module ConfigRaces {
  import opened Prelude
  import opened IpcConfig
  import opened AppearanceKeys
  import opened NiriBinds
  import opened ConfigSync
  import Cache = ConfigCache
  import Batch = KeybindBatch

  /** A request in flight; identifiers are not used again. */
  type OpId = nat

  datatype Request =
    | FullApply(payload: ConfigUniversal, path: Path)
    | Settings(req: Cache.Request)
    | KeybindBatch(batch: BatchKeybinds)
    | Bind(mods: seq<string>, key: string, command: string)
    | Unbind(mods: seq<string>, key: string)

  /** The request as one operation that ends in the given way. */
  function AsOp(r: Request, outcome: FileOutcome): Op {
    match r
    case FullApply(p, path) => Apply(p, path, outcome)
    case Settings(req) => SetKeys(req, outcome)
    case KeybindBatch(b) => Keybinds(b, outcome)
    case Bind(mods, key, command) => BindKey(mods, key, command)
    case Unbind(mods, key) => UnbindKey(mods, key)
  }

  /** Where a request stands. source is the request that brought the keybinds it carries: a settings update writes
      those it found. */
  datatype Stage =
    | Writing(payload: ConfigUniversal, path: Path, cached: bool, source: OpId)   // about to write and load the file
    | Caching(payload: ConfigUniversal)                                           // a full apply, loaded, about to cache
    | Reading                                                                     // about to read the cache for the monitor
    | Setting(commands: Commands, source: OpId)                                   // about to set what it read

  /** The server with its requests in flight, and the history that the theorems speak of: the keybinds that each full
      apply and batch writes, those that each request left in the cache when it changed them, the last request to
      change what the cache has for the file (author) and for the monitor (changer), and the requests whose keybinds
      are in each file (writer) and in the monitor (setter). */
  datatype World = World(server: State, ops: map<OpId, Stage>, used: set<OpId>, written: map<OpId, ConfigKeybinds>,
                         cached: map<OpId, ConfigKeybinds>, author: Option<OpId>, changer: Option<OpId>,
                         writer: map<Path, OpId>, setter: Option<OpId>)

  const START := World(State(None, map[], map[]), map[], {}, map[], map[], None, None, map[], None)

  datatype Action =
    | Start(op: OpId, request: Request)   // a partial update changes the cache at once, a full apply does not
    | Write(op: OpId, outcome: FileOutcome)
    | CacheIt(op: OpId)
    | Read(op: OpId, commands: Commands)  // any registration of the cached keybinds may come out
    | Set(op: OpId)

  /** A settings update leaves the keybinds, but for the dynamic ones lost in the copy. */
  function SettingsWorld(w: World, op: OpId, next: ConfigUniversal): World {
    w.(used := w.used + {op}, server := w.server.(last := Some(next)),
       ops := w.ops[op := Writing(next, REQUEST_PATH, true, w.author.GetOr(op))])
  }

  function RuntimeWorld(w: World, op: OpId, next: ConfigUniversal): World {
    w.(used := w.used + {op}, server := w.server.(last := Some(next)), cached := w.cached[op := next.keybinds], changer := Some(op),
       ops := w.ops[op := Reading])
  }

  function BatchWorld(w: World, op: OpId, next: ConfigUniversal): World {
    RuntimeWorld(w, op, next).(written := w.written[op := next.keybinds], author := Some(op),
                               ops := w.ops[op := Writing(next, REQUEST_PATH, true, op)])
  }

  function ApplyWorld(w: World, op: OpId, p: ConfigUniversal, path: Path): World {
    w.(used := w.used + {op}, written := w.written[op := p.keybinds], ops := w.ops[op := Writing(p, path, false, op)])
  }

  /** A request that is refused changes nothing. */
  predicate Refused(w: World, r: Request, scan: Scanners) { NextLast(w.server.last, AsOp(r, Loaded), scan).None? }

  function StepStart(w: World, op: OpId, r: Request, scan: Scanners): Option<World> {
    if op in w.used then None
    else if Refused(w, r, scan) then Some(w.(used := w.used + {op}))
    else
      var next := NextLast(w.server.last, AsOp(r, Loaded), scan).value;
      match r
      case FullApply(p, path) => Some(ApplyWorld(w, op, p, path))
      case Settings(_) => Some(SettingsWorld(w, op, next))
      case KeybindBatch(_) => Some(BatchWorld(w, op, next))
      case _ => Some(RuntimeWorld(w, op, next))
  }

  function StepWrite(w: World, op: OpId, outcome: FileOutcome): Option<World> {
    if op !in w.ops || !w.ops[op].Writing? then None
    else
      var p := w.ops[op];
      if outcome == NotWritten then Some(w.(ops := w.ops - {op}))
      else
        Some(w.(server := w.server.(files := w.server.files[p.path := p.payload.keybinds]), writer := w.writer[p.path := p.source],
                ops := if outcome == NotReloaded then w.ops - {op}
                       else w.ops[op := if p.cached then Reading else Caching(p.payload)]))
  }

  function StepCache(w: World, op: OpId): Option<World> {
    if op !in w.ops || !w.ops[op].Caching? then None
    else Some(RuntimeWorld(w, op, w.ops[op].payload).(author := Some(op)))
  }

  ghost predicate MayRead(s: State, m: Commands) {
    if s.last.None? then m == map[] else Registers(CloneKeybinds(s.last.value.keybinds), m)
  }

  ghost function StepRead(w: World, op: OpId, m: Commands): Option<World> {
    if op !in w.ops || !w.ops[op].Reading? || !MayRead(w.server, m) then None
    else Some(w.(ops := w.ops[op := Setting(NonEmpty(m), w.changer.GetOr(op))]))
  }

  function StepSet(w: World, op: OpId): Option<World> {
    if op !in w.ops || !w.ops[op].Setting? then None
    else Some(w.(server := w.server.(keymon := w.ops[op].commands), setter := Some(w.ops[op].source), ops := w.ops - {op}))
  }

  /** None when the action is not possible. */
  ghost function Step(w: World, a: Action, scan: Scanners): Option<World> {
    match a
    case Start(op, r) => StepStart(w, op, r, scan)
    case Write(op, o) => StepWrite(w, op, o)
    case CacheIt(op) => StepCache(w, op)
    case Read(op, m) => StepRead(w, op, m)
    case Set(op) => StepSet(w, op)
  }

  // ---------------------------------------------------------------------
  // What always holds
  // ---------------------------------------------------------------------

  /** c is what request s writes, or a copy made after s got into the cache; if s is what the cache still has, the
      cache has lost its dynamic binds as well. */
  ghost predicate Carries(w: World, s: OpId, c: ConfigKeybinds, table: DispatchTable) {
    && s in w.written
    && (c == w.written[s] || (s in w.cached && w.server.last.Some? && SameOutput(w.written[s], c, table)
                              && (w.author == Some(s) ==> DynamicNodes(w.server.last.value.keybinds, table) == map[])))
  }

  ghost predicate RunsCached(w: World, s: OpId, m: Commands) { s in w.cached && Synced(w.cached[s], m) }

  ghost predicate StageOk(w: World, op: OpId, p: Stage, table: DispatchTable) {
    match p
    case Writing(c, _, cached, s) =>
      Carries(w, s, c.keybinds, table) && (if cached then w.server.last.Some? else s == op && op !in w.cached && c.keybinds == w.written[op])
    case Caching(c) => op !in w.cached && op in w.written && w.written[op] == c.keybinds
    case Reading => w.server.last.Some?
    case Setting(m, s) => RunsCached(w, s, m)
  }

  ghost predicate StagesOk(w: World, table: DispatchTable) { forall o :: o in w.ops ==> o in w.used && StageOk(w, o, w.ops[o], table) }

  /** What the cache has for the file is what its author writes, and each file carries what its writer writes. */
  ghost predicate FileHistory(w: World, table: DispatchTable) {
    && (w.server.last.Some? <==> w.author.Some?)
    && (w.author.Some? ==> w.author.value in w.cached && w.author.value in w.written
                           && SameOutput(w.written[w.author.value], w.server.last.value.keybinds, table))
    && w.writer.Keys == w.server.files.Keys
    && (forall p :: p in w.writer ==> Carries(w, w.writer[p], w.server.files[p], table))
  }

  /** What the cache has for the monitor is what its changer left, and the monitor runs a registration of what its
      setter left. */
  ghost predicate MonitorHistory(w: World) {
    && (w.server.last.Some? <==> w.changer.Some?) && (w.changer.None? ==> w.cached == map[])
    && (w.changer.Some? ==> w.changer.value in w.cached
                            && CloneKeybinds(w.cached[w.changer.value]) == CloneKeybinds(w.server.last.value.keybinds))
    && (if w.setter.None? then w.server.keymon == map[] else RunsCached(w, w.setter.value, w.server.keymon))
  }

  ghost predicate WorldInv(w: World, table: DispatchTable) {
    MonitorHistory(w) && FileHistory(w, table) && StagesOk(w, table) && w.written.Keys <= w.used && w.cached.Keys <= w.used
  }

  /** The history only grows, by op, and a request that becomes the author was not in the cache before. */
  ghost predicate Follows(w: World, t: World, op: OpId, table: DispatchTable) {
    && (forall s :: s in w.written ==> s in t.written && t.written[s] == w.written[s])
    && (forall s :: s in w.cached ==> s in t.cached && t.cached[s] == w.cached[s])
    && t.cached.Keys <= w.cached.Keys + {op} && w.used <= t.used
    && (w.server.last.Some? ==> t.server.last.Some?)
    && (t.author == w.author || (t.author.Some? && t.author.value !in w.cached))
    && (t.server.last == w.server.last || t.author != w.author
        || (t.server.last.Some? && DynamicNodes(t.server.last.value.keybinds, table) == map[]))
  }

  lemma CarriesOn(w: World, t: World, op: OpId, s: OpId, c: ConfigKeybinds, table: DispatchTable)
    requires Follows(w, t, op, table) && Carries(w, s, c, table)
    ensures Carries(t, s, c, table)
  {
  }

  /** The other requests stay where they are. */
  ghost predicate OthersStay(w: World, t: World, op: OpId) { forall o :: o in t.ops && o != op ==> o in w.ops && t.ops[o] == w.ops[o] }

  lemma StagesFollow(w: World, t: World, op: OpId, table: DispatchTable)
    requires Follows(w, t, op, table) && StagesOk(w, table) && OthersStay(w, t, op)
    requires op in t.ops ==> op in t.used && StageOk(t, op, t.ops[op], table)
    ensures StagesOk(t, table)
  {
    forall o | o in t.ops ensures o in t.used && StageOk(t, o, t.ops[o], table) {
      if o != op {
        assert StageOk(w, o, w.ops[o], table);
        if w.ops[o].Writing? {
          CarriesOn(w, t, op, w.ops[o].source, w.ops[o].payload.keybinds, table);
        }
      }
    }
  }

  lemma FilesFollow(w: World, t: World, op: OpId, table: DispatchTable)
    requires Follows(w, t, op, table) && FileHistory(w, table) && t.writer == w.writer && t.server.files == w.server.files
    ensures forall p :: p in t.writer ==> Carries(t, t.writer[p], t.server.files[p], table)
  {
    forall p | p in t.writer ensures Carries(t, t.writer[p], t.server.files[p], table) {
      CarriesOn(w, t, op, w.writer[p], w.server.files[p], table);
    }
  }

  lemma NoDynamic(k: ConfigKeybinds, table: DispatchTable)
    requires CloneKeybinds(k) == k
    ensures DynamicNodes(k, table) == map[]
  {
  }

  /** What a partial update leaves in the cache has no dynamic binds. */
  lemma PartialIsCloned(last: Option<ConfigUniversal>, r: Request, scan: Scanners)
    requires !r.FullApply? && NextLast(last, AsOp(r, Loaded), scan).Some?
    ensures var k := NextLast(last, AsOp(r, Loaded), scan).value.keybinds; CloneKeybinds(k) == k
    ensures r.Settings? ==> NextLast(last, AsOp(r, Loaded), scan).value.keybinds == CloneKeybinds(last.value.keybinds)
  {
    match r
    case Settings(_) =>
    case KeybindBatch(b) => CloneOfBatch(last.value, b);
    case Bind(mods, key, command) => CloneOfBatch(last.value, BatchKeybinds([RuntimeBind(mods, key, command)], []));
    case Unbind(mods, key) => CloneOfBatch(last.value, BatchKeybinds([], [KeybindTarget(mods, key)]));
    case _ =>
  }

  /** A runtime bind leaves what the author's file says. */
  lemma RuntimeKeepsOutput(w: World, r: Request, a: ConfigKeybinds, table: DispatchTable, scan: Scanners)
    requires (r.Bind? || r.Unbind?) && !Refused(w, r, scan) && SameOutput(a, w.server.last.value.keybinds, table)
    ensures SameOutput(a, NextLast(w.server.last, AsOp(r, Loaded), scan).value.keybinds, table)
  {
    match r
    case Bind(mods, key, command) =>
      SelfGroupIgnoresArgument(mods, key, command);
      BindKeepsOutput(w.server.last.value, RuntimeBind(mods, key, command), a, table);
    case Unbind(mods, key) => UnbindKeepsOutput(w.server.last.value, mods, key, a, table);
  }

  lemma RuntimeWorldInv(w: World, op: OpId, next: ConfigUniversal, table: DispatchTable)
    requires WorldInv(w, table) && op !in w.used && w.server.last.Some? && CloneKeybinds(next.keybinds) == next.keybinds
    requires SameOutput(w.written[w.author.value], next.keybinds, table)
    ensures WorldInv(RuntimeWorld(w, op, next), table)
  {
    var t := RuntimeWorld(w, op, next);
    NoDynamic(next.keybinds, table);
    StagesFollow(w, t, op, table);
    FilesFollow(w, t, op, table);
  }

  lemma BatchWorldInv(w: World, op: OpId, next: ConfigUniversal, table: DispatchTable)
    requires WorldInv(w, table) && op !in w.used
    ensures WorldInv(BatchWorld(w, op, next), table)
  {
    var t := BatchWorld(w, op, next);
    StagesFollow(w, t, op, table);
    FilesFollow(w, t, op, table);
  }

  lemma SettingsWorldInv(w: World, op: OpId, next: ConfigUniversal, table: DispatchTable)
    requires WorldInv(w, table) && op !in w.used && w.server.last.Some? && next.keybinds == CloneKeybinds(w.server.last.value.keybinds)
    ensures WorldInv(SettingsWorld(w, op, next), table)
  {
    var t := SettingsWorld(w, op, next);
    NoDynamic(next.keybinds, table);
    CloneKeepsOutput(w.written[w.author.value], w.server.last.value.keybinds, table);
    StagesFollow(w, t, op, table);
    FilesFollow(w, t, op, table);
  }

  lemma ApplyWorldInv(w: World, op: OpId, p: ConfigUniversal, path: Path, table: DispatchTable)
    requires WorldInv(w, table) && op !in w.used
    ensures WorldInv(ApplyWorld(w, op, p, path), table)
  {
    var t := ApplyWorld(w, op, p, path);
    StagesFollow(w, t, op, table);
    FilesFollow(w, t, op, table);
  }

  lemma StartKeepsInv(w: World, op: OpId, r: Request, table: DispatchTable, scan: Scanners)
    requires WorldInv(w, table) && op !in w.used
    ensures WorldInv(StepStart(w, op, r, scan).value, table)
  {
    if Refused(w, r, scan) {
      StagesFollow(w, w.(used := w.used + {op}), op, table);
    } else {
      var next := NextLast(w.server.last, AsOp(r, Loaded), scan).value;
      match r
      case FullApply(p, path) => ApplyWorldInv(w, op, p, path, table);
      case Settings(_) =>
        PartialIsCloned(w.server.last, r, scan);
        SettingsWorldInv(w, op, next, table);
      case KeybindBatch(_) => BatchWorldInv(w, op, next, table);
      case _ =>
        PartialIsCloned(w.server.last, r, scan);
        RuntimeKeepsOutput(w, r, w.written[w.author.value], table, scan);
        RuntimeWorldInv(w, op, next, table);
    }
  }

  lemma WriteKeepsInv(w: World, op: OpId, o: FileOutcome, table: DispatchTable)
    requires WorldInv(w, table) && StepWrite(w, op, o).Some?
    ensures WorldInv(StepWrite(w, op, o).value, table)
  {
    var t := StepWrite(w, op, o).value;
    assert StageOk(w, op, w.ops[op], table);
    WriteFollows(w, op, o, table);
    StagesFollow(w, t, op, table);
    forall p | p in t.writer ensures Carries(t, t.writer[p], t.server.files[p], table) {
      WrittenCarries(w, op, o, p, table);
    }
  }

  lemma WriteFollows(w: World, op: OpId, o: FileOutcome, table: DispatchTable)
    requires StepWrite(w, op, o).Some? && StageOk(w, op, w.ops[op], table)
    ensures var t := StepWrite(w, op, o).value;
            && Follows(w, t, op, table) && OthersStay(w, t, op) && t.used == w.used
            && (op in t.ops ==> StageOk(t, op, t.ops[op], table))
  {
  }

  lemma WrittenCarries(w: World, op: OpId, o: FileOutcome, p: Path, table: DispatchTable)
    requires FileHistory(w, table) && StepWrite(w, op, o).Some? && StageOk(w, op, w.ops[op], table) && p in StepWrite(w, op, o).value.writer
    ensures var t := StepWrite(w, op, o).value; p in t.server.files && Carries(t, t.writer[p], t.server.files[p], table)
  {
    if p in w.writer {
      CarriesOn(w, StepWrite(w, op, o).value, op, w.writer[p], w.server.files[p], table);
    }
  }

  lemma CacheKeepsInv(w: World, op: OpId, table: DispatchTable)
    requires WorldInv(w, table) && StepCache(w, op).Some?
    ensures WorldInv(StepCache(w, op).value, table)
  {
    var t := StepCache(w, op).value;
    assert StageOk(w, op, w.ops[op], table);
    StagesFollow(w, t, op, table);
    FilesFollow(w, t, op, table);
  }

  /** Whether a monitor is right for keybinds does not depend on the dynamic ones. */
  lemma SyncedByClone(k: ConfigKeybinds, l: ConfigKeybinds, m: Commands)
    requires CloneKeybinds(k) == CloneKeybinds(l)
    ensures Synced(k, m) <==> Synced(l, m)
  {
  }

  lemma SyncedCommands(k: ConfigKeybinds, m: Commands)
    requires Registers(CloneKeybinds(k), m)
    ensures Synced(k, NonEmpty(m))
  {
  }

  lemma ReadKeepsInv(w: World, op: OpId, m: Commands, table: DispatchTable)
    requires WorldInv(w, table) && StepRead(w, op, m).Some?
    ensures WorldInv(StepRead(w, op, m).value, table)
  {
    var t := StepRead(w, op, m).value;
    assert StageOk(w, op, w.ops[op], table);
    SyncedCommands(w.server.last.value.keybinds, m);
    SyncedByClone(w.server.last.value.keybinds, w.cached[w.changer.value], NonEmpty(m));
    StagesFollow(w, t, op, table);
    FilesFollow(w, t, op, table);
  }

  lemma SetKeepsInv(w: World, op: OpId, table: DispatchTable)
    requires WorldInv(w, table) && StepSet(w, op).Some?
    ensures WorldInv(StepSet(w, op).value, table)
  {
    var t := StepSet(w, op).value;
    assert StageOk(w, op, w.ops[op], table);
    StagesFollow(w, t, op, table);
    FilesFollow(w, t, op, table);
  }

  lemma StepKeepsInv(w: World, a: Action, table: DispatchTable, scan: Scanners)
    requires WorldInv(w, table) && Step(w, a, scan).Some?
    ensures WorldInv(Step(w, a, scan).value, table)
  {
    match a
    case Start(op, r) => StartKeepsInv(w, op, r, table, scan);
    case Write(op, o) => WriteKeepsInv(w, op, o, table);
    case CacheIt(op) => CacheKeepsInv(w, op, table);
    case Read(op, m) => ReadKeepsInv(w, op, m, table);
    case Set(op) => SetKeepsInv(w, op, table);
  }

  // ---------------------------------------------------------------------
  // Runs
  // ---------------------------------------------------------------------

  ghost function Run(h: seq<Action>, scan: Scanners): Option<World>
    decreases |h|
  {
    if h == [] then Some(START)
    else
      var w := Run(h[..|h| - 1], scan);
      if w.Some? then Step(w.value, h[|h| - 1], scan) else None
  }

  lemma {:induction false} RunKeepsInv(h: seq<Action>, table: DispatchTable, scan: Scanners)
    requires Run(h, scan).Some?
    ensures WorldInv(Run(h, scan).value, table)
    decreases |h|
  {
    if h != [] {
      RunKeepsInv(h[..|h| - 1], table, scan);
      StepKeepsInv(Run(h[..|h| - 1], scan).value, h[|h| - 1], table, scan);
    }
  }

  /** The keybinds in the file are those of the request that last changed what the cache has for it. */
  predicate FileFresh(w: World, path: Path) { path in w.writer && Some(w.writer[path]) == w.author }

  /** What the monitor runs was read after the last change of the cached keybinds. */
  predicate MonitorFresh(w: World) { w.setter == w.changer }

  lemma FreshFileInSync(w: World, path: Path, table: DispatchTable)
    requires WorldInv(w, table) && FileFresh(w, path)
    ensures FileInSync(w.server, path, table)
  {
    assert Carries(w, w.writer[path], w.server.files[path], table);
  }

  lemma FreshMonitorInSync(w: World)
    requires MonitorHistory(w) && MonitorFresh(w)
    ensures MonitorInSync(w.server)
  {
    if w.changer.Some? {
      SyncedByClone(w.server.last.value.keybinds, w.cached[w.changer.value], w.server.keymon);
    }
  }

  // ---------------------------------------------------------------------
  // Requests with different keybinds
  // ---------------------------------------------------------------------

  predicate SameNodes(k: ConfigKeybinds, l: ConfigKeybinds, table: DispatchTable) {
    SystemNodes(k, table) == SystemNodes(l, table) && ListNodes(k.custom, table) == ListNodes(l.custom, table)
  }

  /** No two full applies or batches of the run write the same system and custom binds. */
  predicate WrittenDiffer(w: World, table: DispatchTable) {
    forall i, j :: i in w.written && j in w.written && i != j ==> !SameNodes(w.written[i], w.written[j], table)
  }

  /** Some group has no command that may win in both. */
  ghost predicate Apart(k: ConfigKeybinds, l: ConfigKeybinds) { exists g :: Winners(k, g) !! Winners(l, g) }

  const NOTHING := ConfigKeybinds(None, [])

  /** Each request that changed the cached keybinds made some group run what it runs under no other, nor without any. */
  ghost predicate CachedDiffer(w: World) {
    && (forall i, j :: i in w.cached && j in w.cached && i != j ==> Apart(w.cached[i], w.cached[j]))
    && (forall i :: i in w.cached ==> Apart(w.cached[i], NOTHING))
  }

  /** Then a file is in step exactly when the request that it carries is the last that changed the cache for it. */
  lemma FileInSyncIff(w: World, path: Path, table: DispatchTable)
    requires WorldInv(w, table) && w.server.last.Some? && WrittenDiffer(w, table)
    ensures FileInSync(w.server, path, table) <==> FileFresh(w, path)
  {
    if FileFresh(w, path) {
      FreshFileInSync(w, path, table);
    }
    if FileInSync(w.server, path, table) {
      var i := w.writer[path];
      assert Carries(w, i, w.server.files[path], table);
      assert SameNodes(w.written[i], w.written[w.author.value], table);
    }
  }

  lemma ApartIsNotSynced(k: ConfigKeybinds, l: ConfigKeybinds, m: Commands)
    requires Apart(k, l)
    ensures !(Synced(k, m) && Synced(l, m))
  {
    var g :| Winners(k, g) !! Winners(l, g);
    SyncedIff(k, m);
    SyncedIff(l, m);
    assert Running(m, g) !in Winners(k, g) || Running(m, g) !in Winners(l, g);
  }

  lemma NothingIsSynced()
    ensures Synced(NOTHING, map[])
  {
    SyncedIff(NOTHING, map[]);
    assert LastCommand([], "") == None;
  }

  /** And the monitor is in step exactly when it was read after the last change of the cached keybinds. */
  lemma MonitorInSyncIff(w: World)
    requires MonitorHistory(w) && CachedDiffer(w)
    ensures MonitorInSync(w.server) <==> MonitorFresh(w)
  {
    if MonitorFresh(w) {
      FreshMonitorInSync(w);
    }
    if MonitorInSync(w.server) && w.changer.Some? {
      var j := w.changer.value;
      SyncedByClone(w.server.last.value.keybinds, w.cached[j], w.server.keymon);
      NothingIsSynced();
      ApartIsNotSynced(w.cached[j], NOTHING, w.server.keymon);
      if w.setter.Some? && w.setter != w.changer {
        ApartIsNotSynced(w.cached[w.setter.value], w.cached[j], w.server.keymon);
      }
    }
  }

  /** Over every interleaving of requests, failing or not, that bring different keybinds: a file and the monitor are in
      step with the cache exactly when the file carries the keybinds of the last full apply or batch to reach the cache
      and the monitor was read after the last change. */
  lemma DifferentRequestsIff(h: seq<Action>, path: Path, table: DispatchTable, scan: Scanners)
    requires Run(h, scan).Some? && Run(h, scan).value.server.last.Some?
    requires WrittenDiffer(Run(h, scan).value, table) && CachedDiffer(Run(h, scan).value)
    ensures var w := Run(h, scan).value;
            (FileInSync(w.server, path, table) <==> FileFresh(w, path)) && (MonitorInSync(w.server) <==> MonitorFresh(w))
  {
    RunKeepsInv(h, table, scan);
    FileInSyncIff(Run(h, scan).value, path, table);
    MonitorInSyncIff(Run(h, scan).value);
  }

  // ---------------------------------------------------------------------
  // Requests that do not overlap
  // ---------------------------------------------------------------------

  /** No request starts while another is in flight, and every file is written to path and loaded. */
  predicate Orderly(w: World, a: Action, path: Path) {
    match a
    case Start(_, r) => w.ops == map[] && (r.FullApply? ==> r.path == path)
    case Write(_, o) => o == Loaded
    case _ => true
  }

  /** How far the one request in flight has got. */
  predicate Progress(w: World, op: OpId, p: Stage, path: Path) {
    match p
    case Writing(_, q, cached, s) =>
      q == path && (if cached then w.author == Some(s) && w.changer.Some? else s == op && (w.server.last.Some? ==> FileFresh(w, path) && MonitorFresh(w)))
    case Caching(_) => path in w.writer && w.writer[path] == op
    case Reading => FileFresh(w, path) && w.changer.Some?
    case Setting(_, s) => FileFresh(w, path) && w.changer == Some(s)
  }

  ghost predicate OrderlyInv(w: World, path: Path) {
    && (forall o, p :: o in w.ops && p in w.ops ==> o == p)
    && (forall o :: o in w.ops ==> Progress(w, o, w.ops[o], path))
    && (w.ops == map[] && w.server.last.Some? ==> FileFresh(w, path) && MonitorFresh(w) && w.changer.Some?)
  }

  lemma OnlyOne(w: World, t: World, op: OpId, path: Path)
    requires OrderlyInv(w, path) && (w.ops == map[] || op in w.ops) && op in t.ops && t.ops == w.ops[op := t.ops[op]]
    requires Progress(t, op, t.ops[op], path)
    ensures OrderlyInv(t, path)
  {
    assert t.ops.Keys == {op};
  }

  lemma LastOne(w: World, t: World, op: OpId, path: Path)
    requires OrderlyInv(w, path) && op in w.ops && t.ops == w.ops - {op}
    requires FileFresh(t, path) && MonitorFresh(t) && t.changer.Some?
    ensures OrderlyInv(t, path)
  {
    assert w.ops.Keys == {op};
    assert t.ops == map[];
  }

  lemma RuntimeIsOrderly(w: World, op: OpId, next: ConfigUniversal, path: Path)
    requires OrderlyInv(w, path) && w.ops == map[] && w.server.last.Some?
    ensures OrderlyInv(RuntimeWorld(w, op, next), path)
  {
    OnlyOne(w, RuntimeWorld(w, op, next), op, path);
  }

  lemma BatchIsOrderly(w: World, op: OpId, next: ConfigUniversal)
    requires OrderlyInv(w, REQUEST_PATH) && w.ops == map[]
    ensures OrderlyInv(BatchWorld(w, op, next), REQUEST_PATH)
  {
    OnlyOne(w, BatchWorld(w, op, next), op, REQUEST_PATH);
  }

  lemma SettingsAreOrderly(w: World, op: OpId, next: ConfigUniversal)
    requires OrderlyInv(w, REQUEST_PATH) && w.ops == map[] && w.server.last.Some?
    ensures OrderlyInv(SettingsWorld(w, op, next), REQUEST_PATH)
  {
    OnlyOne(w, SettingsWorld(w, op, next), op, REQUEST_PATH);
  }

  lemma ApplyIsOrderly(w: World, op: OpId, r: Request, path: Path, scan: Scanners)
    requires OrderlyInv(w, path) && w.ops == map[] && op !in w.used && r.FullApply? && r.path == path
    ensures OrderlyInv(StepStart(w, op, r, scan).value, path)
  {
    OnlyOne(w, ApplyWorld(w, op, r.payload, path), op, path);
  }

  lemma StartIsOrderly(w: World, op: OpId, r: Request, path: Path, scan: Scanners)
    requires OrderlyInv(w, path) && path == REQUEST_PATH && op !in w.used && Orderly(w, Start(op, r), path)
    ensures OrderlyInv(StepStart(w, op, r, scan).value, path)
  {
    var next := NextLast(w.server.last, AsOp(r, Loaded), scan);
    if next.Some? {
      match r
      case FullApply(_, _) => ApplyIsOrderly(w, op, r, path, scan);
      case Settings(_) => SettingsAreOrderly(w, op, next.value);
      case KeybindBatch(_) => BatchIsOrderly(w, op, next.value);
      case _ => RuntimeIsOrderly(w, op, next.value, path);
    }
  }

  lemma OtherIsOrderly(w: World, a: Action, path: Path, scan: Scanners)
    requires OrderlyInv(w, path) && Step(w, a, scan).Some? && Orderly(w, a, path) && !a.Start?
    ensures OrderlyInv(Step(w, a, scan).value, path)
  {
    var op, t := a.op, Step(w, a, scan).value;
    assert Progress(w, op, w.ops[op], path);
    if a.Set? {
      LastOne(w, t, op, path);
    } else {
      OnlyOne(w, t, op, path);
    }
  }

  ghost predicate OrderlyRun(h: seq<Action>, path: Path, scan: Scanners)
    decreases |h|
  {
    h == [] || (OrderlyRun(h[..|h| - 1], path, scan)
                && (Run(h[..|h| - 1], scan).Some? ==> Orderly(Run(h[..|h| - 1], scan).value, h[|h| - 1], path)))
  }

  lemma {:induction false} RunIsOrderly(h: seq<Action>, path: Path, scan: Scanners)
    requires Run(h, scan).Some? && OrderlyRun(h, path, scan) && path == REQUEST_PATH
    ensures OrderlyInv(Run(h, scan).value, path)
    decreases |h|
  {
    if h != [] {
      var g, a := h[..|h| - 1], h[|h| - 1];
      RunIsOrderly(g, path, scan);
      if a.Start? {
        StartIsOrderly(Run(g, scan).value, a.op, a.request, path, scan);
      } else {
        OtherIsOrderly(Run(g, scan).value, a, path, scan);
      }
    }
  }

  /** Requests that do not overlap, and whose files are all loaded from the one path, leave the server in step. */
  lemma OrderlyRunsInStep(h: seq<Action>, table: DispatchTable, scan: Scanners)
    requires Run(h, scan).Some? && OrderlyRun(h, REQUEST_PATH, scan) && Run(h, scan).value.ops == map[]
    requires Run(h, scan).value.server.last.Some?
    ensures InSync(Run(h, scan).value.server, REQUEST_PATH, table)
  {
    RunIsOrderly(h, REQUEST_PATH, scan);
    RunKeepsInv(h, table, scan);
    FreshFileInSync(Run(h, scan).value, REQUEST_PATH, table);
    FreshMonitorInSync(Run(h, scan).value);
  }

  // ---------------------------------------------------------------------
  // Requests that overlap
  // ---------------------------------------------------------------------

  lemma OneStep(h: seq<Action>, w: World, a: Action, scan: Scanners)
    requires Run(h, scan) == Some(w)
    ensures Run(h + [a], scan) == Step(w, a, scan)
  {
    assert (h + [a])[..|h|] == h;
  }

  /** Other requests act: partial updates of any kind but runtime binds start, and whatever is in flight goes on,
      except that no full apply gets into the cache. */
  predicate Overtakers(g: seq<Action>, a: OpId) {
    forall i :: 0 <= i < |g| ==> g[i].op != a && !g[i].CacheIt? && (g[i].Start? ==> !g[i].request.Bind? && !g[i].request.Unbind?)
  }

  /** The batches that start, as one batch. */
  function Joined(g: seq<Action>): BatchKeybinds
    decreases |g|
  {
    if g == [] then BatchKeybinds([], [])
    else
      var a := g[|g| - 1];
      if a.Start? && a.request.KeybindBatch? then Batch.Sequence(Joined(g[..|g| - 1]), a.request.batch) else Joined(g[..|g| - 1])
  }

  /** Batch request a is about to write k, and the cache has k with the batch y. */
  predicate Overtaken(w: World, a: OpId, k: ConfigUniversal, y: BatchKeybinds) {
    && a in w.ops && w.ops[a] == Writing(k, REQUEST_PATH, true, a)
    && w.server.last.Some? && w.server.last.value.keybinds == Batch.Apply(k.keybinds, y)
  }

  lemma StartBatch(h: seq<Action>, w: World, a: OpId, x: BatchKeybinds, scan: Scanners)
    requires Run(h, scan) == Some(w) && w.server.last.Some? && a !in w.used
    ensures var k, t := AfterBatch(w.server.last.value, x), BatchWorld(w, a, AfterBatch(w.server.last.value, x));
            Run(h + [Start(a, KeybindBatch(x))], scan) == Some(t) && Overtaken(t, a, k, Joined([]))
  {
    OneStep(h, w, Start(a, KeybindBatch(x)), scan);
  }

  lemma SecondBatch(l: ConfigUniversal, k: ConfigUniversal, y: BatchKeybinds, z: BatchKeybinds)
    requires CloneKeybinds(k.keybinds) == k.keybinds && l.keybinds == Batch.Apply(k.keybinds, y)
    ensures CloneKeybinds(l.keybinds) == l.keybinds
    ensures AfterBatch(l, z).keybinds == Batch.Apply(k.keybinds, Batch.Sequence(y, z))
  {
    CloneOfBatch(k, y);
    Batch.ApplyTwiceIsApplySequence(k.keybinds, y, z);
  }

  lemma OvertakersStep(w: World, act: Action, t: World, a: OpId, k: ConfigUniversal, y: BatchKeybinds, scan: Scanners)
    requires Overtaken(w, a, k, y) && CloneKeybinds(k.keybinds) == k.keybinds && Overtakers([act], a) && Step(w, act, scan) == Some(t)
    ensures Overtaken(t, a, k, if act.Start? && act.request.KeybindBatch? then Batch.Sequence(y, act.request.batch) else y)
  {
    assert [act][0] == act;
    if act.Start? && act.request.KeybindBatch? {
      SecondBatch(w.server.last.value, k, y, act.request.batch);
    } else if act.Start? && act.request.Settings? {
      SecondBatch(w.server.last.value, k, y, y);
    }
  }

  lemma RunTail(h: seq<Action>, g: seq<Action>, scan: Scanners)
    requires g != [] && Run(h + g, scan).Some?
    ensures Run(h + g[..|g| - 1], scan).Some? && Run(h + g, scan) == Step(Run(h + g[..|g| - 1], scan).value, g[|g| - 1], scan)
  {
    assert (h + g)[..|h + g| - 1] == h + g[..|g| - 1] && (h + g)[|h + g| - 1] == g[|g| - 1];
  }

  lemma {:induction false} OvertakersRun(h: seq<Action>, w: World, g: seq<Action>, a: OpId, k: ConfigUniversal, scan: Scanners)
    requires Run(h, scan) == Some(w) && Overtaken(w, a, k, Joined([])) && CloneKeybinds(k.keybinds) == k.keybinds
    requires Overtakers(g, a) && Run(h + g, scan).Some?
    ensures Overtaken(Run(h + g, scan).value, a, k, Joined(g))
    decreases |g|
  {
    if g == [] {
      assert h + g == h;
    } else {
      var n := |g| - 1;
      RunTail(h, g, scan);
      OvertakersRun(h, w, g[..n], a, k, scan);
      OvertakersStep(Run(h + g[..n], scan).value, g[n], Run(h + g, scan).value, a, k, Joined(g[..n]), scan);
    }
  }

  /** A batch changes the cache, then any number of other partial updates, in whatever order they write, and then the
      first batch writes its older keybinds. All of them may succeed, and yet the file is in step exactly when the
      later batches together change nothing of what it says. */
  lemma OvertakenWriteIff(h: seq<Action>, w: World, a: OpId, x: BatchKeybinds, g: seq<Action>, table: DispatchTable, scan: Scanners)
    requires Run(h, scan) == Some(w) && w.server.last.Some? && a !in w.used
    requires Overtakers(g, a) && Run(h + [Start(a, KeybindBatch(x))] + g, scan).Some?
    ensures var k, r := AfterBatch(w.server.last.value, x), Run(h + [Start(a, KeybindBatch(x))] + g + [Write(a, Loaded)], scan);
            r.Some? && (FileInSync(r.value.server, REQUEST_PATH, table) <==> BatchKeepsOutput(k.keybinds, Joined(g), table))
  {
    var k := AfterBatch(w.server.last.value, x);
    var h1 := h + [Start(a, KeybindBatch(x))];
    StartBatch(h, w, a, x, scan);
    CloneOfBatch(w.server.last.value, x);
    OvertakersRun(h1, BatchWorld(w, a, k), g, a, k, scan);
    OneStep(h1 + g, Run(h1 + g, scan).value, Write(a, Loaded), scan);
    BatchOutput(k.keybinds, Joined(g), k.keybinds, table);
  }

  /** Two runtime binds, a before b: a reads the cache before b changes it, and sets the monitor after b has. */
  function StaleSetting(a: OpId, b: OpId, r: Request, q: Request, m: Commands, n: Commands): seq<Action> {
    [Start(a, r), Read(a, m), Start(b, q), Read(b, n), Set(b), Set(a)]
  }

  lemma StartRuntime(h: seq<Action>, w: World, op: OpId, r: Request, next: ConfigUniversal, scan: Scanners)
    requires Run(h, scan) == Some(w) && op !in w.used && (r.Bind? || r.Unbind?) && NextLast(w.server.last, AsOp(r, Loaded), scan) == Some(next)
    ensures Run(h + [Start(op, r)], scan) == Some(RuntimeWorld(w, op, next))
  {
    OneStep(h, w, Start(op, r), scan);
  }

  function ReadWorld(w: World, op: OpId, m: Commands): World {
    w.(ops := w.ops[op := Setting(NonEmpty(m), w.changer.GetOr(op))])
  }

  lemma ReadCache(h: seq<Action>, w: World, op: OpId, m: Commands, scan: Scanners)
    requires Run(h, scan) == Some(w) && op in w.ops && w.ops[op].Reading? && MayRead(w.server, m)
    ensures Run(h + [Read(op, m)], scan) == Some(ReadWorld(w, op, m))
  {
    OneStep(h, w, Read(op, m), scan);
  }

  function SetWorld(w: World, op: OpId): World
    requires op in w.ops && w.ops[op].Setting?
  {
    w.(server := w.server.(keymon := w.ops[op].commands), setter := Some(w.ops[op].source), ops := w.ops - {op})
  }

  lemma SetMonitor(h: seq<Action>, w: World, op: OpId, scan: Scanners)
    requires Run(h, scan) == Some(w) && op in w.ops && w.ops[op].Setting?
    ensures Run(h + [Set(op)], scan) == Some(SetWorld(w, op))
  {
    OneStep(h, w, Set(op), scan);
  }

  /** One request up to the point where it is about to set the monitor. */
  lemma RuntimeReads(h: seq<Action>, w: World, op: OpId, r: Request, next: ConfigUniversal, m: Commands, scan: Scanners) returns (t: World)
    requires Run(h, scan) == Some(w) && op !in w.used && (r.Bind? || r.Unbind?) && NextLast(w.server.last, AsOp(r, Loaded), scan) == Some(next)
    requires Registers(CloneKeybinds(next.keybinds), m)
    ensures Run(h + [Start(op, r)] + [Read(op, m)], scan) == Some(t)
    ensures t == ReadWorld(RuntimeWorld(w, op, next), op, m)
  {
    StartRuntime(h, w, op, r, next, scan);
    t := RuntimeWorld(w, op, next);
    ReadCache(h + [Start(op, r)], t, op, m, scan);
    t := ReadWorld(t, op, m);
  }

  lemma BothSet(h: seq<Action>, w: World, a: OpId, b: OpId, scan: Scanners) returns (t: World)
    requires Run(h, scan) == Some(w) && a != b && a in w.ops && b in w.ops && w.ops[a].Setting? && w.ops[b].Setting?
    ensures Run(h + [Set(b)] + [Set(a)], scan) == Some(t)
    ensures t.server == w.server.(keymon := w.ops[a].commands) && t.ops == w.ops - {a, b}
  {
    SetMonitor(h, w, b, scan);
    SetMonitor(h + [Set(b)], SetWorld(w, b), a, scan);
    t := SetWorld(SetWorld(w, b), a);
    assert w.ops - {b} - {a} == w.ops - {a, b};
  }

  /** Both requests succeed, and yet the monitor is in step exactly when what the first one read is still among what
      may win after the second. */
  lemma StaleSettingIff(h: seq<Action>, w: World, a: OpId, b: OpId, r: Request, q: Request, m: Commands, n: Commands,
                        k: ConfigUniversal, l: ConfigUniversal, scan: Scanners)
    requires Run(h, scan) == Some(w) && a !in w.used && b !in w.used && a != b && (r.Bind? || r.Unbind?) && (q.Bind? || q.Unbind?)
    requires NextLast(w.server.last, AsOp(r, Loaded), scan) == Some(k) && Registers(CloneKeybinds(k.keybinds), m)
    requires NextLast(Some(k), AsOp(q, Loaded), scan) == Some(l) && Registers(CloneKeybinds(l.keybinds), n)
    ensures Run(h + StaleSetting(a, b, r, q, m, n), scan).Some?
    ensures var s := Run(h + StaleSetting(a, b, r, q, m, n), scan).value.server;
            s.last == Some(l) && (MonitorInSync(s) <==> RunsWinners(l.keybinds, NonEmpty(m)))
  {
    var t := StaleEnds(h, w, a, b, r, q, m, n, k, l, scan);
    SyncedIff(l.keybinds, NonEmpty(m));
  }

  lemma StaleEnds(h: seq<Action>, w: World, a: OpId, b: OpId, r: Request, q: Request, m: Commands, n: Commands,
                  k: ConfigUniversal, l: ConfigUniversal, scan: Scanners) returns (t: World)
    requires Run(h, scan) == Some(w) && a !in w.used && b !in w.used && a != b && (r.Bind? || r.Unbind?) && (q.Bind? || q.Unbind?)
    requires NextLast(w.server.last, AsOp(r, Loaded), scan) == Some(k) && Registers(CloneKeybinds(k.keybinds), m)
    requires NextLast(Some(k), AsOp(q, Loaded), scan) == Some(l) && Registers(CloneKeybinds(l.keybinds), n)
    ensures Run(h + StaleSetting(a, b, r, q, m, n), scan) == Some(t) && t.server.last == Some(l) && t.server.keymon == NonEmpty(m)
  {
    var u := BothRead(h, w, a, b, r, q, m, n, k, l, scan);
    var g := h + [Start(a, r)] + [Read(a, m)] + [Start(b, q)] + [Read(b, n)];
    t := BothSet(g, u, a, b, scan);
    SixActions(h, a, b, r, q, m, n);
  }

  lemma SixActions(h: seq<Action>, a: OpId, b: OpId, r: Request, q: Request, m: Commands, n: Commands)
    ensures h + StaleSetting(a, b, r, q, m, n) == h + [Start(a, r)] + [Read(a, m)] + [Start(b, q)] + [Read(b, n)] + [Set(b)] + [Set(a)]
  {
  }

  lemma BothRead(h: seq<Action>, w: World, a: OpId, b: OpId, r: Request, q: Request, m: Commands, n: Commands,
                 k: ConfigUniversal, l: ConfigUniversal, scan: Scanners) returns (t: World)
    requires Run(h, scan) == Some(w) && a !in w.used && b !in w.used && a != b && (r.Bind? || r.Unbind?) && (q.Bind? || q.Unbind?)
    requires NextLast(w.server.last, AsOp(r, Loaded), scan) == Some(k) && Registers(CloneKeybinds(k.keybinds), m)
    requires NextLast(Some(k), AsOp(q, Loaded), scan) == Some(l) && Registers(CloneKeybinds(l.keybinds), n)
    ensures Run(h + [Start(a, r)] + [Read(a, m)] + [Start(b, q)] + [Read(b, n)], scan) == Some(t)
    ensures t.server.last == Some(l) && a in t.ops && b in t.ops && t.ops[b].Setting? && t.ops[a].Setting? && t.ops[a].commands == NonEmpty(m)
  {
    var s := RuntimeReads(h, w, a, r, k, m, scan);
    t := RuntimeReads(h + [Start(a, r)] + [Read(a, m)], s, b, q, l, n, scan);
  }

  // ---------------------------------------------------------------------
  // Such runs exist
  // ---------------------------------------------------------------------

  predicate AllLoaded(h: seq<Action>) { forall i :: 0 <= i < |h| && h[i].Write? ==> h[i].outcome == Loaded }

  function FirstApply(p: ConfigUniversal): seq<Action> {
    [Start(0, FullApply(p, REQUEST_PATH)), Write(0, Loaded), CacheIt(0), Read(0, map[]), Set(0)]
  }

  /** The daemon starts with a configuration without keybinds. */
  lemma Started(p: ConfigUniversal, scan: Scanners) returns (w: World)
    requires p.keybinds == ConfigKeybinds(None, [])
    ensures Run(FirstApply(p), scan) == Some(w) && w.server.last == Some(p) && w.used == {0} && w.ops == map[]
  {
    var h := [];
    w := START;
    OneStep(h, w, Start(0, FullApply(p, REQUEST_PATH)), scan);
    h, w := h + [Start(0, FullApply(p, REQUEST_PATH))], StepStart(w, 0, FullApply(p, REQUEST_PATH), scan).value;
    OneStep(h, w, Write(0, Loaded), scan);
    h, w := h + [Write(0, Loaded)], StepWrite(w, 0, Loaded).value;
    OneStep(h, w, CacheIt(0), scan);
    h, w := h + [CacheIt(0)], StepCache(w, 0).value;
    assert Registers(CloneKeybinds(p.keybinds), map[]) by {
      forall g ensures RegistersAt(CloneKeybinds(p.keybinds), map[], g) {
      }
    }
    ReadCache(h, w, 0, map[], scan);
    h, w := h + [Read(0, map[])], ReadWorld(w, 0, map[]);
    SetMonitor(h, w, 0, scan);
    w := SetWorld(w, 0);
    assert h + [Set(0)] == FirstApply(p);
  }

  /** A plain bind that the generator writes. */
  function Plain(key: string): Keybind { Keybind(["SUPER"], key, "exec", "run", "", true) }

  lemma PlainIsWritten(key: string, table: DispatchTable)
    requires key == "a" || key == "b"
    ensures Place(Plain(key), table).Emit?
  {
    assert |key| == 1 && MapKey(key) == Some(key);
  }

  lemma LoadedConcat(g: seq<Action>, h: seq<Action>)
    requires AllLoaded(g) && AllLoaded(h)
    ensures AllLoaded(g + h)
  {
  }

  lemma FirstIsLoaded(p: ConfigUniversal)
    ensures AllLoaded(FirstApply(p))
  {
  }

  lemma StaleIsLoaded(a: OpId, b: OpId, r: Request, q: Request, m: Commands, n: Commands)
    ensures AllLoaded(StaleSetting(a, b, r, q, m, n))
  {
  }

  /** Two batches, of which the second writes first. */
  function Overtaking(x: BatchKeybinds, y: BatchKeybinds): seq<Action> {
    [Start(1, KeybindBatch(x))] + Second(y) + [Write(1, Loaded)]
  }

  function Second(y: BatchKeybinds): seq<Action> { [Start(2, KeybindBatch(y)), Write(2, Loaded)] }

  lemma OvertakingParts(f: seq<Action>, x: BatchKeybinds, y: BatchKeybinds)
    ensures f + [Start(1, KeybindBatch(x))] + Second(y) + [Write(1, Loaded)] == f + Overtaking(x, y)
    ensures AllLoaded(Overtaking(x, y)) && Overtakers(Second(y), 1)
  {
  }

  /** Two requests that add a bind each both succeed, and the file lacks one of the binds. */
  lemma RaceLosesBind(p: ConfigUniversal, table: DispatchTable, scan: Scanners) returns (h: seq<Action>)
    requires p.keybinds == ConfigKeybinds(None, [])
    ensures Run(h, scan).Some? && AllLoaded(h) && !FileInSync(Run(h, scan).value.server, REQUEST_PATH, table)
  {
    var w := Started(p, scan);
    var x, y := BatchKeybinds([Plain("a")], []), BatchKeybinds([Plain("b")], []);
    TwoNodes(p, table);
    h := SecondOvertakes(FirstApply(p), w, x, y, table, scan);
    FirstIsLoaded(p);
    OvertakingParts(FirstApply(p), x, y);
    LoadedConcat(FirstApply(p), Overtaking(x, y));
  }

  lemma SecondOvertakes(f: seq<Action>, w: World, x: BatchKeybinds, y: BatchKeybinds, table: DispatchTable, scan: Scanners) returns (h: seq<Action>)
    requires Run(f, scan) == Some(w) && w.server.last.Some? && w.used == {0}
    requires !BatchKeepsOutput(AfterBatch(w.server.last.value, x).keybinds, Batch.Sequence(BatchKeybinds([], []), y), table)
    ensures h == f + Overtaking(x, y) && Run(h, scan).Some?
    ensures !FileInSync(Run(h, scan).value.server, REQUEST_PATH, table)
  {
    var f1 := f + [Start(1, KeybindBatch(x))];
    StartBatch(f, w, 1, x, scan);
    SecondWritesFirst(f1, BatchWorld(w, 1, AfterBatch(w.server.last.value, x)), y, scan);
    OvertakingParts(f, x, y);
    OvertakenWriteIff(f, w, 1, x, Second(y), table, scan);
    JoinedOne(y);
    h := f + Overtaking(x, y);
  }

  lemma JoinedOne(y: BatchKeybinds)
    ensures Joined(Second(y)) == Batch.Sequence(BatchKeybinds([], []), y)
  {
    var g := Second(y);
    assert g[..1] == [g[0]] && [g[0]][..0] == [];
    assert Joined([]) == BatchKeybinds([], []);
    assert Joined([g[0]]) == Batch.Sequence(Joined([]), y);
    assert Joined(g) == Joined([g[0]]);
  }

  lemma SecondWritesFirst(h: seq<Action>, w: World, y: BatchKeybinds, scan: Scanners)
    requires Run(h, scan) == Some(w) && w.server.last.Some? && 2 !in w.used
    ensures Run(h + Second(y), scan).Some?
  {
    StartBatch(h, w, 2, y, scan);
    var t := BatchWorld(w, 2, AfterBatch(w.server.last.value, y));
    OneStep(h + [Start(2, KeybindBatch(y))], t, Write(2, Loaded), scan);
    assert h + [Start(2, KeybindBatch(y))] + [Write(2, Loaded)] == h + Second(y);
  }

  lemma TwoNodes(p: ConfigUniversal, table: DispatchTable)
    requires p.keybinds == ConfigKeybinds(None, [])
    ensures var k := AfterBatch(p, BatchKeybinds([Plain("a")], [])).keybinds;
            !BatchKeepsOutput(k, Batch.Sequence(BatchKeybinds([], []), BatchKeybinds([Plain("b")], [])), table)
  {
    var a, b := Plain("a"), Plain("b");
    OneUpsert([], a);
    OneUpsert([a], b);
    assert [] + [a] == [a] && [a] + [b] == [a, b] && [] + [b] == [b];
    PlainIsWritten("a", table);
    PlainIsWritten("b", table);
    assert [a, b][1..] == [b] && [b][1..] == [] && [a][1..] == [];
    assert |ListNodes([b], table)| == 1;
  }

  lemma OneUpsert(s: seq<Keybind>, b: Keybind)
    requires forall i :: 0 <= i < |s| ==> ComboOf(s[i]) != ComboOf(b)
    ensures Batch.UpsertAll(s, [b]) == s + [b]
  {
    Batch.UpsertNew(s, b);
    assert [b][1..] == [];
  }

  function BindSuper(command: string): Request { Bind(["SUPER"], "Super_L", command) }

  /** Two requests that bind the lone Super key both succeed, and the monitor runs the older command. */
  lemma RaceLeavesOldCommand(p: ConfigUniversal, scan: Scanners) returns (h: seq<Action>)
    requires p.keybinds == ConfigKeybinds(None, [])
    ensures Run(h, scan).Some? && AllLoaded(h) && Run(h, scan).value.server.last.Some?
    ensures !MonitorInSync(Run(h, scan).value.server)
  {
    var w := Started(p, scan);
    var k := LoneBound(p, "one", scan);
    var l := LoneBound(k, "two", scan);
    var m, n := map["SUPER" := "one"], map["SUPER" := "two"];
    h := FirstApply(p) + StaleSetting(1, 2, BindSuper("one"), BindSuper("two"), m, n);
    StaleSettingIff(FirstApply(p), w, 1, 2, BindSuper("one"), BindSuper("two"), m, n, k, l, scan);
    OldCommandLoses(l.keybinds);
    FirstIsLoaded(p);
    StaleIsLoaded(1, 2, BindSuper("one"), BindSuper("two"), m, n);
    LoadedConcat(FirstApply(p), StaleSetting(1, 2, BindSuper("one"), BindSuper("two"), m, n));
  }

  lemma OldCommandLoses(k: ConfigKeybinds)
    requires LastCommand(k.custom, "SUPER") == Some("two")
    ensures !RunsWinners(k, NonEmpty(map["SUPER" := "one"]))
  {
    assert |"one"| > 0 && "one"[0] != "two"[0];
    assert Running(NonEmpty(map["SUPER" := "one"]), "SUPER") == "one";
    assert Winners(k, "SUPER") == {"two"};
  }

  /** The cache after binding the lone Super key, starting with at most that bind. */
  lemma LoneBound(p: ConfigUniversal, command: string, scan: Scanners) returns (k: ConfigUniversal)
    requires p.keybinds.ambxst.None? && |command| > 0
    requires p.keybinds.custom == [] || (|p.keybinds.custom| == 1 && ComboOf(p.keybinds.custom[0]) == ComboOf(LoneSuper("")))
    ensures NextLast(Some(p), AsOp(BindSuper(command), Loaded), scan) == Some(k)
    ensures k.keybinds == ConfigKeybinds(None, [LoneSuper(command)]) && LastCommand([LoneSuper(command)], "SUPER") == Some(command)
    ensures Registers(CloneKeybinds(k.keybinds), map["SUPER" := command])
  {
    var kb := LoneSuper(command);
    assert ModifierSelfGroup(kb) == Some("SUPER") && IsSelf(["SUPER"], "Super_L");
    assert [kb][1..] == [];
    assert p.keybinds.custom != [] ==> p.keybinds.custom[1..] == [] && [kb] + [] == [kb];
    assert Batch.UpsertAll(p.keybinds.custom, [kb]) == [kb];
    k := AfterBatch(p, BatchKeybinds([kb], []));
    assert k.keybinds.custom == [kb];
    forall g ensures RegistersAt(CloneKeybinds(k.keybinds), map["SUPER" := command], g) {
      LastOfOne(kb, g);
    }
    LastOfOne(kb, "SUPER");
  }

  lemma LastOfOne(kb: Keybind, g: string)
    ensures LastCommand([kb], g) == if ModifierSelfGroup(kb) == Some(g) then Some(kb.argument) else None
  {
    assert [kb][..0] == [];
    assert LastCommand([], g) == None;
  }
}
