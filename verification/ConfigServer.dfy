/** The server's configuration requests on niri as the source runs them. Each critical section is one action of the
    state machine of interleaved requests, so what holds over all its runs holds of the server after every request. */
module ConfigServer {
  import opened Prelude
  import opened IpcConfig
  import opened AppearanceKeys
  import opened NiriBinds
  import opened ConfigSync
  import opened ConfigRaces
  import Cache = ConfigCache

  /** The binds of a generated file: those written and those listed as skipped. */
  datatype Generated = Generated(emitted: seq<(Slot, Node)>, skipped: seq<(Slot, Reason)>)

  /** The log has grown by the actions of one request. */
  ghost predicate Grown(before: seq<Action>, after: seq<Action>, op: OpId) {
    |before| <= |after| && after[..|before|] == before && forall i :: |before| <= i < |after| ==> after[i].op == op
  }

  lemma GrownStart(log: seq<Action>, op: OpId)
    ensures Grown(log, log, op)
  {
  }

  lemma PutAndTake(ops: map<OpId, Stage>, op: OpId, p: Stage)
    requires op !in ops
    ensures ops[op := p] - {op} == ops && ops - {op} == ops
  {
  }

  lemma GrownBy(before: seq<Action>, log: seq<Action>, a: Action, op: OpId)
    requires Grown(before, log, op) && a.op == op
    ensures Grown(before, log + [a], op)
  {
    assert (log + [a])[..|before|] == log[..|before|];
  }

  /** The batch by which a runtime modifier-alone bind, or its removal, changes the cache. */
  predicate IsRuntime(r: Request, batch: BatchKeybinds) {
    match r
    case Bind(mods, key, command) => IsSelf(mods, key) && batch == BatchKeybinds([RuntimeBind(mods, key, command)], [])
    case Unbind(mods, key) => IsSelf(mods, key) && batch == BatchKeybinds([], [KeybindTarget(mods, key)])
    case _ => false
  }

  lemma RuntimeNextLast(last: Option<ConfigUniversal>, r: Request, batch: BatchKeybinds, scan: Scanners)
    requires IsRuntime(r, batch)
    ensures NextLast(last, AsOp(r, Loaded), scan) == if last.Some? then Some(AfterBatch(last.value, batch)) else None
  {
  }

  lemma StartsRuntime(w: World, op: OpId, r: Request, next: Option<ConfigUniversal>, scan: Scanners)
    requires op !in w.used && (r.Bind? || r.Unbind?) && NextLast(w.server.last, AsOp(r, Loaded), scan) == next
    ensures Step(w, Start(op, r), scan).Some?
    ensures var t := Step(w, Start(op, r), scan).value;
            && t.server == (if next.Some? then w.server.(last := next) else w.server)
            && t.ops == (if next.Some? then w.ops[op := Reading] else w.ops)
  {
  }

  /** About to write this payload to this path. */
  predicate Writes(p: Stage, payload: ConfigUniversal, path: Path, cached: bool) {
    p.Writing? && p.payload == payload && p.path == path && p.cached == cached
  }

  predicate IsPartial(r: Request) { r.Settings? || r.KeybindBatch? }

  /** The request op is about to write, the others stay where they are. */
  predicate AboutToWrite(before: map<OpId, Stage>, ops: map<OpId, Stage>, op: OpId, payload: ConfigUniversal) {
    op in ops && Writes(ops[op], payload, REQUEST_PATH, true) && ops - {op} == before
  }

  lemma StartsPartial(w: World, op: OpId, r: Request, next: Option<ConfigUniversal>, scan: Scanners)
    requires op !in w.used && op !in w.ops && IsPartial(r) && NextLast(w.server.last, AsOp(r, Loaded), scan) == next
    ensures Step(w, Start(op, r), scan).Some?
    ensures var t := Step(w, Start(op, r), scan).value;
            t.server == (if next.Some? then w.server.(last := next) else w.server)
            && if next.Some? then AboutToWrite(w.ops, t.ops, op, next.value) else t.ops == w.ops
  {
    if next.Some? {
      PutAndTake(w.ops, op, Step(w, Start(op, r), scan).value.ops[op]);
    }
  }

  lemma WriteStep(w: World, op: OpId, outcome: FileOutcome, payload: ConfigUniversal, path: Path, cached: bool)
    requires op in w.ops && Writes(w.ops[op], payload, path, cached)
    ensures StepWrite(w, op, outcome).Some?
    ensures var t := StepWrite(w, op, outcome).value;
            && t.server == w.server.(files := if outcome == NotWritten then w.server.files else w.server.files[path := payload.keybinds])
            && t.ops == (if outcome == Loaded then w.ops[op := if cached then Reading else Caching(payload)] else w.ops - {op})
  {
  }

  /** A full apply that has run to its end is one operation. */
  lemma ApplyNext(s: State, p: ConfigUniversal, path: Path, outcome: FileOutcome, s': State, scan: Scanners)
    requires s'.files == if outcome == NotWritten then s.files else s.files[path := p.keybinds]
    requires if outcome == Loaded then s'.last == Some(p) && Synced(p.keybinds, s'.keymon) else s'.last == s.last && s'.keymon == s.keymon
    ensures Next(s, Op.Apply(p, path, outcome), s', scan)
  {
  }

  /** A runtime bind that has run to its end is one operation. */
  lemma RuntimeNext(s: State, r: Request, batch: BatchKeybinds, s': State, scan: Scanners)
    requires IsRuntime(r, batch) && s.last.Some? && s'.last == NextLast(s.last, AsOp(r, Loaded), scan)
    requires s'.files == s.files && s'.last.Some? && Synced(s'.last.value.keybinds, s'.keymon)
    ensures Next(s, AsOp(r, Loaded), s', scan)
  {
  }

  /** The outcome of writing does not matter for what is cached. */
  lemma NextLastOfRequest(last: Option<ConfigUniversal>, r: Request, outcome: FileOutcome, scan: Scanners)
    ensures NextLast(last, AsOp(r, outcome), scan) == NextLast(last, AsOp(r, Loaded), scan)
  {
  }

  /** A partial update that has run to its end is one operation. */
  lemma PartialNext(s: State, r: Request, outcome: FileOutcome, next: ConfigUniversal, s': State, scan: Scanners)
    requires IsPartial(r) && NextLast(s.last, AsOp(r, Loaded), scan) == Some(next) && s'.last == Some(next)
    requires s'.files == if outcome == NotWritten then s.files else s.files[REQUEST_PATH := next.keybinds]
    requires if outcome == Loaded then Synced(next.keybinds, s'.keymon) else s'.keymon == s.keymon
    ensures Next(s, AsOp(r, outcome), s', scan)
  {
    NextLastOfRequest(s.last, r, outcome, scan);
  }

  class NiriServer {
    const table: DispatchTable
    const cfgState: Cache.ConfigState
    var keymon: Commands
    /** The keybinds each generated file was last written from, and its binds. */
    var files: map<Path, ConfigKeybinds>
    var content: map<Path, Generated>
    /** Every critical section so far, and where they have led the state machine. */
    ghost var log: seq<Action>
    ghost var world: World

    ghost function Value(): State
      reads this`keymon, this`files, cfgState
    {
      State(if cfgState.applied then Some(cfgState.last) else None, keymon, files)
    }

    ghost predicate Logged()
      reads this`log, this`world
    {
      Run(log, cfgState.scan) == Some(world)
    }

    ghost predicate Contents()
      reads this`files, this`content
    {
      content.Keys == files.Keys
      && forall p :: p in files ==> Accounted(files[p], AllSlots(files[p]), table, content[p].emitted, content[p].skipped)
    }

    /** The server is where a run of the state machine got to, and each file holds what the generator makes. */
    ghost predicate Valid()
      reads this, cfgState
    {
      Logged() && world.server == Value() && cfgState.Valid() && Contents()
    }

    constructor (table: DispatchTable, scan: Scanners, nothing: ConfigUniversal)
      ensures Valid() && fresh(cfgState) && cfgState.scan == scan && this.table == table && log == [] && world == START
    {
      this.table := table;
      cfgState := new Cache.ConfigState(scan, nothing);
      keymon, files, content := map[], map[], map[];
      log, world := [], START;
    }

    /** Logs the step of the state machine that a critical section takes. */
    ghost method Log(a: Action)
      requires Logged() && Step(world, a, cfgState.scan).Some?
      modifies this`log, this`world
      ensures Logged() && log == old(log) + [a] && Step(old(world), a, cfgState.scan) == Some(world)
    {
      OneStep(log, world, a, cfgState.scan);
      world := Step(world, a, cfgState.scan).value;
      log := log + [a];
    }

    // -------------------------------------------------------------------
    // Critical sections
    // -------------------------------------------------------------------

    /** Generates the file; how the write and the reload end comes from outside. */
    method WriteFile(ghost op: OpId, payload: ConfigUniversal, path: Path, outcome: FileOutcome, ghost cached: bool) returns (ok: bool)
      requires Valid() && op in world.ops && Writes(world.ops[op], payload, path, cached)
      modifies this`files, this`content, this`log, this`world
      ensures Valid() && log == old(log) + [Write(op, outcome)] && ok == (outcome == Loaded)
      ensures files == if outcome == NotWritten then old(files) else old(files)[path := payload.keybinds]
      ensures world.ops == if ok then old(world).ops[op := if cached then Reading else Caching(payload)] else old(world).ops - {op}
    {
      if outcome != NotWritten {
        Generate(payload.keybinds, path);
      }
      WriteStep(world, op, outcome, payload, path, cached);
      Log(Write(op, outcome));
      ok := outcome == Loaded;
    }

    method Generate(k: ConfigKeybinds, path: Path)
      requires Contents()
      modifies this`files, this`content
      ensures Contents() && files == old(files)[path := k]
    {
      var generator := new Generator(table);
      generator.GenerateKeybinds(k);
      files := files[path := k];
      content := content[path := Generated(generator.emitted, generator.skipped)];
    }

    /** Reads the cache for the monitor. */
    method ReadCache(ghost op: OpId) returns (m: Commands)
      requires Valid() && cfgState.applied && op in world.ops && world.ops[op] == Reading
      modifies this`log, this`world
      ensures Valid() && log == old(log) + [Read(op, m)] && world.ops == old(world).ops[op := Setting(NonEmpty(m), world.changer.GetOr(op))]
      ensures Synced(cfgState.last.keybinds, NonEmpty(m))
    {
      var current := cfgState.Current();
      m := KeymonBinds(current.value.keybinds);
      SyncedCommands(cfgState.last.keybinds, m);
      Log(Read(op, m));
    }

    /** Replaces the monitor's binds, without the empty ones. */
    method SetBinds(ghost op: OpId, binds: Commands)
      requires Valid() && op in world.ops && world.ops[op].Setting? && world.ops[op].commands == NonEmpty(binds)
      modifies this`keymon, this`log, this`world
      ensures Valid() && log == old(log) + [Set(op)] && keymon == NonEmpty(binds) && world.ops == old(world).ops - {op}
    {
      keymon := Filter(binds);
      Log(Set(op));
    }

    static method Filter(binds: Commands) returns (m: Commands)
      ensures m == NonEmpty(binds)
    {
      m := map[];
      var groups := binds.Keys;
      while groups != {}
        invariant groups <= binds.Keys
        invariant m == map g | g in binds && g !in groups && binds[g] != "" :: binds[g]
        decreases |groups|
      {
        var g :| g in groups;
        groups := groups - {g};
        if binds[g] != "" {
          m := m[g := binds[g]];
        }
      }
    }

    /** Reads the cache and sets the monitor: two critical sections. Uninterrupted, the monitor then runs a possible
        registration of what is cached. */
    method SyncKeyMonitor(ghost op: OpId)
      requires Valid() && cfgState.applied && op in world.ops && world.ops[op] == Reading
      modifies this`keymon, this`log, this`world
      ensures Valid() && Grown(old(log), log, op) && |log| == |old(log)| + 2 && world.ops == old(world).ops - {op}
      ensures Synced(cfgState.last.keybinds, keymon)
    {
      GrownStart(log, op);
      var m := ReadCache(op);
      GrownBy(old(log), old(log), Read(op, m), op);
      GrownBy(old(log), log, Set(op), op);
      SetBinds(op, m);
    }

    /** Caches the payload of a full apply that has been loaded. */
    method CacheApplied(ghost op: OpId, payload: ConfigUniversal)
      requires Valid() && op in world.ops && world.ops[op] == Caching(payload)
      modifies this`log, this`world, cfgState
      ensures Valid() && log == old(log) + [CacheIt(op)] && world.ops == old(world).ops[op := Reading]
      ensures cfgState.applied && cfgState.last == payload
    {
      cfgState.Seed(payload);
      Log(CacheIt(op));
    }

    ghost method BeginApply(op: OpId, payload: ConfigUniversal, path: Path)
      requires Valid() && op !in world.used
      modifies this`log, this`world
      ensures Valid() && log == old(log) + [Start(op, FullApply(payload, path))]
      ensures world.ops == old(world).ops[op := Writing(payload, path, false, op)]
    {
      Log(Start(op, FullApply(payload, path)));
    }

    /** The change of the cache by a settings request, all or nothing. */
    method MutateKeys(ghost op: OpId, req: Cache.Request) returns (r: Option<ConfigUniversal>)
      requires Valid() && op !in world.used && op !in world.ops
      modifies this`log, this`world, cfgState
      ensures Valid() && log == old(log) + [Start(op, Settings(req))]
      ensures r == NextLast(old(Value()).last, AsOp(Settings(req), Loaded), cfgState.scan)
      ensures Value().last == (if r.Some? then r else old(Value()).last)
      ensures if r.Some? then AboutToWrite(old(world).ops, world.ops, op, r.value) else world.ops == old(world).ops
    {
      var answer := cfgState.SetKeys(req);
      r := if answer.Ok? then Some(answer.value) else None;
      StartsPartial(world, op, Settings(req), r, cfgState.scan);
      Log(Start(op, Settings(req)));
    }

    /** The change of the cache by a batch of keybinds. */
    method MutateBinds(ghost op: OpId, batch: BatchKeybinds) returns (r: Option<ConfigUniversal>)
      requires Valid() && op !in world.used && op !in world.ops
      modifies this`log, this`world, cfgState
      ensures Valid() && log == old(log) + [Start(op, KeybindBatch(batch))]
      ensures r == NextLast(old(Value()).last, AsOp(KeybindBatch(batch), Loaded), cfgState.scan)
      ensures Value().last == (if r.Some? then r else old(Value()).last)
      ensures if r.Some? then AboutToWrite(old(world).ops, world.ops, op, r.value) else world.ops == old(world).ops
    {
      var answer := cfgState.ApplyKeybinds(batch);
      CloneOfBatch(old(cfgState.last), batch);
      r := if answer.Ok? then Some(answer.value) else None;
      StartsPartial(world, op, KeybindBatch(batch), r, cfgState.scan);
      Log(Start(op, KeybindBatch(batch)));
    }

    /** The change of the cache by a runtime modifier-alone bind or its removal. */
    method MutateRuntime(ghost op: OpId, ghost request: Request, batch: BatchKeybinds) returns (changed: bool)
      requires Valid() && op !in world.used && IsRuntime(request, batch)
      modifies this`log, this`world, cfgState
      ensures Valid() && log == old(log) + [Start(op, request)]
      ensures var next := NextLast(old(Value()).last, AsOp(request, Loaded), cfgState.scan);
              && changed == next.Some? == cfgState.applied && Value().last == (if changed then next else old(Value()).last)
      ensures world.ops == if changed then old(world).ops[op := Reading] else old(world).ops
    {
      RuntimeNextLast(Value().last, request, batch, cfgState.scan);
      StartsRuntime(world, op, request, NextLast(Value().last, AsOp(request, Loaded), cfgState.scan), cfgState.scan);
      changed := ChangeBinds(batch);
      Log(Start(op, request));
    }

    method ChangeBinds(batch: BatchKeybinds) returns (changed: bool)
      requires cfgState.Valid()
      modifies cfgState
      ensures cfgState.Valid() && changed == cfgState.applied == old(cfgState.applied)
      ensures Value() == if changed then old(Value()).(last := Some(AfterBatch(old(cfgState.last), batch))) else old(Value())
    {
      var answer := cfgState.ApplyKeybinds(batch);
      changed := answer.Ok?;
    }

    // -------------------------------------------------------------------
    // Requests that nothing interrupts
    // -------------------------------------------------------------------

    /** A full apply caches and registers only after the file is loaded. */
    method Apply(ghost op: OpId, payload: ConfigUniversal, path: Path, outcome: FileOutcome) returns (ok: bool)
      requires Valid() && op !in world.used && op !in world.ops
      modifies this, cfgState
      ensures Valid() && world.ops == old(world).ops && Grown(old(log), log, op)
      ensures Next(old(Value()), Op.Apply(payload, path, outcome), Value(), cfgState.scan)
      ensures ok == (outcome == Loaded)
    {
      GrownStart(log, op);
      GrownBy(log, log, Start(op, FullApply(payload, path)), op);
      BeginApply(op, payload, path);
      GrownBy(old(log), log, Write(op, outcome), op);
      ok := WriteFile(op, payload, path, outcome, false);
      if ok {
        CacheAndSync(op, payload, old(log));
      }
      PutAndTake(old(world).ops, op, Reading);
      ApplyNext(old(Value()), payload, path, outcome, Value(), cfgState.scan);
    }

    method CacheAndSync(ghost op: OpId, payload: ConfigUniversal, ghost since: seq<Action>)
      requires Valid() && op in world.ops && world.ops[op] == Caching(payload) && Grown(since, log, op)
      modifies this`keymon, this`log, this`world, cfgState
      ensures Valid() && world.ops == old(world).ops - {op} && Grown(since, log, op)
      ensures Value().last == Some(payload) && Synced(payload.keybinds, keymon)
    {
      GrownBy(since, log, CacheIt(op), op);
      CacheApplied(op, payload);
      ghost var before := log;
      SyncKeyMonitor(op);
      GrownTwice(since, before, log, op);
    }

    /** A partial update from the point where the cache has changed: the file is written second. */
    method Regenerate(ghost op: OpId, payload: ConfigUniversal, outcome: FileOutcome, ghost since: seq<Action>) returns (ok: bool)
      requires Valid() && cfgState.applied && op in world.ops && Writes(world.ops[op], payload, REQUEST_PATH, true) && Grown(since, log, op)
      modifies this`files, this`content, this`keymon, this`log, this`world
      ensures Valid() && world.ops == old(world).ops - {op} && Grown(since, log, op) && ok == (outcome == Loaded)
      ensures files == if outcome == NotWritten then old(files) else old(files)[REQUEST_PATH := payload.keybinds]
      ensures if ok then Synced(cfgState.last.keybinds, keymon) else keymon == old(keymon)
    {
      GrownBy(since, log, Write(op, outcome), op);
      ok := WriteFile(op, payload, REQUEST_PATH, outcome, true);
      if ok {
        ghost var before := log;
        SyncKeyMonitor(op);
        GrownTwice(since, before, log, op);
      }
    }

    method SetKeys(ghost op: OpId, req: Cache.Request, outcome: FileOutcome) returns (ok: bool)
      requires Valid() && op !in world.used && op !in world.ops
      modifies this, cfgState
      ensures Valid() && world.ops == old(world).ops && Grown(old(log), log, op)
      ensures Next(old(Value()), Op.SetKeys(req, outcome), Value(), cfgState.scan)
      ensures ok == Succeeds(old(Value()), Op.SetKeys(req, outcome), cfgState.scan)
    {
      GrownStart(log, op);
      GrownBy(log, log, Start(op, Settings(req)), op);
      ghost var s, start := Value(), log;
      var r := MutateKeys(op, req);
      PutAndTake(old(world).ops, op, Reading);
      ok := Finish(op, Settings(req), s, r, outcome, start);
    }

    method KeybindsBatch(ghost op: OpId, batch: BatchKeybinds, outcome: FileOutcome) returns (ok: bool)
      requires Valid() && op !in world.used && op !in world.ops
      modifies this, cfgState
      ensures Valid() && world.ops == old(world).ops && Grown(old(log), log, op)
      ensures Next(old(Value()), Op.Keybinds(batch, outcome), Value(), cfgState.scan)
      ensures ok == Succeeds(old(Value()), Op.Keybinds(batch, outcome), cfgState.scan)
    {
      GrownStart(log, op);
      GrownBy(log, log, Start(op, KeybindBatch(batch)), op);
      ghost var s, start := Value(), log;
      var r := MutateBinds(op, batch);
      PutAndTake(old(world).ops, op, Reading);
      ok := Finish(op, KeybindBatch(batch), s, r, outcome, start);
    }

    /** The rest of a partial update that found s and has changed the cache, if it could. */
    method Finish(ghost op: OpId, ghost request: Request, ghost s: State, r: Option<ConfigUniversal>, outcome: FileOutcome, ghost since: seq<Action>)
      returns (ok: bool)
      requires Valid() && Grown(since, log, op) && IsPartial(request)
      requires r == NextLast(s.last, AsOp(request, Loaded), cfgState.scan)
      requires Value() == if r.Some? then s.(last := r) else s
      requires if r.Some? then op in world.ops && Writes(world.ops[op], r.value, REQUEST_PATH, true) else op !in world.ops
      modifies this`files, this`content, this`keymon, this`log, this`world
      ensures Valid() && world.ops == old(world).ops - {op} && Grown(since, log, op)
      ensures Next(s, AsOp(request, outcome), Value(), cfgState.scan)
      ensures ok == Succeeds(s, AsOp(request, outcome), cfgState.scan)
    {
      NextLastOfRequest(s.last, request, outcome, cfgState.scan);
      if r.None? {
        return false;
      }
      ok := Regenerate(op, r.value, outcome, since);
      PartialNext(s, request, outcome, r.value, Value(), cfgState.scan);
    }

    /** A modifier-alone bind goes to the cache and the monitor, any other is refused on niri. */
    method BindKey(ghost op: OpId, mods: seq<string>, key: string, command: string) returns (ok: bool)
      requires Valid() && op !in world.used && op !in world.ops
      modifies this, cfgState
      ensures Valid() && world.ops == old(world).ops && Grown(old(log), log, op)
      ensures Next(old(Value()), Op.BindKey(mods, key, command), Value(), cfgState.scan)
      ensures ok == IsSelf(mods, key)
    {
      GrownStart(log, op);
      if !IsSelf(mods, key) {
        return false;
      }
      ghost var request := Bind(mods, key, command);
      GrownBy(log, log, Start(op, request), op);
      Runtime(op, request, BatchKeybinds([RuntimeBind(mods, key, command)], []), old(log));
      ok := true;
    }

    method UnbindKey(ghost op: OpId, mods: seq<string>, key: string) returns (ok: bool)
      requires Valid() && op !in world.used && op !in world.ops
      modifies this, cfgState
      ensures Valid() && world.ops == old(world).ops && Grown(old(log), log, op)
      ensures Next(old(Value()), Op.UnbindKey(mods, key), Value(), cfgState.scan)
      ensures ok == IsSelf(mods, key)
    {
      GrownStart(log, op);
      if !IsSelf(mods, key) {
        return false;
      }
      ghost var request := Unbind(mods, key);
      GrownBy(log, log, Start(op, request), op);
      Runtime(op, request, BatchKeybinds([], [KeybindTarget(mods, key)]), old(log));
      ok := true;
    }

    method Runtime(ghost op: OpId, ghost request: Request, batch: BatchKeybinds, ghost since: seq<Action>)
      requires Valid() && op !in world.used && op !in world.ops && Grown(since, log + [Start(op, request)], op)
      requires IsRuntime(request, batch)
      modifies this`keymon, this`log, this`world, cfgState
      ensures Valid() && world.ops == old(world).ops && Grown(since, log, op)
      ensures Next(old(Value()), AsOp(request, Loaded), Value(), cfgState.scan)
    {
      ghost var s := Value();
      PutAndTake(world.ops, op, Reading);
      var changed := MutateRuntime(op, request, batch);
      if changed {
        ghost var before := log;
        SyncKeyMonitor(op);
        GrownTwice(since, before, log, op);
        RuntimeNext(s, request, batch, Value(), cfgState.scan);
      }
    }
  }

  lemma GrownTwice(a: seq<Action>, b: seq<Action>, c: seq<Action>, op: OpId)
    requires Grown(a, b, op) && Grown(b, c, op)
    ensures Grown(a, c, op)
  {
    assert c[..|a|] == c[..|b|][..|a|];
    forall i | |a| <= i < |c| ensures c[i].op == op {
      assert i < |b| ==> c[i] == c[..|b|][i] == b[i];
    }
  }
}
