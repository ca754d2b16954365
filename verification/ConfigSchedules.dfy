/** Which interleavings keep the server in step whatever the requests ask for: a condition on the order of their steps. */
module ConfigSchedules {
  import opened Prelude
  import opened IpcConfig
  import opened AppearanceKeys
  import opened ShellTokens
  import opened KdlText
  import opened NiriBinds
  import opened ConfigSync
  import opened ConfigRaces
  import Batch = KeybindBatch

  // ---------------------------------------------------------------------
  // Schedules
  // ---------------------------------------------------------------------

  /** Two requests of one kind; a full apply also names the same file. */
  predicate SameKind(r: Request, q: Request) {
    match r
    case FullApply(_, path) => q.FullApply? && q.path == path
    case Settings(_) => q.Settings?
    case KeybindBatch(_) => q.KeybindBatch?
    case _ => q.Bind? || q.Unbind?
  }

  /** b in v is the same step of the same request as a in w, ending the same way; what the requests ask for may differ. */
  predicate SameAction(v: World, b: Action, w: World, a: Action, scan: Scanners) {
    match a
    case Start(op, r) => b.Start? && b.op == op && SameKind(r, b.request) && (Refused(v, b.request, scan) <==> Refused(w, r, scan))
    case Read(op, _) => b.Read? && b.op == op
    case _ => b == a
  }

  /** Two runs that take the same steps in the same order. */
  ghost predicate SameSchedule(g: seq<Action>, h: seq<Action>, scan: Scanners)
    decreases |h|
  {
    && |g| == |h| && Run(g, scan).Some? && Run(h, scan).Some?
    && (h == [] || (SameSchedule(g[..|g| - 1], h[..|h| - 1], scan)
                    && SameAction(Run(g[..|g| - 1], scan).value, g[|g| - 1], Run(h[..|h| - 1], scan).value, h[|h| - 1], scan)))
  }

  predicate SameStage(p: Stage, q: Stage) {
    match q
    case Writing(_, path, cached, s) => p.Writing? && p.path == path && p.cached == cached && p.source == s
    case Caching(_) => p.Caching?
    case Reading => p.Reading?
    case Setting(_, s) => p.Setting? && p.source == s
  }

  predicate SameStages(v: map<OpId, Stage>, w: map<OpId, Stage>) { v.Keys == w.Keys && forall o :: o in w ==> SameStage(v[o], w[o]) }

  /** The requests stand where they stand, and the same ones are the last to have changed, written or set something. */
  predicate SameOrder(v: World, w: World) {
    && SameStages(v.ops, w.ops) && v.used == w.used && (v.server.last.Some? <==> w.server.last.Some?)
    && v.author == w.author && v.changer == w.changer && v.writer == w.writer && v.setter == w.setter
  }

  /** Requests of one kind that are not refused take the same place. */
  lemma PlacesInOrder(v: World, w: World, op: OpId, k: ConfigUniversal, l: ConfigUniversal, path: Path)
    requires SameOrder(v, w)
    ensures SameOrder(ApplyWorld(v, op, k, path), ApplyWorld(w, op, l, path))
    ensures SameOrder(SettingsWorld(v, op, k), SettingsWorld(w, op, l))
  {
  }

  lemma ChangesInOrder(v: World, w: World, op: OpId, k: ConfigUniversal, l: ConfigUniversal)
    requires SameOrder(v, w)
    ensures SameOrder(BatchWorld(v, op, k), BatchWorld(w, op, l))
    ensures SameOrder(RuntimeWorld(v, op, k), RuntimeWorld(w, op, l))
  {
  }

  lemma StartInOrder(v: World, w: World, op: OpId, q: Request, r: Request, scan: Scanners)
    requires SameOrder(v, w) && SameAction(v, Start(op, q), w, Start(op, r), scan) && op !in w.used
    ensures SameOrder(StepStart(v, op, q, scan).value, StepStart(w, op, r, scan).value)
  {
    if !Refused(w, r, scan) {
      var k, l := NextLast(v.server.last, AsOp(q, Loaded), scan).value, NextLast(w.server.last, AsOp(r, Loaded), scan).value;
      match r
      case FullApply(_, path) => PlacesInOrder(v, w, op, k, l, path);
      case Settings(_) => PlacesInOrder(v, w, op, k, l, REQUEST_PATH);
      case _ => ChangesInOrder(v, w, op, k, l);
    }
  }

  lemma ReadInOrder(v: World, w: World, op: OpId, n: Commands, m: Commands)
    requires SameOrder(v, w) && StepRead(v, op, n).Some? && StepRead(w, op, m).Some?
    ensures SameOrder(StepRead(v, op, n).value, StepRead(w, op, m).value)
  {
  }

  lemma WriteInOrder(v: World, w: World, op: OpId, o: FileOutcome)
    requires SameOrder(v, w) && StepWrite(w, op, o).Some?
    ensures StepWrite(v, op, o).Some? && SameOrder(StepWrite(v, op, o).value, StepWrite(w, op, o).value)
  {
    assert SameStage(v.ops[op], w.ops[op]);
  }

  lemma CacheInOrder(v: World, w: World, op: OpId)
    requires SameOrder(v, w) && StepCache(w, op).Some?
    ensures StepCache(v, op).Some? && SameOrder(StepCache(v, op).value, StepCache(w, op).value)
  {
    assert SameStage(v.ops[op], w.ops[op]);
  }

  lemma SetInOrder(v: World, w: World, op: OpId)
    requires SameOrder(v, w) && StepSet(w, op).Some?
    ensures StepSet(v, op).Some? && SameOrder(StepSet(v, op).value, StepSet(w, op).value)
  {
    assert SameStage(v.ops[op], w.ops[op]);
  }

  /** Writing, caching and setting depend on the stage alone. */
  lemma OtherInOrder(v: World, w: World, a: Action, scan: Scanners)
    requires SameOrder(v, w) && !a.Start? && !a.Read? && Step(w, a, scan).Some?
    ensures Step(v, a, scan).Some? && SameOrder(Step(v, a, scan).value, Step(w, a, scan).value)
  {
    match a
    case Write(op, o) => WriteInOrder(v, w, op, o);
    case CacheIt(op) => CacheInOrder(v, w, op);
    case Set(op) => SetInOrder(v, w, op);
    case _ =>
  }

  lemma StepInOrder(v: World, b: Action, w: World, a: Action, scan: Scanners)
    requires SameOrder(v, w) && SameAction(v, b, w, a, scan) && Step(v, b, scan).Some? && Step(w, a, scan).Some?
    ensures SameOrder(Step(v, b, scan).value, Step(w, a, scan).value)
  {
    match a
    case Start(op, r) => StartInOrder(v, w, op, b.request, r, scan);
    case Read(op, m) => ReadInOrder(v, w, op, b.commands, m);
    case _ => OtherInOrder(v, w, a, scan);
  }

  lemma {:induction false} SchedulesInOrder(g: seq<Action>, h: seq<Action>, scan: Scanners)
    requires SameSchedule(g, h, scan)
    ensures SameOrder(Run(g, scan).value, Run(h, scan).value)
    decreases |h|
  {
    if h != [] {
      var g', h' := g[..|g| - 1], h[..|h| - 1];
      SchedulesInOrder(g', h', scan);
      StepInOrder(Run(g', scan).value, g[|g| - 1], Run(h', scan).value, h[|h| - 1], scan);
    }
  }

  // ---------------------------------------------------------------------
  // Requests that leave a mark
  // ---------------------------------------------------------------------

  /** A command for each request. */
  function Mark(op: OpId): string { seq(op + 1, _ => 'x') }

  function MarkedBind(op: OpId): Keybind { RuntimeBind(["SUPER"], "a", Mark(op)) }

  /** One bind for the file, with the mark of a, and one for the monitor, with the mark of c. */
  function MarkedList(a: OpId, c: OpId): seq<Keybind> { [MarkedBind(a), LoneSuper(Mark(c))] }
  function MarkedKeys(a: OpId, c: OpId): ConfigKeybinds { ConfigKeybinds(None, MarkedList(a, c)) }

  function MarkedRequest(r: Request, op: OpId): Request {
    match r
    case FullApply(p, path) => FullApply(p.(keybinds := MarkedKeys(op, op)), path)
    case Settings(_) => Settings(map[])
    case KeybindBatch(_) => KeybindBatch(BatchKeybinds(MarkedList(op, op), []))
    case _ => Bind(["SUPER"], "Super_L", Mark(op))
  }

  lemma MarkedAreDifferent(op: OpId, c: OpId)
    ensures ComboOf(MarkedBind(op)) == Combo("SUPER", "a") && ComboOf(LoneSuper(Mark(c))) == Combo("SUPER", "Super_L")
    ensures ModifierSelfGroup(MarkedBind(op)) == None && ModifierSelfGroup(LoneSuper(Mark(c))) == Some("SUPER")
  {
  }

  /** A marked batch replaces both marks, a marked runtime bind only the second. */
  lemma MarksReplaced(a: OpId, c: OpId, op: OpId)
    ensures Batch.UpsertAll(MarkedList(a, c), MarkedList(op, op)) == MarkedList(op, op)
    ensures Batch.UpsertAll(MarkedList(a, c), [LoneSuper(Mark(op))]) == MarkedList(a, op)
  {
    var m, n := MarkedBind(op), LoneSuper(Mark(op));
    MarkedAreDifferent(a, c);
    MarkedAreDifferent(op, op);
    Batch.UpsertFound(MarkedList(a, c), m, 0);
    Batch.UpsertFound(MarkedList(op, c), n, 1);
    Batch.UpsertFound(MarkedList(a, c), n, 1);
    assert MarkedList(a, c)[0 := m] == MarkedList(op, c) && MarkedList(op, c)[1 := n] == MarkedList(op, op);
    assert MarkedList(a, c)[1 := n] == MarkedList(a, op);
    assert MarkedList(op, op)[1..] == [n] && [n][1..] == [];
    assert Batch.UpsertAll(MarkedList(op, c), [n]) == Batch.Upsert(MarkedList(op, c), n);
    assert Batch.UpsertAll(MarkedList(a, c), [n]) == Batch.Upsert(MarkedList(a, c), n);
  }

  lemma MarkedLastCommand(a: OpId, c: OpId, g: string)
    ensures LastCommand(MarkedList(a, c), g) == if g == "SUPER" then Some(Mark(c)) else None
  {
    MarkedAreDifferent(a, c);
    var s := MarkedList(a, c);
    assert s[..1] == [MarkedBind(a)] && [MarkedBind(a)][..0] == [];
    assert LastCommand([], g) == None;
    assert LastCommand([MarkedBind(a)], g) == None;
  }

  lemma MarkedRegisters(a: OpId, c: OpId)
    ensures Registers(CloneKeybinds(MarkedKeys(a, c)), map["SUPER" := Mark(c)])
  {
    forall g ensures RegistersAt(MarkedKeys(a, c), map["SUPER" := Mark(c)], g) {
      MarkedLastCommand(a, c, g);
    }
  }

  lemma PrintBare(s: string)
    ensures Print([Bare(s)]) == s && TextOf([Bare(s)]) == s
  {
    var w := [Bare(s)];
    assert w[1..] == [] && Print(w[1..]) == "" && TextOf(w[1..]) == "";
    assert Print(w) == PrintSegment(w[0]) + "" && TextOf(w) == w[0].text + "";
  }

  lemma MarkTokens(op: OpId)
    ensures SpawnWords(Mark(op)) == [Mark(op)]
  {
    var l := Line([Bare(Mark(op))], []);
    PrintBare(Mark(op));
    assert PrintLine(l) == Mark(op) + "" == Mark(op);
    assert "" + Mark(op) + "" == Mark(op);
    TokensOfPrinted("", l, "");
    assert [Mark(op)] + [] == [Mark(op)];
  }

  lemma LoneIsNotWritten(c: OpId, table: DispatchTable)
    ensures ListNodes([LoneSuper(Mark(c))], table) == []
  {
    MarkedAreDifferent(c, c);
    ModifierAloneIsSkipped(LoneSuper(Mark(c)), table);
    assert [LoneSuper(Mark(c))][1..] == [];
  }

  /** The file shows whose mark it carries. */
  lemma MarkedNodes(a: OpId, c: OpId, table: DispatchTable)
    ensures Place(MarkedBind(a), table).Emit? && ListNodes(MarkedList(a, c), table) == [Place(MarkedBind(a), table).node]
    ensures ReadArguments(Place(MarkedBind(a), table).node.action[5..] + "\n") == Some([Mark(a)])
  {
    assert MapKey("a") == Some("a");
    var s := MarkedList(a, c);
    LoneIsNotWritten(c, table);
    assert s[1..] == [LoneSuper(Mark(c))];
    SpawnLineCarriesWords(MarkedBind(a), table);
    MarkTokens(a);
  }

  lemma MarksDiffer(a: OpId, b: OpId)
    requires a != b
    ensures Mark(a) != Mark(b)
  {
    assert |Mark(a)| != |Mark(b)|;
  }

  // ---------------------------------------------------------------------
  // The marked run of a schedule
  // ---------------------------------------------------------------------

  predicate MarkedStage(op: OpId, p: Stage) {
    match p
    case Writing(k, _, cached, _) => cached || k.keybinds == MarkedKeys(op, op)
    case Caching(k) => k.keybinds == MarkedKeys(op, op)
    case _ => true
  }

  /** Everything carries the mark of the request it comes from. */
  predicate AllMarked(w: World) {
    && (w.server.last.Some? ==> w.author.Some? && w.changer.Some?
                                && w.server.last.value.keybinds == MarkedKeys(w.author.value, w.changer.value))
    && (forall o :: o in w.written ==> w.written[o] == MarkedKeys(o, o))
    && (forall o :: o in w.cached ==> LastCommand(w.cached[o].custom, "SUPER") == Some(Mark(o)))
    && (forall o :: o in w.ops ==> MarkedStage(o, w.ops[o]))
  }

  /** The same step of a marked request; a refused request stays as it is. */
  function MarkedAction(v: World, w: World, a: Action, scan: Scanners): Action {
    match a
    case Start(op, r) => Start(op, if Refused(w, r, scan) then r else MarkedRequest(r, op))
    case Read(op, _) => Read(op, if v.changer.Some? then map["SUPER" := Mark(v.changer.value)] else map[])
    case _ => a
  }

  /** What a marked request makes of marked keybinds. */
  lemma MarkedNext(last: ConfigUniversal, r: Request, op: OpId, a: OpId, c: OpId, scan: Scanners)
    requires last.keybinds == MarkedKeys(a, c) && !r.FullApply?
    ensures var next := NextLast(Some(last), AsOp(MarkedRequest(r, op), Loaded), scan);
            next.Some? && next.value.keybinds == (if r.Settings? then MarkedKeys(a, c) else if r.KeybindBatch? then MarkedKeys(op, op) else MarkedKeys(a, op))
  {
    MarksReplaced(a, c, op);
    MarkedAreDifferent(op, op);
    assert CloneKeybinds(last.keybinds) == last.keybinds;
    if r.Bind? || r.Unbind? {
      assert MarkedRequest(r, op) == Bind(["SUPER"], "Super_L", Mark(op));
      SelfGroupIgnoresArgument(["SUPER"], "Super_L", Mark(op));
    }
  }

  lemma RefusedAlike(v: World, w: World, r: Request, op: OpId, scan: Scanners)
    requires SameOrder(v, w) && AllMarked(v)
    ensures Refused(w, r, scan) ==> Refused(v, r, scan)
    ensures !Refused(w, r, scan) ==> !Refused(v, MarkedRequest(r, op), scan)
  {
    if !Refused(w, r, scan) && !r.FullApply? {
      MarkedNext(v.server.last.value, r, op, v.author.value, v.changer.value, scan);
    }
  }

  lemma MarkedRuntimeWorld(v: World, op: OpId, next: ConfigUniversal)
    requires AllMarked(v) && v.author.Some? && next.keybinds == MarkedKeys(v.author.value, op)
    ensures AllMarked(RuntimeWorld(v, op, next))
  {
    MarkedLastCommand(v.author.value, op, "SUPER");
  }

  lemma MarkedBatchWorld(v: World, op: OpId, next: ConfigUniversal)
    requires AllMarked(v) && next.keybinds == MarkedKeys(op, op)
    ensures AllMarked(BatchWorld(v, op, next))
  {
    MarkedLastCommand(op, op, "SUPER");
  }

  lemma MarkedApplyWorld(v: World, op: OpId, p: ConfigUniversal, path: Path)
    requires AllMarked(v) && p.keybinds == MarkedKeys(op, op)
    ensures AllMarked(ApplyWorld(v, op, p, path))
  {
  }

  lemma MarkedSettingsWorld(v: World, op: OpId, next: ConfigUniversal)
    requires AllMarked(v) && v.server.last.Some? && next.keybinds == v.server.last.value.keybinds
    ensures AllMarked(SettingsWorld(v, op, next))
  {
  }

  lemma MarkedStart(v: World, op: OpId, r: Request, scan: Scanners)
    requires AllMarked(v) && op !in v.used && !Refused(v, MarkedRequest(r, op), scan)
    ensures AllMarked(StepStart(v, op, MarkedRequest(r, op), scan).value)
  {
    var next := NextLast(v.server.last, AsOp(MarkedRequest(r, op), Loaded), scan).value;
    if r.FullApply? {
      MarkedApplyWorld(v, op, next, r.path);
    } else {
      MarkedNext(v.server.last.value, r, op, v.author.value, v.changer.value, scan);
      match r
      case Settings(_) => MarkedSettingsWorld(v, op, next);
      case KeybindBatch(_) => MarkedBatchWorld(v, op, next);
      case _ => MarkedRuntimeWorld(v, op, next);
    }
  }

  lemma StartIsMarked(v: World, w: World, op: OpId, r: Request, scan: Scanners)
    requires SameOrder(v, w) && AllMarked(v) && op !in w.used
    ensures var b := MarkedAction(v, w, Start(op, r), scan);
            SameAction(v, b, w, Start(op, r), scan) && Step(v, b, scan).Some? && AllMarked(Step(v, b, scan).value)
  {
    RefusedAlike(v, w, r, op, scan);
    if !Refused(w, r, scan) {
      MarkedStart(v, op, r, scan);
    }
  }

  lemma ReadIsMarked(v: World, w: World, op: OpId, m: Commands, scan: Scanners)
    requires SameOrder(v, w) && AllMarked(v) && (v.server.last.None? ==> v.changer.None?) && StepRead(w, op, m).Some?
    ensures var b := MarkedAction(v, w, Read(op, m), scan);
            SameAction(v, b, w, Read(op, m), scan) && Step(v, b, scan).Some? && AllMarked(Step(v, b, scan).value)
  {
    var m' := if v.changer.Some? then map["SUPER" := Mark(v.changer.value)] else map[];
    assert SameStage(v.ops[op], w.ops[op]);
    MarkedMayBeRead(v);
    ReadKeepsMarks(v, op, m');
  }

  lemma MarkedMayBeRead(v: World)
    requires AllMarked(v) && (v.server.last.None? ==> v.changer.None?)
    ensures MayRead(v.server, if v.changer.Some? then map["SUPER" := Mark(v.changer.value)] else map[])
  {
    if v.server.last.Some? {
      MarkedRegisters(v.author.value, v.changer.value);
    }
  }

  lemma ReadKeepsMarks(v: World, op: OpId, m: Commands)
    requires AllMarked(v) && StepRead(v, op, m).Some?
    ensures AllMarked(StepRead(v, op, m).value)
  {
  }

  lemma CacheIsMarked(v: World, op: OpId)
    requires AllMarked(v) && StepCache(v, op).Some?
    ensures AllMarked(StepCache(v, op).value)
  {
    assert MarkedStage(op, v.ops[op]);
    MarkedLastCommand(op, op, "SUPER");
  }

  lemma WriteIsMarked(v: World, a: Action, scan: Scanners)
    requires AllMarked(v) && (a.Write? || a.Set?) && Step(v, a, scan).Some?
    ensures AllMarked(Step(v, a, scan).value)
  {
    assert a.Write? ==> MarkedStage(a.op, v.ops[a.op]);
  }

  lemma StepIsMarked(v: World, w: World, a: Action, scan: Scanners)
    requires SameOrder(v, w) && AllMarked(v) && (v.server.last.None? ==> v.changer.None?) && Step(w, a, scan).Some?
    ensures var b := MarkedAction(v, w, a, scan);
            SameAction(v, b, w, a, scan) && Step(v, b, scan).Some? && AllMarked(Step(v, b, scan).value)
  {
    match a
    case Start(op, r) => StartIsMarked(v, w, op, r, scan);
    case Read(op, m) => ReadIsMarked(v, w, op, m, scan);
    case CacheIt(op) =>
      OtherInOrder(v, w, a, scan);
      CacheIsMarked(v, op);
    case _ =>
      OtherInOrder(v, w, a, scan);
      WriteIsMarked(v, a, scan);
  }

  lemma ExtendSchedule(g: seq<Action>, b: Action, h: seq<Action>, scan: Scanners)
    requires h != [] && Run(h, scan).Some? && SameSchedule(g, h[..|h| - 1], scan)
    requires SameAction(Run(g, scan).value, b, Run(h[..|h| - 1], scan).value, h[|h| - 1], scan)
    requires Step(Run(g, scan).value, b, scan).Some?
    ensures Run(g + [b], scan) == Step(Run(g, scan).value, b, scan) && SameSchedule(g + [b], h, scan)
  {
    assert (g + [b])[..|g|] == g;
    OneStep(g, Run(g, scan).value, b, scan);
  }

  /** Every run has a marked run with the same schedule. */
  lemma {:induction false} MarkedRun(h: seq<Action>, scan: Scanners) returns (g: seq<Action>)
    requires Run(h, scan).Some?
    ensures SameSchedule(g, h, scan) && AllMarked(Run(g, scan).value)
    decreases |h|
  {
    g := [];
    if h != [] {
      var h', a := h[..|h| - 1], h[|h| - 1];
      var g' := MarkedRun(h', scan);
      var v, w := Run(g', scan).value, Run(h', scan).value;
      SchedulesInOrder(g', h', scan);
      RunKeepsInv(g', (_, _) => None, scan);
      StepIsMarked(v, w, a, scan);
      ExtendSchedule(g', MarkedAction(v, w, a, scan), h, scan);
      g := g' + [MarkedAction(v, w, a, scan)];
    }
  }

  lemma MarkedWrittenDiffer(w: World, table: DispatchTable)
    requires AllMarked(w)
    ensures WrittenDiffer(w, table)
  {
    forall i, j | i in w.written && j in w.written && i != j ensures !SameNodes(w.written[i], w.written[j], table) {
      MarkedNodes(i, i, table);
      MarkedNodes(j, j, table);
      MarksDiffer(i, j);
      assert [Mark(i)][0] != [Mark(j)][0];
    }
  }

  lemma MarkedCachedDiffer(w: World)
    requires AllMarked(w)
    ensures CachedDiffer(w)
  {
    assert LastCommand([], "SUPER") == None;
    assert Winners(NOTHING, "SUPER") == {""};
    forall i | i in w.cached ensures Winners(w.cached[i], "SUPER") == {Mark(i)} && Mark(i) != "" {
      assert |Mark(i)| > 0;
    }
    forall i, j | i in w.cached && j in w.cached && i != j ensures Apart(w.cached[i], w.cached[j]) {
      MarksDiffer(i, j);
      assert Winners(w.cached[i], "SUPER") !! Winners(w.cached[j], "SUPER");
    }
    forall i | i in w.cached ensures Apart(w.cached[i], NOTHING) {
      assert Winners(w.cached[i], "SUPER") !! Winners(NOTHING, "SUPER");
    }
  }

  // ---------------------------------------------------------------------
  // Exactly which schedules keep the server in step
  // ---------------------------------------------------------------------

  /** A file is in step at the end of a schedule, whatever the requests ask for, exactly when it then carries the
      keybinds of the last full apply or batch to have changed the cache. */
  lemma FileInStepIff(h: seq<Action>, path: Path, table: DispatchTable, scan: Scanners)
    requires Run(h, scan).Some? && Run(h, scan).value.server.last.Some?
    ensures FileFresh(Run(h, scan).value, path)
            <==> forall g :: SameSchedule(g, h, scan) ==> FileInSync(Run(g, scan).value.server, path, table)
  {
    forall g | SameSchedule(g, h, scan) && FileFresh(Run(h, scan).value, path) ensures FileInSync(Run(g, scan).value.server, path, table) {
      SchedulesInOrder(g, h, scan);
      RunKeepsInv(g, table, scan);
      FreshFileInSync(Run(g, scan).value, path, table);
    }
    var g := MarkedRun(h, scan);
    SchedulesInOrder(g, h, scan);
    RunKeepsInv(g, table, scan);
    MarkedWrittenDiffer(Run(g, scan).value, table);
    FileInSyncIff(Run(g, scan).value, path, table);
  }

  /** The monitor is in step at the end of a schedule, whatever the requests ask for, exactly when what was set last
      was read after the last change of the cached keybinds. */
  lemma MonitorInStepIff(h: seq<Action>, scan: Scanners)
    requires Run(h, scan).Some?
    ensures MonitorFresh(Run(h, scan).value) <==> forall g :: SameSchedule(g, h, scan) ==> MonitorInSync(Run(g, scan).value.server)
  {
    forall g | SameSchedule(g, h, scan) && MonitorFresh(Run(h, scan).value) ensures MonitorInSync(Run(g, scan).value.server) {
      SchedulesInOrder(g, h, scan);
      RunKeepsInv(g, (_, _) => None, scan);
      FreshMonitorInSync(Run(g, scan).value);
    }
    var g := MarkedRun(h, scan);
    SchedulesInOrder(g, h, scan);
    RunKeepsInv(g, (_, _) => None, scan);
    MarkedCachedDiffer(Run(g, scan).value);
    MonitorInSyncIff(Run(g, scan).value);
  }

  /** Over every interleaving: both are in step whatever the requests ask for exactly when the order of the steps says so. */
  lemma InStepIff(h: seq<Action>, path: Path, table: DispatchTable, scan: Scanners)
    requires Run(h, scan).Some? && Run(h, scan).value.server.last.Some?
    ensures FileFresh(Run(h, scan).value, path) && MonitorFresh(Run(h, scan).value)
            <==> forall g :: SameSchedule(g, h, scan) ==> InSync(Run(g, scan).value.server, path, table)
  {
    FileInStepIff(h, path, table, scan);
    MonitorInStepIff(h, scan);
  }
}
