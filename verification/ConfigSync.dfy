/** How the cached configuration, the generated niri file and the key monitor are kept in step. */
module ConfigSync {
  import opened Prelude
  import opened Strings
  import opened IpcConfig
  import opened AppearanceKeys
  import opened NiriBinds
  import Batch = KeybindBatch
  import Cache = ConfigCache

  // ---------------------------------------------------------------------
  // What the key monitor is told to run
  // ---------------------------------------------------------------------

  type Commands = map<string, string>

  predicate HasGroup(m: map<string, Keybind>, g: string) {
    exists n :: n in m && ModifierSelfGroup(m[n]) == Some(g)
  }

  predicate IsCommandOf(m: map<string, Keybind>, g: string, command: string) {
    exists n :: n in m && ModifierSelfGroup(m[n]) == Some(g) && m[n].argument == command
  }

  /** The argument of the last bind of the list with group g. */
  function LastCommand(s: seq<Keybind>, g: string): Option<string> {
    if s == [] then None
    else if ModifierSelfGroup(s[|s| - 1]) == Some(g) then Some(s[|s| - 1].argument)
    else LastCommand(s[..|s| - 1], g)
  }

  /** A named section overrides what came before; within it the order is arbitrary, so any of its
      matching binds may win. */
  ghost predicate Overrides(before: Commands, section: map<string, Keybind>, after: Commands) {
    forall g :: OverridesAt(before, section, after, g)
  }

  predicate OverridesAt(before: Commands, section: map<string, Keybind>, after: Commands, g: string) {
    if HasGroup(section, g) then g in after && IsCommandOf(section, g, after[g])
    else (g in after <==> g in before) && (g in after ==> after[g] == before[g])
  }

  ghost predicate OverridesList(before: Commands, custom: seq<Keybind>, after: Commands) {
    forall g :: OverridesListAt(before, custom, after, g)
  }

  predicate OverridesListAt(before: Commands, custom: seq<Keybind>, after: Commands, g: string) {
    if LastCommand(custom, g).Some? then g in after && after[g] == LastCommand(custom, g).value
    else (g in after <==> g in before) && (g in after ==> after[g] == before[g])
  }

  /** m is a possible registration for group g: the last custom bind wins, else some dynamic bind,
      else some system bind, else nothing is registered. */
  predicate RegistersAt(k: ConfigKeybinds, m: Commands, g: string) {
    if LastCommand(k.custom, g).Some? then g in m && m[g] == LastCommand(k.custom, g).value
    else if k.ambxst.Some? && HasGroup(k.ambxst.value.binds, g) then g in m && IsCommandOf(k.ambxst.value.binds, g, m[g])
    else if k.ambxst.Some? && HasGroup(k.ambxst.value.system, g) then g in m && IsCommandOf(k.ambxst.value.system, g, m[g])
    else g !in m
  }

  ghost predicate Registers(k: ConfigKeybinds, m: Commands) { forall g :: RegistersAt(k, m, g) }

  function NonEmpty(m: Commands): Commands { map g | g in m && m[g] != "" :: m[g] }

  /** The monitor runs a possible registration of the cached keybinds, minus empty commands. */
  ghost predicate Synced(k: ConfigKeybinds, keymon: Commands) {
    exists m :: Registers(CloneKeybinds(k), m) && keymon == NonEmpty(m)
  }

  /** Position i holds the last bind of the list with group g. */
  predicate LastOf(s: seq<Keybind>, g: string, i: int) {
    0 <= i < |s| && ModifierSelfGroup(s[i]) == Some(g) && forall j :: i < j < |s| ==> ModifierSelfGroup(s[j]) != Some(g)
  }

  lemma LastOfGrows(s: seq<Keybind>, kb: Keybind, g: string, i: int)
    requires LastOf(s, g, i) && ModifierSelfGroup(kb) != Some(g)
    ensures LastOf(s + [kb], g, i)
  {
    forall j | i < j < |s + [kb]| ensures ModifierSelfGroup((s + [kb])[j]) != Some(g) {
      if j < |s| {
        assert (s + [kb])[j] == s[j];
      }
    }
  }

  lemma {:induction false} LastCommandSome(s: seq<Keybind>, g: string) returns (i: int)
    requires LastCommand(s, g).Some?
    ensures LastOf(s, g, i) && s[i].argument == LastCommand(s, g).value
  {
    var n := |s| - 1;
    if ModifierSelfGroup(s[n]) == Some(g) {
      return n;
    }
    i := LastCommandSome(s[..n], g);
    LastOfGrows(s[..n], s[n], g, i);
    assert s[..n] + [s[n]] == s;
  }

  lemma {:induction false} LastCommandNone(s: seq<Keybind>, g: string, i: nat)
    requires LastCommand(s, g).None? && i < |s|
    ensures ModifierSelfGroup(s[i]) != Some(g)
  {
    if i < |s| - 1 {
      LastCommandNone(s[..|s| - 1], g, i);
    }
  }

  lemma OverridesStep(before: Commands, section: map<string, Keybind>, done: set<string>, after: Commands, n: string, after': Commands)
    requires n in section && n !in done
    requires Overrides(before, map x | x in section && x in done :: section[x], after)
    requires var g := ModifierSelfGroup(section[n]);
             after' == if g.Some? then after[g.value := section[n].argument] else after
    ensures Overrides(before, map x | x in section && x in done + {n} :: section[x], after')
  {
    var old' := map x | x in section && x in done :: section[x];
    var new' := map x | x in section && x in done + {n} :: section[x];
    forall g ensures OverridesAt(before, new', after', g) {
      assert OverridesAt(before, old', after, g);
      if ModifierSelfGroup(section[n]) == Some(g) {
        assert n in new';
      } else {
        if HasGroup(new', g) {
          var x :| x in new' && ModifierSelfGroup(new'[x]) == Some(g);
          assert x in old' && old'[x] == new'[x];
        }
        if HasGroup(old', g) {
          var x :| x in old' && ModifierSelfGroup(old'[x]) == Some(g) && old'[x].argument == after[g];
          assert x in new' && new'[x] == old'[x];
        }
      }
    }
  }

  /** The loop over a named section, whose entries come in an arbitrary order. */
  method AddSection(before: Commands, section: map<string, Keybind>) returns (after: Commands)
    ensures Overrides(before, section, after)
  {
    after := before;
    var names := section.Keys;
    ghost var done: set<string> := {};
    while names != {}
      invariant names <= section.Keys && done == section.Keys - names
      invariant Overrides(before, map x | x in section && x in done :: section[x], after)
      decreases |names|
    {
      var n :| n in names;
      names := names - {n};
      ghost var was := after;
      var group := ModifierSelfGroup(section[n]);
      if group.Some? {
        after := after[group.value := section[n].argument];
      }
      OverridesStep(before, section, done, was, n, after);
      done := done + {n};
    }
    assert (map x | x in section && x in done :: section[x]) == section;
  }

  method AddList(before: Commands, custom: seq<Keybind>) returns (after: Commands)
    ensures OverridesList(before, custom, after)
  {
    after := before;
    for i := 0 to |custom|
      invariant OverridesList(before, custom[..i], after)
    {
      ghost var was := after;
      var group := ModifierSelfGroup(custom[i]);
      if group.Some? {
        after := after[group.value := custom[i].argument];
      }
      ghost var part := custom[..i + 1];
      assert part[..i] == custom[..i];
      forall g ensures OverridesListAt(before, part, after, g) {
        assert OverridesListAt(before, custom[..i], was, g);
      }
    }
    assert custom[..|custom|] == custom;
  }

  method KeymonBinds(k: ConfigKeybinds) returns (m: Commands)
    ensures Registers(k, m)
  {
    m := map[];
    ghost var m1, m2: Commands := m, m;
    if k.ambxst.Some? {
      m := AddSection(m, k.ambxst.value.system);
      m1 := m;
      m := AddSection(m, k.ambxst.value.binds);
      m2 := m;
    }
    m := AddList(m, k.custom);
    forall g ensures RegistersAt(k, m, g) {
      assert OverridesListAt(m2, k.custom, m, g);
      if k.ambxst.Some? {
        assert OverridesAt(m1, k.ambxst.value.binds, m2, g) && OverridesAt(map[], k.ambxst.value.system, m1, g);
      }
    }
  }

  // ---------------------------------------------------------------------
  // What the generated file holds
  // ---------------------------------------------------------------------

  function NamedNodes(m: map<string, Keybind>, table: DispatchTable): map<string, Node> {
    map n | n in m && Place(m[n], table).Emit? :: Place(m[n], table).node
  }

  function ListNodes(s: seq<Keybind>, table: DispatchTable): seq<Node> {
    if s == [] then []
    else (if Place(s[0], table).Emit? then [Place(s[0], table).node] else []) + ListNodes(s[1..], table)
  }

  function SystemNodes(k: ConfigKeybinds, table: DispatchTable): map<string, Node> {
    if k.ambxst.Some? then NamedNodes(k.ambxst.value.system, table) else map[]
  }

  function DynamicNodes(k: ConfigKeybinds, table: DispatchTable): map<string, Node> {
    if k.ambxst.Some? then NamedNodes(k.ambxst.value.binds, table) else map[]
  }

  /** A file written from a says what one written from k would say, except that k may have lost its
      dynamic binds in a copy. */
  predicate SameOutput(a: ConfigKeybinds, k: ConfigKeybinds, table: DispatchTable) {
    && SystemNodes(a, table) == SystemNodes(k, table)
    && ListNodes(a.custom, table) == ListNodes(k.custom, table)
    && (DynamicNodes(a, table) == DynamicNodes(k, table) || DynamicNodes(k, table) == map[])
  }

  lemma SameOutputTransfers(a: ConfigKeybinds, k: ConfigKeybinds, l: ConfigKeybinds, table: DispatchTable)
    requires SameOutput(a, k, table) && DynamicNodes(l, table) == map[]
    ensures SameOutput(a, l, table) <==> SystemNodes(l, table) == SystemNodes(k, table) && ListNodes(l.custom, table) == ListNodes(k.custom, table)
  {
  }

  lemma {:induction false} ListNodesMember(s: seq<Keybind>, table: DispatchTable, node: Node)
    ensures node in ListNodes(s, table) <==> exists i :: 0 <= i < |s| && Place(s[i], table) == Emit(node)
  {
    if s != [] {
      ListNodesMember(s[1..], table, node);
      assert forall i :: 0 < i < |s| ==> s[i] == s[1..][i - 1];
      if exists i :: 0 <= i < |s| && Place(s[i], table) == Emit(node) {
        var i :| 0 <= i < |s| && Place(s[i], table) == Emit(node);
        if i > 0 {
          assert Place(s[1..][i - 1], table) == Emit(node);
        }
      }
    }
  }

  // ---------------------------------------------------------------------
  // A combo of modifier-alone shape never reaches the file
  // ---------------------------------------------------------------------

  /** No bind with this combo is ever written to the file. */
  ghost predicate Quiet(c: Combo, table: DispatchTable) {
    forall kb :: ComboOf(kb) == c ==> !Place(kb, table).Emit?
  }

  lemma JoinedOfSeveral(mods: seq<string>)
    requires |mods| > 1
    ensures ' ' in JoinSpace(mods)
  {
    assert JoinSpace(mods)[|mods[0]|] == ' ';
  }

  lemma WordHasNoSpace(s: string, word: string)
    requires EqualFold(s, word) && word in {"super", "alt", "ctrl", "shift"}
    ensures ' ' !in s && s != ""
  {
    forall i | 0 <= i < |s| ensures s[i] != ' ' {
      assert LowerChar(word[i]) != ' ';
    }
  }

  lemma SelfGroupModifier(kb: Keybind)
    requires ModifierSelfGroup(kb).Some?
    ensures ' ' !in kb.modifiers[0] && kb.modifiers[0] != "" && |kb.modifiers| == 1
  {
    var word := if kb.key == "Super_L" || kb.key == "Super_R" then "super" else if kb.key == "Alt_L" || kb.key == "Alt_R" then "alt"
                else if kb.key == "Control_L" || kb.key == "Control_R" then "ctrl" else "shift";
    WordHasNoSpace(kb.modifiers[0], word);
  }

  /** Enabled or not, and whatever it runs, a bind that shares its combo with a modifier-alone bind is not written. */
  lemma SelfComboIsQuiet(self: Keybind, table: DispatchTable)
    requires ModifierSelfGroup(self).Some?
    ensures Quiet(ComboOf(self), table)
  {
    SelfGroupModifier(self);
    SelfGroupIsSelfBind(self);
    ModifierKeysMap(self.key);
    forall kb | ComboOf(kb) == ComboOf(self) ensures !Place(kb, table).Emit? {
      if |kb.modifiers| > 1 {
        JoinedOfSeveral(kb.modifiers);
      }
      assert kb.modifiers == self.modifiers;
    }
  }

  lemma {:induction false} UpsertQuiet(s: seq<Keybind>, b: Keybind, table: DispatchTable)
    requires Quiet(ComboOf(b), table)
    ensures ListNodes(Batch.Upsert(s, b), table) == ListNodes(s, table)
  {
    if s == [] {
      assert [b][1..] == [];
    } else if ComboOf(s[0]) == ComboOf(b) {
      assert ([b] + s[1..])[1..] == s[1..];
    } else {
      UpsertQuiet(s[1..], b, table);
      assert ([s[0]] + Batch.Upsert(s[1..], b))[1..] == Batch.Upsert(s[1..], b);
    }
  }

  lemma {:induction false} KeepQuiet(s: seq<Keybind>, c: Combo, table: DispatchTable)
    requires Quiet(c, table)
    ensures ListNodes(Batch.Keep(s, c), table) == ListNodes(s, table)
  {
    if s != [] {
      KeepQuiet(s[1..], c, table);
      if ComboOf(s[0]) == c {
        assert [] + Batch.Keep(s[1..], c) == Batch.Keep(s[1..], c);
        assert [] + ListNodes(s[1..], table) == ListNodes(s[1..], table);
      } else {
        assert ([s[0]] + Batch.Keep(s[1..], c))[1..] == Batch.Keep(s[1..], c);
      }
    }
  }

  lemma KeepNamedQuiet(m: map<string, Keybind>, c: Combo, table: DispatchTable)
    requires Quiet(c, table)
    ensures NamedNodes(Batch.KeepNamed(m, c), table) == NamedNodes(m, table)
  {
  }

  // ---------------------------------------------------------------------
  // What the monitor may run
  // ---------------------------------------------------------------------

  const GROUPS: set<string> := {"SUPER", "ALT", "CTRL", "SHIFT"}

  /** The commands that a registration may give group g; "" stands for none. */
  function Winners(k: ConfigKeybinds, g: string): set<string> {
    if LastCommand(k.custom, g).Some? then {LastCommand(k.custom, g).value}
    else if k.ambxst.Some? && HasGroup(k.ambxst.value.system, g) then
      set n | n in k.ambxst.value.system && ModifierSelfGroup(k.ambxst.value.system[n]) == Some(g) :: k.ambxst.value.system[n].argument
    else {""}
  }

  function Running(keymon: Commands, g: string): string { if g in keymon then keymon[g] else "" }

  ghost predicate RunsWinners(k: ConfigKeybinds, keymon: Commands) { forall g :: Running(keymon, g) in Winners(k, g) }

  predicate NoneEmpty(keymon: Commands) { forall g :: g in keymon ==> keymon[g] != "" }

  predicate GroupOutsideDynamic(k: ConfigKeybinds, g: string) {
    LastCommand(k.custom, g).Some? || (k.ambxst.Some? && HasGroup(k.ambxst.value.system, g))
  }

  lemma RegisteredIsWinner(k: ConfigKeybinds, m: Commands, g: string)
    requires RegistersAt(CloneKeybinds(k), m, g)
    ensures Running(NonEmpty(m), g) in Winners(k, g)
    ensures g in m <==> GroupOutsideDynamic(k, g)
  {
  }

  lemma GroupIsKnown(kb: Keybind)
    ensures ModifierSelfGroup(kb).Some? ==> ModifierSelfGroup(kb).value in GROUPS
  {
  }

  lemma OutsideIsKnown(k: ConfigKeybinds, g: string)
    requires GroupOutsideDynamic(k, g)
    ensures g in GROUPS
  {
    if LastCommand(k.custom, g).Some? {
      var i := LastCommandSome(k.custom, g);
      GroupIsKnown(k.custom[i]);
    } else {
      var n :| n in k.ambxst.value.system && ModifierSelfGroup(k.ambxst.value.system[n]) == Some(g);
      GroupIsKnown(k.ambxst.value.system[n]);
    }
  }

  function Registration(k: ConfigKeybinds, keymon: Commands): Commands {
    map g | g in GROUPS && GroupOutsideDynamic(k, g) :: Running(keymon, g)
  }

  lemma WinnersRegister(k: ConfigKeybinds, keymon: Commands, g: string)
    requires Running(keymon, g) in Winners(k, g)
    ensures RegistersAt(CloneKeybinds(k), Registration(k, keymon), g)
  {
    if GroupOutsideDynamic(k, g) {
      OutsideIsKnown(k, g);
    }
    if LastCommand(k.custom, g).None? && k.ambxst.Some? && HasGroup(k.ambxst.value.system, g) {
      var n :| n in k.ambxst.value.system && ModifierSelfGroup(k.ambxst.value.system[n]) == Some(g)
               && k.ambxst.value.system[n].argument == Running(keymon, g);
    }
  }

  lemma RegistrationIsMonitor(k: ConfigKeybinds, keymon: Commands)
    requires RunsWinners(k, keymon) && NoneEmpty(keymon)
    ensures NonEmpty(Registration(k, keymon)) == keymon
  {
    forall g | g in keymon ensures g in Registration(k, keymon) {
      assert Running(keymon, g) in Winners(k, g);
      OutsideIsKnown(k, g);
    }
  }

  /** The monitor is in step with cached keybinds exactly when it runs, for every group, a command that may win. */
  lemma SyncedIff(k: ConfigKeybinds, keymon: Commands)
    ensures Synced(k, keymon) <==> NoneEmpty(keymon) && RunsWinners(k, keymon)
  {
    if Synced(k, keymon) {
      var m :| Registers(CloneKeybinds(k), m) && keymon == NonEmpty(m);
      forall g ensures Running(keymon, g) in Winners(k, g) {
        assert RegistersAt(CloneKeybinds(k), m, g);
        RegisteredIsWinner(k, m, g);
      }
    }
    if NoneEmpty(keymon) && RunsWinners(k, keymon) {
      var m := Registration(k, keymon);
      forall g ensures RegistersAt(CloneKeybinds(k), m, g) {
        WinnersRegister(k, keymon, g);
      }
      RegistrationIsMonitor(k, keymon);
    }
  }

  /** When no two system binds of a group have different commands, a registration is unique. */
  predicate Unambiguous(k: ConfigKeybinds) { forall g :: g in GROUPS ==> |Winners(k, g)| == 1 }

  // ---------------------------------------------------------------------
  // The server on niri, one request at a time
  // ---------------------------------------------------------------------

  /** A file on disk; two spellings of one file are one path. */
  type Path = string

  /** Where requests write: the compositor's default output path. */
  const REQUEST_PATH: Path := "axctl.generated.kdl"

  /** How writing and loading the generated file ends. */
  datatype FileOutcome = NotWritten | NotReloaded | Loaded

  /** files: the keybinds each generated file was last written from. */
  datatype State = State(last: Option<ConfigUniversal>, keymon: Commands, files: map<Path, ConfigKeybinds>)

  /** Apply: a full apply, to the default path by request, or from the TOML to its target if it names one. */
  datatype Op =
    | Apply(payload: ConfigUniversal, path: Path, outcome: FileOutcome)
    | SetKeys(req: Cache.Request, outcome: FileOutcome)
    | Keybinds(batch: BatchKeybinds, outcome: FileOutcome)
    | BindKey(mods: seq<string>, key: string, command: string)
    | UnbindKey(mods: seq<string>, key: string)

  function RuntimeBind(mods: seq<string>, key: string, command: string): Keybind {
    Keybind(mods, key, "exec", command, "", true)
  }

  function AfterKeys(l: ConfigUniversal, req: Cache.Request, scan: Scanners): ConfigUniversal {
    Clone(l).(appearance := Cache.Applied(l.appearance, req, scan))
  }

  function AfterBatch(l: ConfigUniversal, b: BatchKeybinds): ConfigUniversal {
    Clone(l).(keybinds := Batch.Apply(CloneKeybinds(l.keybinds), b))
  }

  predicate IsSelf(mods: seq<string>, key: string) { ModifierSelfGroup(RuntimeBind(mods, key, "")).Some? }

  /** The cached payload an operation leaves when it gets as far as changing it. */
  function NextLast(last: Option<ConfigUniversal>, op: Op, scan: Scanners): Option<ConfigUniversal> {
    match op
    case Apply(p, _, _) => Some(p)
    case SetKeys(req, _) =>
      if last.Some? && Cache.Rejected(req, req.Keys, scan) == {} then Some(AfterKeys(last.value, req, scan)) else None
    case Keybinds(b, _) => if last.Some? then Some(AfterBatch(last.value, b)) else None
    case BindKey(mods, key, command) =>
      if last.Some? && IsSelf(mods, key) then Some(AfterBatch(last.value, BatchKeybinds([RuntimeBind(mods, key, command)], []))) else None
    case UnbindKey(mods, key) =>
      if last.Some? && IsSelf(mods, key) then Some(AfterBatch(last.value, BatchKeybinds([], [KeybindTarget(mods, key)]))) else None
  }

  predicate Rewrites(op: Op) { op.Apply? || op.SetKeys? || op.Keybinds? }
  function PathOf(op: Op): Path { if op.Apply? then op.path else REQUEST_PATH }
  function OutcomeOf(op: Op): FileOutcome { if Rewrites(op) then op.outcome else Loaded }

  /** One operation. A full apply caches the payload only once the file is loaded; a partial update
      caches first and writes second; a runtime modifier-alone bind never writes the file. */
  ghost predicate Next(s: State, op: Op, s': State, scan: Scanners) {
    var next := NextLast(s.last, op, scan);
    if next.None? then s' == s
    else
      && (if OutcomeOf(op) == Loaded then Synced(next.value.keybinds, s'.keymon) else s'.keymon == s.keymon)
      && s'.last == (if op.Apply? && op.outcome != Loaded then s.last else next)
      && s'.files == (if !Rewrites(op) || op.outcome == NotWritten then s.files else s.files[PathOf(op) := next.value.keybinds])
  }

  /** A request that rewrites the file and is answered without an error. */
  predicate Succeeds(s: State, op: Op, scan: Scanners) {
    Rewrites(op) && NextLast(s.last, op, scan).Some? && op.outcome == Loaded
  }

  ghost predicate FileInSync(s: State, path: Path, table: DispatchTable) {
    s.last.Some? ==> path in s.files && SameOutput(s.files[path], s.last.value.keybinds, table)
  }

  ghost predicate MonitorInSync(s: State) {
    if s.last.None? then s.keymon == map[] else Synced(s.last.value.keybinds, s.keymon)
  }

  /** The monitor and the file both follow the cached payload. */
  ghost predicate InSync(s: State, path: Path, table: DispatchTable) { MonitorInSync(s) && FileInSync(s, path, table) }

  lemma BindKeepsOutput(l: ConfigUniversal, b: Keybind, a: ConfigKeybinds, table: DispatchTable)
    requires ModifierSelfGroup(b).Some? && SameOutput(a, l.keybinds, table)
    ensures SameOutput(a, AfterBatch(l, BatchKeybinds([b], [])).keybinds, table)
  {
    var k := CloneKeybinds(l.keybinds);
    SelfComboIsQuiet(b, table);
    UpsertQuiet(k.custom, b, table);
    assert [b][1..] == [];
    assert Batch.UpsertAll(k.custom, [b]) == Batch.Upsert(k.custom, b);
    assert DynamicNodes(k, table) == map[];
  }

  lemma UnbindKeepsOutput(l: ConfigUniversal, mods: seq<string>, key: string, a: ConfigKeybinds, table: DispatchTable)
    requires IsSelf(mods, key) && SameOutput(a, l.keybinds, table)
    ensures SameOutput(a, AfterBatch(l, BatchKeybinds([], [KeybindTarget(mods, key)])).keybinds, table)
  {
    var k := CloneKeybinds(l.keybinds);
    var t := KeybindTarget(mods, key);
    var c := TargetCombo(t);
    assert c == ComboOf(RuntimeBind(mods, key, ""));
    SelfComboIsQuiet(RuntimeBind(mods, key, ""), table);
    KeepQuiet(k.custom, c, table);
    assert [t][1..] == [];
    var u := Batch.UnbindOne(k, c);
    assert Batch.UnbindAll(k, [t]) == Batch.UnbindAll(u, []) == u;
    if k.ambxst.Some? {
      KeepNamedQuiet(k.ambxst.value.system, c, table);
      KeepNamedQuiet(k.ambxst.value.binds, c, table);
    }
    assert DynamicNodes(u, table) == map[];
  }

  lemma SelfGroupIgnoresArgument(mods: seq<string>, key: string, command: string)
    ensures ModifierSelfGroup(RuntimeBind(mods, key, command)) == ModifierSelfGroup(RuntimeBind(mods, key, ""))
  {
  }

  // ---------------------------------------------------------------------
  // Exactly when an operation takes the server out of step
  // ---------------------------------------------------------------------

  /** A batch changes nothing of what the file says: no bind that it unbinds in the system section is written, and
      the custom list writes the same nodes. */
  predicate BatchKeepsOutput(k: ConfigKeybinds, b: BatchKeybinds, table: DispatchTable) {
    && (k.ambxst.Some? ==> forall n :: n in k.ambxst.value.system && Place(k.ambxst.value.system[n], table).Emit? ==>
                                       !Batch.Unbound(b.unbinds, ComboOf(k.ambxst.value.system[n])))
    && ListNodes(Batch.UpsertAll(Batch.KeepAll(k.custom, b.unbinds), b.binds), table) == ListNodes(k.custom, table)
  }

  /** A batch leaves every command that runs among those that may win. */
  ghost predicate BatchKeepsMonitor(k: ConfigKeybinds, b: BatchKeybinds, keymon: Commands) {
    RunsWinners(Batch.Apply(CloneKeybinds(k), b), keymon)
  }

  lemma BatchSystem(k: ConfigKeybinds, b: BatchKeybinds, table: DispatchTable)
    ensures var l := Batch.Apply(CloneKeybinds(k), b);
            && (SystemNodes(l, table) == SystemNodes(k, table) <==>
                  (k.ambxst.Some? ==> forall n :: n in k.ambxst.value.system && Place(k.ambxst.value.system[n], table).Emit? ==>
                                                  !Batch.Unbound(b.unbinds, ComboOf(k.ambxst.value.system[n]))))
  {
    var c, u := CloneKeybinds(k), Batch.UnbindAll(CloneKeybinds(k), b.unbinds);
    Batch.UnbindAllSections(c, b.unbinds, Combo("", ""));
    if k.ambxst.Some? {
      var a, v := k.ambxst.value.system, u.ambxst.value.system;
      forall n ensures (n in v <==> n in a && !Batch.Unbound(b.unbinds, ComboOf(a[n]))) && (n in v ==> v[n] == a[n]) {
        Batch.UnbindAllNamed(c, b.unbinds, n);
      }
      SystemSurvives(a, v, b.unbinds, table);
    }
  }

  lemma SystemSurvives(a: map<string, Keybind>, v: map<string, Keybind>, us: seq<KeybindTarget>, table: DispatchTable)
    requires forall n :: (n in v <==> n in a && !Batch.Unbound(us, ComboOf(a[n]))) && (n in v ==> v[n] == a[n])
    ensures NamedNodes(v, table) == NamedNodes(a, table) <==>
              forall n :: n in a && Place(a[n], table).Emit? ==> !Batch.Unbound(us, ComboOf(a[n]))
  {
    if NamedNodes(v, table) == NamedNodes(a, table) {
      forall n | n in a && Place(a[n], table).Emit? ensures !Batch.Unbound(us, ComboOf(a[n])) {
        assert n in NamedNodes(a, table);
        assert n in NamedNodes(v, table);
      }
    }
    if forall n :: n in a && Place(a[n], table).Emit? ==> !Batch.Unbound(us, ComboOf(a[n])) {
      assert NamedNodes(v, table).Keys == NamedNodes(a, table).Keys;
    }
  }

  lemma BatchOutput(k: ConfigKeybinds, b: BatchKeybinds, a: ConfigKeybinds, table: DispatchTable)
    requires SameOutput(a, k, table)
    ensures SameOutput(a, Batch.Apply(CloneKeybinds(k), b), table) <==> BatchKeepsOutput(k, b, table)
  {
    var l := Batch.Apply(CloneKeybinds(k), b);
    BatchSystem(k, b, table);
    Batch.UnbindAllSections(CloneKeybinds(k), b.unbinds, Combo("", ""));
    UnbindAllNoDynamic(CloneKeybinds(k), b.unbinds);
    assert DynamicNodes(l, table) == map[];
    SameOutputTransfers(a, k, l, table);
  }

  lemma BatchMonitor(k: ConfigKeybinds, b: BatchKeybinds, keymon: Commands)
    requires Synced(k, keymon)
    ensures Synced(Batch.Apply(CloneKeybinds(k), b), keymon) <==> BatchKeepsMonitor(k, b, keymon)
  {
    SyncedIff(k, keymon);
    SyncedIff(Batch.Apply(CloneKeybinds(k), b), keymon);
  }

  /** Without ambiguous groups: the monitor stays right exactly when the batch changes no group's winning command. */
  lemma UnambiguousBatch(k: ConfigKeybinds, b: BatchKeybinds, keymon: Commands)
    requires Synced(k, keymon) && Unambiguous(k) && Unambiguous(Batch.Apply(CloneKeybinds(k), b))
    ensures BatchKeepsMonitor(k, b, keymon)
            <==> forall g :: g in GROUPS ==> Winners(Batch.Apply(CloneKeybinds(k), b), g) == Winners(k, g)
  {
    var l := Batch.Apply(CloneKeybinds(k), b);
    SyncedIff(k, keymon);
    forall g | g in GROUPS ensures Running(keymon, g) in Winners(l, g) <==> Winners(l, g) == Winners(k, g) {
      assert Running(keymon, g) in Winners(k, g);
      Singletons(Winners(k, g), Winners(l, g), Running(keymon, g));
    }
    forall g | g !in GROUPS ensures Running(keymon, g) in Winners(l, g) {
      assert Running(keymon, g) in Winners(k, g);
      NoSuchGroup(k, g);
      NoSuchGroup(l, g);
    }
  }

  lemma Singletons(a: set<string>, b: set<string>, x: string)
    requires |a| == 1 && |b| == 1 && x in a
    ensures x in b <==> a == b
  {
    SingletonIs(a, x);
    if x in b {
      SingletonIs(b, x);
    }
  }

  lemma SingletonIs(a: set<string>, x: string)
    requires |a| == 1 && x in a
    ensures a == {x}
  {
    var rest := a - {x};
    assert |rest| == 0 && a == rest + {x};
  }

  lemma NoSuchGroup(k: ConfigKeybinds, g: string)
    requires g !in GROUPS
    ensures Winners(k, g) == {""}
  {
    if GroupOutsideDynamic(k, g) {
      OutsideIsKnown(k, g);
    }
  }

  predicate Wrote(op: Op, path: Path) { Rewrites(op) && PathOf(op) == path && op.outcome != NotWritten }

  /** The operations that take a server that is in step out of it: a batch whose file is not loaded and that changes
      what the monitor runs; a batch that changes what the file says without writing it; a full apply written but
      not loaded, and different from what is cached; and a full apply to another file. */
  ghost predicate Disturbs(s: State, op: Op, path: Path, table: DispatchTable) {
    match op
    case Keybinds(b, o) =>
      s.last.Some? && ((o != Loaded && !BatchKeepsMonitor(s.last.value.keybinds, b, s.keymon))
                       || (!Wrote(op, path) && !BatchKeepsOutput(s.last.value.keybinds, b, table)))
    case Apply(p, q, Loaded) => q != path && !(path in s.files && SameOutput(s.files[path], p.keybinds, table))
    case Apply(p, q, NotReloaded) => q == path && s.last.Some? && !SameOutput(p.keybinds, s.last.value.keybinds, table)
    case _ => false
  }

  lemma CloneKeepsOutput(a: ConfigKeybinds, k: ConfigKeybinds, table: DispatchTable)
    requires SameOutput(a, k, table)
    ensures SameOutput(a, CloneKeybinds(k), table)
  {
    assert DynamicNodes(CloneKeybinds(k), table) == map[];
  }

  lemma CloneKeepsMonitor(k: ConfigKeybinds, keymon: Commands)
    ensures Synced(CloneKeybinds(k), keymon) <==> Synced(k, keymon)
  {
    assert CloneKeybinds(CloneKeybinds(k)) == CloneKeybinds(k);
  }

  lemma SettingsKeepSync(s: State, op: Op, s': State, path: Path, table: DispatchTable, scan: Scanners)
    requires Next(s, op, s', scan) && InSync(s, path, table) && op.SetKeys?
    ensures InSync(s', path, table)
  {
    if NextLast(s.last, op, scan).Some? {
      var k := s.last.value.keybinds;
      assert s'.last.value.keybinds == CloneKeybinds(k);
      CloneKeepsMonitor(k, s.keymon);
      CloneKeepsOutput(s.files[path], k, table);
    }
  }

  lemma BatchKeepsSyncIff(s: State, b: BatchKeybinds, o: FileOutcome, s': State, path: Path, table: DispatchTable, scan: Scanners)
    requires Next(s, Keybinds(b, o), s', scan) && InSync(s, path, table)
    ensures InSync(s', path, table) <==> !Disturbs(s, Keybinds(b, o), path, table)
  {
    if s.last.Some? {
      var k := s.last.value.keybinds;
      BatchOutput(k, b, s.files[path], table);
      BatchMonitor(k, b, s.keymon);
    }
  }

  lemma RuntimeKeepsSync(s: State, op: Op, s': State, path: Path, table: DispatchTable, scan: Scanners)
    requires Next(s, op, s', scan) && InSync(s, path, table) && !Rewrites(op)
    ensures InSync(s', path, table)
  {
    if NextLast(s.last, op, scan).Some? {
      match op
      case BindKey(mods, key, command) =>
        SelfGroupIgnoresArgument(mods, key, command);
        BindKeepsOutput(s.last.value, RuntimeBind(mods, key, command), s.files[path], table);
      case UnbindKey(mods, key) =>
        UnbindKeepsOutput(s.last.value, mods, key, s.files[path], table);
      case _ =>
    }
  }

  /** For every file: an operation keeps a server in step exactly when it does not disturb it. */
  lemma StepKeepsSyncIff(s: State, op: Op, s': State, path: Path, table: DispatchTable, scan: Scanners)
    requires Next(s, op, s', scan) && InSync(s, path, table)
    ensures InSync(s', path, table) <==> !Disturbs(s, op, path, table)
  {
    match op
    case Keybinds(b, o) => BatchKeepsSyncIff(s, b, o, s', path, table, scan);
    case SetKeys(_, _) => SettingsKeepSync(s, op, s', path, table, scan);
    case Apply(_, _, _) =>
    case _ => RuntimeKeepsSync(s, op, s', path, table, scan);
  }

  /** A request that succeeds puts the monitor and the file it writes in step whatever failed before it. */
  lemma SuccessRestoresSync(s: State, op: Op, s': State, table: DispatchTable, scan: Scanners)
    requires Next(s, op, s', scan) && Succeeds(s, op, scan)
    ensures InSync(s', PathOf(op), table)
  {
  }

  /** After a TOML apply to a target file, a keybind request that succeeds leaves that file in step exactly when the
      target is the file that requests write, or the batch changes nothing of what the file says. */
  lemma TargetFollowsIff(s: State, b: BatchKeybinds, s': State, target: Path, table: DispatchTable, scan: Scanners)
    requires s.last.Some? && InSync(s, target, table) && Next(s, Keybinds(b, Loaded), s', scan)
    ensures InSync(s', target, table) <==> target == REQUEST_PATH || BatchKeepsOutput(s.last.value.keybinds, b, table)
  {
    BatchKeepsSyncIff(s, b, Loaded, s', target, table, scan);
  }

  ghost predicate History(states: seq<State>, ops: seq<Op>, scan: Scanners) {
    |states| == |ops| + 1 && forall i :: 0 <= i < |ops| ==> Next(states[i], ops[i], states[i + 1], scan)
  }

  /** Over every run from a server in step: it is in step after each operation exactly when none of them disturbs it. */
  lemma {:induction false} AlwaysInSyncIff(states: seq<State>, ops: seq<Op>, path: Path, table: DispatchTable, scan: Scanners)
    requires History(states, ops, scan) && InSync(states[0], path, table)
    ensures (forall i :: 0 <= i < |states| ==> InSync(states[i], path, table))
            <==> forall i :: 0 <= i < |ops| ==> !Disturbs(states[i], ops[i], path, table)
  {
    if forall i :: 0 <= i < |states| ==> InSync(states[i], path, table) {
      forall i | 0 <= i < |ops| ensures !Disturbs(states[i], ops[i], path, table) {
        StepKeepsSyncIff(states[i], ops[i], states[i + 1], path, table, scan);
      }
    }
    if forall i :: 0 <= i < |ops| ==> !Disturbs(states[i], ops[i], path, table) {
      forall i | 0 <= i < |states| ensures InSync(states[i], path, table) {
        StaysInSync(states, ops, 0, i, path, table, scan);
      }
    }
  }

  lemma {:induction false} StaysInSync(states: seq<State>, ops: seq<Op>, from: nat, to: nat, path: Path, table: DispatchTable, scan: Scanners)
    requires History(states, ops, scan) && from <= to < |states| && InSync(states[from], path, table)
    requires forall i :: from <= i < to ==> !Disturbs(states[i], ops[i], path, table)
    ensures InSync(states[to], path, table)
    decreases |states| - from
  {
    if from < to {
      StepKeepsSyncIff(states[from], ops[from], states[from + 1], path, table, scan);
      StaysInSync(states, ops, from + 1, to, path, table, scan);
    }
  }

  /** Over every run, from any start: the server is in step at the end if some request that wrote the file succeeded
      and nothing disturbed it since. */
  lemma RunsEndInSync(states: seq<State>, ops: seq<Op>, at: nat, path: Path, table: DispatchTable, scan: Scanners)
    requires History(states, ops, scan) && at < |ops| && Succeeds(states[at], ops[at], scan) && PathOf(ops[at]) == path
    requires forall i :: at < i < |ops| ==> !Disturbs(states[i], ops[i], path, table)
    ensures InSync(states[|ops|], path, table)
  {
    SuccessRestoresSync(states[at], ops[at], states[at + 1], table, scan);
    StaysInSync(states, ops, at + 1, |ops|, path, table, scan);
  }

  // ---------------------------------------------------------------------
  // Runtime binds, on the fields of the binds
  // ---------------------------------------------------------------------

  /** After the removal of a modifier-alone bind, exactly the cached binds with its key and its modifiers are gone. */
  lemma UnbindKeyRemoves(s: State, mods: seq<string>, key: string, s': State, scan: Scanners, kb: Keybind, n: string)
    requires Next(s, UnbindKey(mods, key), s', scan) && s.last.Some? && IsSelf(mods, key)
    ensures s'.last.Some?
    ensures var k, l := s.last.value.keybinds, s'.last.value.keybinds;
            && (kb in l.custom <==> kb in k.custom && !(kb.key == key && JoinSpace(kb.modifiers) == JoinSpace(mods)))
            && (k.ambxst.Some? ==>
                  var a := k.ambxst.value.system;
                  l.ambxst.Some? && (n in l.ambxst.value.system <==>
                                       n in a && !(a[n].key == key && JoinSpace(a[n].modifiers) == JoinSpace(mods))))
  {
    var k, us := CloneKeybinds(s.last.value.keybinds), [KeybindTarget(mods, key)];
    OneNamed(us, kb);
    Batch.CustomSurvivesIff(k, us, kb);
    if k.ambxst.Some? {
      Batch.NamedSurvivesIff(k, BatchKeybinds([], us), n);
      if n in k.ambxst.value.system {
        OneNamed(us, k.ambxst.value.system[n]);
      }
    }
  }

  lemma OneNamed(us: seq<KeybindTarget>, kb: Keybind)
    requires |us| == 1
    ensures Batch.AnyNames(us, kb) <==> kb.key == us[0].key && JoinSpace(kb.modifiers) == JoinSpace(us[0].modifiers)
  {
    if kb.key == us[0].key && JoinSpace(kb.modifiers) == JoinSpace(us[0].modifiers) {
      assert Batch.Names(us[0], kb);
    }
  }

  /** After a runtime modifier-alone bind, the first cached custom bind with its key and its modifiers runs the command. */
  lemma BindKeyBinds(s: State, mods: seq<string>, key: string, command: string, s': State, scan: Scanners)
    requires Next(s, BindKey(mods, key, command), s', scan) && s.last.Some? && IsSelf(mods, key)
    ensures s'.last.Some?
    ensures var l := s'.last.value.keybinds.custom;
            exists i :: 0 <= i < |l| && l[i] == Keybind(mods, key, "exec", command, "", true)
                        && forall j :: 0 <= j < i ==> !(l[j].key == key && JoinSpace(l[j].modifiers) == JoinSpace(mods))
  {
    var k, b := CloneKeybinds(s.last.value.keybinds), RuntimeBind(mods, key, command);
    Batch.BoundIsFirst(k, BatchKeybinds([b], []), 0);
    var l := s'.last.value.keybinds.custom;
    var i :| 0 <= i < |l| && l[i] == b && !Batch.AnySame(l[..i], b);
    forall j | 0 <= j < i ensures !(l[j].key == key && JoinSpace(l[j].modifiers) == JoinSpace(mods)) {
      assert !Batch.SameTrigger(l[..i][j], b);
    }
  }

  // ---------------------------------------------------------------------
  // Who handles a bind
  // ---------------------------------------------------------------------

  predicate HandledByKeymon(s: State, kb: Keybind) {
    ModifierSelfGroup(kb).Some? && ModifierSelfGroup(kb).value in s.keymon && s.keymon[ModifierSelfGroup(kb).value] == kb.argument
  }

  /** Every command the monitor runs is the non-empty argument of a cached system or custom bind,
      and the generator skips that bind. */
  lemma KeymonComesFromSkippedBind(s: State, table: DispatchTable, g: string)
    requires s.last.Some? && MonitorInSync(s) && g in s.keymon
    ensures s.keymon[g] != ""
    ensures exists slot :: KeymonSource(s, table, g, slot)
  {
    var k := CloneKeybinds(s.last.value.keybinds);
    var m :| Registers(k, m) && s.keymon == NonEmpty(m);
    assert RegistersAt(k, m, g);
    if LastCommand(k.custom, g).Some? {
      var i := LastCommandSome(k.custom, g);
      ModifierAloneIsSkipped(k.custom[i], table);
      assert KeymonSource(s, table, g, Custom(i));
    } else {
      var n :| n in k.ambxst.value.system && ModifierSelfGroup(k.ambxst.value.system[n]) == Some(g)
               && k.ambxst.value.system[n].argument == m[g];
      ModifierAloneIsSkipped(k.ambxst.value.system[n], table);
      assert KeymonSource(s, table, g, System(n));
    }
  }

  predicate KeymonSource(s: State, table: DispatchTable, g: string, slot: Slot)
    requires s.last.Some? && g in s.keymon
  {
    var kb := BindAt(s.last.value.keybinds, slot);
    && !slot.Dynamic? && kb.Some? && ModifierSelfGroup(kb.value) == Some(g)
    && kb.value.argument == s.keymon[g] && Place(kb.value, table) == Skip(ModifierAlone)
  }

  /** Every bind the generated file holds in its system or custom part is a cached bind the monitor
      does not handle; the dynamic part is never handled by the monitor either. */
  lemma FileComesFromState(s: State, path: Path, table: DispatchTable, emitted: seq<(Slot, Node)>, skipped: seq<(Slot, Reason)>, i: nat)
    requires s.last.Some? && FileInSync(s, path, table) && i < |emitted|
    requires Accounted(s.files[path], AllSlots(s.files[path]), table, emitted, skipped)
    ensures emitted[i].0.Dynamic? || exists slot :: FileSource(s, table, emitted[i].1, slot)
    ensures BindAt(s.files[path], emitted[i].0).Some? && !HandledByKeymon(s, BindAt(s.files[path], emitted[i].0).value)
  {
    var k, a := s.last.value.keybinds, s.files[path];
    var slot, node := emitted[i].0, emitted[i].1;
    var kb := BindAt(a, slot).value;
    assert Place(kb, table) == Emit(node);
    if ModifierSelfGroup(kb).Some? {
      ModifierAloneIsSkipped(kb, table);
      assert false;
    }
    match slot
    case System(n) =>
      assert n in SystemNodes(a, table);
      assert n in SystemNodes(k, table) && SystemNodes(k, table)[n] == node;
      EmittedIsNotHandled(s, k.ambxst.value.system[n], table);
      assert FileSource(s, table, node, System(n));
    case Custom(j) =>
      ListNodesMember(a.custom, table, node);
      ListNodesMember(k.custom, table, node);
      var j' :| 0 <= j' < |k.custom| && Place(k.custom[j'], table) == Emit(node);
      EmittedIsNotHandled(s, k.custom[j'], table);
      assert FileSource(s, table, node, Custom(j'));
    case Dynamic(n) =>
  }

  predicate FileSource(s: State, table: DispatchTable, node: Node, slot: Slot)
    requires s.last.Some?
  {
    var kb := BindAt(s.last.value.keybinds, slot);
    kb.Some? && Place(kb.value, table) == Emit(node) && !HandledByKeymon(s, kb.value)
  }

  lemma EmittedIsNotHandled(s: State, kb: Keybind, table: DispatchTable)
    requires Place(kb, table).Emit?
    ensures !HandledByKeymon(s, kb)
  {
    if ModifierSelfGroup(kb).Some? {
      ModifierAloneIsSkipped(kb, table);
    }
  }

  /** Every cached system or custom bind that the generator can write is in the file. */
  lemma StateReachesFile(s: State, path: Path, table: DispatchTable, emitted: seq<(Slot, Node)>, skipped: seq<(Slot, Reason)>, slot: Slot)
    requires s.last.Some? && FileInSync(s, path, table) && !slot.Dynamic?
    requires Accounted(s.files[path], AllSlots(s.files[path]), table, emitted, skipped)
    requires OutcomeAt(s.last.value.keybinds, slot, table).Emit?
    ensures exists i :: 0 <= i < |emitted| && emitted[i].1 == OutcomeAt(s.last.value.keybinds, slot, table).node
  {
    var k, a := s.last.value.keybinds, s.files[path];
    var node := OutcomeAt(k, slot, table).node;
    var there := slot;
    if slot.System? {
      assert slot.name in SystemNodes(k, table);
      assert slot.name in SystemNodes(a, table) && SystemNodes(a, table)[slot.name] == node;
    } else {
      ListNodesMember(k.custom, table, node);
      ListNodesMember(a.custom, table, node);
      var j :| 0 <= j < |a.custom| && Place(a.custom[j], table) == Emit(node);
      there := Custom(j);
    }
    assert there in AllSlots(a) && OutcomeAt(a, there, table) == Emit(node);
    var i :| 0 <= i < |emitted| && emitted[i] == (there, node);
  }

  /** A group is served exactly when its winning bind has a command: the last custom one, or failing
      that some system one. */
  lemma ServedWhen(k: ConfigKeybinds, keymon: Commands, g: string)
    requires Synced(k, keymon)
    ensures LastCommand(k.custom, g).Some? ==> (g in keymon <==> LastCommand(k.custom, g).value != "")
    ensures LastCommand(k.custom, g).Some? && g in keymon ==> keymon[g] == LastCommand(k.custom, g).value
    ensures LastCommand(k.custom, g).None? && g in keymon ==> k.ambxst.Some? && IsCommandOf(k.ambxst.value.system, g, keymon[g])
    ensures LastCommand(k.custom, g).None? && k.ambxst.Some? && HasGroup(k.ambxst.value.system, g) && g !in keymon ==>
              IsCommandOf(k.ambxst.value.system, g, "")
  {
    var c := CloneKeybinds(k);
    var m :| Registers(c, m) && keymon == NonEmpty(m);
    assert RegistersAt(c, m, g);
  }

  // ---------------------------------------------------------------------
  // Where the promise stops
  // ---------------------------------------------------------------------

  ghost predicate GroupIn(k: ConfigKeybinds, g: string) {
    exists slot :: BindAt(k, slot).Some? && ModifierSelfGroup(BindAt(k, slot).value) == Some(g)
  }

  /** What the server registers covers a modifier-alone group exactly when some system or custom bind
      has that group: dynamic binds are lost in the copy it registers from, although the generator
      skips them too. */
  lemma RegisteredIff(k: ConfigKeybinds, m: Commands, g: string)
    requires Registers(CloneKeybinds(k), m)
    ensures g in m <==> GroupOutsideDynamic(k, g)
    ensures GroupIn(k, g) <==> GroupOutsideDynamic(k, g) || (k.ambxst.Some? && HasGroup(k.ambxst.value.binds, g))
  {
    assert RegistersAt(CloneKeybinds(k), m, g);
    if LastCommand(k.custom, g).Some? {
      var i := LastCommandSome(k.custom, g);
      assert BindAt(k, Custom(i)).Some?;
    } else {
      if GroupIn(k, g) {
        var slot :| BindAt(k, slot).Some? && ModifierSelfGroup(BindAt(k, slot).value) == Some(g);
        if slot.Custom? {
          LastCommandNone(k.custom, g, slot.index);
        }
      }
      NamedGroupIn(k, g);
    }
  }

  lemma NamedGroupIn(k: ConfigKeybinds, g: string)
    ensures k.ambxst.Some? && HasGroup(k.ambxst.value.system, g) ==> GroupIn(k, g)
    ensures k.ambxst.Some? && HasGroup(k.ambxst.value.binds, g) ==> GroupIn(k, g)
  {
    if k.ambxst.Some? && HasGroup(k.ambxst.value.system, g) {
      var n :| n in k.ambxst.value.system && ModifierSelfGroup(k.ambxst.value.system[n]) == Some(g);
      assert BindAt(k, System(n)).Some?;
    }
    if k.ambxst.Some? && HasGroup(k.ambxst.value.binds, g) {
      var n :| n in k.ambxst.value.binds && ModifierSelfGroup(k.ambxst.value.binds[n]) == Some(g);
      assert BindAt(k, Dynamic(n)).Some?;
    }
  }

  /** Every modifier-alone group of a payload is registered exactly when its dynamic binds bring no
      group of their own. */
  lemma NothingLostIff(k: ConfigKeybinds, m: Commands)
    requires Registers(CloneKeybinds(k), m)
    ensures (forall g :: GroupIn(k, g) ==> g in m)
            <==> (k.ambxst.Some? ==> forall g :: HasGroup(k.ambxst.value.binds, g) ==> GroupOutsideDynamic(k, g))
  {
    forall g ensures (g in m <==> GroupOutsideDynamic(k, g))
                     && (GroupIn(k, g) <==> GroupOutsideDynamic(k, g) || (k.ambxst.Some? && HasGroup(k.ambxst.value.binds, g))) {
      RegisteredIff(k, m, g);
    }
  }

  function LoneSuper(command: string): Keybind { RuntimeBind(["SUPER"], "Super_L", command) }

  /** A payload whose only bind is a dynamic modifier-alone bind: after a successful apply neither the
      file nor the monitor handles it. */
  lemma DynamicModifierBindIsLost(p: ConfigUniversal, path: Path, s: State, s': State, table: DispatchTable, scan: Scanners)
    requires p.keybinds == ConfigKeybinds(Some(AmbxstKeybinds(map[], map["menu" := LoneSuper("menu")])), [])
    requires Next(s, Apply(p, path, Loaded), s', scan)
    ensures GroupIn(p.keybinds, "SUPER") && s'.last == Some(p) && "SUPER" !in s'.keymon
    ensures OutcomeAt(p.keybinds, Dynamic("menu"), table) == Skip(ModifierAlone)
  {
    var kb := LoneSuper("menu");
    assert BindAt(p.keybinds, Dynamic("menu")) == Some(kb);
    assert ModifierSelfGroup(kb) == Some("SUPER");
    ModifierAloneIsSkipped(kb, table);
    var m :| Registers(CloneKeybinds(p.keybinds), m) && s'.keymon == NonEmpty(m);
    RegisteredIff(p.keybinds, m, "SUPER");
  }

  /** The first partial update after a full apply keeps every written bind except the dynamic ones,
      which vanish from the file; it keeps them exactly when there are none to lose. */
  lemma PartialUpdateDropsDynamic(p: ConfigUniversal, s: State, s': State, req: Cache.Request, table: DispatchTable, scan: Scanners)
    requires s.last == Some(p) && REQUEST_PATH in s.files && s.files[REQUEST_PATH] == p.keybinds
    requires Next(s, SetKeys(req, Loaded), s', scan) && Succeeds(s, SetKeys(req, Loaded), scan)
    ensures REQUEST_PATH in s'.files
    ensures SystemNodes(s'.files[REQUEST_PATH], table) == SystemNodes(p.keybinds, table) && s'.files[REQUEST_PATH].custom == p.keybinds.custom
    ensures DynamicNodes(s'.files[REQUEST_PATH], table) == map[]
    ensures DynamicNodes(s'.files[REQUEST_PATH], table) == DynamicNodes(p.keybinds, table)
            <==> p.keybinds.ambxst.Some? ==> forall n :: n in p.keybinds.ambxst.value.binds ==> !Place(p.keybinds.ambxst.value.binds[n], table).Emit?
  {
    if p.keybinds.ambxst.Some? {
      var b := p.keybinds.ambxst.value.binds;
      forall n | n in b ensures n in NamedNodes(b, table) <==> Place(b[n], table).Emit? {
      }
    }
  }

  /** A partial update that fails halfway leaves the cache ahead of the monitor: from nothing bound to a
      lone modifier bound in the cache, but not in the monitor. */
  lemma FailedWriteLeavesMonitorBehind(p: ConfigUniversal, s: State, s': State, outcome: FileOutcome, path: Path, table: DispatchTable, scan: Scanners)
    requires p.keybinds == ConfigKeybinds(None, []) && outcome != Loaded
    requires s.last == Some(p) && InSync(s, path, table)
    requires Next(s, Keybinds(BatchKeybinds([LoneSuper("menu")], []), outcome), s', scan)
    ensures !InSync(s', path, table) && s'.last.Some? && LastCommand(s'.last.value.keybinds.custom, "SUPER") == Some("menu")
  {
    var kb := LoneSuper("menu");
    assert ModifierSelfGroup(kb) == Some("SUPER");
    var m0 :| Registers(CloneKeybinds(p.keybinds), m0) && s.keymon == NonEmpty(m0);
    assert RegistersAt(CloneKeybinds(p.keybinds), m0, "SUPER");
    assert [kb][1..] == [] && Batch.UpsertAll([], [kb]) == Batch.Upsert([], kb) == [kb];
    var k := s'.last.value.keybinds;
    assert k.custom == [kb] && LastCommand([kb], "SUPER") == Some("menu") && |"menu"| > 0;
    assert "SUPER" !in s'.keymon;
    if Synced(k, s'.keymon) {
      ServedWhen(k, s'.keymon, "SUPER");
      assert false;
    }
  }

  /** The payload a batch hands to the generator is the one it caches: both have lost the dynamic binds. */
  lemma CloneOfBatch(l: ConfigUniversal, b: BatchKeybinds)
    ensures Clone(AfterBatch(l, b)) == AfterBatch(l, b)
  {
    var k := CloneKeybinds(l.keybinds);
    UnbindAllNoDynamic(k, b.unbinds);
  }

  lemma {:induction false} UnbindAllNoDynamic(k: ConfigKeybinds, us: seq<KeybindTarget>)
    requires k.ambxst.Some? ==> k.ambxst.value.binds == map[]
    ensures var u := Batch.UnbindAll(k, us); u.ambxst.Some? ==> u.ambxst.value.binds == map[]
    decreases |us|
  {
    if us != [] {
      UnbindAllNoDynamic(Batch.UnbindOne(k, TargetCombo(us[0])), us[1..]);
    }
  }
}
