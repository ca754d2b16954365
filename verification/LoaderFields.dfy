/** Field by field, what the loaded configuration says: each scalar is the last writer's and
    each list is the post-order concatenation. */
module LoaderFields {
  import opened Prelude
  import opened TomlConfig
  import opened ConfigLoader
  import opened LoaderTheorems

  /** The single-valued settings that a merge carries. */
  datatype Setting = GapsInner | GapsOuter | BorderWidth | BorderActive | BorderInactive | BorderRounding
                   | OpacityActive | OpacityInactive | BlurEnabled | BlurSize | BlurPasses
                   | ShadowEnabled | ShadowSize | ShadowColor | AnimationsEnabled | LayoutName | KeyboardMap

  datatype SettingValue = IntValue(i: int) | TextValue(s: string) | RealValue(r: real) | BoolValue(b: bool) | KeyboardValue(k: Keyboard)

  function OfInt(o: Option<int>): Option<SettingValue> { if o.Some? then Some(IntValue(o.value)) else None }
  function OfText(o: Option<string>): Option<SettingValue> { if o.Some? then Some(TextValue(o.value)) else None }
  function OfReal(o: Option<real>): Option<SettingValue> { if o.Some? then Some(RealValue(o.value)) else None }
  function OfBool(o: Option<bool>): Option<SettingValue> { if o.Some? then Some(BoolValue(o.value)) else None }

  /** The value a configuration gives a setting, if it sets it; the empty layout name sets nothing. */
  function Read(c: Config, s: Setting): Option<SettingValue> {
    var a := c.appearance.GetOr(NO_APPEARANCE);
    match s
    case GapsInner => OfInt(a.gaps.GetOr(NO_GAPS).inner)
    case GapsOuter => OfInt(a.gaps.GetOr(NO_GAPS).outer)
    case BorderWidth => OfInt(a.border.GetOr(NO_BORDER).width)
    case BorderActive => OfText(a.border.GetOr(NO_BORDER).activeColor)
    case BorderInactive => OfText(a.border.GetOr(NO_BORDER).inactiveColor)
    case BorderRounding => OfInt(a.border.GetOr(NO_BORDER).rounding)
    case OpacityActive => OfReal(a.opacity.GetOr(NO_OPACITY).active)
    case OpacityInactive => OfReal(a.opacity.GetOr(NO_OPACITY).inactive)
    case BlurEnabled => OfBool(a.blur.GetOr(NO_BLUR).enabled)
    case BlurSize => OfInt(a.blur.GetOr(NO_BLUR).size)
    case BlurPasses => OfInt(a.blur.GetOr(NO_BLUR).passes)
    case ShadowEnabled => OfBool(a.shadow.GetOr(NO_SHADOW).enabled)
    case ShadowSize => OfInt(a.shadow.GetOr(NO_SHADOW).size)
    case ShadowColor => OfText(a.shadow.GetOr(NO_SHADOW).color)
    case AnimationsEnabled => OfBool(a.animations.GetOr(NO_ANIMATIONS).enabled)
    case LayoutName => if c.general.Some? && c.general.value.layout != "" then Some(TextValue(c.general.value.layout)) else None
    case KeyboardMap => if c.input.Some? && c.input.value.keyboard.Some? then Some(KeyboardValue(c.input.value.keyboard.value)) else None
  }

  lemma MergeOverridesSetting(a: Config, b: Config, s: Setting)
    ensures Read(MergeConfig(a, b), s) == Over(Read(a, s), Read(b, s))
  {
  }

  /** The last configuration of the list that sets s. */
  function LastWriter(cs: seq<Config>, s: Setting): Option<SettingValue>
    decreases |cs|
  {
    if cs == [] then None
    else if Read(cs[|cs| - 1], s).Some? then Read(cs[|cs| - 1], s)
    else LastWriter(cs[..|cs| - 1], s)
  }

  lemma {:induction false} FoldLastWriter(acc: Config, cs: seq<Config>, s: Setting)
    ensures Read(Fold(acc, cs), s) == Over(Read(acc, s), LastWriter(cs, s))
    decreases |cs|
  {
    if cs != [] {
      var init, last := cs[..|cs| - 1], cs[|cs| - 1];
      assert cs == init + [last];
      FoldConcat(acc, init, [last]);
      assert Fold(Fold(acc, init), [last]) == MergeConfig(Fold(acc, init), last);
      FoldLastWriter(acc, init, s);
      MergeOverridesSetting(Fold(acc, init), last, s);
    }
  }

  /** The fields that a merge carries over hold every setting. */
  lemma CarriedKeepsSetting(c: Config, s: Setting)
    ensures Read(Carried(c), s) == Read(c, s)
  {
  }

  lemma EmptyHasNoSetting(s: Setting)
    ensures Read(EMPTY, s).None?
  {
  }

  lemma LastSetterWins(cs: seq<Config>, last: Config, s: Setting)
    requires cs != [] && cs[|cs| - 1] == last && Read(last, s).Some?
    ensures LastWriter(cs, s) == Read(last, s)
  {
  }

  /** Every setting of the loaded configuration comes from the last file in post-order that sets it;
      in particular the root file wins over every include. */
  lemma LoadedSettingIsLastWriter(fs: FileSystem, root: Path, s: Setting)
    requires fs.read(root).Parsed?
    ensures var c := Load(fs, root, Marks({}, []), 0).0.value;
            && Read(c, s) == LastWriter(ConfigsOf(fs, Visit(fs, root, {}, 0).post), s)
            && (Read(fs.read(root).cfg, s).Some? ==> Read(c, s) == Read(fs.read(root).cfg, s))
  {
    LoadConfigIsPostOrderFold(fs, root);
    var c, post := Load(fs, root, Marks({}, []), 0).0.value, Visit(fs, root, {}, 0).post;
    var cs := ConfigsOf(fs, post);
    FoldLastWriter(EMPTY, cs, s);
    EmptyHasNoSetting(s);
    CarriedKeepsSetting(c, s);
    if Read(fs.read(root).cfg, s).Some? {
      LastSetterWins(cs, fs.read(root).cfg, s);
    }
  }

  // ---------------------------------------------------------------------
  // Lists
  // ---------------------------------------------------------------------

  /** The appended parts of a configuration. */
  datatype Parts = Parts(keybinds: seq<KeybindConfig>, windowRules: seq<WindowRule>, layerRules: seq<LayerRule>,
                         exec: seq<string>, execOnce: seq<string>, startupExec: seq<string>, startupExecOnce: seq<string>)

  const NO_PARTS := Parts([], [], [], [], [], [], [])

  function PartsOf(c: Config): Parts {
    var st := c.startup.GetOr(Startup(Absent, Absent));
    Parts(c.keybinds, c.windowRules, c.layerRules, CommandsOf(c.exec), CommandsOf(c.execOnce),
          CommandsOf(st.exec), CommandsOf(st.execOnce))
  }

  function Join(a: Parts, b: Parts): Parts {
    Parts(a.keybinds + b.keybinds, a.windowRules + b.windowRules, a.layerRules + b.layerRules, a.exec + b.exec,
          a.execOnce + b.execOnce, a.startupExec + b.startupExec, a.startupExecOnce + b.startupExecOnce)
  }

  function JoinAll(cs: seq<Config>): Parts
    decreases |cs|
  {
    if cs == [] then NO_PARTS else Join(JoinAll(cs[..|cs| - 1]), PartsOf(cs[|cs| - 1]))
  }

  lemma MergeJoinsParts(a: Config, b: Config)
    ensures PartsOf(MergeConfig(a, b)) == Join(PartsOf(a), PartsOf(b))
  {
    MergeExecCommands(a.exec, b.exec);
    MergeExecCommands(a.execOnce, b.execOnce);
    var x, y := a.startup.GetOr(Startup(Absent, Absent)), b.startup.GetOr(Startup(Absent, Absent));
    MergeExecCommands(x.exec, y.exec);
    MergeExecCommands(x.execOnce, y.execOnce);
  }

  lemma {:induction false} FoldJoinsParts(cs: seq<Config>)
    ensures PartsOf(Fold(EMPTY, cs)) == JoinAll(cs)
    decreases |cs|
  {
    if cs != [] {
      var init, last := cs[..|cs| - 1], cs[|cs| - 1];
      assert cs == init + [last];
      FoldConcat(EMPTY, init, [last]);
      assert Fold(Fold(EMPTY, init), [last]) == MergeConfig(Fold(EMPTY, init), last);
      FoldJoinsParts(init);
      MergeJoinsParts(Fold(EMPTY, init), last);
    }
  }

  /** Keybinds, rules and startup commands are the concatenation, in post-order, of what the parsed
      files contribute: nothing is lost, repeated or reordered. */
  lemma LoadedListsAreConcatenated(fs: FileSystem, root: Path)
    requires fs.read(root).Parsed?
    ensures var c := Load(fs, root, Marks({}, []), 0).0.value;
            PartsOf(c) == JoinAll(ConfigsOf(fs, Visit(fs, root, {}, 0).post))
  {
    LoadConfigIsPostOrderFold(fs, root);
    var c := Load(fs, root, Marks({}, []), 0).0.value;
    FoldJoinsParts(ConfigsOf(fs, Visit(fs, root, {}, 0).post));
    assert PartsOf(Carried(c)) == PartsOf(c);
  }

  // ---------------------------------------------------------------------
  // The fields a merge does not carry
  // ---------------------------------------------------------------------

  function StyleOf(c: Config): Option<string> {
    c.appearance.GetOr(NO_APPEARANCE).animations.GetOr(NO_ANIMATIONS).workspaceStyle
  }

  /** The target section and the workspace style survive loading exactly when the root file lists no
      includes, or does not set them. */
  lemma TargetSurvivesIff(fs: FileSystem, root: Path)
    requires fs.read(root).Parsed?
    ensures var c, own := Load(fs, root, Marks({}, []), 0).0.value, fs.read(root).cfg;
            && (c.target == own.target <==> own.includes == [] || own.target.None?)
            && (StyleOf(c) == StyleOf(own) <==> own.includes == [] || StyleOf(own).None?)
  {
    LoadConfigIsPostOrderFold(fs, root);
    var own := fs.read(root).cfg;
    if own.includes != [] {
      var m := Marks({} + {root}, [] + [root]);
      LoadAllIsFold(fs, Children(fs, root), m, 1, EMPTY);
      FoldIsCarried(EMPTY, ConfigsOf(fs, VisitAll(fs, Children(fs, root), m.visited, 1).post));
    }
  }
}
