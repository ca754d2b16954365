/** The parsed TOML configuration and the overlay that `mergeConfig` performs on it. */
module TomlConfig {
  import opened Prelude

  datatype Gaps = Gaps(inner: Option<int>, outer: Option<int>)
  datatype Border = Border(width: Option<int>, activeColor: Option<string>, inactiveColor: Option<string>, rounding: Option<int>)
  datatype Opacity = Opacity(active: Option<real>, inactive: Option<real>)
  datatype Blur = Blur(enabled: Option<bool>, size: Option<int>, passes: Option<int>)
  datatype Shadow = Shadow(enabled: Option<bool>, size: Option<int>, color: Option<string>)
  datatype Animations = Animations(enabled: Option<bool>, workspaceStyle: Option<string>)
  datatype Appearance = Appearance(gaps: Option<Gaps>, border: Option<Border>, opacity: Option<Opacity>,
                                   blur: Option<Blur>, shadow: Option<Shadow>, animations: Option<Animations>)
  datatype General = General(layout: string)
  datatype Keyboard = Keyboard(layouts: string, variants: string)
  datatype Input = Input(keyboard: Option<Keyboard>)
  datatype Target = Target(hyprland: string, niri: string, mango: string)
  datatype KeybindConfig = KeybindConfig(modifiers: seq<string>, key: string, dispatcher: string,
                                         argument: string, flags: string, enabled: bool)
  /** Rules are only moved around by the merge; their properties are kept as one table. */
  datatype WindowRule = WindowRule(matcher: string, rule: string, action: string, properties: map<string, string>)
  datatype LayerRule = LayerRule(namespace: string, properties: map<string, string>)

  /** An element of a TOML array of mixed type. */
  datatype ExecItem = Text(command: string) | NotText
  /** The dynamically typed `exec` keys: absent, one string, a merged list, a raw array, or any other TOML value. */
  datatype ExecValue = Absent | One(command: string) | Commands(commands: seq<string>) | Items(items: seq<ExecItem>) | Scalar
  datatype Startup = Startup(exec: ExecValue, execOnce: ExecValue)

  datatype Config = Config(includes: seq<string>, target: Option<Target>, appearance: Option<Appearance>,
                           general: Option<General>, input: Option<Input>, keybinds: seq<KeybindConfig>,
                           windowRules: seq<WindowRule>, layerRules: seq<LayerRule>, startup: Option<Startup>,
                           exec: ExecValue, execOnce: ExecValue)

  const NO_GAPS := Gaps(None, None)
  const NO_BORDER := Border(None, None, None, None)
  const NO_OPACITY := Opacity(None, None)
  const NO_BLUR := Blur(None, None, None)
  const NO_SHADOW := Shadow(None, None, None)
  const NO_ANIMATIONS := Animations(None, None)
  const NO_APPEARANCE := Appearance(None, None, None, None, None, None)
  const EMPTY := Config([], None, None, None, None, [], [], [], None, Absent, Absent)

  // ---------------------------------------------------------------------
  // Exec values
  // ---------------------------------------------------------------------

  function NonEmptyStrings(s: seq<string>): seq<string> {
    if s == [] then [] else (if s[0] != "" then [s[0]] else []) + NonEmptyStrings(s[1..])
  }

  function TextItems(s: seq<ExecItem>): seq<string> {
    if s == [] then [] else (if s[0].Text? && s[0].command != "" then [s[0].command] else []) + TextItems(s[1..])
  }

  /** The commands an exec value contributes, as appendExecCommands collects them. */
  function CommandsOf(v: ExecValue): seq<string> {
    match v
    case Absent => []
    case One(c) => if c != "" then [c] else []
    case Commands(cs) => NonEmptyStrings(cs)
    case Items(items) => TextItems(items)
    case Scalar => []
  }

  function MergeExec(dst: ExecValue, src: ExecValue): ExecValue {
    if src.Absent? then dst
    else if dst.Absent? then src
    else
      var merged := CommandsOf(dst) + CommandsOf(src);
      if |merged| > 0 then Commands(merged) else dst
  }

  lemma {:induction false} NonEmptyStringsConcat(a: seq<string>, b: seq<string>)
    ensures NonEmptyStrings(a + b) == NonEmptyStrings(a) + NonEmptyStrings(b)
  {
    if a == [] {
      Unit(b);
      Unit(NonEmptyStrings(b));
    } else {
      NonEmptyStringsConcat(a[1..], b);
      assert (a + b)[1..] == a[1..] + b && (a + b)[0] == a[0];
      Assoc(if a[0] != "" then [a[0]] else [], NonEmptyStrings(a[1..]), NonEmptyStrings(b));
    }
  }

  lemma {:induction false} TextItemsSnoc(s: seq<ExecItem>, x: ExecItem)
    ensures TextItems(s + [x]) == TextItems(s) + (if x.Text? && x.command != "" then [x.command] else [])
  {
    if s == [] {
      assert [] + [x] == [x] && [x][1..] == [];
    } else {
      assert (s + [x])[0] == s[0] && (s + [x])[1..] == s[1..] + [x];
      TextItemsSnoc(s[1..], x);
    }
  }

  lemma {:induction false} StringsSelected(s: seq<string>) returns (at: seq<int>)
    ensures Selects(s, (c: string) => if c != "" then Some(c) else None, NonEmptyStrings(s), at)
    decreases |s|
  {
    at := [];
    if s != [] {
      var n, f := |s| - 1, (c: string) => if c != "" then Some(c) else None;
      var before := StringsSelected(s[..n]);
      NonEmptyStringsConcat(s[..n], [s[n]]);
      SelectsSnoc(s[..n], f, NonEmptyStrings(s[..n]), before, s[n]);
      assert s[..n] + [s[n]] == s && [s[n]][1..] == [];
      Unit(NonEmptyStrings(s[..n]));
      at := before + if s[n] != "" then [n] else [];
    }
  }

  lemma {:induction false} ItemsSelected(s: seq<ExecItem>) returns (at: seq<int>)
    ensures Selects(s, (x: ExecItem) => if x.Text? && x.command != "" then Some(x.command) else None, TextItems(s), at)
    decreases |s|
  {
    at := [];
    if s != [] {
      var n, f := |s| - 1, (x: ExecItem) => if x.Text? && x.command != "" then Some(x.command) else None;
      var before := ItemsSelected(s[..n]);
      TextItemsSnoc(s[..n], s[n]);
      SelectsSnoc(s[..n], f, TextItems(s[..n]), before, s[n]);
      assert s[..n] + [s[n]] == s;
      Unit(TextItems(s[..n]));
      at := before + if s[n].Text? && s[n].command != "" then [n] else [];
    }
  }

  /** An exec value contributes exactly the texts in it that are not empty, in their order; any other value nothing. */
  lemma CommandsInOrder(v: ExecValue) returns (at: seq<int>)
    ensures match v
            case One(c) => CommandsOf(v) == (if c == "" then [] else [c])
            case Commands(cs) => Selects(cs, (c: string) => if c != "" then Some(c) else None, CommandsOf(v), at)
            case Items(items) =>
              Selects(items, (x: ExecItem) => if x.Text? && x.command != "" then Some(x.command) else None, CommandsOf(v), at)
            case _ => CommandsOf(v) == []
  {
    at := [];
    match v
    case Commands(cs) => at := StringsSelected(cs);
    case Items(items) => at := ItemsSelected(items);
    case _ =>
  }

  lemma NonEmptyStringsFixed(v: ExecValue)
    ensures NonEmptyStrings(CommandsOf(v)) == CommandsOf(v)
  {
    match v
    case Commands(cs) => NonEmptyStringsIdempotent(cs);
    case Items(items) => TextItemsNonEmpty(items);
    case _ =>
  }

  lemma NonEmptyStringsIdempotent(s: seq<string>)
    ensures NonEmptyStrings(NonEmptyStrings(s)) == NonEmptyStrings(s)
  {
    if s != [] {
      NonEmptyStringsIdempotent(s[1..]);
      NonEmptyStringsConcat(if s[0] != "" then [s[0]] else [], NonEmptyStrings(s[1..]));
    }
  }

  lemma TextItemsNonEmpty(s: seq<ExecItem>)
    ensures NonEmptyStrings(TextItems(s)) == TextItems(s)
  {
    if s != [] {
      TextItemsNonEmpty(s[1..]);
      NonEmptyStringsConcat(if s[0].Text? && s[0].command != "" then [s[0].command] else [], TextItems(s[1..]));
    }
  }

  /** No command is lost, repeated or reordered when two exec values are merged. */
  lemma MergeExecCommands(a: ExecValue, b: ExecValue)
    ensures CommandsOf(MergeExec(a, b)) == CommandsOf(a) + CommandsOf(b)
  {
    NonEmptyStringsFixed(a);
    NonEmptyStringsFixed(b);
    NonEmptyStringsConcat(CommandsOf(a), CommandsOf(b));
  }

  lemma MergeExecAssociative(a: ExecValue, b: ExecValue, c: ExecValue)
    ensures MergeExec(MergeExec(a, b), c) == MergeExec(a, MergeExec(b, c))
  {
    if a.Absent? || b.Absent? || c.Absent? {
    } else {
      MergeExecPresentAssociative(a, b, c, CommandsOf(a), CommandsOf(b), CommandsOf(c));
    }
  }

  lemma MergeExecPresentAssociative(a: ExecValue, b: ExecValue, c: ExecValue, x: seq<string>, y: seq<string>, z: seq<string>)
    requires !a.Absent? && !b.Absent? && !c.Absent?
    requires CommandsOf(a) == x && CommandsOf(b) == y && CommandsOf(c) == z
    ensures MergeExec(MergeExec(a, b), c) == MergeExec(a, MergeExec(b, c))
  {
    MergeExecLeft(a, b, c, x, y, z);
    MergeExecRight(a, b, c, x, y, z);
  }

  lemma MergeExecLeft(a: ExecValue, b: ExecValue, c: ExecValue, x: seq<string>, y: seq<string>, z: seq<string>)
    requires !a.Absent? && !b.Absent? && !c.Absent?
    requires CommandsOf(a) == x && CommandsOf(b) == y && CommandsOf(c) == z
    ensures MergeExec(MergeExec(a, b), c) == if |x| + |y| + |z| > 0 then Commands(x + y + z) else a
  {
    var l := MergeExec(a, b);
    MergeExecPresent(a, b, x, y);
    MergeExecCommands(a, b);
    MergeExecPresent(l, c, x + y, z);
  }

  lemma MergeExecRight(a: ExecValue, b: ExecValue, c: ExecValue, x: seq<string>, y: seq<string>, z: seq<string>)
    requires !a.Absent? && !b.Absent? && !c.Absent?
    requires CommandsOf(a) == x && CommandsOf(b) == y && CommandsOf(c) == z
    ensures MergeExec(a, MergeExec(b, c)) == if |x| + |y| + |z| > 0 then Commands(x + y + z) else a
  {
    var r := MergeExec(b, c);
    MergeExecPresent(b, c, y, z);
    MergeExecCommands(b, c);
    MergeExecPresent(a, r, x, y + z);
    Assoc(x, y, z);
  }

  lemma MergeExecPresent(a: ExecValue, b: ExecValue, x: seq<string>, y: seq<string>)
    requires !a.Absent? && !b.Absent? && CommandsOf(a) == x && CommandsOf(b) == y
    ensures MergeExec(a, b) == if |x| + |y| > 0 then Commands(x + y) else a
  {
  }

  // ---------------------------------------------------------------------
  // The overlay as a function
  // ---------------------------------------------------------------------

  function Over<T>(dst: Option<T>, src: Option<T>): Option<T> {
    if src.Some? then src else dst
  }

  function MergeGaps(dst: Option<Gaps>, src: Option<Gaps>): Option<Gaps> {
    if src.None? then dst else
      var d := dst.GetOr(NO_GAPS);
      Some(Gaps(Over(d.inner, src.value.inner), Over(d.outer, src.value.outer)))
  }

  function MergeBorder(dst: Option<Border>, src: Option<Border>): Option<Border> {
    if src.None? then dst else
      var d, s := dst.GetOr(NO_BORDER), src.value;
      Some(Border(Over(d.width, s.width), Over(d.activeColor, s.activeColor),
                  Over(d.inactiveColor, s.inactiveColor), Over(d.rounding, s.rounding)))
  }

  function MergeOpacity(dst: Option<Opacity>, src: Option<Opacity>): Option<Opacity> {
    if src.None? then dst else
      var d := dst.GetOr(NO_OPACITY);
      Some(Opacity(Over(d.active, src.value.active), Over(d.inactive, src.value.inactive)))
  }

  function MergeBlur(dst: Option<Blur>, src: Option<Blur>): Option<Blur> {
    if src.None? then dst else
      var d, s := dst.GetOr(NO_BLUR), src.value;
      Some(Blur(Over(d.enabled, s.enabled), Over(d.size, s.size), Over(d.passes, s.passes)))
  }

  function MergeShadow(dst: Option<Shadow>, src: Option<Shadow>): Option<Shadow> {
    if src.None? then dst else
      var d, s := dst.GetOr(NO_SHADOW), src.value;
      Some(Shadow(Over(d.enabled, s.enabled), Over(d.size, s.size), Over(d.color, s.color)))
  }

  /** The workspace style is never copied from src. */
  function MergeAnimations(dst: Option<Animations>, src: Option<Animations>): Option<Animations> {
    if src.None? then dst else
      var d := dst.GetOr(NO_ANIMATIONS);
      Some(Animations(Over(d.enabled, src.value.enabled), d.workspaceStyle))
  }

  function MergeAppearance(dst: Option<Appearance>, src: Option<Appearance>): Option<Appearance> {
    if src.None? then dst else
      var d, s := dst.GetOr(NO_APPEARANCE), src.value;
      Some(Appearance(MergeGaps(d.gaps, s.gaps), MergeBorder(d.border, s.border), MergeOpacity(d.opacity, s.opacity),
                      MergeBlur(d.blur, s.blur), MergeShadow(d.shadow, s.shadow), MergeAnimations(d.animations, s.animations)))
  }

  function MergeGeneral(dst: Option<General>, src: Option<General>): Option<General> {
    if src.None? then dst
    else Some(General(if src.value.layout != "" then src.value.layout else dst.GetOr(General("")).layout))
  }

  function MergeInput(dst: Option<Input>, src: Option<Input>): Option<Input> {
    if src.None? then dst else Some(Input(Over(dst.GetOr(Input(None)).keyboard, src.value.keyboard)))
  }

  function MergeStartup(dst: Option<Startup>, src: Option<Startup>): Option<Startup> {
    if src.None? then dst else
      var d := dst.GetOr(Startup(Absent, Absent));
      Some(Startup(MergeExec(d.exec, src.value.exec), MergeExec(d.execOnce, src.value.execOnce)))
  }

  /** Overlays src onto dst; the includes and the target of dst are left as they are. */
  function MergeConfig(dst: Config, src: Config): Config {
    Config(dst.includes, dst.target, MergeAppearance(dst.appearance, src.appearance),
           MergeGeneral(dst.general, src.general), MergeInput(dst.input, src.input),
           dst.keybinds + src.keybinds, dst.windowRules + src.windowRules, dst.layerRules + src.layerRules,
           MergeStartup(dst.startup, src.startup), MergeExec(dst.exec, src.exec), MergeExec(dst.execOnce, src.execOnce))
  }

  /** What a merge carries over from its source: everything but includes, target and workspace style. */
  function Carried(c: Config): Config {
    c.(includes := [], target := None, appearance :=
      if c.appearance.Some? && c.appearance.value.animations.Some?
      then Some(c.appearance.value.(animations := Some(c.appearance.value.animations.value.(workspaceStyle := None))))
      else c.appearance)
  }

  lemma MergeAppearanceAssociative(a: Option<Appearance>, b: Option<Appearance>, c: Option<Appearance>)
    ensures MergeAppearance(MergeAppearance(a, b), c) == MergeAppearance(a, MergeAppearance(b, c))
  {
  }

  lemma MergeStartupAssociative(a: Option<Startup>, b: Option<Startup>, c: Option<Startup>)
    ensures MergeStartup(MergeStartup(a, b), c) == MergeStartup(a, MergeStartup(b, c))
  {
    var none := Startup(Absent, Absent);
    MergeExecAssociative(a.GetOr(none).exec, b.GetOr(none).exec, c.GetOr(none).exec);
    MergeExecAssociative(a.GetOr(none).execOnce, b.GetOr(none).execOnce, c.GetOr(none).execOnce);
  }

  /** Merging is associative on whole configurations, the dropped fields included. */
  lemma MergeAssociative(a: Config, b: Config, c: Config)
    ensures MergeConfig(MergeConfig(a, b), c) == MergeConfig(a, MergeConfig(b, c))
  {
    MergeAppearanceAssociative(a.appearance, b.appearance, c.appearance);
    MergeStartupAssociative(a.startup, b.startup, c.startup);
    MergeExecAssociative(a.exec, b.exec, c.exec);
    MergeExecAssociative(a.execOnce, b.execOnce, c.execOnce);
    assert a.keybinds + b.keybinds + c.keybinds == a.keybinds + (b.keybinds + c.keybinds);
    assert a.windowRules + b.windowRules + c.windowRules == a.windowRules + (b.windowRules + c.windowRules);
    assert a.layerRules + b.layerRules + c.layerRules == a.layerRules + (b.layerRules + c.layerRules);
  }

  /** The empty configuration is a right identity, and a left identity exactly up to the carried fields. */
  lemma MergeIdentity(c: Config)
    ensures MergeConfig(c, EMPTY) == c
    ensures MergeConfig(EMPTY, c) == Carried(c)
  {
    assert c.keybinds + [] == c.keybinds && c.windowRules + [] == c.windowRules && c.layerRules + [] == c.layerRules;
    assert [] + c.keybinds == c.keybinds && [] + c.windowRules == c.windowRules && [] + c.layerRules == c.layerRules;
  }

  lemma MergeIgnoresDropped(a: Config, b: Config)
    ensures MergeConfig(a, Carried(b)) == MergeConfig(a, b)
    ensures Carried(MergeConfig(a, b)) == MergeConfig(Carried(a), b)
  {
  }

  // ---------------------------------------------------------------------
  // The overlay as the source performs it: field by field through the
  // destination's pointers
  // ---------------------------------------------------------------------

  /** The destination of a chain of merges. */
  class ConfigCell {
    var appearance: Option<Appearance>
    var general: Option<General>
    var input: Option<Input>
    var keybinds: seq<KeybindConfig>
    var windowRules: seq<WindowRule>
    var layerRules: seq<LayerRule>
    var startup: Option<Startup>
    var exec: ExecValue
    var execOnce: ExecValue

    function Value(): Config
      reads this
    {
      Config([], None, appearance, general, input, keybinds, windowRules, layerRules, startup, exec, execOnce)
    }

    constructor ()
      ensures Value() == EMPTY
    {
      appearance, general, input, startup := None, None, None, None;
      keybinds, windowRules, layerRules := [], [], [];
      exec, execOnce := Absent, Absent;
    }

    method Merge(src: Config)
      modifies this
      ensures Value() == MergeConfig(old(Value()), src)
    {
      MergeTables(src);
      if |src.keybinds| > 0 {
        keybinds := keybinds + src.keybinds;
      }
      if |src.windowRules| > 0 {
        windowRules := windowRules + src.windowRules;
      }
      if |src.layerRules| > 0 {
        layerRules := layerRules + src.layerRules;
      }
      MergeExecs(src);
    }

    /** The startup table and the two top-level exec keys. */
    method MergeExecs(src: Config)
      modifies this`startup, this`exec, this`execOnce
      ensures startup == MergeStartup(old(startup), src.startup)
      ensures exec == MergeExec(old(exec), src.exec) && execOnce == MergeExec(old(execOnce), src.execOnce)
    {
      if src.startup.Some? {
        if startup.None? {
          startup := Some(Startup(Absent, Absent));
        }
        var e := CombineExec(startup.value.exec, src.startup.value.exec);
        var o := CombineExec(startup.value.execOnce, src.startup.value.execOnce);
        startup := Some(Startup(e, o));
      }
      exec := CombineExec(exec, src.exec);
      execOnce := CombineExec(execOnce, src.execOnce);
    }

    /** The optional tables: appearance, general and input. */
    method MergeTables(src: Config)
      modifies this`appearance, this`general, this`input
      ensures appearance == MergeAppearance(old(appearance), src.appearance)
      ensures general == MergeGeneral(old(general), src.general)
      ensures input == MergeInput(old(input), src.input)
    {
      if src.appearance.Some? {
        if appearance.None? {
          appearance := Some(NO_APPEARANCE);
        }
        var a := OverlayAppearance(appearance.value, src.appearance.value);
        appearance := Some(a);
      }
      if src.general.Some? {
        if general.None? {
          general := Some(General(""));
        }
        if src.general.value.layout != "" {
          general := Some(general.value.(layout := src.general.value.layout));
        }
      }
      if src.input.Some? {
        if input.None? {
          input := Some(Input(None));
        }
        if src.input.value.keyboard.Some? {
          input := Some(input.value.(keyboard := src.input.value.keyboard));
        }
      }
    }

    static method OverlayAppearance(dst: Appearance, src: Appearance) returns (a: Appearance)
      ensures Some(a) == MergeAppearance(Some(dst), Some(src))
    {
      a := dst;
      if src.gaps.Some? {
        var g := OverlayGaps(a.gaps.GetOr(NO_GAPS), src.gaps.value);
        a := a.(gaps := Some(g));
      }
      if src.border.Some? {
        var b := OverlayBorder(a.border.GetOr(NO_BORDER), src.border.value);
        a := a.(border := Some(b));
      }
      if src.opacity.Some? {
        var o := OverlayOpacity(a.opacity.GetOr(NO_OPACITY), src.opacity.value);
        a := a.(opacity := Some(o));
      }
      if src.blur.Some? {
        var b := OverlayBlur(a.blur.GetOr(NO_BLUR), src.blur.value);
        a := a.(blur := Some(b));
      }
      if src.shadow.Some? {
        var h := OverlayShadow(a.shadow.GetOr(NO_SHADOW), src.shadow.value);
        a := a.(shadow := Some(h));
      }
      if src.animations.Some? {
        var n := a.animations.GetOr(NO_ANIMATIONS);
        if src.animations.value.enabled.Some? { n := n.(enabled := src.animations.value.enabled); }
        a := a.(animations := Some(n));
      }
    }

    static method OverlayGaps(dst: Gaps, src: Gaps) returns (g: Gaps)
      ensures Some(g) == MergeGaps(Some(dst), Some(src))
    {
      g := dst;
      if src.inner.Some? { g := g.(inner := src.inner); }
      if src.outer.Some? { g := g.(outer := src.outer); }
    }

    static method OverlayBorder(dst: Border, src: Border) returns (b: Border)
      ensures Some(b) == MergeBorder(Some(dst), Some(src))
    {
      b := dst;
      if src.width.Some? { b := b.(width := src.width); }
      if src.activeColor.Some? { b := b.(activeColor := src.activeColor); }
      if src.inactiveColor.Some? { b := b.(inactiveColor := src.inactiveColor); }
      if src.rounding.Some? { b := b.(rounding := src.rounding); }
    }

    static method OverlayOpacity(dst: Opacity, src: Opacity) returns (o: Opacity)
      ensures Some(o) == MergeOpacity(Some(dst), Some(src))
    {
      o := dst;
      if src.active.Some? { o := o.(active := src.active); }
      if src.inactive.Some? { o := o.(inactive := src.inactive); }
    }

    static method OverlayBlur(dst: Blur, src: Blur) returns (b: Blur)
      ensures Some(b) == MergeBlur(Some(dst), Some(src))
    {
      b := dst;
      if src.enabled.Some? { b := b.(enabled := src.enabled); }
      if src.size.Some? { b := b.(size := src.size); }
      if src.passes.Some? { b := b.(passes := src.passes); }
    }

    static method OverlayShadow(dst: Shadow, src: Shadow) returns (h: Shadow)
      ensures Some(h) == MergeShadow(Some(dst), Some(src))
    {
      h := dst;
      if src.enabled.Some? { h := h.(enabled := src.enabled); }
      if src.size.Some? { h := h.(size := src.size); }
      if src.color.Some? { h := h.(color := src.color); }
    }

    static method CombineExec(dst: ExecValue, src: ExecValue) returns (r: ExecValue)
      ensures r == MergeExec(dst, src)
    {
      if src.Absent? {
        return dst;
      }
      if dst.Absent? {
        return src;
      }
      var merged := AppendCommands([], dst);
      Unit(CommandsOf(dst));
      merged := AppendCommands(merged, src);
      r := if |merged| > 0 then Commands(merged) else dst;
    }

    static method AppendCommands(dst: seq<string>, raw: ExecValue) returns (r: seq<string>)
      ensures r == dst + CommandsOf(raw)
    {
      r := dst;
      match raw {
        case Absent =>
        case One(c) =>
          if c != "" { r := r + [c]; }
        case Commands(cs) =>
          r := AppendNonEmpty(dst, cs);
        case Items(items) =>
          r := AppendTexts(dst, items);
        case Scalar =>
      }
    }

    static method AppendNonEmpty(dst: seq<string>, cs: seq<string>) returns (r: seq<string>)
      ensures r == dst + NonEmptyStrings(cs)
    {
      r := dst;
      for i := 0 to |cs|
        invariant r + NonEmptyStrings(cs[i..]) == dst + NonEmptyStrings(cs)
      {
        var head := if cs[i] != "" then [cs[i]] else [];
        assert cs[i..][1..] == cs[i + 1..];
        Assoc(r, head, NonEmptyStrings(cs[i + 1..]));
        r := r + head;
      }
      Unit(r);
    }

    static method AppendTexts(dst: seq<string>, items: seq<ExecItem>) returns (r: seq<string>)
      ensures r == dst + TextItems(items)
    {
      r := dst;
      for i := 0 to |items|
        invariant r + TextItems(items[i..]) == dst + TextItems(items)
      {
        var head := if items[i].Text? && items[i].command != "" then [items[i].command] else [];
        assert items[i..][1..] == items[i + 1..];
        Assoc(r, head, TextItems(items[i + 1..]));
        r := r + head;
      }
      Unit(r);
    }
  }
}
