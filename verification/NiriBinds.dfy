/** The niri keybind generator: every bind is written, listed as skipped, or ignored. */
module NiriBinds {
  import opened Prelude
  import opened Strings
  import opened IpcConfig
  import opened ShellTokens
  import opened KdlText

  /** How the dispatcher table translates a dispatcher and its argument. */
  type DispatchTable = (string, string) -> Option<string>

  // ---------------------------------------------------------------------
  // Keys and modifiers
  // ---------------------------------------------------------------------

  function MapKey(key: string): Option<string> {
    if key == "mouse:272" then Some("MouseLeft")
    else if key == "mouse:273" then Some("MouseRight")
    else if key == "mouse:274" then Some("MouseMiddle")
    else if key == "mouse:275" then Some("MouseForward")
    else if key == "mouse:276" then Some("MouseBack")
    else if HasPrefix(key, "switch:") then None
    else if key == "mouse_down" || key == "mouse_up" then None
    else Some(key)
  }

  predicate HasAny(mods: seq<string>, names: seq<string>) {
    exists i, j :: 0 <= i < |mods| && 0 <= j < |names| && EqualFold(mods[i], names[j])
  }

  /** The trigger key is a modifier key that is also among the modifiers. */
  predicate ModifierSelfBind(key: string, mods: seq<string>) {
    if key == "Super_L" || key == "Super_R" then HasAny(mods, ["SUPER", "MOD"])
    else if key == "Alt_L" || key == "Alt_R" then HasAny(mods, ["ALT"])
    else if key == "Control_L" || key == "Control_R" then HasAny(mods, ["CTRL", "CONTROL"])
    else if key == "Shift_L" || key == "Shift_R" then HasAny(mods, ["SHIFT"])
    else false
  }

  /** Upper case on the letters that can spell an ASCII word. */
  function UpperChar(c: char): char {
    if 'a' <= c <= 'z' then ((c as int) - 32) as char
    else if c == '\U{017F}' then 'S' else if c == '\U{0131}' then 'I' else c
  }

  function ToUpper(s: string): string { seq(|s|, i requires 0 <= i < |s| => UpperChar(s[i])) }

  function MapModifier(m: string): string {
    var u := ToUpper(m);
    if u == "SUPER" then "Mod" else if u == "CTRL" || u == "CONTROL" then "Ctrl"
    else if u == "ALT" then "Alt" else if u == "SHIFT" then "Shift" else m
  }

  function JoinPlus(parts: seq<string>): string {
    if parts == [] then "" else if |parts| == 1 then parts[0] else parts[0] + "+" + JoinPlus(parts[1..])
  }

  function ComboText(mods: seq<string>, key: string): string {
    var m := JoinPlus(seq(|mods|, i requires 0 <= i < |mods| => MapModifier(mods[i])));
    if m == "" then key else m + "+" + key
  }

  // ---------------------------------------------------------------------
  // One bind
  // ---------------------------------------------------------------------

  datatype Reason = NoKey | ModifierAlone | NoDispatcher
  /** A written bind: its combo, whether it repeats, and the line inside its block. */
  datatype Node = Node(combo: string, repeats: bool, action: string)
  datatype Outcome = Ignore | Skip(reason: Reason) | Emit(node: Node)

  predicate IsSpawn(kb: Keybind) { kb.dispatcher == "" || kb.dispatcher == "exec" || kb.dispatcher == "spawn" }

  /** The words a spawn bind runs: its tokens, or the raw argument when there is none. */
  function SpawnWords(arg: string): seq<string> { if Tokens(arg) == [] then [arg] else Tokens(arg) }

  function Place(kb: Keybind, table: DispatchTable): Outcome {
    if !kb.enabled || kb.key == "" then Ignore
    else
      var key := MapKey(kb.key);
      if key.None? then Skip(NoKey)
      else if ModifierSelfBind(key.value, kb.modifiers) then Skip(ModifierAlone)
      else if IsSpawn(kb) then Emit(Node(ComboText(kb.modifiers, key.value), kb.flags == "", "spawn" + Arguments(SpawnWords(kb.argument))))
      else
        var action := table(kb.dispatcher, kb.argument);
        if action.None? then Skip(NoDispatcher)
        else Emit(Node(ComboText(kb.modifiers, key.value), kb.flags == "", action.value))
  }

  /** An emitted spawn line, read by the KDL grammar, carries exactly the tokenized words. */
  lemma SpawnLineCarriesWords(kb: Keybind, table: DispatchTable)
    requires Place(kb, table).Emit? && IsSpawn(kb)
    ensures var action := Place(kb, table).node.action;
            && HasPrefix(action, "spawn")
            && ReadArguments(action[5..] + "\n") == Some(SpawnWords(kb.argument))
  {
    var words := SpawnWords(kb.argument);
    ArgumentsRoundTrip(words);
    assert ("spawn" + Arguments(words))[5..] == Arguments(words);
    assert ("spawn" + Arguments(words))[..5] == "spawn";
  }

  // ---------------------------------------------------------------------
  // Modifier-alone binds
  // ---------------------------------------------------------------------

  lemma FoldLower(a: string, b: string, s: string)
    requires |a| == |b| && forall i :: 0 <= i < |a| ==> LowerChar(a[i]) == LowerChar(b[i])
    ensures EqualFold(s, a) <==> EqualFold(s, b)
  {
  }

  /** The first of the names matches the only modifier. */
  lemma SelfBindWitness(mods: seq<string>, lower: string, names: seq<string>)
    requires |mods| == 1 && names != [] && EqualFold(mods[0], lower)
    requires |lower| == |names[0]| && forall i :: 0 <= i < |lower| ==> LowerChar(lower[i]) == LowerChar(names[0][i])
    ensures HasAny(mods, names)
  {
    FoldLower(lower, names[0], mods[0]);
  }

  predicate IsModifierKey(key: string) {
    key in {"Super_L", "Super_R", "Alt_L", "Alt_R", "Control_L", "Control_R", "Shift_L", "Shift_R"}
  }

  lemma SelfGroupIsSelfBind(kb: Keybind)
    requires ModifierSelfGroup(kb).Some?
    ensures IsModifierKey(kb.key) && ModifierSelfBind(kb.key, kb.modifiers)
  {
    if kb.key == "Super_L" || kb.key == "Super_R" {
      SelfBindWitness(kb.modifiers, "super", ["SUPER", "MOD"]);
    } else if kb.key == "Alt_L" || kb.key == "Alt_R" {
      SelfBindWitness(kb.modifiers, "alt", ["ALT"]);
    } else if kb.key == "Control_L" || kb.key == "Control_R" {
      SelfBindWitness(kb.modifiers, "ctrl", ["CTRL", "CONTROL"]);
    } else {
      SelfBindWitness(kb.modifiers, "shift", ["SHIFT"]);
    }
  }

  lemma PrefixHead(s: string, p: string)
    requires p != ""
    ensures HasPrefix(s, p) ==> s != "" && s[0] == p[0]
  {
  }

  lemma ModifierKeysMap(key: string)
    requires IsModifierKey(key)
    ensures key != "" && MapKey(key) == Some(key)
  {
    assert key[0] == 'S' || key[0] == 'A' || key[0] == 'C';
    PrefixHead(key, "switch:");
    assert "mouse_up"[0] == 'm' && "mouse_down"[0] == 'm';
    assert "mouse:272"[0] == 'm' && "mouse:273"[0] == 'm' && "mouse:274"[0] == 'm' && "mouse:275"[0] == 'm' && "mouse:276"[0] == 'm';
  }

  /** Every bind of modifier-alone shape is skipped by the generator. */
  lemma ModifierAloneIsSkipped(kb: Keybind, table: DispatchTable)
    requires ModifierSelfGroup(kb).Some?
    ensures Place(kb, table) == Skip(ModifierAlone)
  {
    SelfGroupIsSelfBind(kb);
    ModifierKeysMap(kb.key);
  }

  /** The generator accepts "MOD" for Super and "CONTROL" for Ctrl; the other test does not. */
  predicate IsAlias(m: string) { EqualFold(m, "MOD") || EqualFold(m, "CONTROL") }

  lemma FoldsDiffer(m: string)
    ensures EqualFold(m, "SUPER") || EqualFold(m, "ALT") || EqualFold(m, "CTRL") || EqualFold(m, "SHIFT") ==> !IsAlias(m)
    ensures !(EqualFold(m, "MOD") && EqualFold(m, "CONTROL"))
  {
    if EqualFold(m, "ALT") {
      assert FoldChar(m[0]) == LowerChar('A');
    }
  }

  /** The two tests accept the same enabled binds of modifier-alone shape except that the generator's is wider: it
      also skips binds that run no spawn command, that have further modifiers, or that spell their modifier MOD or
      CONTROL, and those nobody handles. */
  lemma SelfGroupIff(kb: Keybind, table: DispatchTable)
    ensures ModifierSelfGroup(kb).Some? <==>
              Place(kb, table) == Skip(ModifierAlone) && IsSpawn(kb) && |kb.modifiers| == 1 && !IsAlias(kb.modifiers[0])
  {
    if ModifierSelfGroup(kb).Some? {
      ModifierAloneIsSkipped(kb, table);
      SelfGroupIsNoAlias(kb);
    } else if Place(kb, table) == Skip(ModifierAlone) && IsSpawn(kb) && |kb.modifiers| == 1 && !IsAlias(kb.modifiers[0]) {
      SkippedHasGroup(kb, table);
      assert false;
    }
  }

  lemma SelfGroupIsNoAlias(kb: Keybind)
    requires ModifierSelfGroup(kb).Some?
    ensures !IsAlias(kb.modifiers[0])
  {
    var m := kb.modifiers[0];
    FoldsDiffer(m);
    FoldLower("super", "SUPER", m);
    FoldLower("alt", "ALT", m);
    FoldLower("ctrl", "CTRL", m);
    FoldLower("shift", "SHIFT", m);
  }

  /** A mapped mouse button is no modifier key. */
  lemma MappedModifierKey(key: string)
    requires MapKey(key).Some? && IsModifierKey(MapKey(key).value)
    ensures MapKey(key) == Some(key)
  {
    assert "MouseLeft"[0] == 'M' && "MouseRight"[0] == 'M' && "MouseMiddle"[0] == 'M' && "MouseForward"[0] == 'M' && "MouseBack"[0] == 'M';
    var k := MapKey(key).value;
    assert k[0] == 'S' || k[0] == 'A' || k[0] == 'C';
  }

  lemma SkippedHasGroup(kb: Keybind, table: DispatchTable)
    requires Place(kb, table) == Skip(ModifierAlone) && IsSpawn(kb) && |kb.modifiers| == 1 && !IsAlias(kb.modifiers[0])
    ensures ModifierSelfGroup(kb).Some?
  {
    assert kb.modifiers == [kb.modifiers[0]];
    SkippedKey(kb, table);
    OneModifierFolds(kb.key, kb.modifiers[0]);
  }

  lemma SkippedKey(kb: Keybind, table: DispatchTable)
    requires Place(kb, table) == Skip(ModifierAlone)
    ensures kb.enabled && ModifierSelfBind(kb.key, kb.modifiers)
  {
    MappedModifierKey(kb.key);
  }

  /** With one modifier that is no alias, the generator's test is the other one's. */
  lemma OneModifierFolds(key: string, m: string)
    requires ModifierSelfBind(key, [m]) && !IsAlias(m)
    ensures key == "Super_L" || key == "Super_R" ==> EqualFold(m, "super")
    ensures key == "Alt_L" || key == "Alt_R" ==> EqualFold(m, "alt")
    ensures key == "Control_L" || key == "Control_R" ==> EqualFold(m, "ctrl")
    ensures key == "Shift_L" || key == "Shift_R" ==> EqualFold(m, "shift")
    ensures IsModifierKey(key)
  {
    FoldLower("super", "SUPER", m);
    FoldLower("alt", "ALT", m);
    FoldLower("ctrl", "CTRL", m);
    FoldLower("shift", "SHIFT", m);
  }

  /** Skipped by the generator and refused by the key monitor: Super_L spelled with MOD, and Super_L with two modifiers. */
  lemma SkippedAndUnhandled(argument: string, table: DispatchTable)
    ensures var kb := Keybind(["MOD"], "Super_L", "exec", argument, "", true);
            Place(kb, table) == Skip(ModifierAlone) && ModifierSelfGroup(kb).None?
    ensures var kb := Keybind(["SUPER", "SHIFT"], "Super_L", "exec", argument, "", true);
            Place(kb, table) == Skip(ModifierAlone) && ModifierSelfGroup(kb).None?
  {
    ModifierKeysMap("Super_L");
    assert EqualFold(["MOD"][0], ["SUPER", "MOD"][1]);
    assert EqualFold(["SUPER", "SHIFT"][0], ["SUPER", "MOD"][0]);
  }

  // ---------------------------------------------------------------------
  // Which trigger is written
  // ---------------------------------------------------------------------

  /** m is the word, each letter in either case; the long s and the dotless i also have these capitals. */
  predicate Spells(m: string, word: string) {
    |m| == |word| && forall i :: 0 <= i < |m| ==>
                       || m[i] == word[i] || m[i] as int == word[i] as int + 32
                       || (word[i] == 'S' && m[i] == '\U{017F}') || (word[i] == 'I' && m[i] == '\U{0131}')
  }

  lemma UpperIff(m: string, word: string)
    requires forall i :: 0 <= i < |word| ==> 'A' <= word[i] <= 'Z'
    ensures ToUpper(m) == word <==> Spells(m, word)
  {
    if |m| == |word| {
      forall i | 0 <= i < |m| ensures ToUpper(m)[i] == word[i] <==>
          (m[i] == word[i] || m[i] as int == word[i] as int + 32
           || (word[i] == 'S' && m[i] == '\U{017F}') || (word[i] == 'I' && m[i] == '\U{0131}')) {
      }
      assert ToUpper(m) == word <==> forall i :: 0 <= i < |m| ==> ToUpper(m)[i] == word[i];
    }
  }

  /** How niri calls the modifier m: four have names of their own, any other is passed on. */
  predicate Called(m: string, x: string) {
    if Spells(m, "SUPER") then x == "Mod"
    else if Spells(m, "CTRL") || Spells(m, "CONTROL") then x == "Ctrl"
    else if Spells(m, "ALT") then x == "Alt"
    else if Spells(m, "SHIFT") then x == "Shift"
    else x == m
  }

  lemma ModifierCalled(m: string, x: string)
    ensures MapModifier(m) == x <==> Called(m, x)
  {
    UpperIff(m, "SUPER");
    UpperIff(m, "CTRL");
    UpperIff(m, "CONTROL");
    UpperIff(m, "ALT");
    UpperIff(m, "SHIFT");
  }

  /** Each part followed by a plus sign. */
  function Prefixes(parts: seq<string>): string { if parts == [] then "" else parts[0] + "+" + Prefixes(parts[1..]) }

  lemma {:induction false} JoinIsPrefixes(parts: seq<string>)
    requires parts != []
    ensures JoinPlus(parts) + "+" == Prefixes(parts)
    ensures JoinPlus(parts) == "" <==> parts == [""]
  {
    if |parts| == 1 {
      assert Prefixes(parts[1..]) == "";
      assert parts[0] + "+" + "" == parts[0] + "+";
    } else {
      JoinIsPrefixes(parts[1..]);
      Assoc(parts[0] + "+", JoinPlus(parts[1..]), "+");
      assert |JoinPlus(parts)| > 0;
    }
  }

  /** A trigger is each modifier by niri's name for it and a plus sign, and then the key; a single modifier without a
      name is left out. */
  lemma TriggerText(mods: seq<string>, key: string, parts: seq<string>)
    requires |parts| == |mods| && forall i :: 0 <= i < |mods| ==> Called(mods[i], parts[i])
    ensures ComboText(mods, key) == if mods == [""] then key else Prefixes(parts) + key
  {
    forall i | 0 <= i < |mods| ensures MapModifier(mods[i]) == parts[i] {
      ModifierCalled(mods[i], parts[i]);
    }
    var mapped := seq(|mods|, i requires 0 <= i < |mods| => MapModifier(mods[i]));
    assert mapped == parts;
    if mods != [] {
      JoinIsPrefixes(parts);
      OnlyEmptyIsEmpty(mods, parts);
      assert JoinPlus(parts) + "+" + key == Prefixes(parts) + key;
    }
  }

  lemma OnlyEmptyIsEmpty(mods: seq<string>, parts: seq<string>)
    requires |parts| == |mods| && forall i :: 0 <= i < |mods| ==> Called(mods[i], parts[i])
    ensures parts == [""] <==> mods == [""]
  {
    if |mods| == 1 {
      assert Called(mods[0], parts[0]);
      assert "Mod" != "" && "Ctrl" != "" && "Alt" != "" && "Shift" != "";
    }
  }

  /** The key that niri has for a key of the configuration: mouse buttons by name, no wheel and no switch. */
  predicate KeyCalled(key: string, x: string) {
    if key in MOUSE then x == MOUSE[key] else !HasPrefix(key, "switch:") && key != "mouse_down" && key != "mouse_up" && x == key
  }

  const MOUSE := map["mouse:272" := "MouseLeft", "mouse:273" := "MouseRight", "mouse:274" := "MouseMiddle",
                     "mouse:275" := "MouseForward", "mouse:276" := "MouseBack"]

  lemma MappedIff(key: string, x: string)
    ensures MapKey(key) == Some(x) <==> KeyCalled(key, x)
  {
  }

  /** Some modifier is spelled like one of these. */
  predicate Spelled(mods: seq<string>, a: string, b: string) {
    exists i :: 0 <= i < |mods| && (EqualFold(mods[i], a) || EqualFold(mods[i], b))
  }

  /** The trigger key is a modifier key pressed with that modifier. */
  predicate SelfTrigger(kb: Keybind) {
    || (kb.key in {"Super_L", "Super_R"} && Spelled(kb.modifiers, "super", "mod"))
    || (kb.key in {"Alt_L", "Alt_R"} && Spelled(kb.modifiers, "alt", "alt"))
    || (kb.key in {"Control_L", "Control_R"} && Spelled(kb.modifiers, "ctrl", "control"))
    || (kb.key in {"Shift_L", "Shift_R"} && Spelled(kb.modifiers, "shift", "shift"))
  }

  lemma HasAnyIsSpelled(mods: seq<string>, names: seq<string>, a: string, b: string)
    requires names != [] && |names| <= 2 && |a| == |names[0]| && (forall i :: 0 <= i < |a| ==> LowerChar(a[i]) == LowerChar(names[0][i]))
    requires if |names| == 1 then b == a else |b| == |names[1]| && forall i :: 0 <= i < |b| ==> LowerChar(b[i]) == LowerChar(names[1][i])
    ensures HasAny(mods, names) <==> Spelled(mods, a, b)
  {
    forall i | 0 <= i < |mods| ensures (EqualFold(mods[i], a) <==> EqualFold(mods[i], names[0]))
                                       && (|names| == 2 ==> (EqualFold(mods[i], b) <==> EqualFold(mods[i], names[1]))) {
      FoldLower(a, names[0], mods[i]);
      if |names| == 2 {
        FoldLower(b, names[1], mods[i]);
      }
    }
    if HasAny(mods, names) {
      var i, j :| 0 <= i < |mods| && 0 <= j < |names| && EqualFold(mods[i], names[j]);
      assert j == 0 || j == 1;
    }
    if Spelled(mods, a, b) {
      var i :| 0 <= i < |mods| && (EqualFold(mods[i], a) || EqualFold(mods[i], b));
      assert EqualFold(mods[i], names[0]) || (|names| == 2 && EqualFold(mods[i], names[1]));
    }
  }

  lemma SelfBindIff(kb: Keybind)
    ensures ModifierSelfBind(kb.key, kb.modifiers) <==> SelfTrigger(kb)
  {
    HasAnyIsSpelled(kb.modifiers, ["SUPER", "MOD"], "super", "mod");
    HasAnyIsSpelled(kb.modifiers, ["ALT"], "alt", "alt");
    HasAnyIsSpelled(kb.modifiers, ["CTRL", "CONTROL"], "ctrl", "control");
    HasAnyIsSpelled(kb.modifiers, ["SHIFT"], "shift", "shift");
  }

  lemma NoSelfBind(key: string, mods: seq<string>)
    requires !IsModifierKey(key)
    ensures !ModifierSelfBind(key, mods)
  {
  }

  lemma MappedSelfBind(kb: Keybind)
    requires MapKey(kb.key).Some?
    ensures ModifierSelfBind(MapKey(kb.key).value, kb.modifiers) <==> SelfTrigger(kb)
  {
    SelfBindIff(kb);
    if IsModifierKey(kb.key) {
      ModifierKeysMap(kb.key);
    } else {
      NoSelfBind(kb.key, kb.modifiers);
      if IsModifierKey(MapKey(kb.key).value) {
        MappedModifierKey(kb.key);
      } else {
        NoSelfBind(MapKey(kb.key).value, kb.modifiers);
      }
    }
  }

  /** A bind is written exactly when it is enabled, has a key that niri has, does not bind a modifier to itself, and
      spawns or has a dispatcher that the table knows. */
  lemma WrittenIff(kb: Keybind, table: DispatchTable)
    ensures Place(kb, table).Emit? <==>
              && kb.enabled && kb.key != "" && (exists x :: KeyCalled(kb.key, x)) && !SelfTrigger(kb)
              && (kb.dispatcher in {"", "exec", "spawn"} || table(kb.dispatcher, kb.argument).Some?)
  {
    forall x ensures MapKey(kb.key) == Some(x) <==> KeyCalled(kb.key, x) {
      MappedIff(kb.key, x);
    }
    if MapKey(kb.key).Some? {
      MappedSelfBind(kb);
      assert KeyCalled(kb.key, MapKey(kb.key).value);
    }
  }

  /** Why a bind is not written: a disabled one or one without a key is passed over, the others are listed. */
  lemma SkippedIff(kb: Keybind, table: DispatchTable)
    ensures Place(kb, table) == Ignore <==> !kb.enabled || kb.key == ""
    ensures Place(kb, table) == Skip(NoKey) <==> kb.enabled && kb.key != "" && forall x :: !KeyCalled(kb.key, x)
    ensures Place(kb, table) == Skip(ModifierAlone) <==> kb.enabled && kb.key != "" && (exists x :: KeyCalled(kb.key, x)) && SelfTrigger(kb)
  {
    forall x ensures MapKey(kb.key) == Some(x) <==> KeyCalled(kb.key, x) {
      MappedIff(kb.key, x);
    }
    if MapKey(kb.key).Some? {
      MappedSelfBind(kb);
      assert KeyCalled(kb.key, MapKey(kb.key).value);
    }
  }

  lemma EmittedParts(kb: Keybind, table: DispatchTable, key: string)
    requires Place(kb, table).Emit? && MapKey(kb.key) == Some(key)
    ensures var node := Place(kb, table).node;
            && node.combo == ComboText(kb.modifiers, key) && (node.repeats <==> kb.flags == "")
            && (!IsSpawn(kb) ==> Some(node.action) == table(kb.dispatcher, kb.argument))
  {
  }

  /** What is written: the trigger, whether it repeats, and for a dispatcher the table's action. */
  lemma WrittenNode(kb: Keybind, table: DispatchTable, key: string, parts: seq<string>)
    requires Place(kb, table).Emit? && KeyCalled(kb.key, key)
    requires |parts| == |kb.modifiers| && forall i :: 0 <= i < |parts| ==> Called(kb.modifiers[i], parts[i])
    ensures var node := Place(kb, table).node;
            && node.combo == (if kb.modifiers == [""] then key else Prefixes(parts) + key)
            && (node.repeats <==> kb.flags == "")
            && (kb.dispatcher !in {"", "exec", "spawn"} ==> Some(node.action) == table(kb.dispatcher, kb.argument))
  {
    MappedIff(kb.key, key);
    EmittedParts(kb, table, key);
    TriggerText(kb.modifiers, key, parts);
  }

  // ---------------------------------------------------------------------
  // A whole configuration
  // ---------------------------------------------------------------------

  /** Where a bind stands in the configuration. */
  datatype Slot = System(name: string) | Dynamic(name: string) | Custom(index: nat)

  function BindAt(k: ConfigKeybinds, s: Slot): Option<Keybind> {
    match s
    case System(n) => if k.ambxst.Some? && n in k.ambxst.value.system then Some(k.ambxst.value.system[n]) else None
    case Dynamic(n) => if k.ambxst.Some? && n in k.ambxst.value.binds then Some(k.ambxst.value.binds[n]) else None
    case Custom(i) => if i < |k.custom| then Some(k.custom[i]) else None
  }

  function OutcomeAt(k: ConfigKeybinds, s: Slot, table: DispatchTable): Outcome {
    if BindAt(k, s).Some? then Place(BindAt(k, s).value, table) else Ignore
  }

  function CustomSlots(n: nat): set<Slot> { set i | 0 <= i < n :: Custom(i) }

  lemma NextCustomSlot(n: nat)
    ensures CustomSlots(n + 1) == CustomSlots(n) + {Custom(n)} && Custom(n) !in CustomSlots(n)
  {
  }

  function AllSlots(k: ConfigKeybinds): set<Slot> {
    (if k.ambxst.Some? then (set n | n in k.ambxst.value.system :: System(n)) + (set n | n in k.ambxst.value.binds :: Dynamic(n)) else {})
    + CustomSlots(|k.custom|)
  }

  /** a may come before b: system binds come first, dynamic ones second, custom ones last in list order. */
  predicate Before(a: Slot, b: Slot) {
    match (a, b)
    case (Custom(i), Custom(j)) => i < j
    case (Custom(_), _) => false
    case (Dynamic(_), System(_)) => false
    case _ => true
  }

  /** A log of slots among those seen, each at most once and in order. */
  predicate Listed<T>(log: seq<(Slot, T)>, seen: set<Slot>) {
    && (forall i :: 0 <= i < |log| ==> log[i].0 in seen)
    && (forall i, j :: 0 <= i < j < |log| ==> log[i].0 != log[j].0 && Before(log[i].0, log[j].0))
  }

  lemma ListedStep<T>(log: seq<(Slot, T)>, seen: set<Slot>, s: Slot, x: T)
    requires Listed(log, seen) && s !in seen && forall y :: y in seen ==> Before(y, s)
    ensures Listed(log, seen + {s}) && Listed(log + [(s, x)], seen + {s})
  {
    var l := log + [(s, x)];
    forall i, j | 0 <= i < j < |l| ensures l[i].0 != l[j].0 && Before(l[i].0, l[j].0) {
      assert l[i] == log[i] && log[i].0 in seen;
    }
  }

  /** What has been generated for the slots seen so far, in order: each emitting slot once with its node, each
      skipped slot once with its reason, and nothing else. */
  ghost predicate Accounted(k: ConfigKeybinds, seen: set<Slot>, table: DispatchTable,
                            emitted: seq<(Slot, Node)>, skipped: seq<(Slot, Reason)>) {
    && (forall s :: s in seen && OutcomeAt(k, s, table).Emit? ==> (s, OutcomeAt(k, s, table).node) in emitted)
    && (forall s :: s in seen && OutcomeAt(k, s, table).Skip? ==> (s, OutcomeAt(k, s, table).reason) in skipped)
    && (forall i :: 0 <= i < |emitted| ==> OutcomeAt(k, emitted[i].0, table) == Emit(emitted[i].1))
    && (forall i :: 0 <= i < |skipped| ==> OutcomeAt(k, skipped[i].0, table) == Skip(skipped[i].1))
    && Listed(emitted, seen) && Listed(skipped, seen)
  }

  lemma AccountedStep(k: ConfigKeybinds, seen: set<Slot>, table: DispatchTable, emitted: seq<(Slot, Node)>, skipped: seq<(Slot, Reason)>,
                      s: Slot, emitted': seq<(Slot, Node)>, skipped': seq<(Slot, Reason)>)
    requires Accounted(k, seen, table, emitted, skipped) && s !in seen && forall x :: x in seen ==> Before(x, s)
    requires emitted' == emitted + (if OutcomeAt(k, s, table).Emit? then [(s, OutcomeAt(k, s, table).node)] else [])
    requires skipped' == skipped + (if OutcomeAt(k, s, table).Skip? then [(s, OutcomeAt(k, s, table).reason)] else [])
    ensures Accounted(k, seen + {s}, table, emitted', skipped')
  {
    var o := OutcomeAt(k, s, table);
    ListedStep(emitted, seen, s, if o.Emit? then o.node else Node("", false, ""));
    ListedStep(skipped, seen, s, if o.Skip? then o.reason else NoKey);
    assert forall x :: x in emitted ==> x in emitted';
    assert forall x :: x in skipped ==> x in skipped';
    if o.Emit? {
      assert emitted'[|emitted|] == (s, o.node);
    } else {
      assert emitted' == emitted;
    }
    if o.Skip? {
      assert skipped'[|skipped|] == (s, o.reason);
    } else {
      assert skipped' == skipped;
    }
  }

  predicate Emitted(emitted: seq<(Slot, Node)>, s: Slot) { exists i :: 0 <= i < |emitted| && emitted[i].0 == s }
  predicate Skipped(skipped: seq<(Slot, Reason)>, s: Slot) { exists i :: 0 <= i < |skipped| && skipped[i].0 == s }

  /** Conservation: an enabled bind with a key is emitted once or skipped once, never both and never
      neither; any other bind appears nowhere; and a modifier-alone bind is among the skipped. */
  lemma BindsConserved(k: ConfigKeybinds, table: DispatchTable, emitted: seq<(Slot, Node)>, skipped: seq<(Slot, Reason)>, s: Slot)
    requires Accounted(k, AllSlots(k), table, emitted, skipped) && s in AllSlots(k)
    ensures BindAt(k, s).Some?
    ensures var kb := BindAt(k, s).value;
            && (kb.enabled && kb.key != "" <==> Emitted(emitted, s) || Skipped(skipped, s))
            && !(Emitted(emitted, s) && Skipped(skipped, s))
            && (ModifierSelfGroup(kb).Some? ==> Skipped(skipped, s))
  {
    var kb := BindAt(k, s).value;
    var o := Place(kb, table);
    if o.Emit? {
      var i :| 0 <= i < |emitted| && emitted[i] == (s, o.node);
      assert emitted[i].0 == s;
    }
    if o.Skip? {
      var i :| 0 <= i < |skipped| && skipped[i] == (s, o.reason);
      assert skipped[i].0 == s;
    }
    if ModifierSelfGroup(kb).Some? {
      ModifierAloneIsSkipped(kb, table);
    }
  }

  // ---------------------------------------------------------------------
  // The generator as the source runs it
  // ---------------------------------------------------------------------

  class Generator {
    const table: DispatchTable
    var emitted: seq<(Slot, Node)>
    var skipped: seq<(Slot, Reason)>

    constructor (table: DispatchTable)
      ensures this.table == table && emitted == [] && skipped == []
    {
      this.table := table;
      emitted, skipped := [], [];
    }

    method AddBind(kb: Keybind, slot: Slot)
      modifies this
      ensures emitted == old(emitted) + (if Place(kb, table).Emit? then [(slot, Place(kb, table).node)] else [])
      ensures skipped == old(skipped) + (if Place(kb, table).Skip? then [(slot, Place(kb, table).reason)] else [])
    {
      if !kb.enabled || kb.key == "" {
        return;
      }
      var key := MapKey(kb.key);
      if key.None? {
        skipped := skipped + [(slot, NoKey)];
        return;
      }
      if ModifierSelfBind(key.value, kb.modifiers) {
        skipped := skipped + [(slot, ModifierAlone)];
        return;
      }
      var action := "";
      if IsSpawn(kb) {
        action := SpawnLine(kb.argument);
      } else {
        var mapped := table(kb.dispatcher, kb.argument);
        if mapped.None? {
          skipped := skipped + [(slot, NoDispatcher)];
          return;
        }
        action := mapped.value;
      }
      emitted := emitted + [(slot, Node(ComboText(kb.modifiers, key.value), kb.flags == "", action))];
    }

    static method SpawnLine(arg: string) returns (line: string)
      ensures line == "spawn" + Arguments(SpawnWords(arg))
    {
      var parts := TokenizeShell(arg);
      if |parts| == 0 {
        parts := [arg];
      }
      line := "spawn";
      for i := 0 to |parts|
        invariant line + Arguments(parts[i..]) == "spawn" + Arguments(parts)
      {
        assert parts[i..][0] == parts[i] && parts[i..][1..] == parts[i + 1..];
        line := line + (" " + KdlQuote(parts[i]));
      }
      assert Arguments(parts[|parts|..]) == "";
    }

    /** Named sections come in map order, which is arbitrary; custom binds in list order. */
    method GenerateKeybinds(k: ConfigKeybinds)
      modifies this
      requires emitted == [] && skipped == []
      ensures Accounted(k, AllSlots(k), table, emitted, skipped)
    {
      ghost var seen: set<Slot> := {};
      if k.ambxst.Some? {
        seen := AddSystem(k);
        seen := AddDynamic(k, seen);
      }
      AddCustom(k, seen);
    }

    method AddSystem(k: ConfigKeybinds) returns (ghost seen: set<Slot>)
      requires k.ambxst.Some? && emitted == [] && skipped == []
      modifies this
      ensures seen == (set n | n in k.ambxst.value.system :: System(n))
      ensures Accounted(k, seen, table, emitted, skipped)
    {
      var m := k.ambxst.value.system;
      var names := m.Keys;
      seen := {};
      while names != {}
        invariant names <= m.Keys && seen == (set n | n in m.Keys - names :: System(n))
        invariant Accounted(k, seen, table, emitted, skipped)
        decreases |names|
      {
        var n :| n in names;
        ghost var e, d := emitted, skipped;
        AddBind(m[n], System(n));
        AccountedStep(k, seen, table, e, d, System(n), emitted, skipped);
        names := names - {n};
        seen := seen + {System(n)};
      }
    }

    method AddDynamic(k: ConfigKeybinds, ghost before: set<Slot>) returns (ghost seen: set<Slot>)
      requires k.ambxst.Some? && Accounted(k, before, table, emitted, skipped) && forall x :: x in before ==> x.System?
      modifies this
      ensures seen == before + (set n | n in k.ambxst.value.binds :: Dynamic(n))
      ensures Accounted(k, seen, table, emitted, skipped)
    {
      var m := k.ambxst.value.binds;
      var names := m.Keys;
      seen := before;
      while names != {}
        invariant names <= m.Keys && seen == before + (set n | n in m.Keys - names :: Dynamic(n))
        invariant Accounted(k, seen, table, emitted, skipped)
        decreases |names|
      {
        var n :| n in names;
        ghost var e, d := emitted, skipped;
        AddBind(m[n], Dynamic(n));
        AccountedStep(k, seen, table, e, d, Dynamic(n), emitted, skipped);
        names := names - {n};
        seen := seen + {Dynamic(n)};
      }
    }

    method AddCustom(k: ConfigKeybinds, ghost before: set<Slot>)
      requires Accounted(k, before, table, emitted, skipped) && forall x :: x in before ==> !x.Custom?
      modifies this
      ensures Accounted(k, before + CustomSlots(|k.custom|), table, emitted, skipped)
    {
      ghost var seen := before;
      for i := 0 to |k.custom|
        invariant seen == before + CustomSlots(i)
        invariant Accounted(k, seen, table, emitted, skipped)
      {
        ghost var e, d := emitted, skipped;
        AddBind(k.custom[i], Custom(i));
        NextCustomSlot(i);
        AccountedStep(k, seen, table, e, d, Custom(i), emitted, skipped);
        seen := seen + {Custom(i)};
      }
    }
  }
}
