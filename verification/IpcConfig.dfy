/** The universal configuration that clients exchange with the daemon. */
module IpcConfig {
  import opened Prelude
  import opened Strings
  import Toml = TomlConfig

  datatype Keybind = Keybind(modifiers: seq<string>, key: string, dispatcher: string, argument: string, flags: string, enabled: bool)
  datatype KeybindTarget = KeybindTarget(modifiers: seq<string>, key: string)
  datatype BatchKeybinds = BatchKeybinds(binds: seq<Keybind>, unbinds: seq<KeybindTarget>)
  datatype AmbxstKeybinds = AmbxstKeybinds(system: map<string, Keybind>, binds: map<string, Keybind>)
  datatype ConfigKeybinds = ConfigKeybinds(ambxst: Option<AmbxstKeybinds>, custom: seq<Keybind>)

  datatype ConfigAppearance = ConfigAppearance(
    gaps: Option<Toml.Gaps>, border: Option<Toml.Border>, opacity: Option<Toml.Opacity>, blur: Option<Toml.Blur>,
    shadow: Option<Toml.Shadow>, animations: Option<Toml.Animations>, layout: Option<string>)

  datatype ConfigUniversal = ConfigUniversal(
    appearance: ConfigAppearance, keybinds: ConfigKeybinds, windowRules: seq<Toml.WindowRule>,
    layerRules: seq<Toml.LayerRule>, exec: seq<string>, execOnce: seq<string>)

  /** The copy made by a JSON round trip: the dynamic ambxst binds carry no JSON name and come back empty. */
  function Clone(p: ConfigUniversal): ConfigUniversal {
    p.(keybinds := CloneKeybinds(p.keybinds))
  }

  function CloneKeybinds(k: ConfigKeybinds): ConfigKeybinds {
    if k.ambxst.Some? then k.(ambxst := Some(k.ambxst.value.(binds := map[]))) else k
  }

  /** The copy is lossless exactly when there are no dynamic ambxst binds. */
  lemma CloneLosslessIff(p: ConfigUniversal)
    ensures Clone(p) == p <==> (p.keybinds.ambxst.Some? ==> p.keybinds.ambxst.value.binds == map[])
    ensures Clone(Clone(p)) == Clone(p)
  {
  }

  /** What identifies a keybind when binds are replaced or removed. */
  datatype Combo = Combo(mods: string, key: string)

  function ComboOf(kb: Keybind): Combo { Combo(JoinSpace(kb.modifiers), kb.key) }
  function TargetCombo(t: KeybindTarget): Combo { Combo(JoinSpace(t.modifiers), t.key) }

  /** The modifier group of a "modifier key alone" bind, if the bind has that shape. */
  function ModifierSelfGroup(kb: Keybind): Option<string> {
    if !kb.enabled || (kb.dispatcher != "exec" && kb.dispatcher != "spawn" && kb.dispatcher != "") then None
    else if |kb.modifiers| != 1 then None
    else
      var group := if kb.key == "Super_L" || kb.key == "Super_R" then "SUPER"
                   else if kb.key == "Alt_L" || kb.key == "Alt_R" then "ALT"
                   else if kb.key == "Control_L" || kb.key == "Control_R" then "CTRL"
                   else if kb.key == "Shift_L" || kb.key == "Shift_R" then "SHIFT" else "";
      if group == "" then None
      else
        var groupMod := if group == "SUPER" then "super" else if group == "ALT" then "alt" else if group == "CTRL" then "ctrl" else "shift";
        if EqualFold(kb.modifiers[0], groupMod) then Some(group) else None
  }

  /** Which group a bind has: an enabled bind that spawns, on one modifier and on a key of that very modifier. */
  lemma SelfGroupMeans(kb: Keybind, g: string)
    ensures ModifierSelfGroup(kb) == Some(g) <==>
              && kb.enabled && kb.dispatcher in {"exec", "spawn", ""} && |kb.modifiers| == 1
              && ((g == "SUPER" && kb.key in {"Super_L", "Super_R"} && EqualFold(kb.modifiers[0], "super"))
                  || (g == "ALT" && kb.key in {"Alt_L", "Alt_R"} && EqualFold(kb.modifiers[0], "alt"))
                  || (g == "CTRL" && kb.key in {"Control_L", "Control_R"} && EqualFold(kb.modifiers[0], "ctrl"))
                  || (g == "SHIFT" && kb.key in {"Shift_L", "Shift_R"} && EqualFold(kb.modifiers[0], "shift")))
  {
  }
}
