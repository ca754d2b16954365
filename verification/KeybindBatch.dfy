/** Batch keybind updates: unbinds first, then upserts into the custom list. */
module KeybindBatch {
  import opened Prelude
  import opened Strings
  import opened IpcConfig

  // ---------------------------------------------------------------------
  // The update as a function
  // ---------------------------------------------------------------------

  /** The binds whose combo is not c, in order. */
  function Keep(s: seq<Keybind>, c: Combo): seq<Keybind> {
    if s == [] then [] else (if ComboOf(s[0]) != c then [s[0]] else []) + Keep(s[1..], c)
  }

  function KeepAll(s: seq<Keybind>, us: seq<KeybindTarget>): seq<Keybind>
    decreases |us|
  {
    if us == [] then s else KeepAll(Keep(s, TargetCombo(us[0])), us[1..])
  }

  function KeepNamed(m: map<string, Keybind>, c: Combo): map<string, Keybind> {
    map n | n in m && ComboOf(m[n]) != c :: m[n]
  }

  function UnbindOne(k: ConfigKeybinds, c: Combo): ConfigKeybinds {
    ConfigKeybinds(if k.ambxst.None? then None
                   else Some(AmbxstKeybinds(KeepNamed(k.ambxst.value.system, c), KeepNamed(k.ambxst.value.binds, c))),
                   Keep(k.custom, c))
  }

  function UnbindAll(k: ConfigKeybinds, us: seq<KeybindTarget>): ConfigKeybinds
    decreases |us|
  {
    if us == [] then k else UnbindAll(UnbindOne(k, TargetCombo(us[0])), us[1..])
  }

  /** Replaces the first bind with b's combo, or appends b. */
  function Upsert(s: seq<Keybind>, b: Keybind): seq<Keybind> {
    if s == [] then [b]
    else if ComboOf(s[0]) == ComboOf(b) then [b] + s[1..]
    else [s[0]] + Upsert(s[1..], b)
  }

  function UpsertAll(s: seq<Keybind>, bs: seq<Keybind>): seq<Keybind>
    decreases |bs|
  {
    if bs == [] then s else UpsertAll(Upsert(s, bs[0]), bs[1..])
  }

  function Apply(k: ConfigKeybinds, p: BatchKeybinds): ConfigKeybinds {
    var u := UnbindAll(k, p.unbinds);
    u.(custom := UpsertAll(u.custom, p.binds))
  }

  // ---------------------------------------------------------------------
  // The finite map it refines: first match by combo
  // ---------------------------------------------------------------------

  function Lookup(s: seq<Keybind>, c: Combo): Option<Keybind> {
    if s == [] then None else if ComboOf(s[0]) == c then Some(s[0]) else Lookup(s[1..], c)
  }

  /** The payload's last bind for c. */
  function LastBind(bs: seq<Keybind>, c: Combo): Option<Keybind>
    decreases |bs|
  {
    if bs == [] then None
    else if ComboOf(bs[|bs| - 1]) == c then Some(bs[|bs| - 1])
    else LastBind(bs[..|bs| - 1], c)
  }

  predicate Unbound(us: seq<KeybindTarget>, c: Combo) { exists i :: 0 <= i < |us| && TargetCombo(us[i]) == c }

  lemma {:induction false} LookupUpsert(s: seq<Keybind>, b: Keybind, c: Combo)
    ensures Lookup(Upsert(s, b), c) == if c == ComboOf(b) then Some(b) else Lookup(s, c)
  {
    if s != [] {
      LookupUpsert(s[1..], b, c);
      assert ([s[0]] + Upsert(s[1..], b))[1..] == Upsert(s[1..], b) && ([b] + s[1..])[1..] == s[1..];
    }
  }

  lemma {:induction false} LookupUpsertAll(s: seq<Keybind>, bs: seq<Keybind>, c: Combo)
    ensures Lookup(UpsertAll(s, bs), c) == if LastBind(bs, c).Some? then LastBind(bs, c) else Lookup(s, c)
    decreases |bs|
  {
    if bs != [] {
      LookupUpsert(s, bs[0], c);
      LookupUpsertAll(Upsert(s, bs[0]), bs[1..], c);
      LastBindHead(bs, c);
    }
  }

  lemma {:induction false} LastBindHead(bs: seq<Keybind>, c: Combo)
    requires bs != []
    ensures LastBind(bs, c) == if LastBind(bs[1..], c).Some? then LastBind(bs[1..], c)
                               else if ComboOf(bs[0]) == c then Some(bs[0]) else None
    decreases |bs|
  {
    if |bs| > 1 {
      var init := bs[..|bs| - 1];
      LastBindHead(init, c);
      assert bs[1..][..|bs| - 2] == init[1..] && bs[1..][|bs| - 2] == bs[|bs| - 1] && init[0] == bs[0];
    } else {
      assert bs[..0] == [] && bs[1..] == [];
    }
  }

  lemma {:induction false} LookupKeep(s: seq<Keybind>, d: Combo, c: Combo)
    ensures Lookup(Keep(s, d), c) == if c == d then None else Lookup(s, c)
  {
    if s != [] {
      LookupKeep(s[1..], d, c);
      assert ([s[0]] + Keep(s[1..], d))[1..] == Keep(s[1..], d) && [] + Keep(s[1..], d) == Keep(s[1..], d);
    }
  }

  lemma {:induction false} UnbindAllSections(k: ConfigKeybinds, us: seq<KeybindTarget>, c: Combo)
    ensures var u := UnbindAll(k, us);
            && Lookup(u.custom, c) == (if Unbound(us, c) then None else Lookup(k.custom, c))
            && u.custom == KeepAll(k.custom, us)
            && (u.ambxst.Some? <==> k.ambxst.Some?)
    decreases |us|
  {
    if us != [] {
      var d := TargetCombo(us[0]);
      LookupKeep(k.custom, d, c);
      UnbindAllSections(UnbindOne(k, d), us[1..], c);
      UnboundHead(us, c);
    }
  }

  /** A batch acts on custom lookups as on a finite map: the last bind of the payload for the combo wins,
      else an unbound combo maps to nothing, else the old bind stays. */
  lemma ApplyRefinesMap(k: ConfigKeybinds, p: BatchKeybinds, c: Combo)
    ensures Lookup(Apply(k, p).custom, c) ==
            if LastBind(p.binds, c).Some? then LastBind(p.binds, c)
            else if Unbound(p.unbinds, c) then None
            else Lookup(k.custom, c)
  {
    UnbindAllSections(k, p.unbinds, c);
    LookupUpsertAll(UnbindAll(k, p.unbinds).custom, p.binds, c);
  }

  /** The named sections lose exactly the unbound binds and gain nothing. */
  lemma {:induction false} UnbindAllNamed(k: ConfigKeybinds, us: seq<KeybindTarget>, n: string)
    requires k.ambxst.Some?
    ensures var a, u := k.ambxst.value, UnbindAll(k, us).ambxst;
            && u.Some?
            && (n in u.value.system <==> n in a.system && !Unbound(us, ComboOf(a.system[n])))
            && (n in u.value.system ==> u.value.system[n] == a.system[n])
            && (n in u.value.binds <==> n in a.binds && !Unbound(us, ComboOf(a.binds[n])))
            && (n in u.value.binds ==> u.value.binds[n] == a.binds[n])
    decreases |us|
  {
    if us != [] {
      UnbindAllNamed(UnbindOne(k, TargetCombo(us[0])), us[1..], n);
      forall c: Combo ensures Unbound(us, c) <==> c == TargetCombo(us[0]) || Unbound(us[1..], c) {
        UnboundHead(us, c);
      }
    }
  }

  lemma UnboundHead(us: seq<KeybindTarget>, c: Combo)
    requires us != []
    ensures Unbound(us, c) <==> c == TargetCombo(us[0]) || Unbound(us[1..], c)
  {
    if Unbound(us[1..], c) {
      var i :| 0 <= i < |us[1..]| && TargetCombo(us[1..][i]) == c;
      assert TargetCombo(us[i + 1]) == c;
    }
    if Unbound(us, c) && c != TargetCombo(us[0]) {
      var i :| 0 <= i < |us| && TargetCombo(us[i]) == c;
      assert TargetCombo(us[1..][i - 1]) == c;
    }
  }

  // ---------------------------------------------------------------------
  // On the fields of the binds
  // ---------------------------------------------------------------------

  /** The target has the bind's key and, joined by single blanks, its modifiers. */
  predicate Names(u: KeybindTarget, kb: Keybind) { u.key == kb.key && JoinSpace(u.modifiers) == JoinSpace(kb.modifiers) }

  predicate AnyNames(us: seq<KeybindTarget>, kb: Keybind) { exists i :: 0 <= i < |us| && Names(us[i], kb) }

  predicate SameTrigger(a: Keybind, b: Keybind) { a.key == b.key && JoinSpace(a.modifiers) == JoinSpace(b.modifiers) }

  predicate AnySame(s: seq<Keybind>, kb: Keybind) { exists i :: 0 <= i < |s| && SameTrigger(s[i], kb) }

  lemma UnboundIffNamed(us: seq<KeybindTarget>, kb: Keybind)
    ensures Unbound(us, ComboOf(kb)) <==> AnyNames(us, kb)
  {
    forall u ensures TargetCombo(u) == ComboOf(kb) <==> Names(u, kb) {
    }
  }

  /** A bind of a named section survives a batch exactly when no unbind has its key and its modifiers; it survives
      unchanged, and none is added. */
  lemma NamedSurvivesIff(k: ConfigKeybinds, p: BatchKeybinds, n: string)
    requires k.ambxst.Some?
    ensures var a, u := k.ambxst.value, Apply(k, p).ambxst;
            && u.Some?
            && (n in u.value.system <==> n in a.system && !AnyNames(p.unbinds, a.system[n]))
            && (n in u.value.system ==> u.value.system[n] == a.system[n])
            && (n in u.value.binds <==> n in a.binds && !AnyNames(p.unbinds, a.binds[n]))
            && (n in u.value.binds ==> u.value.binds[n] == a.binds[n])
  {
    UnbindAllNamed(k, p.unbinds, n);
    var a := k.ambxst.value;
    if n in a.system {
      UnboundIffNamed(p.unbinds, a.system[n]);
    }
    if n in a.binds {
      UnboundIffNamed(p.unbinds, a.binds[n]);
    }
  }

  lemma {:induction false} KeptMember(s: seq<Keybind>, c: Combo, kb: Keybind)
    ensures kb in Keep(s, c) <==> kb in s && ComboOf(kb) != c
  {
    if s != [] {
      KeptMember(s[1..], c, kb);
      assert s == [s[0]] + s[1..];
    }
  }

  lemma {:induction false} AllKeptMember(s: seq<Keybind>, us: seq<KeybindTarget>, kb: Keybind)
    ensures kb in KeepAll(s, us) <==> kb in s && !Unbound(us, ComboOf(kb))
    decreases |us|
  {
    if us != [] {
      KeptMember(s, TargetCombo(us[0]), kb);
      AllKeptMember(Keep(s, TargetCombo(us[0])), us[1..], kb);
      UnboundHead(us, ComboOf(kb));
    }
  }

  /** Unbinding alone leaves exactly the custom binds that no unbind names. */
  lemma CustomSurvivesIff(k: ConfigKeybinds, us: seq<KeybindTarget>, kb: Keybind)
    ensures kb in Apply(k, BatchKeybinds([], us)).custom <==> kb in k.custom && !AnyNames(us, kb)
  {
    UnbindAllSections(k, us, ComboOf(kb));
    AllKeptMember(k.custom, us, kb);
    UnboundIffNamed(us, kb);
  }

  lemma {:induction false} LookupFinds(s: seq<Keybind>, kb: Keybind)
    ensures Lookup(s, ComboOf(kb)).Some? <==> AnySame(s, kb)
    ensures Lookup(s, ComboOf(kb)).Some? ==>
              exists i :: 0 <= i < |s| && s[i] == Lookup(s, ComboOf(kb)).value && SameTrigger(s[i], kb) && !AnySame(s[..i], kb)
  {
    if s != [] {
      if ComboOf(s[0]) == ComboOf(kb) {
        assert s[..0] == [] && SameTrigger(s[0], kb);
      } else {
        LookupFinds(s[1..], kb);
        SameTail(s, kb);
        if Lookup(s[1..], ComboOf(kb)).Some? {
          var i :| 0 <= i < |s[1..]| && s[1..][i] == Lookup(s[1..], ComboOf(kb)).value && SameTrigger(s[1..][i], kb) && !AnySame(s[1..][..i], kb);
          assert s[..i + 1][1..] == s[1..][..i];
          SameTail(s[..i + 1], kb);
          assert s[i + 1] == Lookup(s, ComboOf(kb)).value;
        }
      }
    }
  }

  lemma SameTail(s: seq<Keybind>, kb: Keybind)
    requires s != [] && !SameTrigger(s[0], kb)
    ensures AnySame(s, kb) <==> AnySame(s[1..], kb)
  {
    if AnySame(s, kb) {
      var i :| 0 <= i < |s| && SameTrigger(s[i], kb);
      assert SameTrigger(s[1..][i - 1], kb);
    }
    if AnySame(s[1..], kb) {
      var i :| 0 <= i < |s[1..]| && SameTrigger(s[1..][i], kb);
      assert SameTrigger(s[i + 1], kb);
    }
  }

  lemma {:induction false} LastBindIs(bs: seq<Keybind>, j: nat)
    requires j < |bs| && forall l :: j < l < |bs| ==> !SameTrigger(bs[l], bs[j])
    ensures LastBind(bs, ComboOf(bs[j])) == Some(bs[j])
    decreases |bs|
  {
    var n := |bs| - 1;
    if j < n {
      LastBindIs(bs[..n], j);
    }
  }

  lemma {:induction false} LastBindExists(bs: seq<Keybind>, kb: Keybind)
    ensures LastBind(bs, ComboOf(kb)).Some? <==> AnySame(bs, kb)
    decreases |bs|
  {
    if bs != [] {
      var n := |bs| - 1;
      LastBindExists(bs[..n], kb);
      if AnySame(bs[..n], kb) {
        var i :| 0 <= i < n && SameTrigger(bs[..n][i], kb);
        assert SameTrigger(bs[i], kb);
      }
      if AnySame(bs, kb) && !SameTrigger(bs[n], kb) {
        var i :| 0 <= i < |bs| && SameTrigger(bs[i], kb);
        assert SameTrigger(bs[..n][i], kb);
      }
    }
  }

  /** A custom trigger is gone after a batch exactly when no bind of the payload has it and either an unbind names it
      or no custom bind had it. */
  lemma CustomGoneIff(k: ConfigKeybinds, p: BatchKeybinds, kb: Keybind)
    ensures AnySame(Apply(k, p).custom, kb) <==> AnySame(p.binds, kb) || (!AnyNames(p.unbinds, kb) && AnySame(k.custom, kb))
  {
    ApplyRefinesMap(k, p, ComboOf(kb));
    LookupFinds(Apply(k, p).custom, kb);
    LookupFinds(k.custom, kb);
    LastBindExists(p.binds, kb);
    UnboundIffNamed(p.unbinds, kb);
  }

  /** The last bind of the payload with its trigger is the first custom bind with it afterwards. */
  lemma BoundIsFirst(k: ConfigKeybinds, p: BatchKeybinds, j: nat)
    requires j < |p.binds| && forall l :: j < l < |p.binds| ==> !SameTrigger(p.binds[l], p.binds[j])
    ensures var s, b := Apply(k, p).custom, p.binds[j]; exists i :: 0 <= i < |s| && s[i] == b && !AnySame(s[..i], b)
  {
    var s, b := Apply(k, p).custom, p.binds[j];
    ApplyRefinesMap(k, p, ComboOf(b));
    LastBindIs(p.binds, j);
    LookupFinds(s, b);
    var i :| 0 <= i < |s| && s[i] == Lookup(s, ComboOf(b)).value && SameTrigger(s[i], b) && !AnySame(s[..i], b);
  }

  // ---------------------------------------------------------------------
  // Order and uniqueness
  // ---------------------------------------------------------------------

  function Combos(s: seq<Keybind>): seq<Combo> {
    seq(|s|, i requires 0 <= i < |s| => ComboOf(s[i]))
  }

  /** The combos of bs that are not in seen, each at its first occurrence. */
  function FirstNew(bs: seq<Keybind>, seen: set<Combo>): seq<Combo>
    decreases |bs|
  {
    if bs == [] then []
    else if ComboOf(bs[0]) in seen then FirstNew(bs[1..], seen)
    else [ComboOf(bs[0])] + FirstNew(bs[1..], seen + {ComboOf(bs[0])})
  }

  lemma CombosHead(b: Keybind, t: seq<Keybind>)
    ensures Combos([b] + t) == [ComboOf(b)] + Combos(t)
  {
  }

  lemma {:induction false} CombosUpsert(s: seq<Keybind>, b: Keybind)
    ensures Combos(Upsert(s, b)) == if ComboOf(b) in Combos(s) then Combos(s) else Combos(s) + [ComboOf(b)]
  {
    if s == [] {
      assert Combos([b]) == [ComboOf(b)];
    } else {
      var t := s[1..];
      assert s == [s[0]] + t;
      CombosHead(s[0], t);
      if ComboOf(s[0]) == ComboOf(b) {
        CombosHead(b, t);
      } else {
        CombosUpsert(t, b);
        CombosHead(s[0], Upsert(t, b));
        Assoc([ComboOf(s[0])], Combos(t), [ComboOf(b)]);
      }
    }
  }

  lemma {:induction false} CombosUpsertAll(s: seq<Keybind>, bs: seq<Keybind>)
    ensures Combos(UpsertAll(s, bs)) == Combos(s) + FirstNew(bs, SetOf(Combos(s)))
    decreases |bs|
  {
    if bs != [] {
      var c := ComboOf(bs[0]);
      CombosUpsert(s, bs[0]);
      CombosUpsertAll(Upsert(s, bs[0]), bs[1..]);
      if c !in Combos(s) {
        SetOfSnoc(Combos(s), c);
        Assoc(Combos(s), [c], FirstNew(bs[1..], SetOf(Combos(s)) + {c}));
      }
    }
  }

  lemma {:induction false} FirstNewIsNew(bs: seq<Keybind>, seen: set<Combo>)
    ensures NoDup(FirstNew(bs, seen)) && SetOf(FirstNew(bs, seen)) !! seen
    decreases |bs|
  {
    if bs != [] {
      var c := ComboOf(bs[0]);
      if c in seen {
        FirstNewIsNew(bs[1..], seen);
      } else {
        FirstNewIsNew(bs[1..], seen + {c});
        NoDupConcat([c], FirstNew(bs[1..], seen + {c}));
        SetOfConcat([c], FirstNew(bs[1..], seen + {c}));
      }
    }
  }

  lemma ConsNoDup(c: Combo, t: seq<Combo>)
    ensures NoDup([c] + t) <==> NoDup(t) && c !in t
  {
    if NoDup(t) && c !in t {
      assert SetOf([c]) == {c};
      NoDupConcat([c], t);
    }
    if NoDup([c] + t) {
      NoDupTail(c, t);
    }
  }

  lemma NoDupTail(c: Combo, t: seq<Combo>)
    requires NoDup([c] + t)
    ensures NoDup(t) && c !in t
  {
    var s := [c] + t;
    assert forall i :: 0 <= i < |t| ==> t[i] == s[i + 1];
    forall i | 0 <= i < |t| ensures t[i] != c {
      assert s[0] != s[i + 1];
    }
  }

  lemma {:induction false} KeepCombos(s: seq<Keybind>, c: Combo)
    ensures forall d :: d in Combos(Keep(s, c)) ==> d in Combos(s)
    ensures NoDup(Combos(s)) ==> NoDup(Combos(Keep(s, c)))
  {
    if s != [] {
      var t, d := s[1..], ComboOf(s[0]);
      assert s == [s[0]] + t;
      CombosHead(s[0], t);
      CombosHead(s[0], Keep(t, c));
      ConsNoDup(d, Combos(t));
      ConsNoDup(d, Combos(Keep(t, c)));
      KeepCombos(t, c);
      Unit(Keep(t, c));
    }
  }

  lemma {:induction false} KeepAllCombos(s: seq<Keybind>, us: seq<KeybindTarget>)
    ensures NoDup(Combos(s)) ==> NoDup(Combos(KeepAll(s, us)))
    decreases |us|
  {
    if us != [] {
      KeepCombos(s, TargetCombo(us[0]));
      KeepAllCombos(Keep(s, TargetCombo(us[0])), us[1..]);
    }
  }

  /** After a batch the custom list is the survivors of the unbinds in their old order, each combo in its
      old place, followed by the combos that are new, in order of first appearance in the payload.
      Combos stay unique if they were. */
  lemma ApplyKeepsOrder(k: ConfigKeybinds, p: BatchKeybinds)
    ensures var survivors := Combos(KeepAll(k.custom, p.unbinds));
            && Combos(Apply(k, p).custom) == survivors + FirstNew(p.binds, SetOf(survivors))
            && (NoDup(Combos(k.custom)) ==> NoDup(Combos(Apply(k, p).custom)))
  {
    UnbindAllSections(k, p.unbinds, Combo("", ""));
    var s := KeepAll(k.custom, p.unbinds);
    CombosUpsertAll(s, p.binds);
    KeepAllCombos(k.custom, p.unbinds);
    FirstNewIsNew(p.binds, SetOf(Combos(s)));
    if NoDup(Combos(k.custom)) {
      NoDupConcat(Combos(s), FirstNew(p.binds, SetOf(Combos(s))));
    }
  }

  // ---------------------------------------------------------------------
  // Two batches are one batch
  // ---------------------------------------------------------------------

  /** The single payload that does what p and then q do. */
  function Sequence(p: BatchKeybinds, q: BatchKeybinds): BatchKeybinds {
    BatchKeybinds(KeepAll(p.binds, q.unbinds) + q.binds, p.unbinds + q.unbinds)
  }

  lemma {:induction false} KeepUpsert(s: seq<Keybind>, b: Keybind, c: Combo)
    ensures Keep(Upsert(s, b), c) == if ComboOf(b) == c then Keep(s, c) else Upsert(Keep(s, c), b)
  {
    if s == [] {
      assert [b][1..] == [];
    } else if ComboOf(s[0]) == ComboOf(b) {
      assert ([b] + s[1..])[1..] == s[1..];
      if ComboOf(b) != c {
        assert ([s[0]] + Keep(s[1..], c))[1..] == Keep(s[1..], c);
      }
    } else {
      KeepUpsert(s[1..], b, c);
      assert ([s[0]] + Upsert(s[1..], b))[1..] == Upsert(s[1..], b);
      if ComboOf(s[0]) != c {
        assert ([s[0]] + Keep(s[1..], c))[1..] == Keep(s[1..], c);
      } else {
        assert [] + Keep(s[1..], c) == Keep(s[1..], c);
      }
    }
  }

  lemma {:induction false} KeepUpsertAll(s: seq<Keybind>, bs: seq<Keybind>, c: Combo)
    ensures Keep(UpsertAll(s, bs), c) == UpsertAll(Keep(s, c), Keep(bs, c))
    decreases |bs|
  {
    if bs != [] {
      KeepUpsertAll(Upsert(s, bs[0]), bs[1..], c);
      KeepUpsert(s, bs[0], c);
      if ComboOf(bs[0]) != c {
        assert ([bs[0]] + Keep(bs[1..], c))[1..] == Keep(bs[1..], c);
      } else {
        assert [] + Keep(bs[1..], c) == Keep(bs[1..], c);
      }
    }
  }

  lemma {:induction false} KeepAllUpsertAll(s: seq<Keybind>, bs: seq<Keybind>, us: seq<KeybindTarget>)
    ensures KeepAll(UpsertAll(s, bs), us) == UpsertAll(KeepAll(s, us), KeepAll(bs, us))
    decreases |us|
  {
    if us != [] {
      var c := TargetCombo(us[0]);
      KeepUpsertAll(s, bs, c);
      KeepAllUpsertAll(Keep(s, c), Keep(bs, c), us[1..]);
    }
  }

  lemma {:induction false} UpsertAllConcat(s: seq<Keybind>, a: seq<Keybind>, b: seq<Keybind>)
    ensures UpsertAll(s, a + b) == UpsertAll(UpsertAll(s, a), b)
    decreases |a|
  {
    if a == [] {
      assert a + b == b;
    } else {
      assert (a + b)[0] == a[0] && (a + b)[1..] == a[1..] + b;
      UpsertAllConcat(Upsert(s, a[0]), a[1..], b);
    }
  }

  lemma {:induction false} UnbindAllConcat(k: ConfigKeybinds, a: seq<KeybindTarget>, b: seq<KeybindTarget>)
    ensures UnbindAll(k, a + b) == UnbindAll(UnbindAll(k, a), b)
    decreases |a|
  {
    if a == [] {
      assert a + b == b;
    } else {
      assert (a + b)[0] == a[0] && (a + b)[1..] == a[1..] + b;
      UnbindAllConcat(UnbindOne(k, TargetCombo(a[0])), a[1..], b);
    }
  }

  lemma {:induction false} UnbindAllSplits(k: ConfigKeybinds, us: seq<KeybindTarget>, custom: seq<Keybind>)
    ensures UnbindAll(k.(custom := custom), us) == UnbindAll(k, us).(custom := KeepAll(custom, us))
    decreases |us|
  {
    if us != [] {
      var c := TargetCombo(us[0]);
      UnbindAllSplits(UnbindOne(k, c), us[1..], Keep(custom, c));
      assert UnbindOne(k.(custom := custom), c) == UnbindOne(k, c).(custom := Keep(custom, c));
    }
  }

  /** Two successive batches give the very same configuration as their sequence applied once:
      the same lists in the same order, not only the same lookups. */
  lemma ApplyTwiceIsApplySequence(k: ConfigKeybinds, p: BatchKeybinds, q: BatchKeybinds)
    ensures Apply(Apply(k, p), q) == Apply(k, Sequence(p, q))
  {
    var u := UnbindAll(k, p.unbinds);
    var once := UpsertAll(u.custom, p.binds);
    UnbindAllConcat(k, p.unbinds, q.unbinds);
    UnbindAllSplits(u, q.unbinds, once);
    UnbindAllSplits(u, q.unbinds, u.custom);
    KeepAllUpsertAll(u.custom, p.binds, q.unbinds);
    UpsertAllConcat(KeepAll(u.custom, q.unbinds), KeepAll(p.binds, q.unbinds), q.binds);
  }

  lemma {:induction false} UpsertFound(s: seq<Keybind>, b: Keybind, i: nat)
    requires i < |s| && ComboOf(s[i]) == ComboOf(b) && forall j :: 0 <= j < i ==> ComboOf(s[j]) != ComboOf(b)
    ensures Upsert(s, b) == s[i := b]
    decreases i
  {
    if i > 0 {
      UpsertFound(s[1..], b, i - 1);
      assert [s[0]] + s[1..][i - 1 := b] == s[i := b];
    }
  }

  lemma {:induction false} UpsertNew(s: seq<Keybind>, b: Keybind)
    requires forall j :: 0 <= j < |s| ==> ComboOf(s[j]) != ComboOf(b)
    ensures Upsert(s, b) == s + [b]
  {
    if s != [] {
      UpsertNew(s[1..], b);
      assert [s[0]] + (s[1..] + [b]) == s + [b];
    }
  }

  // ---------------------------------------------------------------------
  // The update as the source performs it
  // ---------------------------------------------------------------------

  class KeybindTable {
    var hasAmbxst: bool
    var system: map<string, Keybind>
    var binds: map<string, Keybind>
    var custom: seq<Keybind>

    function Value(): ConfigKeybinds
      reads this
    {
      ConfigKeybinds(if hasAmbxst then Some(AmbxstKeybinds(system, binds)) else None, custom)
    }

    constructor (k: ConfigKeybinds)
      ensures Value() == k
    {
      hasAmbxst := k.ambxst.Some?;
      system := if k.ambxst.Some? then k.ambxst.value.system else map[];
      binds := if k.ambxst.Some? then k.ambxst.value.binds else map[];
      custom := k.custom;
    }

    method ApplyPayload(p: BatchKeybinds)
      modifies this
      ensures Value() == Apply(old(Value()), p)
    {
      for i := 0 to |p.unbinds|
        invariant UnbindAll(Value(), p.unbinds[i..]) == UnbindAll(old(Value()), p.unbinds)
      {
        assert p.unbinds[i..][0] == p.unbinds[i] && p.unbinds[i..][1..] == p.unbinds[i + 1..];
        Unbind(TargetCombo(p.unbinds[i]));
      }
      ghost var unbound := Value();
      for i := 0 to |p.binds|
        invariant Value() == unbound.(custom := custom)
        invariant UpsertAll(custom, p.binds[i..]) == UpsertAll(unbound.custom, p.binds)
      {
        assert p.binds[i..][0] == p.binds[i] && p.binds[i..][1..] == p.binds[i + 1..];
        Bind(p.binds[i]);
      }
    }

    method Unbind(c: Combo)
      modifies this
      ensures Value() == UnbindOne(old(Value()), c)
    {
      if hasAmbxst {
        system := DeleteMatching(system, c);
        binds := DeleteMatching(binds, c);
      }
      custom := Others(custom, c);
    }

    static method Others(custom: seq<Keybind>, c: Combo) returns (kept: seq<Keybind>)
      ensures kept == Keep(custom, c)
    {
      kept := [];
      for i := 0 to |custom|
        invariant kept + Keep(custom[i..], c) == Keep(custom, c)
      {
        var head := if ComboOf(custom[i]) != c then [custom[i]] else [];
        assert custom[i..][1..] == custom[i + 1..];
        Assoc(kept, head, Keep(custom[i + 1..], c));
        kept := kept + head;
      }
      Unit(kept);
    }

    /** Deletes matching entries while ranging over the map, in whatever order the range yields them. */
    static method DeleteMatching(m: map<string, Keybind>, c: Combo) returns (r: map<string, Keybind>)
      ensures r == KeepNamed(m, c)
    {
      r := m;
      var names := m.Keys;
      while names != {}
        invariant names <= m.Keys
        invariant forall n :: n in r <==> n in m && (n in names || ComboOf(m[n]) != c)
        invariant forall n :: n in r ==> r[n] == m[n]
        decreases |names|
      {
        var n :| n in names;
        names := names - {n};
        if ComboOf(m[n]) == c {
          r := r - {n};
        }
      }
    }

    method Bind(b: Keybind)
      modifies this`custom
      ensures custom == Upsert(old(custom), b)
    {
      for i := 0 to |custom|
        invariant custom == old(custom) && forall j :: 0 <= j < i ==> ComboOf(custom[j]) != ComboOf(b)
      {
        if ComboOf(custom[i]) == ComboOf(b) {
          UpsertFound(custom, b, i);
          custom := custom[i := b];
          return;
        }
      }
      UpsertNew(custom, b);
      custom := custom + [b];
    }
  }
}
