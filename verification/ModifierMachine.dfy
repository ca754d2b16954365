/** The modifier-released-alone detector, characterised over unbounded event histories. */
module ModifierMachine {
  import opened Prelude

  const EV_KEY := 0x01
  const EV_REL := 0x02

  /** One evdev event (16-bit type and code, 32-bit value), or a reset after a device reader died. */
  datatype Event = Input(kind: nat, code: nat, value: int) | Reset

  function Group(code: nat): Option<string> {
    match code
    case 125 => Some("SUPER")
    case 126 => Some("SUPER")
    case 56 => Some("ALT")
    case 100 => Some("ALT")
    case 29 => Some("CTRL")
    case 97 => Some("CTRL")
    case 42 => Some("SHIFT")
    case 54 => Some("SHIFT")
    case _ => None
  }

  /** The eight modifier keys of the kernel's key codes, and the groups that the binds name. */
  lemma GroupCodes(code: nat, g: string)
    ensures Group(code) == Some(g) <==>
              || (g == "SUPER" && code in {125, 126}) || (g == "ALT" && code in {56, 100})
              || (g == "CTRL" && code in {29, 97}) || (g == "SHIFT" && code in {42, 54})
  {
  }

  predicate IsModifier(code: nat) { Group(code).Some? }

  /** The four wheel axes: relWheel, relHWheel and their high-resolution twins. */
  predicate IsWheel(code: nat) { 8 <= code <= 11 }

  predicate Press(e: Event, c: nat) { e == Input(EV_KEY, c, 1) }
  predicate Release(e: Event, c: nat) { e == Input(EV_KEY, c, 0) }
  predicate ModifierPress(e: Event) { e.Input? && e.kind == EV_KEY && e.value == 1 && IsModifier(e.code) }
  predicate OtherPress(e: Event) { e.Input? && e.kind == EV_KEY && e.value == 1 && !IsModifier(e.code) }
  predicate Wheel(e: Event) { e.Input? && e.kind == EV_REL && IsWheel(e.code) }
  predicate Cancels(e: Event) { OtherPress(e) || Wheel(e) || e.Reset? }

  // ---------------------------------------------------------------------
  // What the history says
  // ---------------------------------------------------------------------

  /** Key c was pressed and has been neither released nor reset since. */
  ghost predicate Down(h: seq<Event>, c: nat) {
    exists i :: 0 <= i < |h| && Press(h[i], c) && forall j :: i < j < |h| ==> !Release(h[j], c) && !h[j].Reset?
  }

  ghost predicate OtherDown(h: seq<Event>) { exists c: nat :: !IsModifier(c) && Down(h, c) }
  ghost predicate ModifierDown(h: seq<Event>) { exists c: nat :: IsModifier(c) && Down(h, c) }

  /** The i-th event pressed a modifier with no other key down; nothing cancelled it since, and some
      modifier has been down ever since. */
  ghost predicate AloneSince(h: seq<Event>, i: int) {
    && 0 <= i < |h| && ModifierPress(h[i]) && !OtherDown(h[..i])
    && (forall j :: i < j < |h| ==> !Cancels(h[j]))
    && (forall j :: i < j <= |h| ==> ModifierDown(h[..j]))
  }

  ghost predicate Alone(h: seq<Event>) { exists i :: AloneSince(h, i) }

  // ---------------------------------------------------------------------
  // The machine as a function
  // ---------------------------------------------------------------------

  datatype State = State(held: set<nat>, modifiers: set<nat>, candidate: bool)

  const INITIAL := State({}, {}, false)

  function Step(s: State, e: Event): (State, Option<string>) {
    match e
    case Reset => (INITIAL, None)
    case Input(kind, code, value) =>
      if kind == EV_KEY && value == 1 then
        if IsModifier(code)
        then (State(s.held, s.modifiers + {code}, s.candidate || s.held == {}), None)
        else (State(s.held + {code}, s.modifiers, false), None)
      else if kind == EV_KEY && value == 0 then
        if IsModifier(code) then
          var rest := s.modifiers - {code};
          if s.candidate && rest == {} then (State(s.held, rest, false), Group(code))
          else (State(s.held, rest, s.candidate), None)
        else (State(s.held - {code}, s.modifiers, s.candidate), None)
      else if Wheel(e) then (s.(candidate := false), None)
      else (s, None)
  }

  function Run(h: seq<Event>): State
    decreases |h|
  {
    if h == [] then INITIAL else Step(Run(h[..|h| - 1]), h[|h| - 1]).0
  }

  // ---------------------------------------------------------------------
  // One more event
  // ---------------------------------------------------------------------

  lemma DownStep(h: seq<Event>, e: Event, c: nat)
    ensures Down(h + [e], c) <==> Press(e, c) || (Down(h, c) && !Release(e, c) && !e.Reset?)
  {
    var g := h + [e];
    assert g[|h|] == e && forall j :: 0 <= j < |h| ==> g[j] == h[j];
    if Press(e, c) {
      assert Press(g[|h|], c);
    } else if Down(h, c) && !Release(e, c) && !e.Reset? {
      var i :| 0 <= i < |h| && Press(h[i], c) && forall j :: i < j < |h| ==> !Release(h[j], c) && !h[j].Reset?;
      assert Press(g[i], c);
    }
  }

  lemma AloneSinceStep(h: seq<Event>, e: Event, i: int)
    requires 0 <= i < |h|
    ensures AloneSince(h + [e], i) <==> AloneSince(h, i) && !Cancels(e) && ModifierDown(h + [e])
  {
    var g := h + [e];
    assert g[..i] == h[..i] && g[..|g|] == g && g[|h|] == e;
    assert forall j :: 0 <= j < |h| ==> g[j] == h[j];
    forall j | i < j <= |h| ensures ModifierDown(h[..j]) <==> ModifierDown(g[..j]) {
      assert g[..j] == h[..j];
    }
    if AloneSince(g, i) {
      assert ModifierDown(g[..|g|]);
    }
    if AloneSince(h, i) && ModifierDown(g) {
      forall j | i < j <= |g| ensures ModifierDown(g[..j]) {
        assert j == |g| || ModifierDown(h[..j]);
      }
    }
  }

  lemma AloneStep(h: seq<Event>, e: Event)
    ensures Alone(h + [e]) <==> (ModifierPress(e) && !OtherDown(h)) || (Alone(h) && !Cancels(e) && ModifierDown(h + [e]))
  {
    var g := h + [e];
    assert g[..|h|] == h && g[..|g|] == g;
    forall i | 0 <= i < |h| ensures AloneSince(g, i) <==> AloneSince(h, i) && !Cancels(e) && ModifierDown(g) {
      AloneSinceStep(h, e, i);
    }
    if ModifierPress(e) {
      DownStep(h, e, e.code);
      assert ModifierDown(g);
      assert AloneSince(g, |h|) <==> !OtherDown(h);
    }
  }

  // ---------------------------------------------------------------------
  // The machine's state is what the history says
  // ---------------------------------------------------------------------

  ghost predicate Means(s: State, h: seq<Event>) {
    && (forall c: nat :: c in s.held <==> !IsModifier(c) && Down(h, c))
    && (forall c: nat :: c in s.modifiers <==> IsModifier(c) && Down(h, c))
    && (s.candidate <==> Alone(h))
  }

  lemma {:induction false} RunMeans(h: seq<Event>)
    ensures Means(Run(h), h)
    decreases |h|
  {
    if h != [] {
      var g, e := h[..|h| - 1], h[|h| - 1];
      assert h == g + [e];
      RunMeans(g);
      KeysStep(Run(g), g, e);
      CandidateStep(Run(g), g, e);
    }
  }

  lemma KeysStep(s: State, h: seq<Event>, e: Event)
    requires Means(s, h)
    ensures var t := Step(s, e).0;
            && (forall c: nat :: c in t.held <==> !IsModifier(c) && Down(h + [e], c))
            && (forall c: nat :: c in t.modifiers <==> IsModifier(c) && Down(h + [e], c))
  {
    forall c: nat
      ensures Down(h + [e], c) <==> Press(e, c) || (Down(h, c) && !Release(e, c) && !e.Reset?)
    {
      DownStep(h, e, c);
    }
  }

  lemma CandidateStep(s: State, h: seq<Event>, e: Event)
    requires Means(s, h)
    ensures Step(s, e).0.candidate <==> Alone(h + [e])
  {
    var t := Step(s, e).0;
    KeysStep(s, h, e);
    AloneStep(h, e);
    assert s.held == {} <==> !OtherDown(h) by {
      if s.held != {} { var c :| c in s.held; }
    }
    assert t.modifiers == {} <==> !ModifierDown(h + [e]) by {
      if t.modifiers != {} { var c :| c in t.modifiers; }
    }
    if Alone(h) {
      var i :| AloneSince(h, i);
      assert h[..|h|] == h && ModifierDown(h);
      var c: nat :| IsModifier(c) && Down(h, c);
      assert c in s.modifiers;
    }
  }

  /** After any history, feeding one more event fires a group exactly when that event releases the
      only modifier held while the history leaves a modifier alone; the group is that modifier's. */
  lemma FiresExactlyOnLoneRelease(h: seq<Event>, e: Event)
    ensures var fired := Step(Run(h), e).1;
            && (fired.Some? <==> Alone(h) && e.Input? && Release(e, e.code) && IsModifier(e.code)
                                 && forall c: nat :: IsModifier(c) && Down(h, c) <==> c == e.code)
            && (fired.Some? ==> fired == Group(e.code))
  {
    RunMeans(h);
    var s := Run(h);
    if Alone(h) && e.Input? && Release(e, e.code) && IsModifier(e.code) {
      AloneHolds(s, h);
      OnlyHeld(s.modifiers, e.code);
      assert forall c: nat :: IsModifier(c) && Down(h, c) <==> c in s.modifiers;
    }
  }

  lemma AloneHolds(s: State, h: seq<Event>)
    requires Means(s, h) && Alone(h)
    ensures s.modifiers != {}
  {
    var i :| AloneSince(h, i);
    assert h[..|h|] == h && ModifierDown(h[..|h|]);
    var c: nat :| IsModifier(c) && Down(h, c);
    assert c in s.modifiers;
  }

  lemma OnlyHeld(s: set<nat>, c: nat)
    requires s != {}
    ensures s - {c} == {} <==> forall d: nat :: d in s <==> d == c
  {
    if s - {c} == {} {
      var d :| d in s;
      assert d !in s - {c};
      assert forall d: nat :: d in s ==> d !in s - {c};
    }
  }

  // ---------------------------------------------------------------------
  // Released "without any other key press in between"?
  // ---------------------------------------------------------------------

  /** Modifier m went down at event s and has been down since. */
  ghost predicate HoldFrom(h: seq<Event>, m: nat, s: int) {
    && 0 <= s < |h| && IsModifier(m) && Press(h[s], m) && !Down(h[..s], m)
    && forall j :: s < j < |h| ==> !Release(h[j], m) && !h[j].Reset?
  }

  /** No other key was down when the hold began, and none was pressed nor any wheel turned during it. */
  ghost predicate Undisturbed(h: seq<Event>, s: int)
    requires 0 <= s < |h|
  {
    !OtherDown(h[..s]) && forall j :: s < j < |h| ==> !Cancels(h[j])
  }

  /** During the hold a further modifier press started a new candidate. */
  ghost predicate Restarted(h: seq<Event>, s: int) {
    exists j :: 0 <= s < j < |h| && ModifierPress(h[j]) && !Alone(h[..j]) && Alone(h[..j + 1])
  }

  lemma {:induction false} AloneExcludesOthers(h: seq<Event>)
    ensures Alone(h) ==> !OtherDown(h)
    decreases |h|
  {
    if h != [] {
      var g, e := h[..|h| - 1], h[|h| - 1];
      assert h == g + [e];
      AloneExcludesOthers(g);
      AloneStep(g, e);
      forall c: nat ensures Down(h, c) <==> Press(e, c) || (Down(g, c) && !Release(e, c) && !e.Reset?) {
        DownStep(g, e, c);
      }
    } else {
      assert !Alone(h);
    }
  }

  lemma {:induction false} UndisturbedStaysAlone(h: seq<Event>, m: nat, s: int, j: int)
    requires HoldFrom(h, m, s) && Undisturbed(h, s) && s < j <= |h|
    ensures Alone(h[..j])
    decreases j
  {
    assert h[..j] == h[..j - 1] + [h[j - 1]];
    AloneStep(h[..j - 1], h[j - 1]);
    if j - 1 > s {
      UndisturbedStaysAlone(h, m, s, j - 1);
      assert Press(h[..j][s], m);
      assert forall k :: s < k < j ==> h[..j][k] == h[k];
      assert Down(h[..j], m);
    }
  }

  lemma {:induction false} AloneThroughoutHold(h: seq<Event>, s: int, j: int)
    requires 0 <= s < j <= |h| && Alone(h) && !Restarted(h, s)
    ensures Alone(h[..j])
    decreases |h| - j
  {
    if j == |h| {
      assert h[..j] == h;
    } else {
      AloneThroughoutHold(h, s, j + 1);
      assert h[..j + 1] == h[..j] + [h[j]];
      AloneStep(h[..j], h[j]);
    }
  }

  /** A modifier that fires was held undisturbed exactly when no further modifier press restarted the
      candidate during its hold. */
  lemma UndisturbedIff(h: seq<Event>, m: nat, s: int)
    requires HoldFrom(h, m, s) && Step(Run(h), Input(EV_KEY, m, 0)).1.Some?
    ensures Undisturbed(h, s) <==> !Restarted(h, s)
  {
    FiresExactlyOnLoneRelease(h, Input(EV_KEY, m, 0));
    if Undisturbed(h, s) {
      forall j | s < j < |h| ensures Alone(h[..j]) {
        UndisturbedStaysAlone(h, m, s, j);
      }
    }
    if !Restarted(h, s) {
      NotRestartedIsUndisturbed(h, s);
    }
  }

  lemma NotCancelledInHold(h: seq<Event>, s: int, j: int)
    requires 0 <= s < j < |h| && Alone(h) && !Restarted(h, s)
    ensures !Cancels(h[j])
  {
    AloneThroughoutHold(h, s, j + 1);
    assert h[..j + 1] == h[..j] + [h[j]];
    AloneStep(h[..j], h[j]);
  }

  lemma NotRestartedIsUndisturbed(h: seq<Event>, s: int)
    requires 0 <= s < |h| && Alone(h) && !Restarted(h, s)
    ensures Undisturbed(h, s)
  {
    AloneThroughoutHold(h, s, s + 1);
    assert h[..s + 1] == h[..s] + [h[s]];
    AloneStep(h[..s], h[s]);
    AloneExcludesOthers(h[..s]);
    forall j | s < j < |h| ensures !Cancels(h[j]) {
      NotCancelledInHold(h, s, j);
    }
  }

  const LEFT_META: nat := 125
  const LEFT_ALT: nat := 56
  const KEY_T: nat := 20

  /** Super down, T down and up, Alt down and up, Super up: fires SUPER although T was pressed in between. */
  lemma DisturbedHoldFires()
    ensures var h := [Input(EV_KEY, LEFT_META, 1), Input(EV_KEY, KEY_T, 1), Input(EV_KEY, KEY_T, 0),
                      Input(EV_KEY, LEFT_ALT, 1), Input(EV_KEY, LEFT_ALT, 0)];
            && HoldFrom(h, LEFT_META, 0) && OtherPress(h[1])
            && Step(Run(h), Input(EV_KEY, LEFT_META, 0)).1 == Some("SUPER")
  {
    var h := [Input(EV_KEY, LEFT_META, 1), Input(EV_KEY, KEY_T, 1), Input(EV_KEY, KEY_T, 0),
              Input(EV_KEY, LEFT_ALT, 1), Input(EV_KEY, LEFT_ALT, 0)];
    assert h[..1] == [h[0]] && h[..2][..1] == h[..1] && h[..3][..2] == h[..2] && h[..4][..3] == h[..3] && h[..5] == h;
    assert h[..1][..0] == [];
    assert Run(h[..1]) == State({}, {LEFT_META}, true);
    assert Run(h[..2]) == State({KEY_T}, {LEFT_META}, false);
    assert Run(h[..3]) == State({}, {LEFT_META}, false);
    assert Run(h[..4]) == State({}, {LEFT_META, LEFT_ALT}, true);
    assert Run(h) == State({}, {LEFT_META}, true);
  }

  // ---------------------------------------------------------------------
  // The machine as the source runs it
  // ---------------------------------------------------------------------

  class Machine {
    var held: set<nat>
    var modifiers: set<nat>
    var candidate: bool
    /** Every event since the machine was made. */
    ghost var history: seq<Event>

    function Abs(): State
      reads this
    {
      State(held, modifiers, candidate)
    }

    ghost predicate Valid()
      reads this
    {
      Abs() == Run(history)
    }

    constructor ()
      ensures Valid() && history == []
    {
      held, modifiers, candidate := {}, {}, false;
      history := [];
    }

    method ResetAll()
      requires Valid()
      modifies this
      ensures Valid() && history == old(history) + [Reset] && Abs() == INITIAL
    {
      held := {};
      modifiers := {};
      candidate := false;
      history := history + [Reset];
      assert history[..|history| - 1] == old(history);
    }

    method Process(kind: nat, code: nat, value: int) returns (fired: Option<string>)
      requires Valid()
      modifies this
      ensures Valid() && history == old(history) + [Input(kind, code, value)]
      ensures (Abs(), fired) == Step(old(Abs()), Input(kind, code, value))
    {
      fired := None;
      if kind == EV_KEY {
        fired := ProcessKey(code, value);
      } else if kind == EV_REL {
        if code == 8 || code == 9 || code == 10 || code == 11 {
          candidate := false;
        }
      }
      history := history + [Input(kind, code, value)];
      assert history[..|history| - 1] == old(history);
    }

    method ProcessKey(code: nat, value: int) returns (fired: Option<string>)
      modifies this`held, this`modifiers, this`candidate
      ensures (Abs(), fired) == Step(old(Abs()), Input(EV_KEY, code, value))
    {
      if value == 1 {
        if IsModifier(code) {
          modifiers := modifiers + {code};
          if !candidate && |held| == 0 {
            candidate := true;
          }
          return None;
        }
        held := held + {code};
        candidate := false;
      } else if value == 0 {
        if IsModifier(code) {
          modifiers := modifiers - {code};
          if candidate && |modifiers| == 0 {
            candidate := false;
            return Group(code);
          }
        } else {
          held := held - {code};
        }
      }
      return None;
    }
  }
}
