/** Setting and reading appearance settings by dotted name. */
module AppearanceKeys {
  import opened Prelude
  import opened Strings
  import opened IpcConfig
  import Toml = TomlConfig

  /** A dynamically typed value from a request. */
  datatype Dynamic = Number(r: real) | Int(i: int) | Int64(i64: int) | Text(s: string) | Boolean(b: bool) | Null | Composite
  /** A coerced value. */
  datatype Scalar = IntScalar(i: int) | RealScalar(r: real) | TextScalar(s: string) | BoolScalar(b: bool)

  /** How the runtime scans a trimmed text as an integer or as a float. */
  datatype Scanners = Scanners(scanInt: string -> Option<int>, scanFloat: string -> Option<real>)

  datatype Key = GapsInner | GapsOuter | BorderWidth | BorderActive | BorderInactive
               | OpacityActive | OpacityInactive | BlurEnabled | BlurSize | BlurPasses

  function KeyOf(name: string): Option<Key> {
    if name == "gaps.inner" then Some(GapsInner)
    else if name == "gaps.outer" then Some(GapsOuter)
    else if name == "border.width" then Some(BorderWidth)
    else if name == "border.active_color" then Some(BorderActive)
    else if name == "border.inactive_color" then Some(BorderInactive)
    else if name == "opacity.active" then Some(OpacityActive)
    else if name == "opacity.inactive" then Some(OpacityInactive)
    else if name == "blur.enabled" then Some(BlurEnabled)
    else if name == "blur.size" then Some(BlurSize)
    else if name == "blur.passes" then Some(BlurPasses)
    else None
  }

  lemma KeyOfInjective(a: string, b: string)
    requires KeyOf(a).Some? && KeyOf(a) == KeyOf(b)
    ensures a == b
  {
  }

  function Truncate(r: real): int {
    if r >= 0.0 then r.Floor else -((-r).Floor)
  }

  function CoerceInt(v: Dynamic, scan: Scanners): Option<int> {
    match v
    case Number(r) => Some(Truncate(r))
    case Int(i) => Some(i)
    case Int64(i) => Some(i)
    case Text(s) => scan.scanInt(TrimSpace(s))
    case _ => None
  }

  function CoerceFloat(v: Dynamic, scan: Scanners): Option<real> {
    match v
    case Number(r) => Some(r)
    case Int(i) => Some(i as real)
    case Int64(i) => Some(i as real)
    case Text(s) => scan.scanFloat(TrimSpace(s))
    case _ => None
  }

  function CoerceBool(v: Dynamic): Option<bool> {
    match v
    case Boolean(b) => Some(b)
    case Text(s) =>
      var t := ToLower(TrimSpace(s));
      if t == "true" then Some(true) else if t == "false" then Some(false) else None
    case _ => None
  }

  function CoerceString(v: Dynamic): Option<string> {
    if v.Text? then Some(v.s) else None
  }

  function OfInt(o: Option<int>): Option<Scalar> { if o.Some? then Some(IntScalar(o.value)) else None }
  function OfReal(o: Option<real>): Option<Scalar> { if o.Some? then Some(RealScalar(o.value)) else None }
  function OfText(o: Option<string>): Option<Scalar> { if o.Some? then Some(TextScalar(o.value)) else None }
  function OfBool(o: Option<bool>): Option<Scalar> { if o.Some? then Some(BoolScalar(o.value)) else None }

  /** The value as the key's own type, if it can be had. */
  function Coerce(k: Key, v: Dynamic, scan: Scanners): Option<Scalar> {
    match k
    case BorderActive | BorderInactive => OfText(CoerceString(v))
    case OpacityActive | OpacityInactive => OfReal(CoerceFloat(v, scan))
    case BlurEnabled => OfBool(CoerceBool(v))
    case _ => OfInt(CoerceInt(v, scan))
  }

  // ---------------------------------------------------------------------
  // What each form of value reads as
  // ---------------------------------------------------------------------

  /** The integer nearest to r on the side of zero. */
  predicate TowardZero(r: real, i: int) {
    if r >= 0.0 then i as real <= r < i as real + 1.0 else i as real - 1.0 < r <= i as real
  }

  /** t is s without the white space around it. */
  ghost predicate Trimmed(s: string, t: string) { Surrounds(s, t) && (t == "" || SolidEnds(t)) }

  /** t is the word, each letter in either case. */
  predicate EitherCase(t: string, word: string) {
    |t| == |word| && forall i :: 0 <= i < |t| ==> t[i] == word[i] || t[i] as int == word[i] as int - 32
  }

  ghost predicate ReadsInt(v: Dynamic, i: int, scan: Scanners) {
    match v
    case Int(j) => i == j
    case Int64(j) => i == j
    case Number(r) => TowardZero(r, i)
    case Text(s) => exists t :: Trimmed(s, t) && scan.scanInt(t) == Some(i)
    case _ => false
  }

  ghost predicate ReadsReal(v: Dynamic, x: real, scan: Scanners) {
    match v
    case Int(j) => x == j as real
    case Int64(j) => x == j as real
    case Number(r) => x == r
    case Text(s) => exists t :: Trimmed(s, t) && scan.scanFloat(t) == Some(x)
    case _ => false
  }

  ghost predicate ReadsBool(v: Dynamic, b: bool) {
    match v
    case Boolean(c) => b == c
    case Text(s) => exists t :: Trimmed(s, t) && EitherCase(t, if b then "true" else "false")
    case _ => false
  }

  /** v, given to key k, reads as x: each key takes values of its own type and the forms that stand for one. */
  ghost predicate ReadsAs(k: Key, v: Dynamic, x: Scalar, scan: Scanners) {
    match x
    case TextScalar(s) => k in {BorderActive, BorderInactive} && v == Text(s)
    case RealScalar(r) => k in {OpacityActive, OpacityInactive} && ReadsReal(v, r, scan)
    case BoolScalar(b) => k == BlurEnabled && ReadsBool(v, b)
    case IntScalar(i) => k in {GapsInner, GapsOuter, BorderWidth, BlurSize, BlurPasses} && ReadsInt(v, i, scan)
  }

  lemma TruncateIff(r: real, i: int)
    ensures Truncate(r) == i <==> TowardZero(r, i)
  {
  }

  lemma TrimmedIff(s: string, t: string)
    ensures TrimSpace(s) == t <==> Trimmed(s, t)
  {
    TrimIff(s, t);
  }

  lemma LowerIff(t: string, word: string)
    requires forall i :: 0 <= i < |word| ==> 'a' <= word[i] <= 'z'
    ensures ToLower(t) == word <==> EitherCase(t, word)
  {
    if |t| == |word| {
      forall i | 0 <= i < |t| ensures ToLower(t)[i] == word[i] <==> t[i] == word[i] || t[i] as int == word[i] as int - 32 {
      }
      assert ToLower(t) == word <==> forall i :: 0 <= i < |t| ==> ToLower(t)[i] == word[i];
    }
  }

  lemma IntIff(v: Dynamic, i: int, scan: Scanners)
    ensures CoerceInt(v, scan) == Some(i) <==> ReadsInt(v, i, scan)
  {
    if v.Number? {
      TruncateIff(v.r, i);
    }
    if v.Text? {
      forall t ensures TrimSpace(v.s) == t <==> Trimmed(v.s, t) { TrimmedIff(v.s, t); }
    }
  }

  lemma RealIff(v: Dynamic, x: real, scan: Scanners)
    ensures CoerceFloat(v, scan) == Some(x) <==> ReadsReal(v, x, scan)
  {
    if v.Text? {
      forall t ensures TrimSpace(v.s) == t <==> Trimmed(v.s, t) { TrimmedIff(v.s, t); }
    }
  }

  lemma BoolIff(v: Dynamic, b: bool)
    ensures CoerceBool(v) == Some(b) <==> ReadsBool(v, b)
  {
    if v.Text? {
      var t := TrimSpace(v.s);
      LowerIff(t, "true");
      LowerIff(t, "false");
      forall u ensures t == u <==> Trimmed(v.s, u) { TrimmedIff(v.s, u); }
      assert Trimmed(v.s, t);
      assert ReadsBool(v, b) <==> EitherCase(t, if b then "true" else "false");
      assert ToLower(t) == "true" ==> |t| == 4;
    }
  }

  lemma CoerceByKey(k: Key, v: Dynamic, scan: Scanners)
    ensures k in {BorderActive, BorderInactive} ==> Coerce(k, v, scan) == OfText(CoerceString(v))
    ensures k in {OpacityActive, OpacityInactive} ==> Coerce(k, v, scan) == OfReal(CoerceFloat(v, scan))
    ensures k == BlurEnabled ==> Coerce(k, v, scan) == OfBool(CoerceBool(v))
    ensures k in {GapsInner, GapsOuter, BorderWidth, BlurSize, BlurPasses} ==> Coerce(k, v, scan) == OfInt(CoerceInt(v, scan))
    ensures k in {BorderActive, BorderInactive, OpacityActive, OpacityInactive, BlurEnabled, GapsInner, GapsOuter, BorderWidth, BlurSize, BlurPasses}
  {
  }

  /** What a value is coerced to, for every key and every form of value. */
  lemma CoerceIff(k: Key, v: Dynamic, x: Scalar, scan: Scanners)
    ensures Coerce(k, v, scan) == Some(x) <==> ReadsAs(k, v, x, scan)
  {
    CoerceByKey(k, v, scan);
    match x
    case TextScalar(_) =>
    case RealScalar(r) => RealIff(v, r, scan);
    case BoolScalar(b) => BoolIff(v, b);
    case IntScalar(i) => IntIff(v, i, scan);
  }

  /** Which forms a key refuses: everything for another type, and texts that do not stand for one of its own. */
  lemma RefusedIff(k: Key, v: Dynamic, scan: Scanners)
    ensures Coerce(k, v, scan).None? <==>
              match v
              case Null => true
              case Composite => true
              case Boolean(_) => k != BlurEnabled
              case Text(s) =>
                && k !in {BorderActive, BorderInactive}
                && (k == BlurEnabled ==> !ReadsBool(v, true) && !ReadsBool(v, false))
                && (k in {OpacityActive, OpacityInactive} ==> exists t :: Trimmed(s, t) && scan.scanFloat(t).None?)
                && (k in {GapsInner, GapsOuter, BorderWidth, BlurSize, BlurPasses} ==> exists t :: Trimmed(s, t) && scan.scanInt(t).None?)
              case _ => k in {BorderActive, BorderInactive, BlurEnabled}
  {
    if v.Text? {
      BoolIff(v, true);
      BoolIff(v, false);
      forall t ensures TrimSpace(v.s) == t <==> Trimmed(v.s, t) { TrimmedIff(v.s, t); }
    }
  }

  /** Which field each name reads. */
  lemma NamesReadFields(a: ConfigAppearance)
    ensures forall n :: KeyOf(n).Some? <==> n in {"gaps.inner", "gaps.outer", "border.width", "border.active_color", "border.inactive_color",
                                                  "opacity.active", "opacity.inactive", "blur.enabled", "blur.size", "blur.passes"}
    ensures a.gaps.Some? ==> Get(a, KeyOf("gaps.inner").value) == OfInt(a.gaps.value.inner)
                             && Get(a, KeyOf("gaps.outer").value) == OfInt(a.gaps.value.outer)
    ensures a.border.Some? ==> Get(a, KeyOf("border.width").value) == OfInt(a.border.value.width)
                               && Get(a, KeyOf("border.active_color").value) == OfText(a.border.value.activeColor)
                               && Get(a, KeyOf("border.inactive_color").value) == OfText(a.border.value.inactiveColor)
    ensures a.opacity.Some? ==> Get(a, KeyOf("opacity.active").value) == OfReal(a.opacity.value.active)
                                && Get(a, KeyOf("opacity.inactive").value) == OfReal(a.opacity.value.inactive)
    ensures a.blur.Some? ==> Get(a, KeyOf("blur.enabled").value) == OfBool(a.blur.value.enabled)
                             && Get(a, KeyOf("blur.size").value) == OfInt(a.blur.value.size)
                             && Get(a, KeyOf("blur.passes").value) == OfInt(a.blur.value.passes)
  {
  }

  /** GetAppearanceKey on a known key: the stored value, if there is one. */
  function Get(a: ConfigAppearance, k: Key): Option<Scalar> {
    match k
    case GapsInner => OfInt(a.gaps.GetOr(Toml.NO_GAPS).inner)
    case GapsOuter => OfInt(a.gaps.GetOr(Toml.NO_GAPS).outer)
    case BorderWidth => OfInt(a.border.GetOr(Toml.NO_BORDER).width)
    case BorderActive => OfText(a.border.GetOr(Toml.NO_BORDER).activeColor)
    case BorderInactive => OfText(a.border.GetOr(Toml.NO_BORDER).inactiveColor)
    case OpacityActive => OfReal(a.opacity.GetOr(Toml.NO_OPACITY).active)
    case OpacityInactive => OfReal(a.opacity.GetOr(Toml.NO_OPACITY).inactive)
    case BlurEnabled => OfBool(a.blur.GetOr(Toml.NO_BLUR).enabled)
    case BlurSize => OfInt(a.blur.GetOr(Toml.NO_BLUR).size)
    case BlurPasses => OfInt(a.blur.GetOr(Toml.NO_BLUR).passes)
  }

  /** A set of coerced values, at most one per key, each of its key's type. */
  type Choice = map<Key, Scalar>

  ghost predicate WellTyped(c: Choice) {
    forall k :: k in c ==> Fits(k, c[k])
  }

  predicate Fits(k: Key, x: Scalar) {
    match k
    case BorderActive | BorderInactive => x.TextScalar?
    case OpacityActive | OpacityInactive => x.RealScalar?
    case BlurEnabled => x.BoolScalar?
    case _ => x.IntScalar?
  }

  function IntAt(c: Choice, k: Key, default: Option<int>): Option<int> {
    if k in c && c[k].IntScalar? then Some(c[k].i) else default
  }
  function RealAt(c: Choice, k: Key, default: Option<real>): Option<real> {
    if k in c && c[k].RealScalar? then Some(c[k].r) else default
  }
  function TextAt(c: Choice, k: Key, default: Option<string>): Option<string> {
    if k in c && c[k].TextScalar? then Some(c[k].s) else default
  }
  function BoolAt(c: Choice, k: Key, default: Option<bool>): Option<bool> {
    if k in c && c[k].BoolScalar? then Some(c[k].b) else default
  }

  /** All the chosen values written at once; a group exists afterwards if it did before or a key of it is chosen. */
  function Overlay(a: ConfigAppearance, c: Choice): ConfigAppearance {
    var g, b, o, l := a.gaps.GetOr(Toml.NO_GAPS), a.border.GetOr(Toml.NO_BORDER), a.opacity.GetOr(Toml.NO_OPACITY), a.blur.GetOr(Toml.NO_BLUR);
    a.(gaps := if GapsInner in c || GapsOuter in c
               then Some(Toml.Gaps(IntAt(c, GapsInner, g.inner), IntAt(c, GapsOuter, g.outer))) else a.gaps,
       border := if BorderWidth in c || BorderActive in c || BorderInactive in c
                 then Some(b.(width := IntAt(c, BorderWidth, b.width), activeColor := TextAt(c, BorderActive, b.activeColor),
                              inactiveColor := TextAt(c, BorderInactive, b.inactiveColor))) else a.border,
       opacity := if OpacityActive in c || OpacityInactive in c
                  then Some(Toml.Opacity(RealAt(c, OpacityActive, o.active), RealAt(c, OpacityInactive, o.inactive))) else a.opacity,
       blur := if BlurEnabled in c || BlurSize in c || BlurPasses in c
               then Some(Toml.Blur(BoolAt(c, BlurEnabled, l.enabled), IntAt(c, BlurSize, l.size), IntAt(c, BlurPasses, l.passes))) else a.blur)
  }

  /** Reading back after writing: a chosen key gives the chosen value, any other key its old value. */
  lemma GetAfterOverlay(a: ConfigAppearance, c: Choice, k: Key)
    requires WellTyped(c)
    ensures Get(Overlay(a, c), k) == if k in c then Some(c[k]) else Get(a, k)
  {
    assert k in c ==> Fits(k, c[k]);
  }

  /** A write changes nothing that no key names. */
  lemma OverlayKeepsRest(a: ConfigAppearance, c: Choice)
    ensures var o := Overlay(a, c);
            && o.shadow == a.shadow && o.animations == a.animations && o.layout == a.layout
            && o.border.GetOr(Toml.NO_BORDER).rounding == a.border.GetOr(Toml.NO_BORDER).rounding
  {
  }

  lemma OverlayOne(a: ConfigAppearance, c: Choice, k: Key, x: Scalar)
    requires Fits(k, x)
    ensures Overlay(Overlay(a, c), map[k := x]) == Overlay(a, c[k := x])
  {
  }

  // ---------------------------------------------------------------------
  // The write as the source performs it, through the group pointers
  // ---------------------------------------------------------------------

  class AppearanceCell {
    var gaps: Option<Toml.Gaps>
    var border: Option<Toml.Border>
    var opacity: Option<Toml.Opacity>
    var blur: Option<Toml.Blur>
    const shadow: Option<Toml.Shadow>
    const animations: Option<Toml.Animations>
    const layout: Option<string>

    function Value(): ConfigAppearance
      reads this
    {
      ConfigAppearance(gaps, border, opacity, blur, shadow, animations, layout)
    }

    constructor (a: ConfigAppearance)
      ensures Value() == a
    {
      gaps, border, opacity, blur := a.gaps, a.border, a.opacity, a.blur;
      shadow, animations, layout := a.shadow, a.animations, a.layout;
    }

    method EnsureGaps() returns (g: Toml.Gaps)
      modifies this`gaps
      ensures gaps == Some(g) && g == old(gaps).GetOr(Toml.NO_GAPS)
    {
      if gaps.None? { gaps := Some(Toml.NO_GAPS); }
      g := gaps.value;
    }

    method EnsureBorder() returns (b: Toml.Border)
      modifies this`border
      ensures border == Some(b) && b == old(border).GetOr(Toml.NO_BORDER)
    {
      if border.None? { border := Some(Toml.NO_BORDER); }
      b := border.value;
    }

    method EnsureOpacity() returns (o: Toml.Opacity)
      modifies this`opacity
      ensures opacity == Some(o) && o == old(opacity).GetOr(Toml.NO_OPACITY)
    {
      if opacity.None? { opacity := Some(Toml.NO_OPACITY); }
      o := opacity.value;
    }

    method EnsureBlur() returns (b: Toml.Blur)
      modifies this`blur
      ensures blur == Some(b) && b == old(blur).GetOr(Toml.NO_BLUR)
    {
      if blur.None? { blur := Some(Toml.NO_BLUR); }
      b := blur.value;
    }

    /** SetAppearanceKey: writes one key, or refuses an unknown key or an unsuitable value and writes nothing. */
    method Set(name: string, value: Dynamic, scan: Scanners) returns (ok: bool)
      modifies this
      ensures ok <==> KeyOf(name).Some? && Coerce(KeyOf(name).value, value, scan).Some?
      ensures Value() == if ok then Overlay(old(Value()), map[KeyOf(name).value := Coerce(KeyOf(name).value, value, scan).value])
                         else old(Value())
    {
      var key := KeyOf(name);
      if key.None? {
        return false;
      }
      match key.value {
        case GapsInner | GapsOuter => ok := SetGaps(key.value, value, scan);
        case BorderWidth | BorderActive | BorderInactive => ok := SetBorder(key.value, value, scan);
        case OpacityActive | OpacityInactive => ok := SetOpacity(key.value, value, scan);
        case BlurEnabled | BlurSize | BlurPasses => ok := SetBlur(key.value, value, scan);
      }
    }

    method SetGaps(key: Key, value: Dynamic, scan: Scanners) returns (ok: bool)
      requires key.GapsInner? || key.GapsOuter?
      modifies this`gaps
      ensures ok <==> Coerce(key, value, scan).Some?
      ensures Value() == if ok then Overlay(old(Value()), map[key := Coerce(key, value, scan).value]) else old(Value())
    {
      var v := CoerceInt(value, scan);
      if v.None? {
        return false;
      }
      var g := EnsureGaps();
      gaps := Some(if key.GapsInner? then g.(inner := v) else g.(outer := v));
      return true;
    }

    method SetBorder(key: Key, value: Dynamic, scan: Scanners) returns (ok: bool)
      requires key.BorderWidth? || key.BorderActive? || key.BorderInactive?
      modifies this`border
      ensures ok <==> Coerce(key, value, scan).Some?
      ensures Value() == if ok then Overlay(old(Value()), map[key := Coerce(key, value, scan).value]) else old(Value())
    {
      if key.BorderWidth? {
        var v := CoerceInt(value, scan);
        if v.Some? { var b := EnsureBorder(); border := Some(b.(width := v)); return true; }
      } else {
        var v := CoerceString(value);
        if v.Some? {
          var b := EnsureBorder();
          border := Some(if key.BorderActive? then b.(activeColor := v) else b.(inactiveColor := v));
          return true;
        }
      }
      return false;
    }

    method SetOpacity(key: Key, value: Dynamic, scan: Scanners) returns (ok: bool)
      requires key.OpacityActive? || key.OpacityInactive?
      modifies this`opacity
      ensures ok <==> Coerce(key, value, scan).Some?
      ensures Value() == if ok then Overlay(old(Value()), map[key := Coerce(key, value, scan).value]) else old(Value())
    {
      var v := CoerceFloat(value, scan);
      if v.None? {
        return false;
      }
      var o := EnsureOpacity();
      opacity := Some(if key.OpacityActive? then o.(active := v) else o.(inactive := v));
      return true;
    }

    method SetBlur(key: Key, value: Dynamic, scan: Scanners) returns (ok: bool)
      requires key.BlurEnabled? || key.BlurSize? || key.BlurPasses?
      modifies this`blur
      ensures ok <==> Coerce(key, value, scan).Some?
      ensures Value() == if ok then Overlay(old(Value()), map[key := Coerce(key, value, scan).value]) else old(Value())
    {
      if key.BlurEnabled? {
        var v := CoerceBool(value);
        if v.Some? { var b := EnsureBlur(); blur := Some(b.(enabled := v)); return true; }
      } else {
        var v := CoerceInt(value, scan);
        if v.Some? {
          var b := EnsureBlur();
          blur := Some(if key.BlurSize? then b.(size := v) else b.(passes := v));
          return true;
        }
      }
      return false;
    }
  }
}
