/** The parts of Go's strings package that the modelled code calls. */
module Strings {

  /** unicode.IsSpace. */
  predicate IsSpace(c: char) {
    var n := c as int;
    || 9 <= n <= 13 || n == 32 || n == 0x85 || n == 0xA0 || n == 0x1680 || 0x2000 <= n <= 0x200A
    || n == 0x2028 || n == 0x2029 || n == 0x202F || n == 0x205F || n == 0x3000
  }

  function TrimLeft(s: string): (t: string)
    ensures |t| <= |s| && (t == [] || !IsSpace(t[0]))
    ensures s == [] || !IsSpace(s[0]) ==> t == s
  {
    if s != [] && IsSpace(s[0]) then TrimLeft(s[1..]) else s
  }

  function TrimRight(s: string): (t: string)
    ensures |t| <= |s| && (t == [] || (!IsSpace(t[|t| - 1]) && t[0] == s[0]))
    ensures s == [] || !IsSpace(s[|s| - 1]) ==> t == s
  {
    if s != [] && IsSpace(s[|s| - 1]) then TrimRight(s[..|s| - 1]) else s
  }

  function TrimSpace(s: string): string {
    TrimRight(TrimLeft(s))
  }

  predicate AllSpace(s: string) { forall i :: 0 <= i < |s| ==> IsSpace(s[i]) }

  /** No white space at either end. */
  predicate SolidEnds(s: string) { s != "" && !IsSpace(s[0]) && !IsSpace(s[|s| - 1]) }

  lemma {:induction false} TrimLeftSpaces(a: string, s: string)
    requires AllSpace(a) && (s == "" || !IsSpace(s[0]))
    ensures TrimLeft(a + s) == s
    decreases |a|
  {
    if a == "" {
      assert a + s == s;
    } else {
      assert (a + s)[0] == a[0] && (a + s)[1..] == a[1..] + s;
      TrimLeftSpaces(a[1..], s);
    }
  }

  lemma {:induction false} TrimRightSpaces(s: string, z: string)
    requires AllSpace(z) && (s == "" || !IsSpace(s[|s| - 1]))
    ensures TrimRight(s + z) == s
    decreases |z|
  {
    if z == "" {
      assert s + z == s;
    } else {
      assert (s + z)[|s + z| - 1] == z[|z| - 1] && (s + z)[..|s + z| - 1] == s + z[..|z| - 1];
      TrimRightSpaces(s, z[..|z| - 1]);
    }
  }

  lemma {:induction false} TrimLeftRest(s: string) returns (a: string)
    ensures AllSpace(a) && s == a + TrimLeft(s)
  {
    a := "";
    if s != "" && IsSpace(s[0]) {
      var b := TrimLeftRest(s[1..]);
      a := [s[0]] + b;
    }
  }

  lemma {:induction false} TrimRightRest(s: string) returns (z: string)
    ensures AllSpace(z) && s == TrimRight(s) + z
    decreases |s|
  {
    z := "";
    if s != "" && IsSpace(s[|s| - 1]) {
      var y := TrimRightRest(s[..|s| - 1]);
      z := y + [s[|s| - 1]];
    }
  }

  /** s is t between white space. */
  ghost predicate Surrounds(s: string, t: string) { exists a, z :: AllSpace(a) && AllSpace(z) && s == a + t + z }

  /** Trimming takes away the white space around a text, and nothing else. */
  lemma TrimIff(s: string, t: string)
    ensures TrimSpace(s) == t <==> Surrounds(s, t) && (t == "" || SolidEnds(t))
  {
    if TrimSpace(s) == t {
      var a := TrimLeftRest(s);
      var z := TrimRightRest(TrimLeft(s));
      assert s == a + t + z;
    }
    if Surrounds(s, t) && (t == "" || SolidEnds(t)) {
      var a, z :| AllSpace(a) && AllSpace(z) && s == a + t + z;
      if t == "" {
        assert s == (a + z) + "";
        TrimLeftSpaces(a + z, "");
      } else {
        assert s == a + (t + z);
        TrimLeftSpaces(a, t + z);
        TrimRightSpaces(t, z);
      }
    }
  }

  /** Lower case on the letters that can spell an ASCII word; every other character is kept. */
  function LowerChar(c: char): char {
    if 'A' <= c <= 'Z' then ((c as int) + 32) as char else c
  }

  function ToLower(s: string): string {
    seq(|s|, i requires 0 <= i < |s| => LowerChar(s[i]))
  }

  /** Simple case folding onto ASCII lower case: besides the capitals, the long s and the Kelvin sign fold there. */
  function FoldChar(c: char): char {
    if c == '\U{017F}' then 's' else if c == '\U{212A}' then 'k' else LowerChar(c)
  }

  /** strings.EqualFold(s, word) for an ASCII word. */
  predicate EqualFold(s: string, word: string) {
    |s| == |word| && forall i :: 0 <= i < |s| ==> FoldChar(s[i]) == LowerChar(word[i])
  }

  /** An ASCII word in lower case is matched letter by letter, each in either case; s and k have one more form. */
  lemma FoldIff(s: string, word: string)
    requires forall i :: 0 <= i < |word| ==> 'a' <= word[i] <= 'z'
    ensures EqualFold(s, word) <==>
              |s| == |word| && forall i :: 0 <= i < |s| ==>
                || s[i] == word[i] || s[i] as int == word[i] as int - 32
                || (word[i] == 's' && s[i] == '\U{017F}') || (word[i] == 'k' && s[i] == '\U{212A}')
  {
    if |s| == |word| {
      forall i | 0 <= i < |s| ensures FoldChar(s[i]) == LowerChar(word[i]) <==>
          (s[i] == word[i] || s[i] as int == word[i] as int - 32
           || (word[i] == 's' && s[i] == '\U{017F}') || (word[i] == 'k' && s[i] == '\U{212A}')) {
      }
    }
  }

  /** strings.Join(parts, " "). */
  function JoinSpace(parts: seq<string>): string {
    if parts == [] then ""
    else if |parts| == 1 then parts[0]
    else parts[0] + " " + JoinSpace(parts[1..])
  }

  lemma {:induction false} JoinSnoc(parts: seq<string>, w: string)
    ensures JoinSpace(parts + [w]) == if parts == [] then w else JoinSpace(parts) + " " + w
  {
    if |parts| > 1 {
      assert (parts + [w])[0] == parts[0] && (parts + [w])[1..] == parts[1..] + [w];
      JoinSnoc(parts[1..], w);
      assert parts[0] + " " + (JoinSpace(parts[1..]) + " " + w) == parts[0] + " " + JoinSpace(parts[1..]) + " " + w;
    } else if |parts| == 1 {
      assert (parts + [w])[1..] == [w];
    }
  }

  /** Words without blanks. */
  predicate IsWords(parts: seq<string>) { forall i :: 0 <= i < |parts| ==> parts[i] != "" && ' ' !in parts[i] }

  /** Different lists of words are joined to different texts. */
  lemma {:induction false} JoinInjective(a: seq<string>, b: seq<string>)
    requires IsWords(a) && IsWords(b) && JoinSpace(a) == JoinSpace(b)
    ensures a == b
    decreases |a|
  {
    if a == [] || b == [] {
      JoinNotEmpty(a);
      JoinNotEmpty(b);
    } else {
      FirstWord(a);
      FirstWord(b);
      var s := JoinSpace(a);
      assert |a[0]| == |b[0]|;
      assert a[0] == s[..|a[0]|] == b[0];
      if |a| > 1 && |b| > 1 {
        assert JoinSpace(a[1..]) == s[|a[0]| + 1..] == JoinSpace(b[1..]);
        JoinInjective(a[1..], b[1..]);
        assert a == [a[0]] + a[1..] && b == [b[0]] + b[1..];
      }
    }
  }

  lemma JoinNotEmpty(a: seq<string>)
    requires IsWords(a)
    ensures JoinSpace(a) == "" <==> a == []
  {
  }

  lemma FirstWord(a: seq<string>)
    requires a != [] && IsWords(a)
    ensures var s := JoinSpace(a);
            && |a[0]| <= |s| && s[..|a[0]|] == a[0] && (forall i :: 0 <= i < |a[0]| ==> s[i] != ' ')
            && (|a| == 1 <==> |s| == |a[0]|)
            && (|a| > 1 ==> s[|a[0]|] == ' ' && s[|a[0]| + 1..] == JoinSpace(a[1..]))
  {
  }

  predicate HasPrefix(s: string, p: string) { |p| <= |s| && s[..|p|] == p }
}
