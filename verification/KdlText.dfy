/** KDL string quoting, and the reader of the KDL 1.0.0 specification (Full Grammar section) that undoes it. */
module KdlText {
  import opened Prelude

  // ---------------------------------------------------------------------
  // Writing
  // ---------------------------------------------------------------------

  function EscapeChar(c: char): string {
    if c == '\\' then "\\\\" else if c == '"' then "\\\"" else if c == '\n' then "\\n" else if c == '\t' then "\\t" else [c]
  }

  /** One left-to-right pass of the four replacements. */
  function Escape(s: string): string { if s == "" then "" else EscapeChar(s[0]) + Escape(s[1..]) }

  predicate NeedsEscaping(c: char) { c in " \t\"\\{}#\n" }

  function KdlQuote(s: string): string {
    if s == "" then "\"\""
    else if !exists i :: 0 <= i < |s| && NeedsEscaping(s[i]) then "\"" + s + "\""
    else "\"" + Escape(s) + "\""
  }

  // ---------------------------------------------------------------------
  // Reading: string := '"' character* '"', character := '\' escape | [^\"]
  // ---------------------------------------------------------------------

  function HexDigit(c: char): Option<nat> {
    if '0' <= c <= '9' then Some(c as int - '0' as int)
    else if 'a' <= c <= 'f' then Some(c as int - 'a' as int + 10)
    else if 'A' <= c <= 'F' then Some(c as int - 'A' as int + 10)
    else None
  }

  /** hex-digit{1,6} followed by '}', n digits with value v having been read. */
  function UnicodeTail(s: string, v: nat, n: nat): (r: Option<(char, string)>)
    ensures r.Some? ==> |r.value.1| < |s|
    decreases |s|
  {
    if s == "" then None
    else if s[0] == '}' then
      if n >= 1 && (v < 0xD800 || 0xE000 <= v < 0x11_0000) then Some((v as char, s[1..])) else None
    else
      var d := HexDigit(s[0]);
      if d.None? || n >= 6 then None else UnicodeTail(s[1..], 16 * v + d.value, n + 1)
  }

  /** escape := ["\\/bfnrt] | 'u{' hex-digit{1,6} '}' */
  function ReadEscape(s: string): (r: Option<(char, string)>)
    ensures r.Some? ==> |r.value.1| < |s|
  {
    if s == "" then None
    else
      match s[0]
      case '"' => Some(('"', s[1..]))
      case '\\' => Some(('\\', s[1..]))
      case '/' => Some(('/', s[1..]))
      case 'b' => Some(('\U{8}', s[1..]))
      case 'f' => Some(('\U{C}', s[1..]))
      case 'n' => Some(('\n', s[1..]))
      case 'r' => Some(('\r', s[1..]))
      case 't' => Some(('\t', s[1..]))
      case 'u' => if |s| >= 2 && s[1] == '{' then UnicodeTail(s[2..], 0, 0) else None
      case _ => None
  }

  /** The characters up to the closing quote, and what follows it. */
  function ReadBody(s: string): (r: Option<(string, string)>)
    ensures r.Some? ==> |r.value.1| < |s|
    decreases |s|
  {
    if s == "" then None
    else if s[0] == '"' then Some(("", s[1..]))
    else if s[0] == '\\' then
      var e := ReadEscape(s[1..]);
      if e.None? then None
      else
        var r := ReadBody(e.value.1);
        if r.None? then None else Some(([e.value.0] + r.value.0, r.value.1))
    else
      var r := ReadBody(s[1..]);
      if r.None? then None else Some(([s[0]] + r.value.0, r.value.1))
  }

  function ReadString(s: string): (r: Option<(string, string)>)
    ensures r.Some? ==> |r.value.1| < |s|
  {
    if s == "" || s[0] != '"' then None else ReadBody(s[1..])
  }

  /** The string arguments of a node up to the end of its line. */
  function ReadArguments(s: string): Option<seq<string>>
    decreases |s|
  {
    if s == "" || s[0] == '\n' then Some([])
    else if s[0] == ' ' || s[0] == '\t' then ReadArguments(s[1..])
    else
      var w := ReadString(s);
      if w.None? then None
      else
        var more := ReadArguments(w.value.1);
        if more.None? then None else Some([w.value.0] + more.value)
  }

  // ---------------------------------------------------------------------
  // Reading undoes writing
  // ---------------------------------------------------------------------

  lemma ReadEscapedChar(c: char, more: string)
    ensures var s := EscapeChar(c) + more;
            var r := ReadBody(more);
            r.Some? ==> ReadBody(s) == Some(([c] + r.value.0, r.value.1))
  {
    var s := EscapeChar(c) + more;
    if |EscapeChar(c)| == 2 {
      assert s[0] == '\\' && s[1..] == [EscapeChar(c)[1]] + more && s[1..][1..] == more;
    } else {
      assert s[0] == c && s[1..] == more;
    }
  }

  lemma {:induction false} ReadEscaped(t: string, more: string)
    ensures ReadBody(Escape(t) + "\"" + more) == Some((t, more))
    decreases |t|
  {
    if t == "" {
      assert Escape(t) + "\"" + more == "\"" + more && ("\"" + more)[1..] == more;
    } else {
      ReadEscaped(t[1..], more);
      assert Escape(t) + "\"" + more == EscapeChar(t[0]) + (Escape(t[1..]) + "\"" + more);
      ReadEscapedChar(t[0], Escape(t[1..]) + "\"" + more);
      assert [t[0]] + t[1..] == t;
    }
  }

  lemma {:induction false} EscapeOfPlain(s: string)
    requires forall i :: 0 <= i < |s| ==> !NeedsEscaping(s[i])
    ensures Escape(s) == s
    decreases |s|
  {
    if s != "" {
      EscapeOfPlain(s[1..]);
      assert !NeedsEscaping(s[0]);
      assert [s[0]] + s[1..] == s;
    }
  }

  lemma QuoteIsEscape(s: string)
    ensures KdlQuote(s) == "\"" + Escape(s) + "\""
  {
    if s == "" {
      assert "\"" + "" + "\"" == "\"\"";
    } else if !exists i :: 0 <= i < |s| && NeedsEscaping(s[i]) {
      EscapeOfPlain(s);
    }
  }

  /** Reading a quoted string gives back the string, whatever it contains and whatever follows. */
  lemma QuoteRoundTrip(s: string, more: string)
    ensures ReadString(KdlQuote(s) + more) == Some((s, more))
  {
    QuoteIsEscape(s);
    assert KdlQuote(s) + more == "\"" + (Escape(s) + "\"" + more);
    assert (KdlQuote(s) + more)[1..] == Escape(s) + "\"" + more;
    ReadEscaped(s, more);
  }

  /** The arguments as the generator writes them. */
  function Arguments(words: seq<string>): string {
    if words == [] then "" else " " + KdlQuote(words[0]) + Arguments(words[1..])
  }

  lemma ReadFirstArgument(w: string, more: string)
    requires ReadArguments(more).Some?
    ensures ReadArguments(" " + (KdlQuote(w) + more)) == Some([w] + ReadArguments(more).value)
  {
    var s := KdlQuote(w) + more;
    assert (" " + s)[0] == ' ' && (" " + s)[1..] == s;
    QuoteIsEscape(w);
    assert s[0] == '"';
    QuoteRoundTrip(w, more);
  }

  lemma Regroup(a: string, b: string, c: string, d: string)
    ensures a + b + c + d == a + (b + (c + d))
  {
  }

  /** A written argument list reads back as exactly the words. */
  lemma {:induction false} ArgumentsRoundTrip(words: seq<string>)
    ensures ReadArguments(Arguments(words) + "\n") == Some(words)
    decreases |words|
  {
    if words == [] {
      assert Arguments(words) + "\n" == "\n";
    } else {
      var rest := Arguments(words[1..]);
      ArgumentsRoundTrip(words[1..]);
      ReadFirstArgument(words[0], rest + "\n");
      Regroup(" ", KdlQuote(words[0]), rest, "\n");
      assert [words[0]] + words[1..] == words;
    }
  }
}
