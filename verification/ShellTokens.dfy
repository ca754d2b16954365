/** The shell-like tokenizer used for spawn commands. */
module ShellTokens {
  import opened Prelude
  import opened Strings

  predicate IsBlank(c: char) { c == ' ' || c == '\t' }
  predicate IsQuote(c: char) { c == '"' || c == '\'' }

  function Flush(cur: string): seq<string> { if cur == "" then [] else [cur] }

  /** The tokens of s when cur has been read of the current one and quote is the open quote, if any. */
  function Scan(s: string, cur: string, quote: Option<char>): seq<string>
    decreases |s|
  {
    if s == "" then Flush(cur)
    else
      var c := s[0];
      if quote.Some? then
        if c == quote.value then Scan(s[1..], cur, None) else Scan(s[1..], cur + [c], quote)
      else if IsQuote(c) then Scan(s[1..], cur, Some(c))
      else if IsBlank(c) then Flush(cur) + Scan(s[1..], "", None)
      else Scan(s[1..], cur + [c], None)
  }

  function Tokens(s: string): seq<string> { Scan(TrimSpace(s), "", None) }

  method TokenizeShell(s: string) returns (out: seq<string>)
    ensures out == Tokens(s)
  {
    var t := TrimSpace(s);
    if t == "" {
      return [];
    }
    out := [];
    var cur := "";
    var inQuote: Option<char> := None;
    for i := 0 to |t|
      invariant out + Scan(t[i..], cur, inQuote) == Tokens(s)
    {
      var c := t[i];
      assert t[i..][0] == c && t[i..][1..] == t[i + 1..];
      if inQuote.Some? {
        if c == inQuote.value {
          inQuote := None;
        } else {
          cur := cur + [c];
        }
      } else if IsQuote(c) {
        inQuote := Some(c);
      } else if IsBlank(c) {
        if |cur| > 0 {
          out := out + [cur];
          cur := "";
        }
      } else {
        cur := cur + [c];
      }
    }
    if |cur| > 0 {
      out := out + [cur];
    }
  }

  // ---------------------------------------------------------------------
  // Printing words so that they can be read back
  // ---------------------------------------------------------------------

  /** A piece of a word: as it is, or between quotes. */
  datatype Segment = Bare(text: string) | Single(text: string) | Double(text: string)

  predicate Printable(g: Segment) {
    match g
    case Bare(t) => forall i :: 0 <= i < |t| ==> !IsBlank(t[i]) && !IsQuote(t[i])
    case Single(t) => '\'' !in t
    case Double(t) => '"' !in t
  }

  function PrintSegment(g: Segment): string {
    match g
    case Bare(t) => t
    case Single(t) => "'" + t + "'"
    case Double(t) => "\"" + t + "\""
  }

  /** A word is printed as adjacent segments. */
  type Word = seq<Segment>

  function Print(w: Word): string { if w == [] then "" else PrintSegment(w[0]) + Print(w[1..]) }
  function TextOf(w: Word): string { if w == [] then "" else w[0].text + TextOf(w[1..]) }

  predicate PrintableWord(w: Word) { (forall i :: 0 <= i < |w| ==> Printable(w[i])) && Print(w) != "" }

  /** A command line: a word, then words each preceded by blanks. */
  datatype Line = Line(first: Word, rest: seq<(string, Word)>)

  predicate Blanks(s: string) { s != "" && forall i :: 0 <= i < |s| ==> IsBlank(s[i]) }

  predicate PrintableRest(rest: seq<(string, Word)>) {
    forall i :: 0 <= i < |rest| ==> Blanks(rest[i].0) && PrintableWord(rest[i].1)
  }

  function PrintRest(rest: seq<(string, Word)>): string {
    if rest == [] then "" else rest[0].0 + Print(rest[0].1) + PrintRest(rest[1..])
  }

  function PrintLine(l: Line): string { Print(l.first) + PrintRest(l.rest) }

  /** The texts of the words that are not empty. */
  function TextsOfRest(rest: seq<(string, Word)>): seq<string> {
    if rest == [] then [] else Flush(TextOf(rest[0].1)) + TextsOfRest(rest[1..])
  }

  // ---------------------------------------------------------------------
  // Scanning what was printed
  // ---------------------------------------------------------------------

  lemma {:induction false} ScanBare(t: string, more: string, cur: string)
    requires Printable(Bare(t))
    ensures Scan(t + more, cur, None) == Scan(more, cur + t, None)
    decreases |t|
  {
    if t == "" {
      assert t + more == more && cur + t == cur;
    } else {
      assert !IsBlank(t[0]) && !IsQuote(t[0]);
      assert (t + more)[0] == t[0] && (t + more)[1..] == t[1..] + more;
      assert cur + [t[0]] + t[1..] == cur + t;
      ScanBare(t[1..], more, cur + [t[0]]);
    }
  }

  lemma {:induction false} ScanQuoted(t: string, q: char, more: string, cur: string)
    requires q !in t
    ensures Scan(t + [q] + more, cur, Some(q)) == Scan(more, cur + t, None)
    decreases |t|
  {
    var s := t + [q] + more;
    if t == "" {
      assert s[0] == q && s[1..] == more && cur + t == cur;
    } else {
      assert s[0] == t[0] && s[1..] == t[1..] + [q] + more && t[0] != q;
      assert cur + [t[0]] + t[1..] == cur + t;
      ScanQuoted(t[1..], q, more, cur + [t[0]]);
    }
  }

  lemma ScanSegment(g: Segment, more: string, cur: string)
    requires Printable(g)
    ensures Scan(PrintSegment(g) + more, cur, None) == Scan(more, cur + g.text, None)
  {
    match g
    case Bare(t) => ScanBare(t, more, cur);
    case Single(t) => ScanQuotedSegment(t, '\'', more, cur);
    case Double(t) => ScanQuotedSegment(t, '"', more, cur);
  }

  lemma ScanQuotedSegment(t: string, q: char, more: string, cur: string)
    requires q !in t && IsQuote(q)
    ensures Scan([q] + t + [q] + more, cur, None) == Scan(more, cur + t, None)
  {
    var s := [q] + t + [q] + more;
    assert s[0] == q && s[1..] == t + [q] + more;
    ScanQuoted(t, q, more, cur);
  }

  lemma {:induction false} ScanWord(w: Word, more: string, cur: string)
    requires forall i :: 0 <= i < |w| ==> Printable(w[i])
    ensures Scan(Print(w) + more, cur, None) == Scan(more, cur + TextOf(w), None)
    decreases |w|
  {
    if w == [] {
      assert Print(w) + more == more && cur + "" == cur;
    } else {
      assert Print(w) + more == PrintSegment(w[0]) + (Print(w[1..]) + more);
      ScanSegment(w[0], Print(w[1..]) + more, cur);
      ScanWord(w[1..], more, cur + w[0].text);
      assert cur + w[0].text + TextOf(w[1..]) == cur + TextOf(w);
    }
  }

  lemma {:induction false} ScanBlanks(b: string, more: string, cur: string)
    requires Blanks(b)
    ensures Scan(b + more, cur, None) == Flush(cur) + Scan(more, "", None)
    decreases |b|
  {
    assert (b + more)[0] == b[0] && (b + more)[1..] == b[1..] + more;
    assert !IsQuote(b[0]);
    if |b| > 1 {
      ScanBlanks(b[1..], more, "");
      assert [] + Scan(more, "", None) == Scan(more, "", None);
    } else {
      assert b[1..] + more == more;
    }
  }

  lemma {:induction false} ScanRest(rest: seq<(string, Word)>, cur: string)
    requires PrintableRest(rest)
    ensures Scan(PrintRest(rest), cur, None) == Flush(cur) + TextsOfRest(rest)
    decreases |rest|
  {
    if rest != [] {
      var (b, w) := rest[0];
      var tail := PrintRest(rest[1..]);
      assert Blanks(rest[0].0) && PrintableWord(rest[0].1);
      assert PrintRest(rest) == b + (Print(w) + tail);
      ScanBlanks(b, Print(w) + tail, cur);
      ScanWord(w, tail, "");
      assert "" + TextOf(w) == TextOf(w);
      ScanRest(rest[1..], TextOf(w));
    } else {
      assert Flush(cur) + [] == Flush(cur);
    }
  }

  /** Tokenizing undoes printing: however the words are cut into quoted and bare segments, whatever blanks
      separate them and whatever white space surrounds the line, the tokens are the texts of the words,
      without the empty ones. A bare segment may hold white space other than blanks, only not at an end of the
      line, where it would belong to what surrounds it. */
  lemma TokensOfPrinted(before: string, l: Line, after: string)
    requires AllSpace(before) && AllSpace(after) && PrintableWord(l.first) && PrintableRest(l.rest) && SolidEnds(PrintLine(l))
    ensures Tokens(before + PrintLine(l) + after) == Flush(TextOf(l.first)) + TextsOfRest(l.rest)
  {
    var s := PrintLine(l);
    assert before + s + after == before + (s + after);
    TrimLeftSpaces(before, s + after);
    TrimRightSpaces(s, after);
    ScanWord(l.first, PrintRest(l.rest), "");
    assert "" + TextOf(l.first) == TextOf(l.first);
    ScanRest(l.rest, TextOf(l.first));
  }
}
