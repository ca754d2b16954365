/** The wire format of requests and events: 32-bit words, strings in padded slots, and message headers
    (the "Wire Format" section of the chapter "Wayland Protocol and Model of Operation"). */
module WireCodec {
  import opened Prelude
  import opened FixedPoint

  newtype byte = x: int | 0 <= x < 256
  type word = x: int | 0 <= x < 0x1_0000_0000

  // ---------------------------------------------------------------------
  // Words
  // ---------------------------------------------------------------------

  /** A 32-bit word in memory, least significant byte first. */
  function Bytes(v: word): (s: seq<byte>)
    ensures |s| == 4
  {
    [(v % 256) as byte, (v / 0x100 % 256) as byte, (v / 0x1_0000 % 256) as byte, (v / 0x100_0000) as byte]
  }

  function Word(s: seq<byte>): word
    requires |s| >= 4
  {
    (s[0] as int) + 0x100 * (s[1] as int) + 0x1_0000 * (s[2] as int) + 0x100_0000 * (s[3] as int)
  }

  lemma WordOfBytes(v: word, rest: seq<byte>)
    ensures Word(Bytes(v) + rest) == v
  {
    DigitSplit(v);
  }

  lemma DigitSplit(v: word)
    ensures v % 256 + 0x100 * (v / 0x100 % 256) + 0x1_0000 * (v / 0x1_0000 % 256) + 0x100_0000 * (v / 0x100_0000) == v
  {
    assert v / 0x100 == 256 * (v / 0x1_0000) + v / 0x100 % 256;
    assert v / 0x1_0000 == 256 * (v / 0x100_0000) + v / 0x1_0000 % 256;
  }

  lemma SecondByte(v: word)
    ensures v % 0x1_0000 / 0x100 == v / 0x100 % 0x100
  {
    var q, r := v / 0x1_0000, v % 0x1_0000;
    assert v / 0x100 == 0x100 * q + r / 0x100;
  }

  lemma ThirdByte(v: word)
    ensures v % 0x100_0000 / 0x1_0000 == v / 0x1_0000 % 0x100
  {
    var q, r := v / 0x100_0000, v % 0x100_0000;
    assert v / 0x1_0000 == 0x100 * q + r / 0x1_0000;
  }

  /** Byte i of a word has the weight 256^i. */
  lemma ByteWeights(v: word)
    ensures Bytes(v)[0] as int == v % 0x100 && Bytes(v)[1] as int == v % 0x1_0000 / 0x100
    ensures Bytes(v)[2] as int == v % 0x100_0000 / 0x1_0000 && Bytes(v)[3] as int == v / 0x100_0000
  {
    SecondByte(v);
    ThirdByte(v);
  }

  /** Four bytes are the bytes of the word they are read as. */
  lemma BytesOfWord(s: seq<byte>)
    requires |s| >= 4
    ensures Bytes(Word(s)) == s[..4]
  {
    var v := Word(s);
    var a, b, c, d := s[0] as int, s[1] as int, s[2] as int, s[3] as int;
    assert v / 0x100 == b + 0x100 * c + 0x1_0000 * d && v % 0x100 == a;
    assert v / 0x1_0000 == c + 0x100 * d;
    assert v / 0x100_0000 == d;
  }

  /** A signed 32-bit value as the word that holds it. */
  function Unsigned(f: int): word
    requires -TWO_31 <= f < TWO_31
  {
    f % TWO_32
  }

  /** PutFixed and Fixed carry the 24.8 value through the word unchanged. */
  lemma FixedThroughWord(f: int, rest: seq<byte>)
    requires -TWO_31 <= f < TWO_31
    ensures Wrap32(Word(Bytes(Unsigned(f)) + rest)) == f
  {
    WordOfBytes(Unsigned(f), rest);
  }

  // ---------------------------------------------------------------------
  // Strings
  // ---------------------------------------------------------------------

  /** l rounded up to a multiple of four. */
  function PaddedLen(l: nat): (p: nat)
    ensures p % 4 == 0 && l <= p < l + 4
  {
    if l % 4 != 0 then l + (4 - l % 4) else l
  }

  function Zeros(n: nat): seq<byte> { seq(n, i => 0) }

  /** A string slot: its length with the terminator, the text, the terminator, and padding up to four. */
  function Slot(v: seq<byte>): (s: seq<byte>)
    ensures |s| == 4 + PaddedLen(|v| + 1)
  {
    Bytes((|v| + 1) % 0x1_0000_0000) + v + Zeros(PaddedLen(|v| + 1) - |v|)
  }

  /** The text before the first NUL; None when there is none, where the source would panic. */
  function Text(s: seq<byte>): Option<seq<byte>> {
    if s == [] then None
    else if s[0] == 0 then Some([])
    else
      var rest := Text(s[1..]);
      if rest.None? then None else Some([s[0]] + rest.value)
  }

  /** v up to its first NUL. */
  function BeforeNul(v: seq<byte>): seq<byte> {
    if v == [] || v[0] == 0 then [] else [v[0]] + BeforeNul(v[1..])
  }

  lemma {:induction false} TextOfSlot(v: seq<byte>, n: nat)
    requires n > 0
    ensures Text(v + Zeros(n)) == Some(BeforeNul(v))
  {
    var s := v + Zeros(n);
    if v == [] {
      assert s[0] == 0;
    } else {
      assert s[0] == v[0] && s[1..] == v[1..] + Zeros(n);
      TextOfSlot(v[1..], n);
    }
  }

  lemma {:induction false} BeforeNulIff(v: seq<byte>)
    ensures BeforeNul(v) == v <==> 0 !in v
    ensures |BeforeNul(v)| <= |v|
  {
    if v != [] && v[0] != 0 {
      BeforeNulIff(v[1..]);
      assert v == [v[0]] + v[1..];
    }
  }

  // ---------------------------------------------------------------------
  // Headers
  // ---------------------------------------------------------------------

  /** uint32(size<<16 | opcode&0xffff). */
  function Header(size: nat, opcode: nat): word { (size * 0x1_0000 + opcode % 0x1_0000) % 0x1_0000_0000 }

  /** The size and opcode that ReadMsg takes out of a header word. */
  function Unpack(h: word): (nat, nat) { (h / 0x1_0000, h % 0x1_0000) }

  /** A header unpacks to what was packed exactly when both parts fit in 16 bits. */
  lemma HeaderRoundTripIff(size: nat, opcode: nat)
    ensures Unpack(Header(size, opcode)) == (size, opcode) <==> size < 0x1_0000 && opcode < 0x1_0000
  {
    HeaderHalves(size, opcode);
  }

  /** The upper half of a header word is the size, the lower half the opcode, each reduced to 16 bits. */
  lemma HeaderHalves(size: nat, opcode: nat)
    ensures Header(size, opcode) / 0x1_0000 == size % 0x1_0000 && Header(size, opcode) % 0x1_0000 == opcode % 0x1_0000
  {
    var low := opcode % 0x1_0000;
    assert size == (size / 0x1_0000) * 0x1_0000 + size % 0x1_0000;
    assert size * 0x1_0000 + low == (size / 0x1_0000) * 0x1_0000_0000 + ((size % 0x1_0000) * 0x1_0000 + low);
    ModOfSum(size / 0x1_0000, (size % 0x1_0000) * 0x1_0000 + low);
  }

  /** ReadMsg takes the size from the upper two bytes of the header and the opcode from the lower two. */
  lemma UnpackHalves(s: seq<byte>)
    requires |s| >= 4
    ensures Unpack(Word(s)) == (s[2] as int + 0x100 * (s[3] as int), s[0] as int + 0x100 * (s[1] as int))
  {
    BytesOfWord(s);
    var low := s[0] as int + 0x100 * (s[1] as int);
    assert Word(s) == 0x1_0000 * (s[2] as int + 0x100 * (s[3] as int)) + low;
  }

  lemma ModOfSum(q: int, r: word)
    ensures (q * 0x1_0000_0000 + r) % 0x1_0000_0000 == r
  {
  }

  // ---------------------------------------------------------------------
  // Registry.Bind and Registry.Dispatch
  // ---------------------------------------------------------------------

  /** The bytes of a bind request. */
  function BindMessage(sender: word, name: word, iface: seq<byte>, version: word, id: word): (m: seq<byte>)
    ensures |m| == BindLength(iface)
  {
    Bytes(sender) + Bytes(Header(BindLength(iface), 0)) + Bytes(name) + Slot(iface) + Bytes(version) + Bytes(id)
  }

  function BindLength(iface: seq<byte>): (n: nat)
    ensures n % 4 == 0 && n >= 24
  { 8 + 4 + (4 + PaddedLen(|iface| + 1)) + 4 + 4 }

  /** What Registry.Dispatch reads from the payload of a global event; None where a slice would be out of range. */
  function ParseGlobal(data: seq<byte>): Option<(word, seq<byte>, word)> {
    if |data| < 8 then None
    else
      var slot := PaddedLen(Word(data[4..]));
      if |data| < 8 + slot + 4 then None
      else
        var text := Text(data[8..8 + slot]);
        if text.None? then None else Some((Word(data), text.value, Word(data[8 + slot..])))
  }

  /** Everything of a bind request between the header and the new object's id. */
  function BindPayload(name: word, iface: seq<byte>, version: word): seq<byte> { Bytes(name) + Slot(iface) + Bytes(version) }

  /** The payload of a bind request, read as a global event, gives back the name, the version and the interface
      exactly when the interface holds no NUL and its length word does not wrap around; with a NUL it gives the
      text before it. */
  lemma BindRoundTrip(sender: word, name: word, iface: seq<byte>, version: word, id: word, payload: seq<byte>)
    requires payload == BindMessage(sender, name, iface, version, id)[8..BindLength(iface) - 4]
    ensures |iface| + 1 < 0x1_0000_0000 ==> ParseGlobal(payload) == Some((name, BeforeNul(iface), version))
    ensures ParseGlobal(payload) == Some((name, iface, version)) <==> 0 !in iface && |iface| + 1 < 0x1_0000_0000
  {
    assert payload == BindPayload(name, iface, version) by {
      BindLayout(sender, name, iface, version, id);
    }
    if |iface| + 1 < 0x1_0000_0000 {
      GlobalPayload(name, iface, version);
      BeforeNulIff(iface);
    } else {
      WrappedLength(name, iface, version, payload);
    }
  }

  lemma {:induction false} TextIsShorter(s: seq<byte>)
    ensures Text(s).Some? ==> |Text(s).value| < |s|
  {
    if s != [] && s[0] != 0 {
      TextIsShorter(s[1..]);
    }
  }

  /** A length word that has wrapped around never gives the interface back. */
  lemma WrappedLength(name: word, iface: seq<byte>, version: word, data: seq<byte>)
    requires |iface| + 1 >= 0x1_0000_0000 && data == BindPayload(name, iface, version)
    ensures ParseGlobal(data) != Some((name, iface, version))
  {
    var l := (|iface| + 1) % 0x1_0000_0000;
    WrappedWord(name, iface, version, data);
    if |data| >= 8 + PaddedLen(l) + 4 {
      TextIsShorter(data[8..8 + PaddedLen(l)]);
      ShortSlot(|iface|, l);
    }
  }

  lemma ShortSlot(n: nat, l: nat)
    requires n + 1 >= 0x1_0000_0000 && l == (n + 1) % 0x1_0000_0000
    ensures n >= PaddedLen(l)
  {
  }

  lemma WrappedWord(name: word, iface: seq<byte>, version: word, data: seq<byte>)
    requires data == BindPayload(name, iface, version)
    ensures |data| >= 8 && Word(data[4..]) == (|iface| + 1) % 0x1_0000_0000
  {
    var l := (|iface| + 1) % 0x1_0000_0000;
    var rest := iface + Zeros(PaddedLen(|iface| + 1) - |iface|) + Bytes(version);
    assert data[4..] == Bytes(l) + rest;
    WordAt(data[4..], l, rest);
  }

  lemma FourFields<X>(a: seq<X>, b: seq<X>, c: seq<X>, d: seq<X>, s: seq<X>)
    requires s == a + (b + (c + d)) && |a| == 4 && |b| == 4
    ensures |s| == 8 + |c| + |d| && s[4..] == b + (c + d) && s[8..8 + |c|] == c && s[8 + |c|..] == d
  {
  }

  /** A bind request is as long as its header says, and a multiple of four. */
  lemma BindLayout(sender: word, name: word, iface: seq<byte>, version: word, id: word)
    ensures Word(BindMessage(sender, name, iface, version, id)) == sender
    ensures Word(BindMessage(sender, name, iface, version, id)[4..]) == Header(BindLength(iface), 0)
    ensures BindMessage(sender, name, iface, version, id)[8..BindLength(iface) - 4] == BindPayload(name, iface, version)
  {
    MessageLayout(BindMessage(sender, name, iface, version, id), sender, Header(BindLength(iface), 0), name, Slot(iface), version, id);
  }

  /** The fields of a bind request at their places: the registry's id, opcode 0, the name, the interface with its length
      and its terminator, the version and the new id. */
  lemma BindFields(sender: word, name: word, iface: seq<byte>, version: word, id: word)
    ensures var m := BindMessage(sender, name, iface, version, id);
            && Word(m) == sender && Word(m[4..]) % 0x1_0000 == 0 && Word(m[8..]) == name
            && Word(m[12..]) == (|iface| + 1) % 0x1_0000_0000 && m[16..16 + |iface|] == iface && m[16 + |iface|] == 0
            && Word(m[|m| - 8..]) == version && Word(m[|m| - 4..]) == id
  {
    var m, h, slot := BindMessage(sender, name, iface, version, id), Header(BindLength(iface), 0), Slot(iface);
    HeaderHalves(BindLength(iface), 0);
    SixParts(Bytes(sender), Bytes(h), Bytes(name), slot, Bytes(version), Bytes(id), m);
    WordAt(m, sender, m[4..]);
    WordAt(m[4..], h, m[8..]);
    WordAt(m[8..], name, m[12..]);
    SlotFields(iface, m[12..], Bytes(version) + Bytes(id));
    assert m[12..][4..4 + |iface|] == m[16..16 + |iface|];
    WordAt(m[|m| - 8..], version, Bytes(id));
    Unit(Bytes(id));
    WordAt(m[|m| - 4..], id, []);
  }

  lemma SixParts<X>(a: seq<X>, b: seq<X>, n: seq<X>, s: seq<X>, v: seq<X>, d: seq<X>, m: seq<X>)
    requires m == a + b + n + s + v + d && |a| == 4 && |b| == 4 && |n| == 4 && |v| == 4 && |d| == 4
    ensures |m| == 20 + |s| && m == a + m[4..] && m[4..] == b + m[8..] && m[8..] == n + m[12..] && m[12..] == s + (v + d)
    ensures m[|m| - 8..] == v + d && m[|m| - 4..] == d
  {
  }

  lemma SlotFields(iface: seq<byte>, s: seq<byte>, rest: seq<byte>)
    requires s == Slot(iface) + rest
    ensures |s| > 4 + |iface| && Word(s) == (|iface| + 1) % 0x1_0000_0000 && s[4..4 + |iface|] == iface && s[4 + |iface|] == 0
  {
    var l, pad := (|iface| + 1) % 0x1_0000_0000, Zeros(PaddedLen(|iface| + 1) - |iface|);
    assert s == Bytes(l) + (iface + (pad + rest));
    WordAt(s, l, iface + (pad + rest));
    assert s[4..] == iface + (pad + rest) && pad[0] == 0;
  }

  lemma MessageLayout(m: seq<byte>, sender: word, header: word, name: word, slot: seq<byte>, version: word, id: word)
    requires m == Bytes(sender) + Bytes(header) + Bytes(name) + slot + Bytes(version) + Bytes(id)
    ensures |m| == 20 + |slot| && Word(m) == sender && Word(m[4..]) == header
    ensures m[8..|m| - 4] == Bytes(name) + slot + Bytes(version)
  {
    MessageParts(Bytes(sender), Bytes(header), Bytes(name), slot, Bytes(version), Bytes(id));
    MessageRead(m, sender, header, Bytes(name) + slot + Bytes(version), Bytes(id));
  }

  lemma MessageRead(m: seq<byte>, sender: word, header: word, payload: seq<byte>, id: seq<byte>)
    requires m == Bytes(sender) + (Bytes(header) + (payload + id)) && |id| == 4
    ensures |m| == 12 + |payload| && Word(m) == sender && Word(m[4..]) == header && m[8..8 + |payload|] == payload
  {
    FourFields(Bytes(sender), Bytes(header), payload, id, m);
    WordAt(m, sender, Bytes(header) + (payload + id));
    WordAt(m[4..], header, payload + id);
  }

  lemma MessageParts<X>(a: seq<X>, b: seq<X>, n: seq<X>, s: seq<X>, v: seq<X>, d: seq<X>)
    ensures a + b + n + s + v + d == a + (b + (n + s + v + d))
  {
  }

  lemma GlobalPayload(name: word, iface: seq<byte>, version: word)
    requires |iface| + 1 < 0x1_0000_0000
    ensures ParseGlobal(BindPayload(name, iface, version)) == Some((name, BeforeNul(iface), version))
  {
    var body := SlotBody(iface);
    FieldsParse(BindPayload(name, iface, version), name, Slot(iface), |iface| + 1, body, version, BeforeNul(iface));
  }

  lemma SlotBody(iface: seq<byte>) returns (body: seq<byte>)
    requires |iface| + 1 < 0x1_0000_0000
    ensures Slot(iface) == Bytes(|iface| + 1) + body
    ensures |body| == PaddedLen(|iface| + 1) && Text(body) == Some(BeforeNul(iface))
  {
    var n := PaddedLen(|iface| + 1);
    body := iface + Zeros(n - |iface|);
    SlotParts(iface, n);
    TextOfSlot(iface, n - |iface|);
  }

  lemma FieldsParse(data: seq<byte>, name: word, slot: seq<byte>, length: word, body: seq<byte>, version: word, text: seq<byte>)
    requires data == Bytes(name) + slot + Bytes(version) && slot == Bytes(length) + body
    requires |body| == PaddedLen(length) && Text(body) == Some(text)
    ensures ParseGlobal(data) == Some((name, text, version))
  {
    FieldsRead(data, name, length, body, version);
  }

  lemma SlotParts(iface: seq<byte>, n: nat)
    requires |iface| + 1 < 0x1_0000_0000 && n == PaddedLen(|iface| + 1)
    ensures Slot(iface) == Bytes(|iface| + 1) + (iface + Zeros(n - |iface|))
  {
    Assoc(Bytes(|iface| + 1), iface, Zeros(n - |iface|));
  }

  lemma FieldsRead(data: seq<byte>, name: word, length: word, body: seq<byte>, version: word)
    requires data == Bytes(name) + (Bytes(length) + body) + Bytes(version)
    ensures |data| == 8 + |body| + 4 && Word(data) == name && Word(data[4..]) == length
    ensures data[8..8 + |body|] == body && Word(data[8 + |body|..]) == version
  {
    var a, b, d := Bytes(name), Bytes(length), Bytes(version);
    Assoc(a, b + body, d);
    Assoc(b, body, d);
    FourFields(a, b, body, d, data);
    WordAt(data, name, b + (body + d));
    WordAt(data[4..], length, body + d);
    assert d == d + [];
    WordAt(data[8 + |body|..], version, []);
  }

  lemma WordAt(s: seq<byte>, v: word, rest: seq<byte>)
    requires s == Bytes(v) + rest
    ensures |s| >= 4 && Word(s) == v
  {
    WordOfBytes(v, rest);
  }

  // ---------------------------------------------------------------------
  // The writers, on a buffer
  // ---------------------------------------------------------------------

  /** Writes the four bytes of v at a position; the source panics unless there is room. */
  method PutUint32(dst: array<byte>, at: nat, v: word)
    requires at + 4 <= dst.Length
    modifies dst
    ensures dst[..] == old(dst[..at]) + Bytes(v) + old(dst[at + 4..])
  {
    dst[at] := (v % 256) as byte;
    dst[at + 1] := (v / 0x100 % 256) as byte;
    dst[at + 2] := (v / 0x1_0000 % 256) as byte;
    dst[at + 3] := (v / 0x100_0000) as byte;
  }

  /** Length word, text, terminator. */
  method PutString(dst: array<byte>, at: nat, v: seq<byte>)
    requires at + |v| + 5 <= dst.Length
    modifies dst
    ensures dst[..] == old(dst[..at]) + Bytes((|v| + 1) % 0x1_0000_0000) + v + [0] + old(dst[at + |v| + 5..])
  {
    PutUint32(dst, at, (|v| + 1) % 0x1_0000_0000);
    ghost var head := dst[..at + 4];
    ghost var tail := dst[at + |v| + 5..];
    assert head == old(dst[..at]) + Bytes((|v| + 1) % 0x1_0000_0000);
    assert tail == old(dst[at + |v| + 5..]);
    CopyText(dst, at + 4, v);
    dst[at + 4 + |v|] := 0;
    assert dst[..] == head + v + [0] + tail;
  }

  method CopyText(dst: array<byte>, at: nat, v: seq<byte>)
    requires at + |v| <= dst.Length
    modifies dst
    ensures dst[..] == old(dst[..at]) + v + old(dst[at + |v|..])
  {
    for i := 0 to |v|
      invariant forall j :: 0 <= j < i ==> dst[at + j] == v[j]
      invariant forall j :: 0 <= j < at ==> dst[j] == old(dst[j])
      invariant forall j :: at + i <= j < dst.Length ==> dst[j] == old(dst[j])
    {
      dst[at + i] := v[i];
    }
  }

  /** Registry.Bind up to the socket write: the filled buffer, with the cursor exactly at its end. */
  method Bind(sender: word, name: word, iface: seq<byte>, version: word, id: word) returns (buf: array<byte>, l: nat)
    ensures fresh(buf) && buf[..] == BindMessage(sender, name, iface, version, id) && l == buf.Length
  {
    var slot := PaddedLen(|iface| + 1);
    var size := 8 + 4 + (4 + slot) + 4 + 4;
    buf := new byte[size](_ => 0);
    l := BindHead(buf, sender, name);
    ghost var zeros := buf[12 + |iface| + 5..];
    ghost var head := buf[..12];
    assert forall i :: 0 <= i < |zeros| ==> zeros[i] == buf[12..][|iface| + 5 + i] == 0;
    PutString(buf, l, iface);
    l := l + (4 + slot);
    SlotFilled(buf[..], head, iface, zeros);
    assert buf[..l] == buf[..][..l];
    l := BindTail(buf, l, version, id);
  }

  lemma SlotFilled(all: seq<byte>, head: seq<byte>, iface: seq<byte>, rest: seq<byte>)
    requires all == head + Bytes((|iface| + 1) % 0x1_0000_0000) + iface + [0] + rest
    requires |rest| >= PaddedLen(|iface| + 1) - |iface| - 1 && forall i :: 0 <= i < |rest| ==> rest[i] == 0
    ensures all[..|head| + 4 + PaddedLen(|iface| + 1)] == head + Slot(iface)
  {
    var n := PaddedLen(|iface| + 1) - |iface|;
    assert ([0] + rest)[..n] == Zeros(n);
    assert all == (head + Bytes((|iface| + 1) % 0x1_0000_0000) + iface) + ([0] + rest);
    assert all[..|head| + 4 + |iface| + n] == (head + Bytes((|iface| + 1) % 0x1_0000_0000) + iface) + ([0] + rest)[..n];
  }

  method BindHead(buf: array<byte>, sender: word, name: word) returns (l: nat)
    requires buf.Length >= 12
    modifies buf
    ensures l == 12 && buf[..12] == Bytes(sender) + Bytes(Header(buf.Length, 0)) + Bytes(name) && buf[12..] == old(buf[12..])
  {
    l := 0;
    PutUint32(buf, l, sender);
    l := l + 4;
    PutUint32(buf, l, Header(buf.Length, 0));
    l := l + 4;
    PutUint32(buf, l, name);
    l := l + 4;
  }

  method BindTail(buf: array<byte>, at: nat, version: word, id: word) returns (l: nat)
    requires at + 8 == buf.Length
    modifies buf
    ensures l == buf.Length && buf[..] == old(buf[..at]) + Bytes(version) + Bytes(id)
  {
    l := at;
    PutUint32(buf, l, version);
    l := l + 4;
    PutUint32(buf, l, id);
    l := l + 4;
  }
}
