/** Base64 with the standard alphabet and padding (section 4 of RFC 4648). */
module Base64 {
  import opened Basics
  import opened Text

  newtype Octet = b: int | 0 <= b < 256

  const Upper: string := "ABCDEFGHIJKLMNOPQRSTUVWXYZ"
  const Lower: string := "abcdefghijklmnopqrstuvwxyz"
  const Digits: string := "0123456789"
  const Alphabet: string := Upper + Lower + Digits + "+/"

  function Symbol(v: int): char
    requires 0 <= v < 64
  {
    Alphabet[v]
  }

  /** The four characters of a group of one to three octets. */
  function EncodeGroup(g: seq<Octet>): (r: string)
    requires 1 <= |g| <= 3
    ensures |r| == 4
  {
    var n := (g[0] as int) * 65536 + (if |g| > 1 then g[1] as int else 0) * 256 + (if |g| > 2 then g[2] as int else 0);
    [Symbol(n / 262144 % 64), Symbol(n / 4096 % 64),
     if |g| > 1 then Symbol(n / 64 % 64) else '=',
     if |g| > 2 then Symbol(n % 64) else '=']
  }

  function Encode(d: seq<Octet>): string {
    if d == [] then ""
    else
      var k := Min(3, |d|);
      EncodeGroup(d[..k]) + Encode(d[k..])
  }

  function Value(c: char): Option<int> {
    if 'A' <= c <= 'Z' then Some(c as int - 'A' as int)
    else if 'a' <= c <= 'z' then Some(c as int - 'a' as int + 26)
    else if '0' <= c <= '9' then Some(c as int - '0' as int + 52)
    else if c == '+' then Some(62)
    else if c == '/' then Some(63)
    else None
  }

  predicate Ignored(c: char) {
    c == '=' || AsciiSpace(c)
  }

  function Kept(c: char): string {
    if Ignored(c) then "" else [c]
  }

  function Significant(s: string): string {
    if s == "" then "" else Kept(s[0]) + Significant(s[1..])
  }

  /** One symbol into the 32-bit accumulator, whose high bits fall off as it shifts. */
  function Shift(acc: int, v: int): int {
    acc * 64 % U32 + v
  }

  function Byte(acc: int, nbits: int): Octet
    requires 0 <= nbits <= 6
  {
    (acc / (if nbits == 0 then 1 else if nbits == 2 then 4 else if nbits == 4 then 16 else 64) % 256) as Octet
  }

  function Prepend(b: Octet, rest: Option<seq<Octet>>): Option<seq<Octet>> {
    if rest.None? then None else Some([b] + rest.value)
  }

  /** The rest of the decoding loop, with `nbits` bits pending in the accumulator. */
  function DecodeFrom(s: string, acc: int, nbits: int): Option<seq<Octet>>
    requires 0 <= nbits <= 6 && nbits % 2 == 0
  {
    if s == "" then Some([])
    else
      var v := Value(s[0]);
      if v.None? then None
      else
        var acc' := Shift(acc, v.value);
        if nbits + 6 >= 8 then
          Prepend(Byte(acc', nbits - 2), DecodeFrom(s[1..], acc', nbits - 2))
        else DecodeFrom(s[1..], acc', nbits + 6)
  }

  function Decode(s: string): Option<seq<Octet>> {
    DecodeFrom(Significant(s), 0, 0)
  }

  // ---- the round trip ----

  lemma LetterTables(i: int)
    requires 0 <= i < 26
    ensures Upper[i] == ('A' as int + i) as char && Lower[i] == ('a' as int + i) as char
  {
    assert forall j :: 0 <= j < 26 ==> Upper[j] == ('A' as int + j) as char;
    assert forall j :: 0 <= j < 26 ==> Lower[j] == ('a' as int + j) as char;
  }

  lemma DigitTable(i: int)
    requires 0 <= i < 10
    ensures Digits[i] == ('0' as int + i) as char
  {
    assert forall j :: 0 <= j < 10 ==> Digits[j] == ('0' as int + j) as char;
  }

  lemma AlphabetParts(v: int)
    requires 0 <= v < 64
    ensures Symbol(v) == if v < 26 then Upper[v] else if v < 52 then Lower[v - 26]
                         else if v < 62 then Digits[v - 52] else if v == 62 then '+' else '/'
  {
    assert |Upper| == 26 && |Lower| == 26 && |Digits| == 10;
    assert |Upper + Lower| == 52 && |Upper + Lower + Digits| == 62;
  }

  lemma SymbolValue(v: int)
    requires 0 <= v < 64
    ensures Value(Symbol(v)) == Some(v) && !Ignored(Symbol(v))
  {
    hide Symbol;
    AlphabetParts(v);
    if v < 26 {
      LetterTables(v);
    } else if v < 52 {
      LetterTables(v - 26);
    } else if v < 62 {
      DigitTable(v - 52);
    }
  }

  lemma {:induction false} SignificantConcat(a: string, b: string)
    ensures Significant(a + b) == Significant(a) + Significant(b)
    decreases |a|
  {
    if a == "" {
      assert a + b == b;
    } else {
      assert (a + b)[1..] == a[1..] + b;
      SignificantConcat(a[1..], b);
    }
  }

  /** Shifting keeps the low 26 bits and drops the rest. */
  lemma ShiftIs(acc: int, v: int)
    requires 0 <= acc < U32 && 0 <= v < 64
    ensures Shift(acc, v) == 64 * (acc % 0x400_0000) + v && 0 <= Shift(acc, v) < U32
  {
    var q, r := acc / 0x400_0000, acc % 0x400_0000;
    assert acc * 64 == q * U32 + 64 * r;
  }

  /**
   * Only the low bits of the accumulator are ever read back: after each shift it is some
   * multiple of the bits that matter plus the symbols still pending.
   */
  lemma PendingBits(acc: int, v0: int, v1: int, v2: int, v3: int) returns (t1: int, t2: int, t3: int)
    requires 0 <= acc < U32 && 0 <= v0 < 64 && 0 <= v1 < 64 && 0 <= v2 < 64 && 0 <= v3 < 64
    ensures var a0 := Shift(acc, v0); var a1 := Shift(a0, v1); var a2 := Shift(a1, v2); var a3 := Shift(a2, v3);
      && 0 <= a0 < U32 && 0 <= a1 < U32 && 0 <= a2 < U32 && 0 <= a3 < U32
      && a1 == 4096 * t1 + (64 * v0 + v1)
      && a2 == 1024 * t2 + (64 * (v1 % 16) + v2)
      && a3 == 256 * t3 + (64 * (v2 % 4) + v3)
  {
    hide Shift;
    var a0 := Shift(acc, v0); var a1 := Shift(a0, v1); var a2 := Shift(a1, v2);
    ShiftIs(acc, v0); ShiftIs(a0, v1); ShiftIs(a1, v2); ShiftIs(a2, v3);
    t1 := acc % 0x400_0000 - 0x10_0000 * (a0 / 0x400_0000);
    assert a0 % 0x400_0000 == a0 - 0x400_0000 * (a0 / 0x400_0000);
    assert a1 % 0x400_0000 == a1 - 0x400_0000 * (a1 / 0x400_0000);
    assert a2 % 0x400_0000 == a2 - 0x400_0000 * (a2 / 0x400_0000);
    t2 := 256 * t1 + 4 * v0 - 0x40_0000 * (a1 / 0x400_0000) + v1 / 16;
    assert v1 == 16 * (v1 / 16) + v1 % 16;
    t3 := 256 * t2 + 16 * (v1 % 16) - 0x100_0000 * (a2 / 0x400_0000) + v2 / 4;
    assert v2 == 4 * (v2 / 4) + v2 % 4;
  }

  lemma TopByte(a: int, t: int, x: int)
    requires 0 <= a && a == 4096 * t + x && 0 <= x < 4096
    ensures a / 16 % 256 == x / 16
  {
    DivUnique(a, 16, 256 * t + x / 16, x % 16);
    DivUnique(a / 16, 256, t, x / 16);
  }

  lemma MiddleByte(a: int, t: int, x: int)
    requires 0 <= a && a == 1024 * t + x && 0 <= x < 1024
    ensures a / 4 % 256 == x / 4
  {
    DivUnique(a, 4, 256 * t + x / 4, x % 4);
    DivUnique(a / 4, 256, t, x / 4);
  }

  /** The octets that come out as symbols go in: pending bits 0, then 6, 4, 2 and 0 again. */
  lemma BytesOut(acc: int, v0: int, v1: int, v2: int, v3: int)
    requires 0 <= acc < U32 && 0 <= v0 < 64 && 0 <= v1 < 64 && 0 <= v2 < 64 && 0 <= v3 < 64
    ensures var a0 := Shift(acc, v0); var a1 := Shift(a0, v1); var a2 := Shift(a1, v2); var a3 := Shift(a2, v3);
      && 0 <= a0 < U32 && 0 <= a1 < U32 && 0 <= a2 < U32 && 0 <= a3 < U32
      && Byte(a1, 4) as int == (64 * v0 + v1) / 16
      && Byte(a2, 2) as int == (64 * (v1 % 16) + v2) / 4
      && Byte(a3, 0) as int == 64 * (v2 % 4) + v3
  {
    hide Shift;
    var t1, t2, t3 := PendingBits(acc, v0, v1, v2, v3);
    var a0 := Shift(acc, v0); var a1 := Shift(a0, v1); var a2 := Shift(a1, v2); var a3 := Shift(a2, v3);
    TopByte(a1, t1, 64 * v0 + v1);
    MiddleByte(a2, t2, 64 * (v1 % 16) + v2);
    DivUnique(a3, 256, t3, 64 * (v2 % 4) + v3);
  }

  /** The sextets of a group, and the octets those sextets stand for. */
  lemma Sextets(b0: int, b1: int, b2: int)
    requires 0 <= b0 < 256 && 0 <= b1 < 256 && 0 <= b2 < 256
    ensures var n := b0 * 65536 + b1 * 256 + b2;
      && n / 262144 % 64 == b0 / 4 && n / 4096 % 64 == b0 % 4 * 16 + b1 / 16
      && n / 64 % 64 == b1 % 16 * 4 + b2 / 64 && n % 64 == b2 % 64
  {
    var n := b0 * 65536 + b1 * 256 + b2;
    var h0, l0, h1, l1, h2, l2 := b0 / 4, b0 % 4, b1 / 16, b1 % 16, b2 / 64, b2 % 64;
    assert b0 == 4 * h0 + l0 && b1 == 16 * h1 + l1 && b2 == 64 * h2 + l2;
    DivUnique(n, 262144, h0, l0 * 65536 + b1 * 256 + b2);
    DivUnique(n, 4096, 16 * b0 + h1, l1 * 256 + b2);
    DivUnique(16 * b0 + h1, 64, h0, 16 * l0 + h1);
    DivUnique(n, 64, 1024 * b0 + 4 * b1 + h2, l2);
    DivUnique(1024 * b0 + 4 * b1 + h2, 64, 16 * b0 + h1, 4 * l1 + h2);
  }

  lemma OctetsBack(b0: int, b1: int, b2: int)
    requires 0 <= b0 < 256 && 0 <= b1 < 256 && 0 <= b2 < 256
    ensures var v0, v1, v2, v3 := b0 / 4, b0 % 4 * 16 + b1 / 16, b1 % 16 * 4 + b2 / 64, b2 % 64;
      && (64 * v0 + v1) / 16 == b0 && (64 * (v1 % 16) + v2) / 4 == b1 && 64 * (v2 % 4) + v3 == b2
  {
    var h1, h2 := b1 / 16, b2 / 64;
    DivUnique(64 * (b0 / 4) + (b0 % 4 * 16 + h1), 16, b0, h1);
    DivUnique(b0 % 4 * 16 + h1, 16, b0 % 4, h1);
    DivUnique(64 * h1 + (b1 % 16 * 4 + h2), 4, b1, h2);
    DivUnique(b1 % 16 * 4 + h2, 4, b1 % 16, h2);
  }

  lemma DecodeStep(v: int, rest: string, acc: int, nbits: int)
    requires 0 <= v < 64 && nbits in {0, 2, 4, 6}
    ensures DecodeFrom([Symbol(v)] + rest, acc, nbits) ==
      var acc' := Shift(acc, v);
      if nbits == 0 then DecodeFrom(rest, acc', 6) else Prepend(Byte(acc', nbits - 2), DecodeFrom(rest, acc', nbits - 2))
  {
    hide Symbol, Shift, Value, Byte;
    SymbolValue(v);
    assert ([Symbol(v)] + rest)[1..] == rest;
  }

  /** Four symbols on an empty accumulator are three octets, and leave it empty again. */
  lemma DecodeFour(v0: int, v1: int, v2: int, v3: int, rest: string, acc: int)
    requires 0 <= acc < U32 && 0 <= v0 < 64 && 0 <= v1 < 64 && 0 <= v2 < 64 && 0 <= v3 < 64
    ensures DecodeFrom([Symbol(v0), Symbol(v1), Symbol(v2), Symbol(v3)] + rest, acc, 0) ==
      var a1 := Shift(Shift(acc, v0), v1); var a2 := Shift(a1, v2); var a3 := Shift(a2, v3);
      Prepend(Byte(a1, 4), Prepend(Byte(a2, 2), Prepend(Byte(a3, 0), DecodeFrom(rest, a3, 0))))
  {
    hide Symbol, Shift, Byte, DecodeFrom;
    var s3 := [Symbol(v3)] + rest;
    var s2 := [Symbol(v2)] + s3;
    var s1 := [Symbol(v1)] + s2;
    assert [Symbol(v0), Symbol(v1), Symbol(v2), Symbol(v3)] + rest == [Symbol(v0)] + s1;
    var a0 := Shift(acc, v0); var a1 := Shift(a0, v1); var a2 := Shift(a1, v2);
    DecodeStep(v0, s1, acc, 0); DecodeStep(v1, s2, a0, 6); DecodeStep(v2, s3, a1, 4); DecodeStep(v3, rest, a2, 2);
  }

  lemma DecodeThree(v0: int, v1: int, v2: int, acc: int)
    requires 0 <= acc < U32 && 0 <= v0 < 64 && 0 <= v1 < 64 && 0 <= v2 < 64
    ensures DecodeFrom([Symbol(v0), Symbol(v1), Symbol(v2)], acc, 0) ==
      var a1 := Shift(Shift(acc, v0), v1); var a2 := Shift(a1, v2);
      Some([Byte(a1, 4), Byte(a2, 2)])
  {
    hide Symbol, Shift, Byte;
    var s2 := [Symbol(v2)] + [];
    var s1 := [Symbol(v1)] + s2;
    assert [Symbol(v0), Symbol(v1), Symbol(v2)] == [Symbol(v0)] + s1;
    var a0 := Shift(acc, v0); var a1 := Shift(a0, v1);
    DecodeStep(v0, s1, acc, 0); DecodeStep(v1, s2, a0, 6); DecodeStep(v2, [], a1, 4);
    var x, y := Byte(a1, 4), Byte(Shift(a1, v2), 2);
    assert [x] + ([y] + []) == [x, y];
  }

  lemma DecodeTwo(v0: int, v1: int, acc: int)
    requires 0 <= acc < U32 && 0 <= v0 < 64 && 0 <= v1 < 64
    ensures DecodeFrom([Symbol(v0), Symbol(v1)], acc, 0) == Some([Byte(Shift(Shift(acc, v0), v1), 4)])
  {
    hide Symbol, Shift, Byte;
    var s1 := [Symbol(v1)] + [];
    assert [Symbol(v0), Symbol(v1)] == [Symbol(v0)] + s1;
    DecodeStep(v0, s1, acc, 0); DecodeStep(v1, [], Shift(acc, v0), 6);
    var x := Byte(Shift(Shift(acc, v0), v1), 4);
    assert [x] + [] == [x];
  }

  function At(g: seq<Octet>, i: nat): int {
    if i < |g| then g[i] as int else 0
  }

  /** What is left of a group's characters once padding is dropped: one sextet more than it has octets. */
  lemma GroupSymbols(g: seq<Octet>)
    requires 1 <= |g| <= 3
    ensures var b0, b1, b2 := At(g, 0), At(g, 1), At(g, 2);
      var four := [Symbol(b0 / 4), Symbol(b0 % 4 * 16 + b1 / 16), Symbol(b1 % 16 * 4 + b2 / 64), Symbol(b2 % 64)];
      Significant(EncodeGroup(g)) == four[..|g| + 1]
  {
    hide Symbol, Kept, Significant;
    var b0, b1, b2 := At(g, 0), At(g, 1), At(g, 2);
    var v0, v1, v2, v3 := b0 / 4, b0 % 4 * 16 + b1 / 16, b1 % 16 * 4 + b2 / 64, b2 % 64;
    Sextets(b0, b1, b2);
    var e := EncodeGroup(g);
    assert e == [Symbol(v0), Symbol(v1), if |g| > 1 then Symbol(v2) else '=', if |g| > 2 then Symbol(v3) else '='];
    KeptSymbol(v0); KeptSymbol(v1); KeptSymbol(v2); KeptSymbol(v3);
    KeepOrDrop(e);
  }

  lemma KeptSymbol(v: int)
    requires 0 <= v < 64
    ensures Kept(Symbol(v)) == [Symbol(v)] && Kept('=') == ""
  {
    hide Symbol;
    SymbolValue(v);
  }

  lemma KeepOrDrop(e: string)
    requires |e| == 4
    ensures Significant(e) == Kept(e[0]) + Kept(e[1]) + Kept(e[2]) + Kept(e[3])
  {
    hide Kept;
    assert Significant(e[3..]) == Kept(e[3]);
    assert Significant(e[2..]) == Kept(e[2]) + Significant(e[2..][1..]) && e[2..][1..] == e[3..];
    assert Significant(e[1..]) == Kept(e[1]) + Significant(e[1..][1..]) && e[1..][1..] == e[2..];
  }

  /** Decoding a group in front of anything, on an accumulator with nothing pending. */
  lemma DecodeGroup(g: seq<Octet>, acc: int) returns (acc': int)
    requires |g| == 3 && 0 <= acc < U32
    ensures 0 <= acc' < U32
    ensures forall rest ::
              DecodeFrom(Significant(EncodeGroup(g)) + rest, acc, 0) ==
              Prepend(g[0], Prepend(g[1], Prepend(g[2], DecodeFrom(rest, acc', 0))))
  {
    hide Symbol, Significant, EncodeGroup, Shift, Byte, DecodeFrom, Prepend;
    var b0, b1, b2 := At(g, 0), At(g, 1), At(g, 2);
    var v0, v1, v2, v3 := b0 / 4, b0 % 4 * 16 + b1 / 16, b1 % 16 * 4 + b2 / 64, b2 % 64;
    GroupSymbols(g);
    assert Significant(EncodeGroup(g)) == [Symbol(v0), Symbol(v1), Symbol(v2), Symbol(v3)];
    BytesOut(acc, v0, v1, v2, v3);
    OctetsBack(b0, b1, b2);
    acc' := Shift(Shift(Shift(Shift(acc, v0), v1), v2), v3);
    forall rest {
      DecodeFour(v0, v1, v2, v3, rest, acc);
    }
  }

  /** The last, possibly short, group. */
  lemma DecodeLast(g: seq<Octet>, acc: int)
    requires 1 <= |g| <= 2 && 0 <= acc < U32
    ensures DecodeFrom(Significant(EncodeGroup(g)), acc, 0) == Some(g)
  {
    hide Symbol, Significant, EncodeGroup, Shift, Byte, DecodeFrom;
    var b0, b1 := At(g, 0), At(g, 1);
    var v0, v1, v2 := b0 / 4, b0 % 4 * 16 + b1 / 16, b1 % 16 * 4;
    GroupSymbols(g);
    BytesOut(acc, v0, v1, v2, 0);
    OctetsBack(b0, b1, 0);
    if |g| == 1 {
      assert Significant(EncodeGroup(g)) == [Symbol(v0), Symbol(v1)];
      DecodeTwo(v0, v1, acc);
      assert g == [g[0]];
    } else {
      assert Significant(EncodeGroup(g)) == [Symbol(v0), Symbol(v1), Symbol(v2)];
      DecodeThree(v0, v1, v2, acc);
      assert g == [g[0], g[1]];
    }
  }

  lemma {:induction false} DecodesFrom(d: seq<Octet>, acc: int)
    requires 0 <= acc < U32
    ensures DecodeFrom(Significant(Encode(d)), acc, 0) == Some(d)
    decreases |d|
  {
    hide EncodeGroup, DecodeFrom, Significant;
    if |d| >= 3 {
      var acc' := DecodeGroup(d[..3], acc);
      var rest := d[3..];
      DecodesFrom(rest, acc');
      SignificantConcat(EncodeGroup(d[..3]), Encode(rest));
      assert d == [d[0]] + ([d[1]] + ([d[2]] + rest));
    } else if d != [] {
      DecodeLast(d, acc);
      assert d[..|d|] == d && EncodeGroup(d) + "" == EncodeGroup(d);
    } else {
      DecodeNothing(acc);
    }
  }

  lemma DecodeNothing(acc: int)
    ensures DecodeFrom(Significant(""), acc, 0) == Some([])
  {
  }

  /** Decoding an encoding gives the octets back, whatever they are. */
  lemma RoundTrip(d: seq<Octet>)
    ensures Decode(Encode(d)) == Some(d)
  {
    DecodesFrom(d, 0);
  }

  predicate Encoded(s: string) {
    forall i :: 0 <= i < |s| ==> Value(s[i]).Some? || s[i] == '='
  }

  lemma GroupEncoded(g: seq<Octet>)
    requires 1 <= |g| <= 3
    ensures Encoded(EncodeGroup(g))
  {
    hide Symbol, Value;
    var b0, b1, b2 := At(g, 0), At(g, 1), At(g, 2);
    var n := b0 * 65536 + b1 * 256 + b2;
    SymbolValue(n / 262144 % 64); SymbolValue(n / 4096 % 64); SymbolValue(n / 64 % 64); SymbolValue(n % 64);
  }

  /** Encoded text is made of alphabet symbols and padding alone. */
  lemma {:induction false} EncodeEncoded(d: seq<Octet>)
    ensures Encoded(Encode(d)) && (d != [] ==> Encode(d) != "")
    decreases |d|
  {
    hide EncodeGroup, Value;
    if d != [] {
      var k := Min(3, |d|);
      GroupEncoded(d[..k]);
      EncodeEncoded(d[k..]);
    }
  }

  // ---- what is accepted ----

  lemma ValueSymbol(c: char)
    requires Value(c).Some?
    ensures 0 <= Value(c).value < 64 && Symbol(Value(c).value) == c
  {
    hide Alphabet, Upper, Lower, Digits;
    var v := Value(c).value;
    AlphabetParts(v);
    if v < 26 {
      LetterTables(v);
    } else if v < 52 {
      LetterTables(v - 26);
    } else if v < 62 {
      DigitTable(v - 52);
    }
  }

  lemma ValueIff(c: char)
    ensures Value(c).Some? <==> c in Alphabet
  {
    hide Alphabet, Value;
    AlphabetLength();
    if Value(c).Some? {
      ValueSymbol(c);
    }
    if c in Alphabet {
      var v :| 0 <= v < |Alphabet| && Alphabet[v] == c;
      SymbolValue(v);
    }
  }

  lemma AlphabetLength()
    ensures |Alphabet| == 64
  {
    assert |Upper| == 26 && |Lower| == 26 && |Digits| == 10;
  }

  ghost predicate AllValues(s: string) {
    forall i :: 0 <= i < |s| ==> Value(s[i]).Some?
  }

  lemma {:induction false} DecodeFromIff(s: string, acc: int, nbits: int)
    requires 0 <= nbits <= 6 && nbits % 2 == 0
    ensures var r := DecodeFrom(s, acc, nbits); (r.Some? <==> AllValues(s)) && (r.Some? ==> |r.value| == (nbits + 6 * |s|) / 8)
    decreases |s|
  {
    hide Value, Shift, Byte;
    if s != "" {
      assert s == [s[0]] + s[1..];
      assert AllValues(s) <==> Value(s[0]).Some? && AllValues(s[1..]);
      if Value(s[0]).Some? {
        var acc' := Shift(acc, Value(s[0]).value);
        if nbits + 6 >= 8 {
          DecodeFromIff(s[1..], acc', nbits - 2);
        } else {
          DecodeFromIff(s[1..], acc', nbits + 6);
        }
      }
    }
  }

  lemma {:induction false} SignificantIs(s: string)
    ensures forall c :: c in Significant(s) <==> c in s && !Ignored(c)
    decreases |s|
  {
    hide Ignored;
    if s != "" {
      SignificantIs(s[1..]);
      assert s == [s[0]] + s[1..];
    }
  }

  /** A text decodes exactly when it holds nothing but alphabet symbols, padding and white space, to six bits a symbol. */
  lemma DecodesIff(s: string)
    ensures Decode(s).Some? <==> forall c :: c in s ==> c in Alphabet || c == '=' || AsciiSpace(c)
    ensures Decode(s).Some? ==> |Decode(s).value| == 6 * |Significant(s)| / 8
  {
    hide Value, Alphabet, Significant, DecodeFrom;
    var t := Significant(s);
    SignificantIs(s);
    DecodeFromIff(t, 0, 0);
    forall c ensures Value(c).Some? <==> c in Alphabet {
      ValueIff(c);
    }
    if AllValues(t) {
      forall c | c in s && !Ignored(c) ensures c in Alphabet {
        assert c in t;
      }
    } else {
      var i :| 0 <= i < |t| && Value(t[i]).None?;
      assert t[i] in s && !Ignored(t[i]) && t[i] !in Alphabet;
    }
  }

  // ---- the loops ----

  method EncodeLoop(data: seq<Octet>) returns (out: string)
    ensures out == Encode(data)
  {
    hide EncodeGroup;
    out := "";
    var i := 0;
    assert data[0..] == data;
    while i < |data|
      invariant 0 <= i <= |data|
      invariant out + Encode(data[i..]) == Encode(data)
    {
      var k := Min(3, |data| - i);
      var chunk := data[i..i + k];
      assert data[i..][..k] == chunk && data[i..][k..] == data[i + k..];
      assert out + (EncodeGroup(chunk) + Encode(data[i + k..])) == out + EncodeGroup(chunk) + Encode(data[i + k..]);
      out := out + EncodeGroup(chunk);
      i := i + k;
    }
  }

  method DecodeLoop(s: string) returns (out: Option<seq<Octet>>)
    ensures out == Decode(s)
  {
    hide Shift, Byte, Value;
    var bytes := Significant(s);
    var acc, nbits := 0, 0;
    var octets: seq<Octet> := [];
    var i := 0;
    assert bytes[0..] == bytes;
    AfterNothing(DecodeFrom(bytes, 0, 0));
    while i < |bytes|
      invariant 0 <= i <= |bytes| && 0 <= nbits <= 6 && nbits % 2 == 0
      invariant Decode(s) == After(octets, DecodeFrom(bytes[i..], acc, nbits))
    {
      var v := Value(bytes[i]);
      assert bytes[i..][1..] == bytes[i + 1..];
      if v.None? {
        return None;
      }
      acc := Shift(acc, v.value);
      nbits := nbits + 6;
      if nbits >= 8 {
        nbits := nbits - 8;
        AfterPrepend(octets, Byte(acc, nbits), DecodeFrom(bytes[i + 1..], acc, nbits));
        octets := octets + [Byte(acc, nbits)];
      }
      i := i + 1;
    }
    assert octets + [] == octets;
    return Some(octets);
  }

  function After(done: seq<Octet>, rest: Option<seq<Octet>>): Option<seq<Octet>> {
    if rest.None? then None else Some(done + rest.value)
  }

  lemma AfterNothing(rest: Option<seq<Octet>>)
    ensures After([], rest) == rest
  {
    if rest.Some? {
      assert [] + rest.value == rest.value;
    }
  }

  lemma AfterPrepend(done: seq<Octet>, b: Octet, rest: Option<seq<Octet>>)
    ensures After(done, Prepend(b, rest)) == After(done + [b], rest)
  {
    if rest.Some? {
      assert done + ([b] + rest.value) == done + [b] + rest.value;
    }
  }
}
