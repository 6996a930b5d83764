/** Splitting, joining and numbers in text: the string vocabulary the parsers and printers share. */
module Text {
  import opened Basics

  predicate AsciiSpace(c: char) {
    c == ' ' || c == '\t' || c == '\n' || c == '\r' || c as int == 12
  }

  /** White space as Unicode defines it. */
  predicate WhiteSpace(c: char) {
    var n := c as int;
    || 9 <= n <= 13 || n == 32 || n == 0x85 || n == 0xA0 || n == 0x1680 || 0x2000 <= n <= 0x200A
    || n == 0x2028 || n == 0x2029 || n == 0x202F || n == 0x205F || n == 0x3000
  }

  /** The position of the first `c`, or the length when there is none. */
  function IndexOf(s: string, c: char): (i: nat)
    ensures i <= |s| && c !in s[..i]
    ensures i < |s| ==> s[i] == c
    ensures i == |s| <==> c !in s
  {
    if s == "" || s[0] == c then 0
    else
      var i := IndexOf(s[1..], c);
      assert s[..i + 1] == [s[0]] + s[1..][..i];
      assert s == [s[0]] + s[1..];
      i + 1
  }

  lemma {:induction false} IndexOfAt(a: string, c: char, b: string)
    requires c !in a
    ensures IndexOf(a + [c] + b, c) == |a|
    decreases |a|
  {
    if a != "" {
      assert (a + [c] + b)[1..] == a[1..] + [c] + b;
      IndexOfAt(a[1..], c, b);
    }
  }

  /** The position of the first ASCII white space, or the length when there is none. */
  function FirstSpace(s: string): (i: nat)
    ensures i <= |s| && forall k :: 0 <= k < i ==> !AsciiSpace(s[k])
    ensures i < |s| ==> AsciiSpace(s[i])
  {
    if s == "" || AsciiSpace(s[0]) then 0 else FirstSpace(s[1..]) + 1
  }

  /** Free of ASCII white space. */
  predicate Solid(s: string) {
    forall i :: 0 <= i < |s| ==> !AsciiSpace(s[i])
  }

  lemma {:induction false} FirstSpaceAt(a: string, b: string)
    requires Solid(a) && (b == "" || AsciiSpace(b[0]))
    ensures FirstSpace(a + b) == |a|
    decreases |a|
  {
    if a != "" {
      assert (a + b)[1..] == a[1..] + b;
      FirstSpaceAt(a[1..], b);
    }
  }

  /** The pieces between separators; always at least one. */
  function Split(s: string, c: char): (parts: seq<string>)
    ensures |parts| > 0
    decreases |s|
  {
    var i := IndexOf(s, c);
    if i == |s| then [s] else [s[..i]] + Split(s[i + 1..], c)
  }

  function Join(parts: seq<string>, c: char): string {
    if parts == [] then "" else if |parts| == 1 then parts[0] else parts[0] + [c] + Join(parts[1..], c)
  }

  ghost predicate Without(parts: seq<string>, c: char) {
    forall i :: 0 <= i < |parts| ==> c !in parts[i]
  }

  lemma SplitAt(a: string, c: char, b: string)
    requires c !in a
    ensures Split(a + [c] + b, c) == [a] + Split(b, c)
  {
    IndexOfAt(a, c, b);
    var s := a + [c] + b;
    assert s[..|a|] == a && s[|a| + 1..] == b;
  }

  lemma {:induction false} SplitJoin(parts: seq<string>, c: char)
    requires |parts| > 0 && Without(parts, c)
    ensures Split(Join(parts, c), c) == parts
    decreases |parts|
  {
    if |parts| == 1 {
      assert parts == [parts[0]];
    } else {
      SplitJoin(parts[1..], c);
      SplitAt(parts[0], c, Join(parts[1..], c));
      assert parts == [parts[0]] + parts[1..];
    }
  }

  function Concat(parts: seq<string>): string {
    if parts == [] then "" else parts[0] + Concat(parts[1..])
  }

  lemma {:induction false} ConcatSnoc(parts: seq<string>, last: string)
    ensures Concat(parts + [last]) == Concat(parts) + last
    decreases |parts|
  {
    if parts == [] {
      assert [last] == [] + [last];
      assert Concat([last]) == last + Concat([]);
    } else {
      assert (parts + [last])[1..] == parts[1..] + [last];
      ConcatSnoc(parts[1..], last);
    }
  }

  // ---- the length in bytes ----

  function CharBytes(c: char): nat {
    var n := c as int;
    if n < 0x80 then 1 else if n < 0x800 then 2 else if n < 0x1_0000 then 3 else 4
  }

  /** Length of the text in UTF-8. */
  function Bytes(s: string): nat {
    if s == "" then 0 else CharBytes(s[0]) + Bytes(s[1..])
  }

  lemma {:induction false} BytesAtMost(s: string)
    ensures Bytes(s) <= 4 * |s|
    decreases |s|
  {
    if s != "" {
      BytesAtMost(s[1..]);
    }
  }

  // ---- decimal numbers ----

  function Decimal(n: nat): (s: string)
    ensures |s| > 0 && forall i :: 0 <= i < |s| ==> Digit(s[i])
  {
    var last := ['0' + (n % 10) as char];
    if n < 10 then last else Decimal(n / 10) + last
  }

  function NumberOf(s: string): nat
    requires forall i :: 0 <= i < |s| ==> Digit(s[i])
  {
    if s == "" then 0
    else
      assert Digit(s[|s| - 1]);
      NumberOf(s[..|s| - 1]) * 10 + (s[|s| - 1] as int - '0' as int)
  }

  /** An unsigned decimal below `limit`, with an optional leading plus. */
  function ParseNumber(s: string, limit: nat): Option<nat> {
    var d := if |s| > 0 && s[0] == '+' then s[1..] else s;
    if d != "" && (forall i :: 0 <= i < |d| ==> Digit(d[i])) && NumberOf(d) < limit then Some(NumberOf(d)) else None
  }

  lemma {:induction false} NumberOfDecimal(n: nat)
    ensures NumberOf(Decimal(n)) == n
    decreases n
  {
    var s := Decimal(n);
    if n < 10 {
      assert s[..0] == "";
    } else {
      NumberOfDecimal(n / 10);
      assert s[..|s| - 1] == Decimal(n / 10);
    }
  }

  lemma ParseDecimal(n: nat, limit: nat)
    requires n < limit
    ensures ParseNumber(Decimal(n), limit) == Some(n)
  {
    NumberOfDecimal(n);
    assert Digit(Decimal(n)[0]);
  }
}
