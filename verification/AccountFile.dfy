/** The account file: one tab-separated line per account, and the reader that takes it apart. */
module AccountFile {
  import opened Basics
  import opened Text
  import opened Base64

  datatype Account = Account(name: string, salt: seq<Octet>, hash: seq<Octet>, iters: nat, certs: seq<string>)

  // ---- fingerprints ----

  predicate LowerHex(c: char) {
    '0' <= c <= '9' || 'a' <= c <= 'f'
  }

  predicate UpperHex(c: char) {
    'A' <= c <= 'F'
  }

  /** The stored form of a fingerprint: 32 octets in lower-case hexadecimal. */
  predicate Fingerprint(s: string) {
    |s| == 64 && forall i :: 0 <= i < |s| ==> LowerHex(s[i])
  }

  function Compact(raw: string): string {
    if raw == "" then ""
    else (if raw[0] == ':' || WhiteSpace(raw[0]) then "" else [raw[0]]) + Compact(raw[1..])
  }

  function Lowered(s: string): (r: string)
    ensures |r| == |s| && forall i :: 0 <= i < |s| ==> r[i] == if UpperHex(s[i]) then (s[i] as int + 32) as char else s[i]
  {
    seq(|s|, i requires 0 <= i < |s| => if UpperHex(s[i]) then (s[i] as int + 32) as char else s[i])
  }

  /** Accepts the stored and the colon-separated form; anything but 32 octets of hexadecimal is refused. */
  function Normalize(raw: string): (r: Option<string>)
    ensures r.Some? ==> Fingerprint(r.value)
  {
    var hex := Compact(raw);
    if |hex| == 64 && forall i :: 0 <= i < |hex| ==> LowerHex(hex[i]) || UpperHex(hex[i]) then Some(Lowered(hex)) else None
  }

  lemma {:induction false} CompactSolid(s: string)
    requires forall i :: 0 <= i < |s| ==> LowerHex(s[i])
    ensures Compact(s) == s
    decreases |s|
  {
    if s != "" {
      assert LowerHex(s[0]);
      CompactSolid(s[1..]);
      assert s == [s[0]] + s[1..];
    }
  }

  lemma NormalizeStored(fp: string)
    requires Fingerprint(fp)
    ensures Normalize(fp) == Some(fp)
  {
    CompactSolid(fp);
    assert Lowered(fp) == fp;
  }

  /** A way to write a fingerprint: in either case, with colons and white space anywhere. */
  predicate Spells(raw: string, fp: string) {
    if raw == "" then fp == ""
    else if raw[0] == ':' || WhiteSpace(raw[0]) then Spells(raw[1..], fp)
    else fp != "" && (raw[0] == fp[0] || (UpperHex(raw[0]) && raw[0] as int + 32 == fp[0] as int)) && Spells(raw[1..], fp[1..])
  }

  lemma {:induction false} SpellsIff(raw: string, fp: string)
    requires forall i :: 0 <= i < |fp| ==> LowerHex(fp[i])
    ensures Spells(raw, fp) <==>
      (forall i :: 0 <= i < |Compact(raw)| ==> LowerHex(Compact(raw)[i]) || UpperHex(Compact(raw)[i])) && Lowered(Compact(raw)) == fp
    decreases |raw|
  {
    if raw == "" {
      assert Lowered("") == "";
    } else if raw[0] == ':' || WhiteSpace(raw[0]) {
      SpellsIff(raw[1..], fp);
      assert Compact(raw) == Compact(raw[1..]);
    } else {
      var rest := Compact(raw[1..]);
      assert Compact(raw) == [raw[0]] + rest;
      LoweredSplit(raw[0], rest);
      if fp != "" {
        SpellsIff(raw[1..], fp[1..]);
        assert fp == [fp[0]] + fp[1..];
        assert LowerHex(fp[0]);
      }
    }
  }

  lemma LoweredSplit(c: char, rest: string)
    ensures Lowered([c] + rest) == [if UpperHex(c) then (c as int + 32) as char else c] + Lowered(rest)
  {
  }

  /** A fingerprint is read from exactly the texts that spell it. */
  lemma NormalizesIff(raw: string, fp: string)
    requires Fingerprint(fp)
    ensures Normalize(raw) == Some(fp) <==> Spells(raw, fp)
  {
    hide Compact, Spells;
    SpellsIff(raw, fp);
  }

  // ---- one line ----

  function Fields(a: Account): seq<string> {
    [a.name, Decimal(a.iters), Encode(a.salt), Encode(a.hash)] + if a.certs == [] then [] else [Join(a.certs, ',')]
  }

  function RenderLine(a: Account): string {
    Join(Fields(a), '\t')
  }

  /** Valid fingerprints of a comma-separated field, first occurrence of each, after those in `done`. */
  function ParseCerts(parts: seq<string>, done: seq<string>): seq<string> {
    if parts == [] then done
    else
      var fp := Normalize(parts[0]);
      ParseCerts(parts[1..], if fp.Some? && fp.value !in done then done + [fp.value] else done)
  }

  function ParseFields(f: seq<string>): (r: Option<Account>)
    ensures r.Some? ==> |f| >= 4 && r.value.name == f[0]
  {
    if |f| < 4 then None
    else
      var iters, salt, hash := ParseNumber(f[1], U32), Decode(f[2]), Decode(f[3]);
      if iters.None? || salt.None? || hash.None? then None
      else if f[0] == "" || salt.value == [] || hash.value == [] then None
      else Some(Account(f[0], salt.value, hash.value, iters.value, if |f| > 4 then ParseCerts(Split(f[4], ','), []) else []))
  }

  function ParseLine(line: string): Option<Account> {
    ParseFields(Split(line, '\t'))
  }

  /** What every account in a store looks like. */
  ghost predicate WellFormed(a: Account) {
    && a.name != "" && a.salt != [] && a.hash != [] && a.iters < U32
    && NoRepeats(a.certs) && forall i :: 0 <= i < |a.certs| ==> Fingerprint(a.certs[i])
  }

  lemma {:induction false} ParseCertsStored(certs: seq<string>, done: seq<string>)
    requires NoRepeats(done + certs) && forall i :: 0 <= i < |certs| ==> Fingerprint(certs[i])
    ensures ParseCerts(certs, done) == done + certs
    decreases |certs|
  {
    hide Normalize, Fingerprint;
    if certs == [] {
      assert done + certs == done;
    } else {
      NormalizeStored(certs[0]);
      var all := done + certs;
      assert certs[0] == all[|done|] && forall j :: 0 <= j < |done| ==> done[j] == all[j];
      assert done + certs == done + [certs[0]] + certs[1..];
      ParseCertsStored(certs[1..], done + [certs[0]]);
    }
  }

  lemma FingerprintPlain(fp: string)
    requires Fingerprint(fp)
    ensures '\t' !in fp && '\n' !in fp && ',' !in fp && fp[|fp| - 1] != '\r'
  {
    assert LowerHex(fp[|fp| - 1]);
  }

  lemma EncodedPlain(d: seq<Octet>)
    requires d != []
    ensures var s := Encode(d); s != "" && '\t' !in s && '\n' !in s && s[|s| - 1] != '\r'
  {
    hide Encode;
    EncodeEncoded(d);
    var s := Encode(d);
    assert Encoded(s);
  }

  lemma DecimalPlain(n: nat)
    ensures '\t' !in Decimal(n) && '\n' !in Decimal(n)
  {
    assert forall i :: 0 <= i < |Decimal(n)| ==> Digit(Decimal(n)[i]);
  }

  lemma {:induction false} JoinPlain(parts: seq<string>, sep: char, c: char)
    requires c != sep && Without(parts, c)
    ensures c !in Join(parts, sep)
    decreases |parts|
  {
    if |parts| > 1 {
      JoinPlain(parts[1..], sep, c);
    }
  }

  lemma {:induction false} JoinLast(parts: seq<string>, sep: char)
    requires |parts| > 0 && parts[|parts| - 1] != ""
    ensures var s := Join(parts, sep); var last := parts[|parts| - 1];
      s != "" && s[|s| - 1] == last[|last| - 1]
    decreases |parts|
  {
    if |parts| > 1 {
      JoinLast(parts[1..], sep);
    }
  }

  lemma CertFieldPlain(certs: seq<string>)
    requires certs != [] && forall i :: 0 <= i < |certs| ==> Fingerprint(certs[i])
    ensures var s := Join(certs, ','); s != "" && '\t' !in s && '\n' !in s && s[|s| - 1] != '\r'
    ensures Without(certs, ',')
  {
    forall i | 0 <= i < |certs| ensures '\t' !in certs[i] && '\n' !in certs[i] && ',' !in certs[i] {
      FingerprintPlain(certs[i]);
    }
    JoinPlain(certs, ',', '\t');
    JoinPlain(certs, ',', '\n');
    FingerprintPlain(certs[|certs| - 1]);
    JoinLast(certs, ',');
  }

  lemma FieldsPlain(a: Account)
    requires WellFormed(a)
    ensures var f := Fields(a);
      && Without(f[1..], '\t') && Without(f[1..], '\n')
      && var last := f[|f| - 1]; last != "" && last[|last| - 1] != '\r'
  {
    hide Encode, Decimal, Join;
    EncodedPlain(a.salt);
    EncodedPlain(a.hash);
    DecimalPlain(a.iters);
    if a.certs != [] {
      CertFieldPlain(a.certs);
    }
  }

  lemma ParseOwnFields(a: Account)
    requires WellFormed(a)
    ensures ParseFields(Fields(a)) == Some(a)
  {
    hide Encode, Decode, Decimal, ParseNumber, Join, Split, Fingerprint;
    ParseDecimal(a.iters, U32);
    RoundTrip(a.salt);
    RoundTrip(a.hash);
    if a.certs != [] {
      CertFieldPlain(a.certs);
      SplitJoin(a.certs, ',');
      assert [] + a.certs == a.certs;
      ParseCertsStored(a.certs, []);
    }
  }

  /** A written line reads back as the same account exactly when the name holds no tab. */
  lemma LineRoundTrip(a: Account)
    requires WellFormed(a)
    ensures ParseLine(RenderLine(a)) == Some(a) <==> '\t' !in a.name
  {
    hide Fields, ParseFields, WellFormed;
    var f := Fields(a);
    FieldsPlain(a);
    FieldsShape(a);
    if '\t' !in a.name {
      assert f == [a.name] + f[1..];
      SplitJoin(f, '\t');
      ParseOwnFields(a);
    } else {
      CutName(a.name, Join(f[1..], '\t'));
    }
  }

  lemma FieldsShape(a: Account)
    ensures |Fields(a)| >= 4 && Fields(a)[0] == a.name
  {
  }

  lemma CutName(name: string, rest: string)
    requires '\t' in name
    ensures Split(name + ['\t'] + rest, '\t')[0] != name
  {
    var i := IndexOf(name, '\t');
    var tail := name[i + 1..] + ['\t'] + rest;
    assert name + ['\t'] + rest == name[..i] + ['\t'] + tail;
    SplitAt(name[..i], '\t', tail);
  }

  // ---- the whole file ----

  function StripCr(s: string): string {
    if s != "" && s[|s| - 1] == '\r' then s[..|s| - 1] else s
  }

  /** Lines of a text, each without its terminator. */
  function Lines(s: string): seq<string>
    decreases |s|
  {
    if s == "" then []
    else
      var i := IndexOf(s, '\n');
      if i == |s| then [s] else [StripCr(s[..i])] + Lines(s[i + 1..])
  }

  function RenderFile(accounts: seq<Account>): string {
    if accounts == [] then "" else RenderLine(accounts[0]) + "\n" + RenderFile(accounts[1..])
  }

  /** The accounts of the lines that parse, in order. */
  function ParseLines(lines: seq<string>): seq<Account> {
    if lines == [] then []
    else
      var a := ParseLine(lines[0]);
      (if a.Some? then [a.value] else []) + ParseLines(lines[1..])
  }

  function ReadFile(text: string): seq<Account> {
    ParseLines(Lines(text))
  }

  /** Nothing in the name that the file format uses as a separator. */
  predicate PlainName(name: string) {
    '\t' !in name && '\n' !in name
  }

  lemma LinePlain(a: Account)
    requires WellFormed(a) && PlainName(a.name)
    ensures var s := RenderLine(a); '\n' !in s && StripCr(s) == s
  {
    hide Fields, WellFormed;
    var f := Fields(a);
    FieldsPlain(a);
    FieldsShape(a);
    assert f == [a.name] + f[1..];
    JoinPlain(f, '\t', '\n');
    JoinLast(f, '\t');
  }

  lemma {:induction false} FileRoundTrip(accounts: seq<Account>)
    requires forall i :: 0 <= i < |accounts| ==> WellFormed(accounts[i]) && PlainName(accounts[i].name)
    ensures ReadFile(RenderFile(accounts)) == accounts
    decreases |accounts|
  {
    hide WellFormed, RenderLine, ParseLine, StripCr;
    if accounts != [] {
      var a, rest := accounts[0], RenderFile(accounts[1..]);
      assert WellFormed(a) && PlainName(a.name);
      FileRoundTrip(accounts[1..]);
      LinePlain(a);
      LineRoundTrip(a);
      var line := RenderLine(a);
      IndexOfAt(line, '\n', rest);
      var s := line + "\n" + rest;
      assert s[..|line|] == line && s[|line| + 1..] == rest;
      assert accounts == [a] + accounts[1..];
    }
  }
}
