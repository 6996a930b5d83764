/** IRCv3 message tags: escaping of values, and reading a tag list. */
module Tags {
  import opened Basics
  import opened Text

  function EscapeChar(c: char): string {
    if c == ';' then "\\:"
    else if c == ' ' then "\\s"
    else if c == '\\' then "\\\\"
    else if c == '\r' then "\\r"
    else if c == '\n' then "\\n"
    else [c]
  }

  function Escape(s: string): string {
    if s == "" then "" else EscapeChar(s[0]) + Escape(s[1..])
  }

  /** The character an escape stands for; unknown escapes keep the character. */
  function Unescaped(c: char): char {
    if c == ':' then ';' else if c == 's' then ' ' else if c == 'r' then '\r' else if c == 'n' then '\n' else c
  }

  function Unescape(s: string): string {
    if s == "" then ""
    else if s[0] != '\\' then [s[0]] + Unescape(s[1..])
    else if |s| == 1 then "\\"
    else [Unescaped(s[1])] + Unescape(s[2..])
  }

  lemma UnescapeNext(c: char, rest: string)
    ensures Unescape(EscapeChar(c) + rest) == [c] + Unescape(rest)
  {
    var s := EscapeChar(c) + rest;
    if |EscapeChar(c)| == 1 {
      assert s[1..] == rest;
    } else {
      assert s[2..] == rest;
    }
  }

  /** Unescaping gives back every value that was escaped. */
  lemma {:induction false} EscapeRoundTrip(s: string)
    ensures Unescape(Escape(s)) == s
    decreases |s|
  {
    if s != "" {
      EscapeRoundTrip(s[1..]);
      UnescapeNext(s[0], Escape(s[1..]));
      assert s == [s[0]] + s[1..];
    }
  }

  /** The five escapes of the message-tags specification: the letter after the backslash, and what it stands for. */
  const Codes: map<char, char> := map[':' := ';', 's' := ' ', '\\' := '\\', 'r' := '\r', 'n' := '\n']

  /** The five characters that have a code are written as it, every other as itself. */
  lemma EscapesAreCodes(c: char)
    ensures c in Codes ==> EscapeChar(Codes[c]) == ['\\', c]
    ensures c !in Codes.Values ==> EscapeChar(c) == [c]
  {
    if c !in Codes.Values {
      assert Codes[':'] == ';' && Codes['s'] == ' ' && Codes['\\'] == '\\' && Codes['r'] == '\r' && Codes['n'] == '\n';
    }
  }

  /** The specification's reading: codes are replaced, other escapes keep the character, and a lone backslash at the end is dropped. */
  function SpecUnescape(s: string): string {
    if s == "" then ""
    else if s[0] != '\\' then [s[0]] + SpecUnescape(s[1..])
    else if |s| == 1 then ""
    else [if s[1] in Codes then Codes[s[1]] else s[1]] + SpecUnescape(s[2..])
  }

  /** Taking escapes from the left, the text ends in a lone backslash. */
  predicate Dangling(s: string) {
    if s == "" then false
    else if s[0] != '\\' then Dangling(s[1..])
    else |s| == 1 || Dangling(s[2..])
  }

  lemma {:induction false} DanglingKept(s: string)
    ensures Unescape(s) == SpecUnescape(s) + (if Dangling(s) then "\\" else "")
    decreases |s|
  {
    if s != "" {
      if s[0] != '\\' {
        DanglingKept(s[1..]);
      } else if |s| > 1 {
        DanglingKept(s[2..]);
      }
    }
  }

  /** The code reads a value as the specification does exactly when it does not end in a lone backslash. */
  lemma UnescapeIsSpecIff(s: string)
    ensures Unescape(s) == SpecUnescape(s) <==> !Dangling(s)
  {
    DanglingKept(s);
    assert |SpecUnescape(s) + "\\"| == |SpecUnescape(s)| + 1;
  }

  /** The shortest value on which they differ. */
  lemma LoneBackslash()
    ensures Unescape("\\") == "\\" && SpecUnescape("\\") == ""
  {
  }

  lemma DanglingNext(c: char, rest: string)
    ensures Dangling(EscapeChar(c) + rest) == Dangling(rest)
  {
    var s := EscapeChar(c) + rest;
    if |EscapeChar(c)| == 1 {
      assert s[1..] == rest;
    } else {
      assert s[2..] == rest;
    }
  }

  /** Nothing escaped here ends that way, so both readings give it back. */
  lemma {:induction false} EscapeNeverDangles(s: string)
    ensures !Dangling(Escape(s)) && SpecUnescape(Escape(s)) == s
    decreases |s|
  {
    if s != "" {
      EscapeNeverDangles(s[1..]);
      DanglingNext(s[0], Escape(s[1..]));
    }
    UnescapeIsSpecIff(Escape(s));
    EscapeRoundTrip(s);
  }

  /** What would end a tag, the tag list or the line never survives escaping. */
  predicate TagSafe(s: string) {
    ';' !in s && ' ' !in s && '\r' !in s && '\n' !in s
  }

  lemma {:induction false} EscapeSafe(s: string)
    ensures TagSafe(Escape(s))
    decreases |s|
  {
    if s != "" {
      EscapeSafe(s[1..]);
    }
  }

  // ---- tag lists ----

  type Tag = (string, Option<string>)

  function ParseTag(t: string): Tag {
    var i := IndexOf(t, '=');
    if i == |t| then (t, None) else (t[..i], Some(Unescape(t[i + 1..])))
  }

  /** Empty entries are skipped. */
  function ParseEach(parts: seq<string>): seq<Tag> {
    if parts == [] then [] else (if parts[0] == "" then [] else [ParseTag(parts[0])]) + ParseEach(parts[1..])
  }

  function ParseTags(raw: string): seq<Tag> {
    ParseEach(Split(raw, ';'))
  }

  lemma ParseOne(t: string)
    requires t != ""
    ensures ParseEach([t]) == [ParseTag(t)]
  {
    assert ParseEach([t]) == [ParseTag(t)] + ParseEach([t][1..]);
  }

  /** A tag with an escaped value in front of a list reads as that tag, then the list. */
  lemma FirstTag(key: string, value: string, rest: string)
    requires key != "" && ';' !in key && '=' !in key
    ensures ParseTags(key + "=" + Escape(value) + ";" + rest) == [(key, Some(value))] + ParseTags(rest)
    ensures ParseTags(key + "=" + Escape(value)) == [(key, Some(value))]
  {
    hide Split, Escape, Unescape;
    var t := key + "=" + Escape(value);
    EscapeSafe(value);
    EscapeRoundTrip(value);
    IndexOfAt(key, '=', Escape(value));
    assert t[..|key|] == key && t[|key| + 1..] == Escape(value);
    assert ParseTag(t) == (key, Some(value));
    SplitAt(t, ';', rest);
    SplitJoin([t], ';');
    assert Join([t], ';') == t;
    var more := Split(rest, ';');
    assert ([t] + more)[1..] == more;
    assert ';' !in t && Split(t, ';') == [t];
    ParseOne(t);
  }

  // ---- the loops ----

  method EscapeLoop(s: string) returns (out: string)
    ensures out == Escape(s)
  {
    out := "";
    var i := 0;
    assert s[0..] == s;
    while i < |s|
      invariant 0 <= i <= |s|
      invariant out + Escape(s[i..]) == Escape(s)
    {
      assert s[i..][1..] == s[i + 1..];
      assert out + (EscapeChar(s[i]) + Escape(s[i + 1..])) == out + EscapeChar(s[i]) + Escape(s[i + 1..]);
      out := out + EscapeChar(s[i]);
      i := i + 1;
    }
  }

  method UnescapeLoop(s: string) returns (out: string)
    ensures out == Unescape(s)
  {
    out := "";
    var i := 0;
    assert s[0..] == s;
    while i < |s|
      invariant 0 <= i <= |s|
      invariant out + Unescape(s[i..]) == Unescape(s)
    {
      var c := s[i];
      assert s[i..][1..] == s[i + 1..];
      i := i + 1;
      if c != '\\' {
        assert out + ([c] + Unescape(s[i..])) == out + [c] + Unescape(s[i..]);
        out := out + [c];
      } else if i < |s| {
        assert s[i - 1..][2..] == s[i + 1..];
        assert out + ([Unescaped(s[i])] + Unescape(s[i + 1..])) == out + [Unescaped(s[i])] + Unescape(s[i + 1..]);
        out := out + [Unescaped(s[i])];
        i := i + 1;
      } else {
        out := out + "\\";
      }
    }
  }
}
