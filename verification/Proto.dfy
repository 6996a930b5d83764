/** One message line to a command: tags, prefix, name and parameters (section 2.3.1 of RFC 1459). */
module Proto {
  import opened Basics
  import opened Text
  import opened Names
  import opened Tags

  const MaxContentBytes: nat := 510
  const MaxParams: nat := 15

  datatype Command = Command(prefix: Option<string>, name: string, params: seq<string>, tags: seq<Tag>)

  function TrimStart(s: string): string {
    if s != "" && WhiteSpace(s[0]) then TrimStart(s[1..]) else s
  }

  function Upper(s: string): (r: string)
    ensures |r| == |s| && forall i :: 0 <= i < |s| ==> r[i] == if 'a' <= s[i] <= 'z' then (s[i] as int - 32) as char else s[i]
  {
    seq(|s|, i requires 0 <= i < |s| => if 'a' <= s[i] <= 'z' then (s[i] as int - 32) as char else s[i])
  }

  /** Tokens up to the trailing marker, then everything after it as one parameter. */
  function Params(s: string): seq<string>
    decreases |s|
  {
    if s == "" then []
    else if AsciiSpace(s[0]) then Params(s[1..])
    else if s[0] == ':' then [s[1..]]
    else [s[..FirstSpace(s)]] + Params(s[FirstSpace(s)..])
  }

  /** The prefix, when there is one, and what follows the white space after it. */
  function SplitPrefix(line: string): (Option<string>, string) {
    if line != "" && line[0] == ':' then
      var n := FirstSpace(line[1..]);
      (Some(line[1..][..n]), if n + 2 <= |line| then line[n + 2..] else "")
    else (None, line)
  }

  function ParseUntagged(line: string, tags: seq<Tag>): Option<Command> {
    if line == "" then None
    else
      var (prefix, rest) := SplitPrefix(line);
      var n := FirstSpace(rest);
      if n == 0 || exists i :: 0 <= i < n && !IsAlpha(rest[i]) then None
      else
        var params := Params(rest[n..]);
        if |params| > MaxParams then None else Some(Command(prefix, Upper(rest[..n]), params, tags))
  }

  predicate Acceptable(line: string) {
    line != "" && Bytes(line) <= MaxContentBytes && '\0' !in line
  }

  function Parse(line: string): Option<Command> {
    if !Acceptable(line) then None
    else if line[0] == '@' then
      var rest := line[1..];
      var n := FirstSpace(rest);
      if n == |rest| then None else ParseUntagged(TrimStart(rest[n..]), ParseTags(rest[..n]))
    else ParseUntagged(line, [])
  }

  // ---- what printers produce ----

  /** A token that can stand in the middle of a message. */
  predicate Middle(s: string) {
    s != "" && Solid(s) && s[0] != ':'
  }

  ghost predicate Middles(parts: seq<string>) {
    forall i :: 0 <= i < |parts| ==> Middle(parts[i])
  }

  /** Middle parameters, each after a space, then the trailing one. */
  function Spaced(middles: seq<string>, trailing: string): string {
    if middles == [] then " :" + trailing else " " + middles[0] + Spaced(middles[1..], trailing)
  }

  lemma NoParams()
    ensures Params("") == []
  {
  }

  lemma OnlyTrailing(trailing: string)
    ensures Params(" :" + trailing) == [trailing]
  {
    var s := " :" + trailing;
    assert s[1..] == ":" + trailing && (":" + trailing)[1..] == trailing;
  }

  lemma SpaceSkipped(s: string)
    requires s != "" && s[0] == ' '
    ensures Params(s) == Params(s[1..])
  {
  }

  lemma TokenFirst(m: string, rest: string)
    requires Middle(m) && (rest == "" || rest[0] == ' ')
    ensures Params(m + rest) == [m] + Params(rest)
  {
    FirstSpaceAt(m, rest);
    assert (m + rest)[..|m|] == m && (m + rest)[|m|..] == rest;
  }

  lemma {:induction false} ParamsSpaced(middles: seq<string>, trailing: string)
    requires Middles(middles)
    ensures Params(Spaced(middles, trailing)) == middles + [trailing]
    decreases |middles|
  {
    hide Params, Middle;
    var s := Spaced(middles, trailing);
    if middles == [] {
      OnlyTrailing(trailing);
    } else {
      var m, rest := middles[0], Spaced(middles[1..], trailing);
      ParamsSpaced(middles[1..], trailing);
      assert s[1..] == m + rest && rest[0] == ' ';
      SpaceSkipped(s);
      TokenFirst(m, rest);
      assert middles == [m] + middles[1..];
    }
  }

  ghost predicate UpperName(name: string) {
    name != "" && forall i :: 0 <= i < |name| ==> 'A' <= name[i] <= 'Z'
  }

  lemma SplitPrefixAt(prefix: string, rest: string)
    requires Solid(prefix)
    ensures SplitPrefix(":" + prefix + " " + rest) == (Some(prefix), rest)
  {
    var line := ":" + prefix + " " + rest;
    assert line[1..] == prefix + (" " + rest);
    FirstSpaceAt(prefix, " " + rest);
    assert line[|prefix| + 2..] == rest && line[1..][..|prefix|] == prefix;
  }

  /** A printed message parses as what was printed. */
  lemma ParsePrinted(prefix: string, name: string, middles: seq<string>, trailing: string)
    requires Solid(prefix) && UpperName(name) && Middles(middles) && |middles| < MaxParams
    requires Acceptable(":" + prefix + " " + name + Spaced(middles, trailing))
    ensures Parse(":" + prefix + " " + name + Spaced(middles, trailing)) ==
      Some(Command(Some(prefix), name, middles + [trailing], []))
  {
    hide Acceptable, SplitPrefix, Params, Solid, Middles;
    var tail := Spaced(middles, trailing);
    var rest := name + tail;
    var line := ":" + prefix + " " + name + tail;
    assert line == ":" + prefix + " " + rest;
    SplitPrefixAt(prefix, rest);
    NameAt(name, middles, trailing);
    ParamsSpaced(middles, trailing);
  }

  lemma NameAt(name: string, middles: seq<string>, trailing: string)
    requires UpperName(name)
    ensures var tail := Spaced(middles, trailing); var rest := name + tail;
      FirstSpace(rest) == |name| && rest[..|name|] == name && rest[|name|..] == tail && Upper(name) == name
  {
    var tail := Spaced(middles, trailing);
    assert tail[0] == ' ';
    FirstSpaceAt(name, tail);
  }

  /** Words after a name, none of them trailing. */
  function Worded(words: seq<string>): string {
    if words == [] then "" else " " + words[0] + Worded(words[1..])
  }

  lemma {:induction false} ParamsWorded(words: seq<string>)
    requires Middles(words)
    ensures Params(Worded(words)) == words
    decreases |words|
  {
    hide Params, Middle;
    if words == [] {
      NoParams();
    } else {
      var s, m, rest := Worded(words), words[0], Worded(words[1..]);
      ParamsWorded(words[1..]);
      assert s[1..] == m + rest && (rest == "" || rest[0] == ' ');
      SpaceSkipped(s);
      TokenFirst(m, rest);
      assert words == [m] + words[1..];
    }
  }

  lemma UntaggedTail(line: string, prefix: Option<string>, name: string, tail: string, params: seq<string>)
    requires line != "" && SplitPrefix(line) == (prefix, name + tail) && UpperName(name) && (tail == "" || AsciiSpace(tail[0]))
    requires Params(tail) == params && |params| <= MaxParams
    ensures ParseUntagged(line, []) == Some(Command(prefix, name, params, []))
  {
    hide SplitPrefix, Params, Solid;
    var rest := name + tail;
    NameSolid(name);
    FirstSpaceAt(name, tail);
    assert rest[..|name|] == name && rest[|name|..] == tail && Upper(name) == name;
  }

  /** A name and what follows it, with or without a prefix. */
  lemma ParseTail(prefix: Option<string>, name: string, tail: string, params: seq<string>)
    requires (prefix.Some? ==> Solid(prefix.value)) && UpperName(name) && (tail == "" || AsciiSpace(tail[0]))
    requires Params(tail) == params && |params| <= MaxParams
    requires Acceptable((if prefix.Some? then ":" + prefix.value + " " else "") + name + tail)
    ensures Parse((if prefix.Some? then ":" + prefix.value + " " else "") + name + tail) == Some(Command(prefix, name, params, []))
  {
    hide Acceptable, SplitPrefix, Params, Solid, ParseUntagged;
    var line := (if prefix.Some? then ":" + prefix.value + " " else "") + name + tail;
    if prefix.Some? {
      assert line == ":" + prefix.value + " " + (name + tail);
      SplitPrefixAt(prefix.value, name + tail);
    } else {
      assert line == name + tail && line[0] == name[0];
      NoPrefix(line);
    }
    UntaggedTail(line, prefix, name, tail, params);
  }

  /** Whatever follows, a line without a prefix is either refused or a command of that name. */
  lemma ParseBareName(name: string, tail: string)
    requires UpperName(name) && (tail == "" || AsciiSpace(tail[0]))
    ensures Parse(name + tail).Some? ==> Parse(name + tail).value.name == name && Parse(name + tail).value.prefix == None
  {
    hide Acceptable, SplitPrefix, Params, Solid;
    var line := name + tail;
    assert line[0] == name[0];
    NoPrefix(line);
    assert Solid(name) by { NameSolid(name); }
    FirstSpaceAt(name, tail);
    assert line[..|name|] == name && line[|name|..] == tail && Upper(name) == name;
  }

  lemma NoPrefix(line: string)
    requires line != "" && line[0] != ':'
    ensures SplitPrefix(line) == (None, line)
  {
  }

  /** Whatever follows, a prefixed line is either refused or a command of that name. */
  lemma ParseName(prefix: string, name: string, tail: string)
    requires Solid(prefix) && UpperName(name) && (tail == "" || AsciiSpace(tail[0]))
    ensures var cmd := Parse(":" + prefix + " " + name + tail); cmd.Some? ==> cmd.value.name == name
    ensures tail == "" && Acceptable(":" + prefix + " " + name) ==>
      Parse(":" + prefix + " " + name + tail) == Some(Command(Some(prefix), name, [], []))
  {
    hide Acceptable, SplitPrefix, Solid;
    var rest := name + tail;
    var line := ":" + prefix + " " + name + tail;
    assert line == ":" + prefix + " " + rest;
    SplitPrefixAt(prefix, rest);
    assert Solid(name) by { NameSolid(name); }
    FirstSpaceAt(name, tail);
    assert rest[..|name|] == name && rest[|name|..] == tail && Upper(name) == name;
    if tail == "" {
      assert line == ":" + prefix + " " + name;
    }
  }

  lemma NameSolid(name: string)
    requires UpperName(name)
    ensures Solid(name)
  {
  }

  // ---- the shape of every accepted command ----

  ghost predicate ParamsShape(params: seq<string>) {
    forall i :: 0 <= i < |params| - 1 ==> Middle(params[i])
  }

  lemma {:induction false} ParamsAreShaped(s: string)
    ensures ParamsShape(Params(s))
    decreases |s|
  {
    if s != "" {
      if AsciiSpace(s[0]) {
        ParamsAreShaped(s[1..]);
      } else if s[0] != ':' {
        var n := FirstSpace(s);
        ParamsAreShaped(s[n..]);
        assert Middle(s[..n]);
        var p := Params(s);
        assert forall i :: 1 <= i < |p| ==> p[i] == Params(s[n..])[i - 1];
      }
    }
  }

  ghost predicate Shaped(cmd: Command) {
    && UpperName(cmd.name) && |cmd.params| <= MaxParams && ParamsShape(cmd.params)
    && (cmd.prefix.Some? ==> Solid(cmd.prefix.value))
  }

  lemma UpperAlpha(name: string)
    requires name != "" && forall i :: 0 <= i < |name| ==> IsAlpha(name[i])
    ensures UpperName(Upper(name))
  {
    assert forall i :: 0 <= i < |name| ==> IsAlpha(name[i]) && 'A' <= Upper(name)[i] <= 'Z';
  }

  lemma UntaggedShape(line: string, tags: seq<Tag>)
    requires ParseUntagged(line, tags).Some?
    ensures Shaped(ParseUntagged(line, tags).value)
  {
    hide Params, ParamsShape, Upper, UpperName;
    var rest := SplitPrefix(line).1;
    var n := FirstSpace(rest);
    ParamsAreShaped(rest[n..]);
    UpperAlpha(rest[..n]);
  }

  /** Every accepted line gives an upper-case alphabetic name, at most fifteen parameters, all but the last of them tokens. */
  lemma ParseShape(line: string)
    ensures Parse(line).Some? ==> Shaped(Parse(line).value)
  {
    hide ParseUntagged, Shaped;
    if Parse(line).Some? {
      if line[0] == '@' {
        var n := FirstSpace(line[1..]);
        UntaggedShape(TrimStart(line[1..][n..]), ParseTags(line[1..][..n]));
      } else {
        UntaggedShape(line, []);
      }
    }
  }

  // ---- the loop ----

  /** Read parameters character by character. */
  method ReadParams(s: string) returns (params: seq<string>)
    ensures params == Params(s)
  {
    params := [];
    var i := 0;
    assert s[0..] == s;
    while i < |s|
      invariant 0 <= i <= |s|
      invariant params + Params(s[i..]) == Params(s)
    {
      assert s[i..][1..] == s[i + 1..];
      if AsciiSpace(s[i]) {
        i := i + 1;
      } else if s[i] == ':' {
        params := params + [s[i + 1..]];
        i := |s|;
      } else {
        ghost var start := i;
        ghost var n := FirstSpace(s[i..]);
        var token := "";
        while i < |s| && !AsciiSpace(s[i])
          invariant start <= i <= start + n <= |s| && token == s[start..i]
        {
          assert s[start..][i - start] == s[i];
          token := token + [s[i]];
          i := i + 1;
        }
        assert i == start + n;
        assert s[start..][..n] == token && s[start..][n..] == s[i..];
        assert params + ([token] + Params(s[i..])) == params + [token] + Params(s[i..]);
        params := params + [token];
      }
    }
  }
}
