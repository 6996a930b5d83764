/** Nickname and channel-name folding and grammar (`CASEMAPPING=rfc1459`). */
module Names {
  import opened Basics

  function FoldChar(c: char): char {
    if 'A' <= c <= 'Z' then (c as int + 32) as char
    else if c == '{' then '['
    else if c == '}' then ']'
    else if c == '|' then '\\'
    else if c == '^' then '~'
    else c
  }

  /** The folded form under which every nick and channel key is stored and compared. */
  function NormNick(s: string): (r: string)
    ensures |r| == |s|
    ensures forall i :: 0 <= i < |s| ==> r[i] == FoldChar(s[i])
  {
    seq(|s|, i requires 0 <= i < |s| => FoldChar(s[i]))
  }

  /** Two characters that names do not tell apart: the cases of a letter, and the four pairs of brackets and signs. */
  predicate SameLetter(c: char, d: char) {
    || c == d
    || ('A' <= c <= 'Z' && d as int == c as int + 32) || ('A' <= d <= 'Z' && c as int == d as int + 32)
    || {c, d} == {'[', '{'} || {c, d} == {']', '}'} || {c, d} == {'\\', '|'} || {c, d} == {'~', '^'}
  }

  predicate SameName(a: string, b: string) {
    |a| == |b| && forall i :: 0 <= i < |a| ==> SameLetter(a[i], b[i])
  }

  lemma FoldMeets(c: char, d: char)
    ensures FoldChar(c) == FoldChar(d) <==> SameLetter(c, d)
  {
    assert {c, d} == {'[', '{'} <==> (c == '[' && d == '{') || (c == '{' && d == '[');
    assert {c, d} == {']', '}'} <==> (c == ']' && d == '}') || (c == '}' && d == ']');
    assert {c, d} == {'\\', '|'} <==> (c == '\\' && d == '|') || (c == '|' && d == '\\');
    assert {c, d} == {'~', '^'} <==> (c == '~' && d == '^') || (c == '^' && d == '~');
  }

  /** Keys are equal exactly when the names are the same under that equivalence. */
  lemma KeysEqualIffSameName(a: string, b: string)
    ensures NormNick(a) == NormNick(b) <==> SameName(a, b)
  {
    if |a| == |b| {
      forall i | 0 <= i < |a| ensures NormNick(a)[i] == NormNick(b)[i] <==> SameLetter(a[i], b[i]) {
        FoldMeets(a[i], b[i]);
      }
      if SameName(a, b) {
        assert NormNick(a) == NormNick(b);
      }
    }
  }

  /** Folding a key again changes nothing, so callers may pass raw names or keys. */
  lemma NormNickIdempotent(s: string)
    ensures NormNick(NormNick(s)) == NormNick(s)
  {
    var once := NormNick(s);
    assert forall i :: 0 <= i < |s| ==> NormNick(once)[i] == FoldChar(FoldChar(s[i]));
    assert forall i :: 0 <= i < |s| ==> FoldChar(FoldChar(s[i])) == FoldChar(s[i]);
    assert NormNick(once) == once;
  }

  predicate IsAlpha(c: char) {
    'a' <= c <= 'z' || 'A' <= c <= 'Z'
  }

  predicate NickChar(c: char) {
    IsAlpha(c) || Digit(c) || c in "_-[]\\`^{}"
  }

  predicate ValidNick(s: string) {
    0 < |s| <= 30 && IsAlpha(s[0]) && forall i :: 1 <= i < |s| ==> NickChar(s[i])
  }

  predicate Graphic(c: char) {
    '!' <= c <= '~'
  }

  predicate ValidChannel(s: string) {
    2 <= |s| <= 50 && (s[0] == '#' || s[0] == '&')
    && forall i :: 1 <= i < |s| ==> Graphic(s[i]) && s[i] != ','
  }

  /** Names held by services; no connection may carry them. */
  predicate IsServiceName(s: string) {
    NormNick(s) == "nickserv" || NormNick(s) == "chanserv"
  }
}
