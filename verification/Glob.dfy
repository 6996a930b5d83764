/** The iterative wildcard matcher, its recursive meaning, and exactly where the two part ways. */
module Glob {

  /** What a mask means: `*` stands for any run of characters, `?` for any one character. */
  predicate Matches(m: string, t: string)
    decreases |m|, |t|
  {
    if m == "" then t == ""
    else if m[0] == '*' then Matches(m[1..], t) || (t != "" && Matches(m, t[1..]))
    else t != "" && (m[0] == '?' || m[0] == t[0]) && Matches(m[1..], t[1..])
  }

  predicate AllStars(m: string) {
    forall i :: 0 <= i < |m| ==> m[i] == '*'
  }

  lemma AllStarsTail(m: string)
    requires m != ""
    ensures AllStars(m) ==> AllStars(m[1..])
  {
  }

  /** A mask character that is consumed together with one text character. */
  predicate Pairs(c: char, d: char) {
    c == '?' || c == d
  }

  /**
   * The meaning the loop gives a mask: as `Matches`, except that a mask star facing a
   * text star is an ordinary character.
   */
  predicate Scans(m: string, t: string)
    decreases |m|, |t|, 0
  {
    if t == "" then AllStars(m)
    else if m == "" then false
    else if Pairs(m[0], t[0]) then Scans(m[1..], t[1..])
    else m[0] == '*' && Skips(m[1..], t)
  }

  /** `Scans` from some suffix of the text: what a recorded star allows. */
  predicate Skips(m: string, t: string)
    decreases |m|, |t|, 1
  {
    Scans(m, t) || (t != "" && Skips(m, t[1..]))
  }

  lemma {:induction false} SkipsFromSuffix(m: string, t: string, k: nat)
    requires k <= |t| && Skips(m, t[k..])
    ensures Skips(m, t)
  {
    if k == 0 {
      assert t[0..] == t;
    } else {
      assert t[1..][k-1..] == t[k..];
      SkipsFromSuffix(m, t[1..], k - 1);
    }
  }

  lemma {:induction false} SkipsWitness(m: string, t: string) returns (k: nat)
    requires Skips(m, t)
    ensures k <= |t| && Scans(m, t[k..])
  {
    if Scans(m, t) {
      k := 0;
      assert t[0..] == t;
    } else {
      k := SkipsWitness(m, t[1..]);
      assert t[1..][k..] == t[k+1..];
      k := k + 1;
    }
  }

  /** The segment of mask between the recorded star and `mi` was consumed character by character. */
  ghost predicate Paired(seg: string, t: string, b: nat) {
    b + |seg| <= |t| && forall i :: 0 <= i < |seg| ==> Pairs(seg[i], t[b+i])
  }

  /**
   * Wherever a scan of `seg + rest` starts at or after `b`, it reaches `rest` no earlier
   * than the character-by-character scan from `b` does.
   */
  lemma {:induction false} ReachesNoEarlier(seg: string, rest: string, t: string, b: nat, i: nat, p: nat) returns (j: nat)
    requires Paired(seg, t, b) && i <= |seg| && b + i <= p <= |t|
    requires Scans(seg[i..] + rest, t[p..])
    ensures b + |seg| <= j <= |t| && Scans(rest, t[j..])
    decreases |seg| - i
  {
    var m := seg[i..] + rest;
    if i == |seg| {
      assert m == rest;
      j := p;
    } else if p == |t| {
      assert forall k :: 0 <= k < |rest| ==> rest[k] == m[|seg| - i + k];
      j := p;
    } else {
      assert m[0] == seg[i] && m[1..] == seg[i+1..] + rest;
      assert t[p..][0] == t[p] && t[p..][1..] == t[p+1..];
      if Pairs(seg[i], t[p]) {
        j := ReachesNoEarlier(seg, rest, t, b, i + 1, p + 1);
      } else {
        var k := SkipsWitness(m[1..], t[p..]);
        assert t[p..][k..] == t[p+k..];
        assert p != b + i;
        j := ReachesNoEarlier(seg, rest, t, b, i + 1, p + k);
      }
    }
  }

  /** Only the last star need be retried: an earlier one offers nothing that this one does not. */
  lemma LastStarSuffices(seg: string, rest: string, t: string, b: nat)
    requires Paired(seg, t, b)
    requires b + |seg| < |t| && t[b+|seg|] != '*'
    ensures Skips(seg + ['*'] + rest, t[b..]) == Skips(rest, t[b+|seg|..])
  {
    var e := b + |seg|;
    var m := ['*'] + rest;
    assert seg + ['*'] + rest == seg + m;
    assert m[0] == '*' && m[1..] == rest;
    if Skips(seg + m, t[b..]) {
      var k := SkipsWitness(seg + m, t[b..]);
      assert t[b..][k..] == t[b+k..] && seg[0..] == seg;
      var j := ReachesNoEarlier(seg, m, t, b, 0, b + k);
      if j == |t| {
        assert forall i :: 0 <= i < |rest| ==> rest[i] == m[i+1];
        assert Skips(rest, t[j..]);
        assert t[e..][j-e..] == t[j..];
        SkipsFromSuffix(rest, t[e..], j - e);
      } else {
        assert t[j..][1..] == t[j+1..] == t[e..][j+1-e..];
        assert t[e..][j-e..] == t[j..];
        if t[j] == '*' {
          SkipsFromSuffix(rest, t[e..], j + 1 - e);
        } else {
          SkipsFromSuffix(rest, t[e..], j - e);
        }
      }
    }
    if Skips(rest, t[e..]) {
      assert Scans(m, t[e..]);
      PairedPrefix(seg, m, t, b, 0);
      assert seg[0..] == seg;
    }
  }

  lemma {:induction false} PairedPrefix(seg: string, rest: string, t: string, b: nat, i: nat)
    requires Paired(seg, t, b) && i <= |seg|
    ensures Scans(seg[i..] + rest, t[b+i..]) == Scans(rest, t[b+|seg|..])
    decreases |seg| - i
  {
    if i == |seg| {
      assert seg[i..] + rest == rest;
    } else {
      PairedPrefix(seg, rest, t, b, i + 1);
      assert (seg[i..] + rest)[1..] == seg[i+1..] + rest;
      assert t[b+i..][1..] == t[b+i+1..];
    }
  }

  const NoStar := -1

  /**
   * What the loop knows: with no star recorded the rest of the mask decides, otherwise the
   * last star does, and everything since that star was consumed pairwise.
   */
  ghost predicate Progress(m: string, t: string, star: int, b: nat, mi: nat, ti: nat) {
    mi <= |m| && ti <= |t| && NoStar <= star < mi && b <= ti
    && (if star == NoStar then b == 0 && Scans(m[mi..], t[ti..]) == Scans(m, t)
        else ti == b + (mi - star - 1) && Paired(m[star+1..mi], t, b)
             && Skips(m[star+1..], t[b..]) == Scans(m, t))
  }

  lemma PairStep(m: string, t: string, star: int, b: nat, mi: nat, ti: nat)
    requires Progress(m, t, star, b, mi, ti) && mi < |m| && ti < |t| && Pairs(m[mi], t[ti])
    ensures Progress(m, t, star, b, mi + 1, ti + 1)
  {
    assert t[ti..][1..] == t[ti+1..] && m[mi..][1..] == m[mi+1..];
    assert m[star+1..mi+1] == m[star+1..mi] + [m[mi]];
  }

  lemma StarStep(m: string, t: string, star: int, b: nat, mi: nat, ti: nat)
    requires Progress(m, t, star, b, mi, ti)
    requires mi < |m| && ti < |t| && !Pairs(m[mi], t[ti]) && m[mi] == '*'
    ensures Progress(m, t, mi, ti, mi + 1, ti)
  {
    assert m[mi..][1..] == m[mi+1..];
    if star != NoStar {
      LastStarSuffices(m[star+1..mi], m[mi+1..], t, b);
      assert m[star+1..] == m[star+1..mi] + ['*'] + m[mi+1..];
    }
  }

  lemma RetryStep(m: string, t: string, star: int, b: nat, mi: nat, ti: nat)
    requires Progress(m, t, star, b, mi, ti) && star != NoStar
    requires ti < |t| && (mi == |m| || (!Pairs(m[mi], t[ti]) && m[mi] != '*'))
    ensures Progress(m, t, star, b + 1, star + 1, b + 1)
  {
    var seg := m[star+1..mi];
    PairedPrefix(seg, m[mi..], t, b, 0);
    assert seg[0..] + m[mi..] == m[star+1..];
    assert t[b..][1..] == t[b+1..];
  }

  /** At the end of the text every other start has too little text left for the same segment. */
  lemma EndStep(m: string, t: string, star: int, b: nat, mi: nat)
    requires Progress(m, t, star, b, mi, |t|)
    ensures AllStars(m[mi..]) == Scans(m, t)
  {
    if star != NoStar {
      var seg := m[star+1..mi];
      PairedPrefix(seg, m[mi..], t, b, 0);
      assert seg[0..] + m[mi..] == m[star+1..];
      if Skips(m[star+1..], t[b..]) {
        var k := SkipsWitness(m[star+1..], t[b..]);
        assert t[b..][k..] == t[b+k..];
        var j := ReachesNoEarlier(seg, m[mi..], t, b, 0, b + k);
      }
    }
  }

  method GlobMatch(mask: string, text: string) returns (r: bool)
    ensures r == Scans(mask, text)
  {
    var mi, ti := 0, 0;
    var star, backtrack := NoStar, 0;
    assert mask[0..] == mask && text[0..] == text;
    while ti < |text|
      invariant 0 <= mi && 0 <= ti && 0 <= backtrack
      invariant Progress(mask, text, star, backtrack, mi, ti)
      decreases |mask| - star, |text| - backtrack, |text| - ti
    {
      if mi < |mask| && (mask[mi] == '?' || mask[mi] == text[ti]) {
        PairStep(mask, text, star, backtrack, mi, ti);
        mi := mi + 1;
        ti := ti + 1;
      } else if mi < |mask| && mask[mi] == '*' {
        StarStep(mask, text, star, backtrack, mi, ti);
        star := mi;
        backtrack := ti;
        mi := mi + 1;
      } else if star != NoStar {
        RetryStep(mask, text, star, backtrack, mi, ti);
        mi := star + 1;
        backtrack := backtrack + 1;
        ti := backtrack;
      } else {
        return false;
      }
    }
    EndStep(mask, text, star, backtrack, mi);
    ghost var m0 := mi;
    while mi < |mask| && mask[mi] == '*'
      invariant m0 <= mi <= |mask|
      invariant forall i :: m0 <= i < mi ==> mask[i] == '*'
    {
      mi := mi + 1;
    }
    assert mi < |mask| ==> mask[m0..][mi-m0] != '*';
    r := mi == |mask|;
  }

  /** A mask the loop accepts really does match: bans and kills never hit a stranger. */
  lemma {:induction false} ScansSound(m: string, t: string)
    requires Scans(m, t)
    ensures Matches(m, t)
    decreases |m|
  {
    if t == "" {
      if m != "" {
        ScansSound(m[1..], t);
      }
    } else if Pairs(m[0], t[0]) {
      ScansSound(m[1..], t[1..]);
      if m[0] == '*' {
        StarEats(m, t);
      }
    } else {
      var k := SkipsWitness(m[1..], t);
      ScansSound(m[1..], t[k..]);
      StarEatsRun(m, t, k);
    }
  }

  lemma StarEats(m: string, t: string)
    requires m != "" && m[0] == '*' && t != "" && Matches(m[1..], t[1..])
    ensures Matches(m, t)
  {
    assert Matches(m, t[1..]);
  }

  lemma {:induction false} StarEatsRun(m: string, t: string, k: nat)
    requires m != "" && m[0] == '*' && k <= |t| && Matches(m[1..], t[k..])
    ensures Matches(m, t)
    decreases k
  {
    if k == 0 {
      assert t[0..] == t;
    } else {
      assert t[1..][k-1..] == t[k..];
      StarEatsRun(m, t[1..], k - 1);
    }
  }

  /** When either side is free of stars the loop computes the meaning exactly. */
  lemma {:induction false} ScansComplete(m: string, t: string)
    requires '*' !in t || '*' !in m
    requires Matches(m, t)
    ensures Scans(m, t)
    decreases |m|, |t|
  {
    if t == "" {
      if m != "" {
        ScansComplete(m[1..], t);
        assert forall i :: 1 <= i < |m| ==> m[i] == m[1..][i-1];
      }
    } else if m[0] == '*' {
      assert m[0] in m;
      assert t[0] in t;
      if Matches(m[1..], t) {
        ScansComplete(m[1..], t);
      } else {
        ScansComplete(m, t[1..]);
        assert t[1..] == "" || t[1] in t;
        AllStarsTail(m);
        assert Skips(m[1..], t[1..]);
      }
    } else {
      ScansComplete(m[1..], t[1..]);
    }
  }

  ghost predicate Right(m: string, t: string) {
    Scans(m, t) == Matches(m, t)
  }

  /** A mask with its `?`s replaced by an ordinary character. */
  function Literal(m: string): (r: string)
    ensures |r| == |m|
    ensures forall i :: 0 <= i < |m| ==> r[i] == if m[i] == '?' then 'x' else m[i]
  {
    seq(|m|, i requires 0 <= i < |m| => if m[i] == '?' then 'x' else m[i])
  }

  lemma {:induction false} LiteralMatches(m: string)
    ensures Matches(m, Literal(m))
    decreases |m|
  {
    if m != "" {
      LiteralMatches(m[1..]);
      assert Literal(m)[1..] == Literal(m[1..]);
      if m[0] == '*' {
        StarEats(m, Literal(m));
      }
    }
  }

  lemma {:induction false} MatchesPrefix(a: string, m: string, t: string)
    requires Matches(m, t)
    ensures Matches(a + m, Literal(a) + t)
    decreases |a|
  {
    if a == "" {
      assert a + m == m && Literal(a) + t == t;
    } else {
      MatchesPrefix(a[1..], m, t);
      assert (a + m)[1..] == a[1..] + m;
      assert (Literal(a) + t)[1..] == Literal(a[1..]) + t;
      if a[0] == '*' {
        StarEats(a + m, Literal(a) + t);
      }
    }
  }

  /** Until a star is recorded the loop consumes both sides in step. */
  lemma {:induction false} NoStarRecorded(m: string, t: string)
    requires |m| != |t|
    requires |t| < |m| ==> m[|t|] != '*'
    requires forall i :: 0 <= i < |m| && i < |t| && m[i] == '*' ==> t[i] == '*'
    ensures !Scans(m, t)
    decreases |m|
  {
    if t != "" && m != "" && Pairs(m[0], t[0]) {
      NoStarRecorded(m[1..], t[1..]);
    }
  }

  /**
   * The texts on which the matcher is right for every mask are exactly the star-free ones.
   * Nick keys and peer addresses are, so KILL patterns and K-lines are exact.
   */
  lemma RightForEveryMaskIffStarFreeText(t: string)
    ensures (forall m: string :: Right(m, t)) <==> '*' !in t
  {
    if '*' in t {
      var i :| 0 <= i < |t| && t[i] == '*';
      var p := seq(i, _ => '?');
      // `?...?*?` and then as many `?` as are needed to leave the star nothing to eat
      var q := seq(|t| - i, _ => '?');
      var m := p + ['*'] + q;
      assert !Scans(m, t) by {
        NoStarRecorded(m, t);
      }
      assert Matches(m, t) by {
        QuestionRun(p + q, t);
        StarAddsNothing(p, q, t);
      }
      assert !Right(m, t);
    } else {
      forall m: string ensures Right(m, t) {
        if Scans(m, t) { ScansSound(m, t); }
        if Matches(m, t) { ScansComplete(m, t); }
      }
    }
  }

  lemma {:induction false} QuestionRun(m: string, t: string)
    requires |m| == |t| && forall i :: 0 <= i < |m| ==> m[i] == '?'
    ensures Matches(m, t)
    decreases |m|
  {
    if m != "" {
      QuestionRun(m[1..], t[1..]);
    }
  }

  lemma {:induction false} StarAddsNothing(p: string, q: string, t: string)
    requires '*' !in p && Matches(p + q, t)
    ensures Matches(p + ['*'] + q, t)
    decreases |p|
  {
    var m := p + ['*'] + q;
    if p == "" {
      assert p + q == q && m[1..] == q;
    } else {
      assert p[0] in p;
      assert (p + q)[1..] == p[1..] + q;
      assert m[1..] == p[1..] + ['*'] + q;
      StarAddsNothing(p[1..], q, t[1..]);
    }
  }

  /** The masks on which the matcher is right for every text are exactly the star-free ones. */
  lemma RightForEveryTextIffStarFreeMask(m: string)
    ensures (forall t: string :: Right(m, t)) <==> '*' !in m
  {
    if '*' in m {
      var i := LastStar(m);
      var p, q := m[..i], m[i+1..];
      var t := Literal(p) + (['*', 'y'] + Literal(q));
      assert m == p + (['*'] + q);
      NoStarRecorded(m, t);
      LiteralMatches(q);
      var s := ['*'] + q;
      assert s[1..] == q && (['*', 'y'] + Literal(q))[2..] == Literal(q);
      StarEatsRun(s, ['*', 'y'] + Literal(q), 2);
      MatchesPrefix(p, s, ['*', 'y'] + Literal(q));
      assert !Right(m, t);
    } else {
      forall t: string ensures Right(m, t) {
        if Scans(m, t) { ScansSound(m, t); }
        if Matches(m, t) { ScansComplete(m, t); }
      }
    }
  }

  lemma {:induction false} LastStar(m: string) returns (i: nat)
    requires '*' in m
    ensures i < |m| && m[i] == '*' && '*' !in m[i+1..]
    decreases |m|
  {
    if m[|m|-1] == '*' {
      i := |m| - 1;
    } else {
      i := LastStar(m[..|m|-1]);
      assert m[i+1..] == m[..|m|-1][i+1..] + [m[|m|-1]];
    }
  }
}
