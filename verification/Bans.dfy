/** Channel bans and KILL patterns: which of them mean what their masks say. */
module Bans {
  import opened Names
  import opened Glob
  import opened ServerModel

  /** The identity a channel ban with `!` or `@` is matched against. */
  function Identity(u: Cx): string {
    u.nickKey + "!" + NormNick(u.info.user) + "@" + NormNick(u.info.host)
  }

  predicate Composite(mask: string) {
    '!' in NormNick(mask) || '@' in NormNick(mask)
  }

  /** What a mask means: one with `!` or `@` speaks of the whole identity, any other of the nick alone. */
  ghost predicate Catches(u: Cx, mask: string) {
    Matches(NormNick(mask), if Composite(mask) then Identity(u) else u.nickKey)
  }

  ghost predicate CaughtBy(u: Cx, masks: seq<string>) {
    exists i :: 0 <= i < |masks| && Catches(u, masks[i])
  }

  predicate StarFree(u: Cx) {
    '*' !in u.nickKey && '*' !in u.info.user && '*' !in u.info.host
  }

  /** The ban does exactly what its mask means. */
  ghost predicate BanExact(u: Cx, mask: string) {
    MatchesBan(u, mask) == Matches(NormNick(mask), Identity(u))
  }

  lemma FoldStar(s: string)
    ensures '*' in NormNick(s) <==> '*' in s
  {
    var r := NormNick(s);
    forall i | 0 <= i < |s| ensures r[i] == '*' <==> s[i] == '*' {
    }
    if '*' in s {
      var i :| 0 <= i < |s| && s[i] == '*';
      assert r[i] == '*';
    }
    if '*' in r {
      var i :| 0 <= i < |r| && r[i] == '*';
      assert s[i] == '*';
    }
  }

  /** No valid nick holds a star, so a pattern KILL takes exactly those its pattern means. */
  lemma KillPatternsExact(pattern: string, nick: string)
    requires ValidNick(nick)
    ensures Right(pattern, NormNick(nick))
  {
    assert forall i :: 1 <= i < |nick| ==> NickChar(nick[i]) && nick[i] != '*';
    FoldStar(nick);
    RightForEveryMaskIffStarFreeText(NormNick(nick));
  }

  lemma {:induction false} PairedMatches(a: string, b: string, m: string, t: string)
    requires |a| == |b| && '*' !in a && (forall i :: 0 <= i < |a| ==> Pairs(a[i], b[i])) && Matches(m, t)
    ensures Matches(a + m, b + t)
    decreases |a|
  {
    if a == "" {
      assert a + m == m && b + t == t;
    } else {
      assert a[0] != '*' && Pairs(a[0], b[0]);
      PairedMatches(a[1..], b[1..], m, t);
      assert (a + m)[1..] == a[1..] + m && (b + t)[1..] == b[1..] + t;
    }
  }

  lemma StarMatchesAll(t: string)
    ensures Matches("*", t)
  {
    assert "*"[1..] == "" && t[|t|..] == "";
    StarEatsRun("*", t, |t|);
  }

  /** A mask for a given user name up to its first star, which then faces the mask's own. */
  function Facing(nickLen: nat, user: string, i: nat): string
    requires i <= |user|
  {
    seq(nickLen, _ => '?') + "!" + NormNick(user)[..i] + "*"
  }

  lemma FacingFolded(nickLen: nat, user: string, i: nat)
    requires i <= |user|
    ensures NormNick(Facing(nickLen, user, i)) == Facing(nickLen, user, i) && Composite(Facing(nickLen, user, i))
  {
    var m := Facing(nickLen, user, i);
    NormNickIdempotent(user);
    var f := NormNick(user);
    forall k | 0 <= k < |m| ensures FoldChar(m[k]) == m[k] {
      if nickLen < k <= nickLen + i {
        assert m[k] == f[k - nickLen - 1] && NormNick(f)[k - nickLen - 1] == FoldChar(f[k - nickLen - 1]);
      }
    }
    assert NormNick(m) == m && m[nickLen] == '!';
  }

  /** A user name with a star is not matched by the mask that says just that: the star is taken literally. */
  lemma FacingFails(u: Cx, i: nat)
    requires i < |u.info.user| && NormNick(u.info.user)[i] == '*' && '*' !in NormNick(u.info.user)[..i]
    ensures var m := Facing(|u.nickKey|, u.info.user, i); !BanExact(u, m)
  {
    hide NormNick;
    var f, host := NormNick(u.info.user), NormNick(u.info.host);
    var m, t := Facing(|u.nickKey|, u.info.user, i), Identity(u);
    FacingFolded(|u.nickKey|, u.info.user, i);
    var a, b := m[..|m| - 1], t[..|m| - 1];
    var rest := t[|m| - 1..];
    assert m == a + "*" && t == b + rest;
    FacingPairs(u, i);
    StarMatchesAll(rest);
    PairedMatches(a, b, "*", rest);
    NoStarRecorded(m, t);
  }

  lemma FacingPairs(u: Cx, i: nat)
    requires i < |u.info.user| && NormNick(u.info.user)[i] == '*' && '*' !in NormNick(u.info.user)[..i]
    ensures var m, t := Facing(|u.nickKey|, u.info.user, i), Identity(u);
      && |m| < |t| && (forall k :: 0 <= k < |m| - 1 ==> m[k] != '*' && Pairs(m[k], t[k])) && m[|m| - 1] == t[|m| - 1] == '*'
  {
    hide NormNick;
    var m, t, f, n := Facing(|u.nickKey|, u.info.user, i), Identity(u), NormNick(u.info.user), |u.nickKey|;
    assert |f| == |u.info.user|;
    assert |m| == n + 1 + i + 1 && m[n] == '!' && t[n] == '!';
    forall k | 0 <= k < |m| - 1 ensures m[k] != '*' && Pairs(m[k], t[k]) {
      if k > n {
        assert m[k] == f[..i][k - n - 1] && t[k] == f[k - n - 1];
      }
    }
    assert t[n + 1 + i] == f[i];
  }

  /**
   * For a connection whose nick and host are free of stars, every ban on the whole identity does what its
   * mask means if and only if the user name is free of stars too.
   */
  lemma BansExactIffStarFreeUser(u: Cx)
    requires '*' !in u.nickKey && '*' !in u.info.host
    ensures (forall mask | Composite(mask) :: BanExact(u, mask)) <==> '*' !in u.info.user
  {
    hide NormNick;
    FoldStar(u.info.user);
    FoldStar(u.info.host);
    var f := NormNick(u.info.user);
    if '*' in u.info.user {
      var i := FirstStar(f);
      FacingFails(u, i);
      FacingFolded(|u.nickKey|, u.info.user, i);
    } else {
      RightForEveryMaskIffStarFreeText(Identity(u));
      forall mask | Composite(mask) ensures BanExact(u, mask) {
        assert Right(NormNick(mask), Identity(u));
      }
    }
  }

  /** For an identity without stars every mask, on the whole or on the nick, catches what it means. */
  lemma MatchesWhatItMeans(u: Cx, mask: string)
    requires StarFree(u)
    ensures MatchesBan(u, mask) <==> Catches(u, mask)
  {
    hide NormNick;
    if Composite(mask) {
      BansExactIffStarFreeUser(u);
      assert BanExact(u, mask);
    } else {
      RightForEveryMaskIffStarFreeText(u.nickKey);
      assert Right(NormNick(mask), u.nickKey);
    }
  }

  lemma AnyMatchesWhatItMeans(u: Cx, masks: seq<string>)
    requires StarFree(u)
    ensures MatchesAny(u, masks) <==> CaughtBy(u, masks)
  {
    hide MatchesBan, Catches;
    forall i | 0 <= i < |masks| ensures MatchesBan(u, masks[i]) <==> Catches(u, masks[i]) {
      MatchesWhatItMeans(u, masks[i]);
    }
  }

  /**
   * What a channel asks of whoever wants in: an invitation or a mask that stands for one, an account, not to be
   * banned without an exception, and the key.
   */
  ghost predicate Clears(c: Chn, u: Cx, key: string) {
    && ('i' in c.modes.flags ==> u.id in c.invites || CaughtBy(u, c.modes.invex))
    && ('R' in c.modes.flags ==> u.info.account.Some?)
    && (CaughtBy(u, c.modes.bans) ==> CaughtBy(u, c.modes.excepts))
    && (c.modes.key.Some? ==> NormNick(key) == c.modes.key.value)
  }

  /** An identity without stars is let in exactly when it meets all four. */
  lemma BarredIff(c: Chn, u: Cx, key: string)
    requires StarFree(u)
    ensures Barred(c, u, key) <==> !Clears(c, u, key)
  {
    hide NormNick, CaughtBy, MatchesAny;
    AnyMatchesWhatItMeans(u, c.modes.invex);
    AnyMatchesWhatItMeans(u, c.modes.bans);
    AnyMatchesWhatItMeans(u, c.modes.excepts);
  }

  lemma {:induction false} FirstStar(t: string) returns (i: nat)
    requires '*' in t
    ensures i < |t| && t[i] == '*' && '*' !in t[..i]
    decreases |t|
  {
    if t[0] == '*' {
      i := 0;
    } else {
      i := FirstStar(t[1..]);
      assert t[..i + 1] == [t[0]] + t[1..][..i];
      i := i + 1;
    }
  }

  /** The case in point: a ban on everybody at a host, and a user name that begins with a star. */
  lemma StarUserPassesHostBan(u: Cx)
    requires u.nickKey == "n" && u.info.user == "*x" && u.info.host == "h"
    ensures !MatchesBan(u, "*!*@h") && Matches(NormNick("*!*@h"), Identity(u))
  {
    var m, t := "*!*@h", "n!*x@h";
    assert NormNick(m) == m && Identity(u) == t;
    assert m[1..] == "!*@h" && t[1..] == "!*x@h" && t[2..] == "*x@h" && t[3..] == "x@h" && t[4..] == "@h" && t[5..] == "h" && t[6..] == "";
    HostBanMeans();
    HostBanScans();
  }

  lemma HostBanMeans()
    ensures Matches("*!*@h", "n!*x@h")
  {
    var m: string := "!*@h";
    assert m[1..] == "*@h" && m[2..] == "@h" && m[3..] == "h" && m[4..] == "";
    assert Matches("h", "h") && Matches("@h", "@h");
    StarEatsRun("*@h", "*x@h", 2);
    assert Matches("!*@h", "!*x@h");
    StarEatsRun("*!*@h", "n!*x@h", 1);
  }

  lemma HostBanScans()
    ensures !Scans("*!*@h", "n!*x@h")
  {
  }
}
