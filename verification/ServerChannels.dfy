/** JOIN, PART, KICK and channels arriving over a link keep the two sides of every membership in step. */
module ServerChannels {
  import opened Basics
  import opened Names
  import opened ServerModel
  import opened ServerInvariant
  import opened ServerDepartures

  /** No mode changes, but that a founder who is inside may be made operator. */
  ghost predicate OpsGrow(c: Chn, c': Chn, id: nat, founds: bool) {
    c'.modes == c.modes || (founds && id in c'.members && c'.modes == c.modes.(ops := c.modes.ops + {id}))
  }

  /** No channel goes, and none changes its timestamp or, but for its founder, its modes. */
  ghost predicate Grows(s: State, s': State, id: nat, founders: map<string, string>, account: Option<string>) {
    forall c :: c in s.chans ==>
      && c in s'.chans && s'.chans[c].createdAt == s.chans[c].createdAt && s.chans[c].members <= s'.chans[c].members
      && OpsGrow(s.chans[c], s'.chans[c], id, Founds(founders, c, account))
  }

  lemma GrowsTrans(a: State, b: State, c: State, id: nat, founders: map<string, string>, account: Option<string>)
    requires Grows(a, b, id, founders, account) && Grows(b, c, id, founders, account)
    ensures Grows(a, c, id, founders, account)
  {
    hide Founds;
  }

  // ---- the two sides of a membership ----

  /** `s'` differs from `s` in one user's channel set and in the channel table. */
  lemma MembershipKeeps(cfg: Config, s: State, id: nat, own: set<string>, chans: map<string, Chn>)
    requires Inv(cfg, s) && id in s.where && |own| <= MaxChannels
    requires Mirrored(Put(s, id, Rec(s, id).(chans := own)).users, s.where, chans)
    ensures var s' := Put(s, id, Rec(s, id).(chans := own)).(chans := chans);
      Inv(cfg, s') && Steady(s, s') && s'.where == s.where && Rec(s', id) == Rec(s, id).(chans := own)
  {
    hide Filed, Mirrored, MarksOk, QuitsOk, WelcomeOk, SameQuits, SameStanding;
    RecFacts(s, id);
    var u := Rec(s, id).(chans := own);
    var s1 := Put(s, id, u);
    var s' := s1.(chans := chans);
    PutCalm(s, id, u);
    PutRec(s, id, u);
    TablesUnmoved(s1, s');
    QuitsUnmoved(s1, s');
    SteadyTrans(s, s1, s');
    RecWelcome(cfg, s, id);
    SameWelcome(cfg, s.log, Rec(s, id), u);
    PutWelcome(cfg, s, id, u);
    WelcomeSameTables(cfg, s1, s');
    SameIdsKeeps(s, s');
    UserFiled(s, id, u);
  }

  lemma SameWelcome(cfg: Config, log: multiset<Sent>, a: Cx, b: Cx)
    requires WelcomeFor(cfg, log, a) && b == a.(chans := b.chans)
    ensures WelcomeFor(cfg, log, b)
  {
  }

  lemma UserFiled(s: State, id: nat, u: Cx)
    requires TablesOk(s) && id in s.where && u == Rec(s, id).(chans := u.chans) && |u.chans| <= MaxChannels
    ensures Filed(Put(s, id, u).users, s.unreg, s.where, s.seen) && Put(s, id, u).unreg == s.unreg
  {
    hide Mirrored;
    RecFacts(s, id);
  }

  lemma WelcomeSameTables(cfg: Config, s: State, s': State)
    requires WelcomeOk(cfg, s) && s'.users == s.users && s'.unreg == s.unreg && s'.log == s.log && s'.seen == s.seen
    ensures WelcomeOk(cfg, s')
  {
  }

  lemma MirrorAdd(users: map<string, Cx>, where: map<nat, string>, chans: map<string, Chn>, key: string, ck: string,
          u: Cx, c: Chn)
    requires Mirrored(users, where, chans) && key in users
    requires u.id == users[key].id && u.id in where && where[u.id] == key && u.chans == users[key].chans + {ck}
    requires c.members == (if ck in chans then chans[ck].members else {}) + {u.id}
    ensures Mirrored(users[key := u], where, chans[ck := c])
  {
    var users', chans' := users[key := u], chans[ck := c];
    forall x, m | x in chans' && m in chans'[x].members
      ensures m in where && where[m] in users' && x in users'[where[m]].chans
    {
      assert (x == ck && m == u.id) || (x in chans && m in chans[x].members);
    }
    forall k, x | k in users' && x in users'[k].chans ensures x in chans' && users'[k].id in chans'[x].members {
      assert (k == key && x == ck) || x in users[k].chans;
    }
  }

  lemma EnrolMirror(s: State, id: nat, ck: string, c: Chn)
    requires TablesOk(s) && id in s.where
    requires c.members == if ck in s.chans then s.chans[ck].members else {}
    ensures var own := Rec(s, id).chans + {ck};
      Mirrored(Put(s, id, Rec(s, id).(chans := own)).users, s.where, s.chans[ck := c.(members := c.members + {id})])
  {
    hide Mirrored;
    RecFacts(s, id);
    MirrorAdd(s.users, s.where, s.chans, s.where[id], ck,
              Rec(s, id).(chans := Rec(s, id).chans + {ck}), c.(members := c.members + {id}));
  }

  lemma EnrolKeeps(cfg: Config, s: State, id: nat, ck: string, c: Chn, founders: map<string, string>)
    requires Inv(cfg, s) && id in s.where && |Rec(s, id).chans| < MaxChannels
    requires c.members == if ck in s.chans then s.chans[ck].members else {}
    requires ck in s.chans ==> c.createdAt == s.chans[ck].createdAt
    requires ck in s.chans && c.modes != s.chans[ck].modes ==>
      Founds(founders, ck, Rec(s, id).info.account) && c.modes == s.chans[ck].modes.(ops := s.chans[ck].modes.ops + {id})
    ensures var s' := Enrol(s, id, ck, c);
      && Inv(cfg, s') && Steady(s, s') && s'.where == s.where && Rec(s', id).info == Rec(s, id).info
      && Grows(s, s', id, founders, Rec(s, id).info.account)
  {
    hide Filed, Mirrored, MarksOk, QuitsOk, WelcomeOk, Steady, Founds, Grows;
    EnrolMirror(s, id, ck, c);
    MembershipKeeps(cfg, s, id, Rec(s, id).chans + {ck}, s.chans[ck := c.(members := c.members + {id})]);
    EnrolGrows(s, Enrol(s, id, ck, c), id, ck, c, founders, Rec(s, id).info.account);
  }

  lemma EnrolGrows(s: State, s': State, id: nat, ck: string, c: Chn, founders: map<string, string>, account: Option<string>)
    requires s'.chans == s.chans[ck := c.(members := c.members + {id})]
    requires ck in s.chans ==> c.members == s.chans[ck].members && c.createdAt == s.chans[ck].createdAt
    requires ck in s.chans && c.modes != s.chans[ck].modes ==>
      Founds(founders, ck, account) && c.modes == s.chans[ck].modes.(ops := s.chans[ck].modes.ops + {id})
    ensures Grows(s, s', id, founders, account)
  {
    hide Founds;
  }

  lemma WithdrawMirror(s: State, id: nat, ck: string)
    requires TablesOk(s) && id in s.where && ck in s.chans
    ensures var own := Rec(s, id).chans - {ck};
      Mirrored(Put(s, id, Rec(s, id).(chans := own)).users, s.where, s.chans[ck := WithoutMember(s.chans[ck], id)])
  {
    RecFacts(s, id);
  }

  lemma SmallerSet<T>(a: set<T>, x: T)
    ensures |a - {x}| <= |a|
  {
    if x in a {
      assert a == (a - {x}) + {x};
    } else {
      assert a - {x} == a;
    }
  }

  lemma TenAtMost(s: State, id: nat)
    requires TablesOk(s) && id in s.where
    ensures |Rec(s, id).chans| <= MaxChannels
  {
    hide Mirrored;
  }

  lemma WithdrawKeeps(cfg: Config, s: State, id: nat, ck: string)
    requires Inv(cfg, s) && id in s.where && ck in s.chans && id in s.chans[ck].members
    ensures var s' := Withdraw(s, id, ck); Inv(cfg, s') && Steady(s, s') && s'.where == s.where && Shrinks(s, s')
  {
    hide Filed, Mirrored, MarksOk, QuitsOk, WelcomeOk, SameQuits, SameStanding, NoNewMarks, Shrinks;
    RecFacts(s, id);
    TenAtMost(s, id);
    WithdrawMirror(s, id, ck);
    SmallerSet(Rec(s, id).chans, ck);
    MembershipKeeps(cfg, s, id, Rec(s, id).chans - {ck}, s.chans[ck := WithoutMember(s.chans[ck], id)]);
    WithdrawShrinks(s, id, ck);
  }

  lemma WithdrawShrinks(s: State, id: nat, ck: string)
    requires ck in s.chans && id in s.chans[ck].members && Ids(Withdraw(s, id, ck)) <= Ids(s)
    ensures Shrinks(s, Withdraw(s, id, ck))
  {
    hide RemoteMembers, Thinned, WithoutMember, Put;
    var s' := Withdraw(s, id, ck);
    WithdrawFrame(s, id, ck);
    WithoutThins(s.chans[ck], id, Ids(s'));
    ThinnedSelf(s, Ids(s'));
    SameStamp(s.chans[ck], id);
  }

  lemma WithdrawFrame(s: State, id: nat, ck: string)
    requires ck in s.chans
    ensures var s' := Withdraw(s, id, ck); s'.net == s.net && s'.chans == s.chans[ck := WithoutMember(s.chans[ck], id)]
  {
  }

  lemma SameStamp(c: Chn, id: nat)
    ensures WithoutMember(c, id).createdAt == c.createdAt
  {
  }

  lemma ThinnedSelf(s: State, here: set<nat>)
    ensures forall c :: c in s.chans ==> Thinned(s.chans[c], s.chans[c], here)
  {
  }

  lemma DropEmptyMirror(s: State)
    requires TablesOk(s)
    ensures Mirrored(s.users, s.where, DropEmpty(s).chans)
  {
  }

  lemma DropEmptyKeeps(cfg: Config, s: State)
    requires Inv(cfg, s)
    ensures Inv(cfg, DropEmpty(s)) && Steady(s, DropEmpty(s)) && Shrinks(s, DropEmpty(s))
  {
    hide Filed, Mirrored, WelcomeAll;
    DropEmptyMirror(s);
  }

  // ---- commands ----

  lemma JoinOneKeeps(cfg: Config, s: State, id: nat, raw: string, key: string, founders: map<string, string>, clock: nat)
    requires Inv(cfg, s) && id in s.where
    ensures var s' := JoinOne(s, id, raw, key, founders, clock);
      && Inv(cfg, s') && Steady(s, s') && s'.where == s.where && Rec(s', id).info == Rec(s, id).info
      && Grows(s, s', id, founders, Rec(s, id).info.account)
  {
    hide Filed, Mirrored, MarksOk, QuitsOk, WelcomeOk, Enrol, Barred, Founds, NormNick, ValidChannel, Steady, Grows;
    StaysSteady(s);
    GrowsSelf(s, id, founders, Rec(s, id).info.account);
    var ck, u := NormNick(raw), Rec(s, id);
    var founder := Founds(founders, ck, u.info.account);
    if |u.chans| < MaxChannels {
      if ck in s.chans {
        EnrolKeeps(cfg, s, id, ck, Admitting(s.chans[ck], id, founder), founders);
      } else {
        EnrolKeeps(cfg, s, id, ck, Created(raw, id, clock, ck !in founders || founder), founders);
      }
    }
  }

  lemma {:induction false} JoinAllKeeps(cfg: Config, s: State, id: nat, entries: seq<(string, string)>,
          founders: map<string, string>, clock: nat)
    requires Inv(cfg, s) && id in s.where
    ensures var s' := JoinAll(s, id, entries, founders, clock);
      Inv(cfg, s') && Steady(s, s') && Grows(s, s', id, founders, Rec(s, id).info.account)
    decreases |entries|
  {
    hide Filed, Mirrored, MarksOk, QuitsOk, WelcomeOk, JoinOne, OpsGrow, Founds;
    if entries == [] {
      GrowsSelf(s, id, founders, Rec(s, id).info.account);
    } else {
      JoinOneKeeps(cfg, s, id, entries[0].0, entries[0].1, founders, clock);
      var s1 := JoinOne(s, id, entries[0].0, entries[0].1, founders, clock);
      JoinAllKeeps(cfg, s1, id, entries[1..], founders, clock);
      SteadyTrans(s, s1, JoinAll(s, id, entries, founders, clock));
      GrowsTrans(s, s1, JoinAll(s, id, entries, founders, clock), id, founders, Rec(s, id).info.account);
    }
  }

  lemma GrowsSelf(s: State, id: nat, founders: map<string, string>, account: Option<string>)
    ensures Grows(s, s, id, founders, account)
  {
  }

  lemma PartOneKeeps(cfg: Config, s: State, id: nat, raw: string)
    requires Inv(cfg, s) && id in s.where
    ensures var s' := PartOne(s, id, raw); Inv(cfg, s') && Steady(s, s') && s'.where == s.where && Shrinks(s, s')
  {
    hide Filed, Mirrored, MarksOk, QuitsOk, WelcomeOk, Withdraw;
    StaysSteady(s);
    if NormNick(raw) in s.chans && id in s.chans[NormNick(raw)].members {
      WithdrawKeeps(cfg, s, id, NormNick(raw));
    }
  }

  lemma {:induction false} PartAllKeeps(cfg: Config, s: State, id: nat, names: seq<string>)
    requires Inv(cfg, s) && id in s.where
    ensures var s' := PartAll(s, id, names); Inv(cfg, s') && Steady(s, s') && Shrinks(s, s')
    decreases |names|
  {
    hide Filed, Mirrored, MarksOk, QuitsOk, WelcomeOk, PartOne;
    if names != [] {
      PartOneKeeps(cfg, s, id, names[0]);
      var s1 := PartOne(s, id, names[0]);
      PartAllKeeps(cfg, s1, id, names[1..]);
      SteadyTrans(s, s1, PartAll(s, id, names));
      ShrinksTrans(s, s1, PartAll(s, id, names));
    }
  }

  lemma PartKeeps(cfg: Config, s: State, id: nat, names: seq<string>)
    requires Inv(cfg, s) && id in s.where
    ensures var s' := HandlePart(s, id, names); Inv(cfg, s') && Steady(s, s') && Shrinks(s, s')
  {
    hide Filed, Mirrored, MarksOk, QuitsOk, WelcomeOk, PartAll, DropEmpty, Shrinks, Steady;
    PartAllKeeps(cfg, s, id, names);
    DropEmptyKeeps(cfg, PartAll(s, id, names));
    SteadyTrans(s, PartAll(s, id, names), HandlePart(s, id, names));
    ShrinksTrans(s, PartAll(s, id, names), HandlePart(s, id, names));
  }

  lemma StaysSteady(s: State)
    ensures Steady(s, s) && Shrinks(s, s)
  {
  }

  lemma KickKeeps(cfg: Config, s: State, id: nat, raw: string, target: string, now: nat)
    requires Inv(cfg, s)
    ensures var s' := HandleKick(s, id, raw, target, now); Inv(cfg, s') && Steady(s, s') && Shrinks(s, s')
  {
    hide Filed, MarksOk, QuitsOk, WelcomeOk, Withdraw, DropEmpty, Shrinks, Steady, Lookup;
    StaysSteady(s);
    var ck := NormNick(raw);
    var t := Lookup(s, NormNick(target), now);
    if ck in s.chans && t.Some? && t.value.id in s.chans[ck].members {
      var s1 := Withdraw(s, t.value.id, ck);
      WithdrawKeeps(cfg, s, t.value.id, ck);
      DropEmptyKeeps(cfg, s1);
      SteadyTrans(s, s1, DropEmpty(s1));
      ShrinksTrans(s, s1, DropEmpty(s1));
    }
  }

  // ---- link events ----

  /** Only the channel table and the network move, and no membership does. */
  lemma SameMembersKeep(cfg: Config, s: State, s': State)
    requires Inv(cfg, s) && s' == s.(chans := s'.chans, net := s'.net)
    requires forall c :: c in s.chans ==> c in s'.chans && s'.chans[c].members == s.chans[c].members
    requires forall c :: c in s'.chans && c !in s.chans ==> s'.chans[c].members == {}
    ensures Inv(cfg, s') && Ids(s') == Ids(s) && SameQuits(s, s') && SameStanding(s, s') && NoNewMarks(s, s')
  {
    hide Filed, WelcomeAll;
  }

  /**
   * A channel that is new begins with the timestamp it is introduced with, empty and without modes; of one that is
   * known the older timestamp wins, and modes are wiped exactly when ours was younger. No other channel moves.
   */
  ghost predicate Adopts(chans: map<string, Chn>, chans': map<string, Chn>, chan: string, ts: nat) {
    var ck := NormNick(chan);
    && chans'.Keys == chans.Keys + {ck} && (forall c :: c in chans && c != ck ==> chans'[c] == chans[c])
    && (ck !in chans ==> chans'[ck] == Chn(chan, ts, NoModes, {}, {}))
    && (ck in chans ==> chans'[ck] == chans[ck].(createdAt := Min(chans[ck].createdAt, ts),
                                                 modes := if ts < chans[ck].createdAt then NoModes else chans[ck].modes))
  }

  lemma AdoptIs(chans: map<string, Chn>, chan: string, ts: nat)
    ensures Adopts(chans, Adopt(chans, chan, ts), chan, ts)
  {
    hide NormNick;
  }

  /** An introduced channel moves the channel table as `Adopts` says and keeps the invariant. */
  lemma AdoptKeeps(cfg: Config, s: State, chan: string, ts: nat, members: seq<string>)
    requires Inv(cfg, s)
    ensures var s' := ChannelJoin(s, chan, ts, members);
      && Inv(cfg, s') && Ids(s') == Ids(s) && s'.seen == s.seen
      && SameQuits(s, s') && SameStanding(s, s') && NoNewMarks(s, s') && Adopts(s.chans, s'.chans, chan, ts)
  {
    hide Filed, Mirrored, MarksOk, QuitsOk, WelcomeOk, EnterRemote, SameQuits, SameStanding, NoNewMarks, Adopt, NormNick;
    AdoptIs(s.chans, chan, ts);
    SameMembersKeep(cfg, s, ChannelJoin(s, chan, ts, members));
  }
}
