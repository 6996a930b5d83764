/** How channels begin, and what their timestamps are from then on. */
module ServerOrigins {
  import opened Basics
  import opened Names
  import opened ServerModel
  import opened ServerInvariant
  import opened ServerDepartures
  import opened ServerChannels
  import opened ServerSteps
  import opened ServerRuns
  import N = Network

  // ---- channels created by JOIN ----

  /** A registered channel, or not, by the registry; only its founder is made operator of a registered one. */
  predicate MadeOperator(founders: map<string, string>, c: string, account: Option<string>) {
    c in founders ==> account.Some? && NormNick(account.value) == NormNick(founders[c])
  }

  /** A channel as its first member leaves it. */
  function Opened(name: string, id: nat, clock: nat, op: bool): Chn {
    Chn(name, clock, NoModes.(ops := if op then {id} else {}), {}, {id})
  }

  ghost predicate Opens(entries: seq<(string, string)>, founders: map<string, string>, account: Option<string>,
          id: nat, clock: nat,
                        c: string, chan: Chn, i: nat) {
    && i < |entries| && ValidChannel(entries[i].0) && NormNick(entries[i].0) == c
    && chan == Opened(entries[i].0, id, clock, MadeOperator(founders, c, account))
  }

  lemma EnrolChans(s: State, id: nat, ck: string, c: Chn)
    ensures Enrol(s, id, ck, c).chans == s.chans[ck := c.(members := c.members + {id})]
  {
  }

  /** A channel one is in already is left alone by further joins. */
  lemma {:induction false} JoinLeavesOwn(s: State, id: nat, entries: seq<(string, string)>, founders: map<string,
          string>, clock: nat, c: string)
    requires c in s.chans && id in s.chans[c].members
    ensures var s' := JoinAll(s, id, entries, founders, clock); c in s'.chans && s'.chans[c] == s.chans[c]
    decreases |entries|
  {
    hide JoinOne;
    if entries != [] {
      JoinLeavesIt(s, id, entries[0].0, entries[0].1, founders, clock, c);
      JoinLeavesOwn(JoinOne(s, id, entries[0].0, entries[0].1, founders, clock), id, entries[1..], founders, clock, c);
    }
  }

  lemma JoinLeavesIt(s: State, id: nat, raw: string, key: string, founders: map<string, string>, clock: nat, c: string)
    requires c in s.chans && id in s.chans[c].members
    ensures var s' := JoinOne(s, id, raw, key, founders, clock); c in s'.chans && s'.chans[c] == s.chans[c]
  {
    hide Enrol, Barred, NormNick, ValidChannel, Founds;
    var ck, u := NormNick(raw), Rec(s, id);
    var founder := Founds(founders, ck, u.info.account);
    EnrolChans(s, id, ck, Created(raw, id, clock, ck !in founders || founder));
    if ck in s.chans {
      EnrolChans(s, id, ck, Admitting(s.chans[ck], id, founder));
    }
  }

  lemma JoinOpens(s: State, id: nat, raw: string, key: string, founders: map<string, string>, clock: nat, c: string)
    requires c !in s.chans
    ensures var s', account := JoinOne(s, id, raw, key, founders, clock), Rec(s, id).info.account;
      c in s'.chans ==> ValidChannel(raw) && NormNick(raw) == c && s'.chans[c] == Opened(raw, id, clock, MadeOperator(founders, c, account))
  {
    hide Enrol, Barred, NormNick, ValidChannel;
    var ck, u := NormNick(raw), Rec(s, id);
    var founder := Founds(founders, ck, u.info.account);
    EnrolChans(s, id, ck, Created(raw, id, clock, ck !in founders || founder));
    if ck in s.chans {
      EnrolChans(s, id, ck, Admitting(s.chans[ck], id, founder));
    }
  }

  lemma {:induction false} JoinAllOpens(cfg: Config, s: State, id: nat, entries: seq<(string, string)>,
          founders: map<string, string>, clock: nat, c: string)
    returns (i: nat)
    requires Inv(cfg, s) && id in s.where && c !in s.chans && c in JoinAll(s, id, entries, founders, clock).chans
    ensures Opens(entries, founders, Rec(s, id).info.account, id, clock, c, JoinAll(s, id, entries, founders, clock).chans[c], i)
    decreases |entries|
  {
    hide Inv, JoinOne, NormNick, ValidChannel, MadeOperator, Steady, Grows;
    var e := entries[0];
    var s1 := JoinOne(s, id, e.0, e.1, founders, clock);
    JoinOpens(s, id, e.0, e.1, founders, clock, c);
    if c in s1.chans {
      i := 0;
      JoinLeavesOwn(s1, id, entries[1..], founders, clock, c);
    } else {
      JoinOneKeeps(cfg, s, id, e.0, e.1, founders, clock);
      i := JoinAllOpens(cfg, s1, id, entries[1..], founders, clock, c);
      i := i + 1;
    }
  }

  lemma StepJoins(s: State, cfg: Config, now: nat, e: Event)
    requires e.JoinCmd?
    ensures var t := Touch(s, e.id, now);
      Step(s, cfg, now, e) == if Registered(t, e.id) && e.list.Some?
        then JoinAll(t, e.id, JoinEntries(e.list.value, e.keys), e.founders, e.clock) else t
  {
    hide Touch, JoinAll, JoinEntries, Registered;
  }

  /** The entry by which a JOIN created the channel, with the clock as its timestamp. */
  ghost predicate OpenedBy(s: State, e: Event, c: string, chan: Chn) {
    && e.JoinCmd? && e.list.Some? && e.id in s.where
    && exists i :: Opens(JoinEntries(e.list.value, e.keys), e.founders, Rec(s, e.id).info.account, e.id, e.clock, c, chan, i)
  }

  lemma JoinBegins(cfg: Config, s: State, now: nat, e: Event, c: string)
    requires Inv(cfg, s) && e.JoinCmd? && c !in s.chans && c in Step(s, cfg, now, e).chans
    ensures OpenedBy(s, e, c, Step(s, cfg, now, e).chans[c])
  {
    hide Filed, Mirrored, MarksOk, QuitsOk, WelcomeOk, Touch, JoinAll, JoinEntries, Opens, Calm, Step, Rec;
    StepJoins(s, cfg, now, e);
    var t := Touch(s, e.id, now);
    TouchKeeps(cfg, s, e.id, now);
    TouchedWhere(s, e.id, now);
    assert t.chans == s.chans;
    RecFacts(t, e.id);
    var i := JoinAllOpens(cfg, t, e.id, JoinEntries(e.list.value, e.keys), e.founders, e.clock, c);
  }

  lemma TouchedWhere(s: State, id: nat, now: nat)
    ensures Touch(s, id, now).where == s.where && Touch(s, id, now).chans == s.chans
  {
  }

  // ---- channels entered by JOIN ----

  /** The account is the one the channel is registered to. */
  predicate IsFounder(founders: map<string, string>, c: string, account: Option<string>) {
    c in founders && account.Some? && NormNick(account.value) == NormNick(founders[c])
  }

  /** A channel as a new member leaves it: with the invitation used up, and with its founder an operator again. */
  function Admitted(c: Chn, id: nat, founder: bool): Chn {
    c.(members := c.members + {id}, invites := c.invites - {id},
       modes := if founder then c.modes.(ops := c.modes.ops + {id}) else c.modes)
  }

  lemma JoinAdmits(s: State, id: nat, raw: string, key: string, founders: map<string, string>, clock: nat, c: string)
    requires c in s.chans
    ensures var s', founder := JoinOne(s, id, raw, key, founders, clock), IsFounder(founders, c, Rec(s, id).info.account);
      c in s'.chans && (s'.chans[c] == s.chans[c] || s'.chans[c] == Admitted(s.chans[c], id, founder))
  {
    hide Enrol, Barred, NormNick, ValidChannel;
    var ck, u := NormNick(raw), Rec(s, id);
    var founder := Founds(founders, ck, u.info.account);
    EnrolChans(s, id, ck, Created(raw, id, clock, ck !in founders || founder));
    if ck in s.chans {
      EnrolChans(s, id, ck, Admitting(s.chans[ck], id, founder));
    }
  }

  lemma {:induction false} JoinAllAdmits(cfg: Config, s: State, id: nat, entries: seq<(string, string)>,
          founders: map<string, string>, clock: nat, c: string)
    requires Inv(cfg, s) && id in s.where && c in s.chans && id !in s.chans[c].members
    ensures var s', founder := JoinAll(s, id, entries, founders, clock), IsFounder(founders, c, Rec(s, id).info.account);
      c in s'.chans && (s'.chans[c] == s.chans[c] || s'.chans[c] == Admitted(s.chans[c], id, founder))
    decreases |entries|
  {
    hide Inv, JoinOne, IsFounder, Steady, Grows;
    if entries != [] {
      var e := entries[0];
      var s1 := JoinOne(s, id, e.0, e.1, founders, clock);
      JoinAdmits(s, id, e.0, e.1, founders, clock, c);
      JoinOneKeeps(cfg, s, id, e.0, e.1, founders, clock);
      if id in s1.chans[c].members {
        JoinLeavesOwn(s1, id, entries[1..], founders, clock, c);
      } else {
        JoinAllAdmits(cfg, s1, id, entries[1..], founders, clock, c);
      }
    }
  }

  /** In every run a JOIN leaves a channel its sender was not in as it was, or as a channel the sender has entered. */
  lemma EntryRecorded(sid: string, cfg: Config, es: Trace, k: nat, c: string)
    requires Feasible(sid, cfg, es) && k < |es| && es[k].1.JoinCmd?
    requires var s := At(sid, cfg, es, k); c in s.chans && es[k].1.id !in s.chans[c].members
    ensures var s, s', e := At(sid, cfg, es, k), At(sid, cfg, es, k + 1), es[k].1;
      var founder := IsFounder(e.founders, c, Rec(s, e.id).info.account);
      c in s'.chans && (s'.chans[c] == s.chans[c] || s'.chans[c] == Admitted(s.chans[c], e.id, founder))
  {
    hide Filed, Mirrored, MarksOk, QuitsOk, WelcomeOk, Step, Moves, Leavers, Enabled, Touch, JoinAll, JoinEntries,
      IsFounder, Calm, Rec;
    StepAt(sid, cfg, es, k);
    var s, e := At(sid, cfg, es, k), es[k].1;
    StepJoins(s, cfg, es[k].0, e);
    var t := Touch(s, e.id, es[k].0);
    TouchKeeps(cfg, s, e.id, es[k].0);
    TouchedWhere(s, e.id, es[k].0);
    if Registered(t, e.id) && e.list.Some? {
      RecFacts(t, e.id);
      JoinAllAdmits(cfg, t, e.id, JoinEntries(e.list.value, e.keys), e.founders, e.clock, c);
    }
  }

  // ---- every beginning ----

  /**
   * In every run a channel begins in one of two ways. Introduced over a link it has the timestamp given, no modes and
   * no local members. Created by JOIN it has the clock as its timestamp, its creator as only member, and no modes but
   * that the creator is operator, unless the channel is registered to somebody else.
   */
  lemma ChannelBegins(sid: string, cfg: Config, es: Trace, k: nat, c: string)
    requires Feasible(sid, cfg, es) && k < |es| && c !in At(sid, cfg, es, k).chans && c in At(sid, cfg, es, k + 1).chans
    ensures var s, chan := At(sid, cfg, es, k), At(sid, cfg, es, k + 1).chans[c];
      Introduces(es[k].1, c, chan) || OpenedBy(s, es[k].1, c, chan)
  {
    hide Inv, Step, Leavers, IdsMove, QuitsMove, MarksMove, StandingMove, Enabled, OpenedBy, Introduces, ModesMove,
      HasMember, Stamped;
    StepAt(sid, cfg, es, k);
    if es[k].1.JoinCmd? {
      JoinBegins(cfg, At(sid, cfg, es, k), es[k].0, es[k].1, c);
    }
  }

  lemma {:induction false} EnteredRemote(n: N.Net, ck: string, members: seq<string>, c: string)
    ensures var n' := EnterRemote(n, ck, members);
      && n'.users.Keys == n.users.Keys
      && RemoteMembers(n', c) == RemoteMembers(n, c) + if c == ck then set u | u in members && u in n.users else {}
    decreases |members|
  {
    hide RemoteMembers, N.SetChans;
    if members != [] {
      var n1 := if members[0] in n.users then N.SetChans(n, members[0], n.users[members[0]].chans + {ck}) else n;
      EnteredRemote(n1, ck, members[1..], c);
      OneEntered(n, ck, members[0], c);
      assert (set u | u in members && u in n.users) == (set u | u in members[1..] && u in n.users) + if members[0] in n.users then {members[0]} else {};
    }
  }

  lemma OneEntered(n: N.Net, ck: string, uuid: string, c: string)
    ensures uuid in n.users ==>
      var n' := N.SetChans(n, uuid, n.users[uuid].chans + {ck});
      n'.users.Keys == n.users.Keys && RemoteMembers(n', c) == RemoteMembers(n, c) + if c == ck then {uuid} else {}
  {
  }

  /**
   * In every run an introduced channel is there afterwards, new or with the older of the two timestamps, and exactly
   * the listed users who are known have been added to its remote members.
   */
  lemma IntroductionTakesEffect(sid: string, cfg: Config, es: Trace, k: nat, c: string)
    requires Feasible(sid, cfg, es) && k < |es| && es[k].1.ChannelJoined?
    ensures var s, s', e := At(sid, cfg, es, k), At(sid, cfg, es, k + 1), es[k].1;
      && Adopts(s.chans, s'.chans, e.chan, e.ts)
      && RemoteMembers(s'.net, c) == RemoteMembers(s.net, c) + if c == NormNick(e.chan) then set u | u in e.members && u in s.net.users else {}
  {
    hide Inv, Step, Moves, Leavers, Enabled, Adopt, EnterRemote, RemoteMembers, NormNick, Adopts;
    StepAt(sid, cfg, es, k);
    var s, e := At(sid, cfg, es, k), es[k].1;
    StepAdopts(cfg, s, es[k].0, e);
    AdoptIs(s.chans, e.chan, e.ts);
    EnteredRemote(s.net, NormNick(e.chan), e.members, c);
  }

  // ---- timestamps from the beginning ----

  /** In step `k` the channel is given this timestamp: by an introduction, or by the JOIN that creates it. */
  ghost predicate Stamps(sid: string, cfg: Config, es: Trace, k: nat, c: string, ts: nat) {
    Introduced(es, k, c, ts) || (k < |es| && c !in At(sid, cfg, es, k).chans && es[k].1.JoinCmd? && es[k].1.clock == ts)
  }

  /**
   * From the step that creates a channel on, for as long as somebody is in it, its timestamp is the least it has been
   * given since, the first one included.
   */
  lemma TimestampFromTheStart(sid: string, cfg: Config, es: Trace, a: nat, b: nat, c: string)
    requires Feasible(sid, cfg, es) && a < b <= |es| && c !in At(sid, cfg, es, a).chans && c in At(sid, cfg, es, a + 1).chans
    requires forall k :: a + 1 < k <= b ==> HasMember(At(sid, cfg, es, k), c)
    ensures c in At(sid, cfg, es, b).chans
    ensures var ts := At(sid, cfg, es, b).chans[c].createdAt;
      && (forall k, t :: a <= k < b && Stamps(sid, cfg, es, k, c, t) ==> ts <= t)
      && exists k :: a <= k < b && Stamps(sid, cfg, es, k, c, ts)
  {
    hide Feasible, Run, HasMember;
    ChannelBegins(sid, cfg, es, a, c);
    var first := At(sid, cfg, es, a + 1).chans[c].createdAt;
    assert Stamps(sid, cfg, es, a, c, first) && forall t :: Stamps(sid, cfg, es, a, c, t) ==> t == first;
    TimestampIsMinimum(sid, cfg, es, a + 1, b, c);
    var ts := At(sid, cfg, es, b).chans[c].createdAt;
    forall k, t | a <= k < b && Stamps(sid, cfg, es, k, c, t) ensures ts <= t {
      if k > a {
        TimestampIsMinimum(sid, cfg, es, a + 1, k, c);
      }
    }
    if ts != first {
      var k :| a + 1 <= k < b && Introduced(es, k, c, ts);
      assert Stamps(sid, cfg, es, k, c, ts);
    }
  }
}
