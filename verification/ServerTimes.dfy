/** Liveness stamps and pings: who has been silent since when, and who is evicted for it. */
module ServerTimes {
  import opened Basics
  import opened Names
  import opened ServerModel
  import opened ServerInvariant
  import opened ServerRegistration
  import opened ServerDepartures
  import opened ServerChannels
  import opened ServerSteps
  import opened ServerRuns
  import opened ServerEffects
  import opened ServerReclaim
  import M = ServerMembers

  predicate SameAge(a: Cx, b: Cx) {
    a.info.lastRx == b.info.lastRx && a.info.connectedAt == b.info.connectedAt
  }

  /** Nobody comes, and whoever stays keeps the stamps of its last line and its arrival. */
  ghost predicate Ages(s: State, s': State) {
    Ids(s') <= Ids(s) && forall i :: i in Ids(s') ==> SameAge(Rec(s', i), Rec(s, i))
  }

  lemma AgesTrans(a: State, b: State, c: State)
    requires Ages(a, b) && Ages(b, c)
    ensures Ages(a, c)
  {
    hide Rec;
  }

  lemma SameTablesAge(s: State, s': State)
    requires s'.users == s.users && s'.unreg == s.unreg && s'.where == s.where
    ensures Ages(s, s')
  {
  }

  lemma PutAges(s: State, id: nat, cx: Cx)
    requires TablesOk(s) && id in Ids(s) && SameAge(cx, Rec(s, id))
    ensures Ages(s, Put(s, id, cx))
  {
    hide Filed, Mirrored, Put, Rec;
    PutRec(s, id, cx);
  }

  // ---- registration ----

  lemma CompleteAges(cfg: Config, s: State, id: nat, nick: string, user: string)
    requires Inv(cfg, s) && id in s.unreg
    ensures Ages(s, Complete(s, id, nick, user))
  {
    hide Inv, Complete, NormNick, Rec;
    if NormNick(nick) in s.users {
      CompleteTaken(s, id, nick, user);
      SameTablesAge(s, Deliver(s, id, InUse(nick)));
    } else {
      WaitingFacts(cfg, s, id);
      CompleteFiles(s, id, nick, user);
      var s' := Complete(s, id, nick, user);
      EnlistedAges(cfg, s, s', id, NormNick(nick), Enlisted(s.unreg[id], nick, user));
    }
  }

  lemma EnlistedAges(cfg: Config, s: State, s': State, id: nat, key: string, u: Cx)
    requires Inv(cfg, s) && id in s.unreg && id !in s.where && key !in s.users && SameAge(u, s.unreg[id])
    requires s'.where == s.where[id := key] && s'.unreg == s.unreg - {id} && s'.users == s.users[key := u]
    ensures Ages(s, s')
  {
    hide Mirrored, MarksOk, QuitsOk, WelcomeOk;
  }

  lemma MaybeCompleteAges(cfg: Config, s: State, id: nat, now: nat)
    requires Inv(cfg, s)
    ensures Ages(s, MaybeComplete(s, cfg, id, now))
  {
    hide Inv, Complete, IssueChallenge, Lookup, Ages;
    SameTablesAge(s, s);
    if id !in s.unreg {
      NotReady(cfg, s, id, now);
    } else {
      WaitingFacts(cfg, s, id);
      IssuedAges(cfg, s, id);
      if s.unreg[id].info.pendingNick.Some? && s.unreg[id].info.pendingUser.Some? {
        CompleteAges(cfg, s, id, s.unreg[id].info.pendingNick.value, s.unreg[id].info.pendingUser.value);
      }
    }
  }

  lemma IssuedAges(cfg: Config, s: State, id: nat)
    requires Inv(cfg, s) && id in s.unreg
    ensures Ages(s, IssueChallenge(s, id))
  {
    hide Filed, Mirrored, MarksOk, QuitsOk, WelcomeOk, Put, Ages;
    WaitingFacts(cfg, s, id);
    var s1, u := Deliver(s, id, Challenge), s.unreg[id].(gate := s.unreg[id].gate.(challenged := true));
    SameTablesAge(s, s1);
    PutAges(s1, id, u);
    AgesTrans(s, s1, Put(s1, id, u));
  }

  /** A record rewritten, and the pairing tried. */
  lemma PutThenAges(cfg: Config, s: State, id: nat, u: Cx, now: nat)
    requires Inv(cfg, s) && id in Ids(s) && SameAge(u, Rec(s, id)) && Inv(cfg, Put(s, id, u))
    ensures Ages(s, MaybeComplete(Put(s, id, u), cfg, id, now))
  {
    hide Filed, Mirrored, MarksOk, QuitsOk, WelcomeOk, Put, Ages, MaybeComplete;
    PutAges(s, id, u);
    MaybeCompleteAges(cfg, Put(s, id, u), id, now);
    AgesTrans(s, Put(s, id, u), MaybeComplete(Put(s, id, u), cfg, id, now));
  }

  lemma RenameAges(s: State, id: nat, nick: string, now: nat)
    requires TablesOk(s) && Registered(s, id) && NormNick(nick) !in s.users
    ensures Ages(s, ApplyRename(s, id, nick, now))
  {
    hide Filed, Mirrored, ApplyRename, NormNick, Rec;
    RenameRec(s, id, nick, now);
  }

  lemma NickAges(cfg: Config, s: State, id: nat, nick: Option<string>, now: nat)
    requires Inv(cfg, s) && id in Ids(s)
    ensures Ages(s, HandleNick(s, cfg, id, nick, now))
  {
    hide Filed, Mirrored, MarksOk, QuitsOk, WelcomeOk, Ages, NickPairing, BeginReclaim, ApplyRename, NormNick,
      ValidNick, IsServiceName, LooksStale;
    SameTablesAge(s, s);
    if nick.Some? {
      SameTablesAge(s, Deliver(s, id, InUse(nick.value)));
      if Registered(s, id) {
        var key := NormNick(nick.value);
        if key in s.users {
          BegunFrame(cfg, s, s.users[key].id, [], [(id, nick.value)], now);
          SameTablesAge(s, BeginReclaim(s, cfg, s.users[key].id, [], [(id, nick.value)], now));
        } else {
          RenameAges(s, id, nick.value, now);
          var s1 := ApplyRename(s, id, nick.value, now);
          SameTablesAge(s1, s1.(log := s1.log + RenamedLines(s1, id, nick.value)));
          AgesTrans(s, s1, s1.(log := s1.log + RenamedLines(s1, id, nick.value)));
        }
      } else {
        PairingAges(cfg, s, id, nick.value, now);
      }
    }
  }

  lemma FilledAges(cfg: Config, s: State, id: nat, nick: string, now: nat)
    requires Inv(cfg, s) && id in Ids(s)
    ensures Ages(s, MaybeComplete(Put(s, id, Rec(s, id).(info := Rec(s, id).info.(pendingNick := Some(nick)))), cfg, id, now))
  {
    hide Inv, Put, Ages, MaybeComplete, Reclaims, Rec;
    FillKeeps(cfg, s, id, nick, now);
    PutThenAges(cfg, s, id, Rec(s, id).(info := Rec(s, id).info.(pendingNick := Some(nick))), now);
  }

  lemma PairingAges(cfg: Config, s: State, id: nat, nick: string, now: nat)
    requires Inv(cfg, s) && id in Ids(s)
    ensures Ages(s, NickPairing(s, cfg, id, nick, now))
  {
    hide Filed, Mirrored, MarksOk, QuitsOk, WelcomeOk, Put, Ages, MaybeComplete, BeginReclaim, Lookup, NormNick,
      LooksStale, Reclaims;
    SameTablesAge(s, Deliver(s, id, InUse(nick)));
    var occ := Lookup(s, NormNick(nick), now);
    if occ.Some? && occ.value.id != id {
      LookupLive(s, NormNick(nick), now);
      if LooksStale(s, cfg, occ.value.id, now) {
        var s1 := BeginReclaim(s, cfg, occ.value.id, [(id, nick)], [], now);
        BeginReclaimKeeps(cfg, s, occ.value.id, [(id, nick)], [], now, id, nick);
        SameTablesAge(s, s1);
        FilledAges(cfg, s1, id, nick, now);
        AgesTrans(s, s1, NickPairing(s, cfg, id, nick, now));
      }
    } else {
      FilledAges(cfg, s, id, nick, now);
    }
  }

  lemma UserAges(cfg: Config, s: State, id: nat, user: Option<string>, now: nat)
    requires Inv(cfg, s)
    ensures Ages(s, HandleUser(s, cfg, id, user, now))
  {
    hide Filed, Mirrored, MarksOk, QuitsOk, WelcomeOk, Put, Ages, MaybeComplete, Calm, Rec;
    SameTablesAge(s, s);
    if !Registered(s, id) && user.Some? && id in Ids(s) {
      var part := if |user.value| > MaxUserLen then user.value[..MaxUserLen] else user.value;
      var u := Rec(s, id).(info := Rec(s, id).info.(pendingUser := Some(part)));
      RecWelcome(cfg, s, id);
      PutKeeps(cfg, s, id, u);
      PutThenAges(cfg, s, id, u, now);
    }
  }

  lemma CapAges(cfg: Config, s: State, id: nat, sub: CapSub)
    requires Inv(cfg, s)
    ensures Ages(s, HandleCap(s, id, sub))
  {
    hide Filed, Mirrored, MarksOk, QuitsOk, WelcomeOk, Put, Ages, Rec;
    SameTablesAge(s, s);
    if id in Ids(s) {
      var g := Rec(s, id).gate;
      PutAges(s, id, Rec(s, id).(gate := g.(negotiating := true)));
      PutAges(s, id, Rec(s, id).(gate := g.(negotiating := false)));
      var s1 := Put(s, id, Rec(s, id).(gate := g.(negotiating := false, gated := false)));
      PutAges(s, id, Rec(s, id).(gate := g.(negotiating := false, gated := false)));
      SameTablesAge(s1, SendWelcome(s1, id));
      AgesTrans(s, s1, SendWelcome(s1, id));
    }
  }

  lemma {:induction false} RefuseAllAges(s: State, held: seq<(nat, string)>)
    ensures Ages(s, RefuseAll(s, held))
  {
    RefuseAllTells(s, held, 0, "");
    SameTablesAge(s, RefuseAll(s, held));
  }

  lemma PongAges(cfg: Config, s: State, id: nat, now: nat)
    requires Inv(cfg, s)
    ensures Ages(s, HandlePong(s, cfg, id, now))
  {
    hide Filed, Mirrored, MarksOk, QuitsOk, WelcomeOk, Put, Ages, MaybeComplete, RefuseAll, Rec, Answers;
    SameTablesAge(s, s);
    var w := s;
    if id in Ids(s) && !Rec(s, id).registered && Rec(s, id).gate.challenged && !Rec(s, id).gate.verified {
      VerifyKeeps(cfg, s, id);
      PutThenAges(cfg, s, id, Rec(s, id).(gate := Rec(s, id).gate.(verified := true)), now);
      w := MaybeComplete(Put(s, id, Rec(s, id).(gate := Rec(s, id).gate.(verified := true))), cfg, id, now);
    }
    if id in w.pings {
      var w1 := w.(pings := w.pings - {id});
      SameTablesAge(w, w1);
      AgesTrans(s, w, w1);
      if id in w1.marks {
        var w2 := w1.(marks := w1.marks - {id});
        SameTablesAge(w1, w2);
        AgesTrans(s, w1, w2);
        RefuseAllAges(w2, w1.marks[id].pairings + w1.marks[id].renames);
        AgesTrans(s, w2, HandlePong(s, cfg, id, now));
      }
    }
  }

  // ---- channels ----

  lemma EnrolAges(s: State, id: nat, ck: string, c: Chn)
    requires TablesOk(s) && id in Ids(s)
    ensures Ages(s, Enrol(s, id, ck, c))
  {
    hide Filed, Mirrored, Put, Ages, Rec;
    var s1 := Put(s, id, Rec(s, id).(chans := Rec(s, id).chans + {ck}));
    PutAges(s, id, Rec(s, id).(chans := Rec(s, id).chans + {ck}));
    SameTablesAge(s1, Enrol(s, id, ck, c));
    AgesTrans(s, s1, Enrol(s, id, ck, c));
  }

  lemma JoinOneAges(s: State, id: nat, raw: string, key: string, founders: map<string, string>, clock: nat)
    requires TablesOk(s)
    ensures Ages(s, JoinOne(s, id, raw, key, founders, clock))
  {
    hide Filed, Mirrored, Ages, Enrol, Barred, NormNick, ValidChannel, Founds;
    SameTablesAge(s, s);
    if id in Ids(s) {
      var ck := NormNick(raw);
      var founder := Founds(founders, ck, Rec(s, id).info.account);
      EnrolAges(s, id, ck, Created(raw, id, clock, ck !in founders || founder));
      if ck in s.chans {
        EnrolAges(s, id, ck, Admitting(s.chans[ck], id, founder));
      }
    }
  }

  lemma {:induction false} JoinAges(cfg: Config, s: State, id: nat, entries: seq<(string, string)>,
          founders: map<string, string>, clock: nat)
    requires Inv(cfg, s) && id in s.where
    ensures Ages(s, JoinAll(s, id, entries, founders, clock))
    decreases |entries|
  {
    hide Filed, Mirrored, MarksOk, QuitsOk, WelcomeOk, Ages, JoinOne, Steady, Grows;
    SameTablesAge(s, s);
    if entries != [] {
      var s1 := JoinOne(s, id, entries[0].0, entries[0].1, founders, clock);
      JoinOneAges(s, id, entries[0].0, entries[0].1, founders, clock);
      JoinOneKeeps(cfg, s, id, entries[0].0, entries[0].1, founders, clock);
      JoinAges(cfg, s1, id, entries[1..], founders, clock);
      AgesTrans(s, s1, JoinAll(s, id, entries, founders, clock));
    }
  }

  lemma WithdrawAges(s: State, id: nat, ck: string)
    requires TablesOk(s) && id in Ids(s) && ck in s.chans
    ensures Ages(s, Withdraw(s, id, ck))
  {
    hide Filed, Mirrored, Put, Ages, Rec, WithoutMember;
    var s1 := Put(s, id, Rec(s, id).(chans := Rec(s, id).chans - {ck}));
    PutAges(s, id, Rec(s, id).(chans := Rec(s, id).chans - {ck}));
    SameTablesAge(s1, Withdraw(s, id, ck));
    AgesTrans(s, s1, Withdraw(s, id, ck));
  }

  lemma {:induction false} PartAllAges(cfg: Config, s: State, id: nat, names: seq<string>)
    requires Inv(cfg, s) && id in s.where
    ensures Ages(s, PartAll(s, id, names))
    decreases |names|
  {
    hide Filed, Mirrored, MarksOk, QuitsOk, WelcomeOk, Ages, Withdraw, Steady, Shrinks, NormNick;
    SameTablesAge(s, s);
    if names != [] {
      var s1, ck := PartOne(s, id, names[0]), NormNick(names[0]);
      if ck in s.chans && id in s.chans[ck].members {
        WithdrawAges(s, id, ck);
      }
      PartOneKeeps(cfg, s, id, names[0]);
      PartAllAges(cfg, s1, id, names[1..]);
      AgesTrans(s, s1, PartAll(s, id, names));
    }
  }

  lemma DropAges(s: State)
    ensures Ages(s, DropEmpty(s))
  {
    hide Ages;
    SameTablesAge(s, DropEmpty(s));
  }

  lemma PartAges(cfg: Config, s: State, id: nat, names: seq<string>)
    requires Inv(cfg, s) && id in s.where
    ensures Ages(s, HandlePart(s, id, names))
  {
    hide Inv, Ages, PartAll, DropEmpty;
    PartAllAges(cfg, s, id, names);
    DropAges(PartAll(s, id, names));
    AgesTrans(s, PartAll(s, id, names), HandlePart(s, id, names));
  }

  lemma KickAges(cfg: Config, s: State, id: nat, raw: string, target: string, now: nat)
    requires Inv(cfg, s)
    ensures Ages(s, HandleKick(s, id, raw, target, now))
  {
    hide Filed, MarksOk, QuitsOk, WelcomeOk, Ages, Withdraw, DropEmpty, Lookup, NormNick;
    SameTablesAge(s, s);
    var ck, t := NormNick(raw), Lookup(s, NormNick(target), now);
    if ck in s.chans && t.Some? && t.value.id in s.chans[ck].members {
      var s1 := Withdraw(s, t.value.id, ck);
      WithdrawAges(s, t.value.id, ck);
      DropAges(s1);
      AgesTrans(s, s1, DropEmpty(s1));
    }
  }

  // ---- departures ----

  lemma RemovedAges(s: State, id: nat, lines: multiset<Sent>)
    requires TablesOk(s)
    ensures Ages(s, Removed(s, id, lines))
  {
    hide Filed, Mirrored, Removed, Rec;
    RemovedTables(s, id, lines);
    RemovedRec(s, id, lines);
  }

  lemma LoseAges(cfg: Config, s: State, id: nat)
    requires TablesOk(s)
    ensures Ages(s, LoseAndEvict(s, id)) && Ages(s, CleanupOnEof(s, id))
  {
    hide Filed, Mirrored, Ages, Removed, LoseAndEvict, QuitLines, Evict, DropEmpty, Eject;
    SameTablesAge(s, s);
    LoseIsRemoved(s, id);
    RemovedAges(s, id, QuitLines(s, id));
    RemovedAges(s, id, multiset{});
  }

  lemma {:induction false} LoseAllAges(cfg: Config, s: State, order: seq<nat>)
    requires Inv(cfg, s)
    ensures Ages(s, LoseAll(s, order))
    decreases |order|
  {
    hide Filed, Mirrored, MarksOk, QuitsOk, WelcomeOk, Ages, LoseAndEvict, Leaves;
    SameTablesAge(s, s);
    if order != [] {
      LoseAges(cfg, s, order[0]);
      LoseLeaves(cfg, s, order[0]);
      LoseAllAges(cfg, LoseAndEvict(s, order[0]), order[1..]);
      AgesTrans(s, LoseAndEvict(s, order[0]), LoseAll(s, order));
    }
  }

  lemma PingedAges(cfg: Config, s: State, id: nat, s0: State)
    requires Inv(cfg, s)
    requires s0 == s.(pings := s.pings - {id}) || s0 == s.(pings := s.pings - {id}, marks := s.marks - {id})
    ensures Ages(s, LoseAndEvict(s0, id)) && Inv(cfg, LoseAndEvict(s0, id))
  {
    hide Filed, Mirrored, MarksOk, QuitsOk, WelcomeOk, Ages, LoseAndEvict, Leaves;
    SameTablesAge(s, s0);
    LoseAges(cfg, s0, id);
    AgesTrans(s, s0, LoseAndEvict(s0, id));
    LosePinged(cfg, s, id, s0);
  }

  lemma {:induction false} ExpireAges(cfg: Config, s: State, order: seq<nat>)
    requires Inv(cfg, s)
    ensures Ages(s, ExpirePings(s, order))
    decreases |order|
  {
    hide Inv, Ages, LoseAndEvict;
    SameTablesAge(s, s);
    if order != [] {
      var s0 := s.(pings := s.pings - {order[0]});
      PingedAges(cfg, s, order[0], s0);
      ExpireAges(cfg, LoseAndEvict(s0, order[0]), order[1..]);
      AgesTrans(s, LoseAndEvict(s0, order[0]), ExpirePings(s, order));
    }
  }

  lemma LivenessAges(cfg: Config, s: State, unregs: seq<nat>, pings: seq<nat>, now: nat)
    requires Inv(cfg, s)
    ensures Ages(s, Liveness(s, cfg, unregs, pings, now))
  {
    hide Inv, Ages, LoseAll, ExpirePings, Silent, Leaves;
    var s1 := LoseAll(s, unregs);
    var s2 := ExpirePings(s1, pings);
    LoseAllAges(cfg, s, unregs);
    LoseAllLeaves(cfg, s, unregs);
    ExpireAges(cfg, s1, pings);
    AgesTrans(s, s1, s2);
    SameTablesAge(s2, PingSilent(s2, cfg, now));
    AgesTrans(s, s2, PingSilent(s2, cfg, now));
  }

  lemma {:induction false} CompleteAllAges(cfg: Config, s: State, held: seq<(nat, string)>, now: nat)
    requires Inv(cfg, s)
    ensures Ages(s, CompleteAll(s, cfg, held, now))
    decreases |held|
  {
    hide Inv, Ages, MaybeComplete, Calm;
    SameTablesAge(s, s);
    if held != [] {
      var s1 := MaybeComplete(s, cfg, held[0].0, now);
      MaybeCompleteAges(cfg, s, held[0].0, now);
      MaybeCompleteKeeps(cfg, s, held[0].0, now);
      CompleteAllAges(cfg, s1, held[1..], now);
      AgesTrans(s, s1, CompleteAll(s, cfg, held, now));
    }
  }

  lemma {:induction false} RenameAllAges(cfg: Config, s: State, held: seq<(nat, string)>, now: nat)
    requires Inv(cfg, s)
    ensures Ages(s, RenameAll(s, held, now))
    decreases |held|
  {
    hide Filed, Mirrored, MarksOk, QuitsOk, WelcomeOk, Ages, ApplyRename, Calm, NormNick, ValidNick;
    SameTablesAge(s, s);
    if held != [] {
      var s1 := FinishRename(s, held[0].0, held[0].1, now);
      if Registered(s, held[0].0) && NormNick(held[0].1) !in s.users {
        RenameAges(s, held[0].0, held[0].1, now);
      }
      FinishRenameKeeps(cfg, s, held[0].0, held[0].1, now);
      RenameAllAges(cfg, s1, held[1..], now);
      AgesTrans(s, s1, RenameAll(s, held, now));
    }
  }

  lemma ResolveAges(cfg: Config, s: State, h: nat, now: nat)
    requires Inv(cfg, s) && h in s.marks
    ensures Ages(s, ResolveMark(s, cfg, h, now))
  {
    hide Inv, Ages, LoseAndEvict, CompleteAll, RenameAll, Calm;
    var s0 := s.(marks := s.marks - {h}, pings := s.pings - {h});
    var s1 := LoseAndEvict(s0, h);
    var s2 := CompleteAll(s1, cfg, s.marks[h].pairings, now);
    PingedAges(cfg, s, h, s0);
    CompleteAllAges(cfg, s1, s.marks[h].pairings, now);
    CompleteAllKeeps(cfg, s1, s.marks[h].pairings, now);
    AgesTrans(s, s1, s2);
    RenameAllAges(cfg, s2, s.marks[h].renames, now);
    AgesTrans(s, s2, ResolveMark(s, cfg, h, now));
  }

  lemma {:induction false} ResolveAllAges(cfg: Config, s: State, order: seq<nat>, now: nat)
    requires Inv(cfg, s)
    ensures Ages(s, ResolveMarks(s, cfg, order, now))
    decreases |order|
  {
    hide Inv, Ages, ResolveMark, Leaves;
    SameTablesAge(s, s);
    if order != [] {
      var s1 := if order[0] in s.marks then ResolveMark(s, cfg, order[0], now) else s;
      if order[0] in s.marks {
        ResolveAges(cfg, s, order[0], now);
        ResolveMarkLeaves(cfg, s, order[0], now);
      }
      ResolveAllAges(cfg, s1, order[1..], now);
      AgesTrans(s, s1, ResolveMarks(s, cfg, order, now));
    }
  }

  // ---- every step ----

  lemma CommandAges(cfg: Config, t: State, now: nat, e: Event)
    requires Inv(cfg, t) && IsCommand(e) && e.id in Ids(t)
    ensures Ages(t, Command(t, cfg, now, e))
  {
    hide Filed, Mirrored, MarksOk, QuitsOk, WelcomeOk, Ages, HandleNick, HandleUser, HandleCap, HandlePong, JoinAll,
      HandlePart, HandleKick,
      LoseAndEvict, Target, Put, Rec, JoinEntries, ChannelNames;
    SameTablesAge(t, t);
    RecFacts(t, e.id);
    match e {
      case NickCmd(id, nick) => NickAges(cfg, t, id, nick, now);
      case UserCmd(id, user) => UserAges(cfg, t, id, user, now);
      case CapCmd(id, sub) => CapAges(cfg, t, id, sub);
      case PongCmd(id) => PongAges(cfg, t, id, now);
      case ProfileCmd(id, account, host, oper) =>
        PutAges(t, id, Rec(t, id).(info := Rec(t, id).info.(account := account, host := host, oper := oper)));
      case JoinCmd(id, list, keys, founders, clock) =>
        if Registered(t, id) && list.Some? {
          JoinAges(cfg, t, id, JoinEntries(list.value, keys), founders, clock);
        }
      case PartCmd(id, list) =>
        if Registered(t, id) && list.Some? {
          PartAges(cfg, t, id, ChannelNames(list.value));
        }
      case KickCmd(id, chan, target) => KickAges(cfg, t, id, chan, target, now);
      case QuitCmd(id) => LoseAges(cfg, t, id);
      case KillCmd(id, target) =>
        if Target(t, id, target, now).Some? {
          LoseAges(cfg, t, Target(t, id, target, now).value);
        }
      case GhostCmd(id, target, _) =>
        if Target(t, id, target, now).Some? {
          LoseAges(cfg, t, Target(t, id, target, now).value);
        }
      case _ =>
    }
  }

  /** Whoever sends a command is stamped with its time; every other stamp stays. */
  ghost predicate Refreshed(s: State, s': State, now: nat, e: Event) {
    forall i :: i in Ids(s') && i in Ids(s) ==>
      && Rec(s', i).info.connectedAt == Rec(s, i).info.connectedAt
      && Rec(s', i).info.lastRx == if IsCommand(e) && e.id == i then now else Rec(s, i).info.lastRx
  }

  lemma AgesRefreshed(s: State, s': State, now: nat, e: Event)
    requires Ages(s, s') && (IsCommand(e) ==> e.id !in Ids(s))
    ensures Refreshed(s, s', now, e)
  {
    hide Rec;
  }

  lemma TouchedRefreshed(s: State, t: State, s': State, now: nat, e: Event)
    requires Ages(t, s') && Ids(t) == Ids(s) && IsCommand(e) && e.id in Ids(s)
    requires forall j :: j != e.id ==> Rec(t, j) == Rec(s, j)
    requires Rec(t, e.id) == Rec(s, e.id).(info := Rec(s, e.id).info.(lastRx := now))
    ensures Refreshed(s, s', now, e)
  {
    hide Rec;
  }

  lemma UnknownSender(cfg: Config, s: State, now: nat, e: Event)
    requires Inv(cfg, s) && IsCommand(e) && e.id !in Ids(s)
    ensures Ages(s, Step(s, cfg, now, e))
  {
    hide Filed, Mirrored, MarksOk, QuitsOk, WelcomeOk, Ages, Put, JoinAll, HandlePart, HandleKick, LoseAndEvict,
      Target, MaybeComplete, RefuseAll,
      NickPairing, ValidNick, IsServiceName;
    SameTablesAge(s, s);
    if e.NickCmd? && e.nick.Some? {
      StrangerAges(cfg, s, e.id, e.nick.value, now);
    } else if e.PongCmd? {
      PongAges(cfg, s, e.id, now);
    }
  }

  lemma StrangerAges(cfg: Config, s: State, id: nat, nick: string, now: nat)
    requires Inv(cfg, s) && id !in Ids(s)
    ensures Ages(s, NickPairing(s, cfg, id, nick, now))
  {
    hide Filed, Mirrored, MarksOk, QuitsOk, WelcomeOk, Ages, MaybeComplete, BeginReclaim, Lookup, NormNick, LooksStale,
      Reclaims;
    SameTablesAge(s, Deliver(s, id, InUse(nick)));
    MaybeCompleteAges(cfg, s, id, now);
    var occ := Lookup(s, NormNick(nick), now);
    if occ.Some? && occ.value.id != id && LooksStale(s, cfg, occ.value.id, now) {
      LookupLive(s, NormNick(nick), now);
      var s1 := BeginReclaim(s, cfg, occ.value.id, [(id, nick)], [], now);
      BeginReclaimKeeps(cfg, s, occ.value.id, [(id, nick)], [], now, id, nick);
      SameTablesAge(s, s1);
      MaybeCompleteAges(cfg, s1, id, now);
      AgesTrans(s, s1, NickPairing(s, cfg, id, nick, now));
    }
  }

  lemma StepStamps(cfg: Config, s: State, now: nat, e: Event)
    requires Inv(cfg, s) && Enabled(s, cfg, now, e)
    ensures Refreshed(s, Step(s, cfg, now, e), now, e)
  {
    hide Inv, Ages, Refreshed, Command, Touch, LoseAll, CleanupOnEof, ResolveMarks, Liveness, ChannelJoin, DropEmpty, Park;
    var s' := Step(s, cfg, now, e);
    if IsCommand(e) {
      if e.id in Ids(s) {
        TouchFrame(cfg, s, e.id, now);
        CommandAges(cfg, Touch(s, e.id, now), now, e);
        TouchedRefreshed(s, Touch(s, e.id, now), s', now, e);
      } else {
        UnknownSender(cfg, s, now, e);
        AgesRefreshed(s, s', now, e);
      }
    } else if e.Accepted? {
      AcceptedRefreshed(cfg, s, now, e);
    } else {
      TimerAges(cfg, s, now, e);
      AgesRefreshed(s, s', now, e);
    }
  }

  lemma AcceptedRefreshed(cfg: Config, s: State, now: nat, e: Event)
    requires Inv(cfg, s) && Enabled(s, cfg, now, e) && e.Accepted?
    ensures Refreshed(s, Step(s, cfg, now, e), now, e)
  {
    hide Inv, Step, Park, Rec;
    StepParks(cfg, s, now, e);
    AcceptedKeeps(cfg, s, now, e.id, e.host);
  }

  lemma TimerAges(cfg: Config, s: State, now: nat, e: Event)
    requires Inv(cfg, s) && !IsCommand(e) && !e.Accepted?
    ensures Ages(s, Step(s, cfg, now, e))
  {
    hide Filed, Mirrored, MarksOk, QuitsOk, WelcomeOk, Ages, LoseAll, CleanupOnEof, ResolveMarks, Liveness, DropEmpty;
    match e {
      case Purge(order) => LoseAllAges(cfg, s, order);
      case Eof(id) => LoseAges(cfg, s, id);
      case ReclaimTick(order) => ResolveAllAges(cfg, s, order, now);
      case LivenessTick(unregs, pings) => LivenessAges(cfg, s, unregs, pings, now);
      case Sweep => DropAges(s);
      case _ => SameTablesAge(s, Step(s, cfg, now, e));
    }
  }

  // ---- pings ----

  /** Lines are only ever added; a ping that is outstanding was so before, or was sent just now. */
  ghost predicate PingsMove(s: State, s': State, now: nat) {
    && s.log <= s'.log
    && forall h :: h in s'.pings ==>
         || (h in s.pings && s'.pings[h] == s.pings[h])
         || (s'.pings[h] == now && s'.log[Sent(h, Ping)] > s.log[Sent(h, Ping)])
  }

  lemma PingsTrans(a: State, b: State, c: State, now: nat)
    requires PingsMove(a, b, now) && PingsMove(b, c, now)
    ensures PingsMove(a, c, now)
  {
  }

  lemma SamePings(s: State, s': State, now: nat)
    requires s.log <= s'.log && s'.pings == s.pings
    ensures PingsMove(s, s', now)
  {
  }

  lemma FewerPings(s: State, s': State, h: nat, now: nat)
    requires s.log == s'.log && s'.pings == s.pings - {h}
    ensures PingsMove(s, s', now)
  {
  }

  lemma DeliverPings(s: State, id: nat, line: Line, now: nat)
    ensures PingsMove(s, Deliver(s, id, line), now)
  {
  }

  lemma PutPings(s: State, id: nat, u: Cx, now: nat)
    ensures PingsMove(s, Put(s, id, u), now)
  {
  }

  lemma CompletePings(s: State, id: nat, nick: string, user: string, now: nat)
    ensures PingsMove(s, Complete(s, id, nick, user), now)
  {
    hide NormNick, Put, PingsMove, Register;
    DeliverPings(s, id, InUse(nick), now);
    var s1 := Register(s, id, nick, user);
    RegisterPings(s, id, nick, user, now);
    DeliverPings(s1, id, Welcome, now);
    PutPings(s1, id, Rec(s1, id).(gate := Rec(s1, id).gate.(gated := true)), now);
    PingsTrans(s, s1, Deliver(s1, id, Welcome), now);
    PingsTrans(s, s1, Put(s1, id, Rec(s1, id).(gate := Rec(s1, id).gate.(gated := true))), now);
  }

  lemma RegisterPings(s: State, id: nat, nick: string, user: string, now: nat)
    ensures PingsMove(s, Register(s, id, nick, user), now)
  {
    hide NormNick;
  }

  lemma MaybeCompletePings(cfg: Config, s: State, id: nat, when: nat, now: nat)
    ensures PingsMove(s, MaybeComplete(s, cfg, id, when), now)
  {
    hide NormNick, Put, PingsMove, Complete, Lookup;
    SamePings(s, s, now);
    if Ready(s, id) {
      var u, s1 := Rec(s, id), Deliver(s, id, Challenge);
      DeliverPings(s, id, Challenge, now);
      PutPings(s1, id, u.(gate := u.gate.(challenged := true)), now);
      PingsTrans(s, s1, IssueChallenge(s, id), now);
      CompletePings(s, id, u.info.pendingNick.value, u.info.pendingUser.value, now);
    }
  }

  lemma PutThenPings(cfg: Config, s: State, id: nat, u: Cx, when: nat, now: nat)
    ensures PingsMove(s, MaybeComplete(Put(s, id, u), cfg, id, when), now)
  {
    hide Put, PingsMove, MaybeComplete;
    PutPings(s, id, u, now);
    MaybeCompletePings(cfg, Put(s, id, u), id, when, now);
    PingsTrans(s, Put(s, id, u), MaybeComplete(Put(s, id, u), cfg, id, when), now);
  }

  lemma BeginPings(s: State, cfg: Config, h: nat, pairings: seq<(nat, string)>, renames: seq<(nat, string)>, now: nat)
    requires h in Ids(s)
    ensures PingsMove(s, BeginReclaim(s, cfg, h, pairings, renames, now), now)
  {
  }

  lemma NickPings(cfg: Config, s: State, id: nat, nick: Option<string>, now: nat)
    requires Inv(cfg, s)
    ensures PingsMove(s, HandleNick(s, cfg, id, nick, now), now)
  {
    hide Filed, Mirrored, MarksOk, QuitsOk, WelcomeOk, PingsMove, NickPairing, BeginReclaim, ApplyRename, NormNick,
      ValidNick, IsServiceName, LooksStale, RenamedLines;
    SamePings(s, s, now);
    if nick.Some? {
      DeliverPings(s, id, InUse(nick.value), now);
      if Registered(s, id) {
        var key := NormNick(nick.value);
        if key in s.users {
          UserFacts(s, key);
          BeginPings(s, cfg, s.users[key].id, [], [(id, nick.value)], now);
        } else {
          var s1 := ApplyRename(s, id, nick.value, now);
          RenameFrame(s, id, nick.value, now);
          SamePings(s, s1.(log := s1.log + RenamedLines(s1, id, nick.value)), now);
        }
      } else {
        PairingPings(cfg, s, id, nick.value, now);
      }
    }
  }

  lemma PairingPings(cfg: Config, s: State, id: nat, nick: string, now: nat)
    requires Inv(cfg, s)
    ensures PingsMove(s, NickPairing(s, cfg, id, nick, now), now)
  {
    hide Filed, Mirrored, MarksOk, QuitsOk, WelcomeOk, Put, PingsMove, MaybeComplete, BeginReclaim, Lookup, NormNick,
      LooksStale, Rec;
    DeliverPings(s, id, InUse(nick), now);
    var occ := Lookup(s, NormNick(nick), now);
    var s1 := s;
    SamePings(s, s, now);
    if occ.Some? && occ.value.id != id && LooksStale(s, cfg, occ.value.id, now) {
      LookupLive(s, NormNick(nick), now);
      s1 := BeginReclaim(s, cfg, occ.value.id, [(id, nick)], [], now);
      BeginPings(s, cfg, occ.value.id, [(id, nick)], [], now);
    }
    var u := Rec(s1, id).(info := Rec(s1, id).info.(pendingNick := Some(nick)));
    PutThenPings(cfg, s1, id, u, now, now);
    MaybeCompletePings(cfg, s1, id, now, now);
    PingsTrans(s, s1, MaybeComplete(Put(s1, id, u), cfg, id, now), now);
    PingsTrans(s, s1, MaybeComplete(s1, cfg, id, now), now);
  }

  lemma UserPings(cfg: Config, s: State, id: nat, user: Option<string>, now: nat)
    ensures PingsMove(s, HandleUser(s, cfg, id, user, now), now)
  {
    hide PingsMove, MaybeComplete, Put, Rec;
    SamePings(s, s, now);
    if user.Some? {
      var part := if |user.value| > MaxUserLen then user.value[..MaxUserLen] else user.value;
      PutThenPings(cfg, s, id, Rec(s, id).(info := Rec(s, id).info.(pendingUser := Some(part))), now, now);
    }
  }

  lemma CapPings(s: State, id: nat, sub: CapSub, now: nat)
    ensures PingsMove(s, HandleCap(s, id, sub), now)
  {
    hide Rec;
  }

  lemma {:induction false} RefuseAllPings(s: State, held: seq<(nat, string)>, now: nat)
    ensures PingsMove(s, RefuseAll(s, held), now)
    decreases |held|
  {
    hide PingsMove, Deliver;
    SamePings(s, s, now);
    if held != [] {
      var s1 := Deliver(s, held[0].0, InUse(held[0].1));
      DeliverPings(s, held[0].0, InUse(held[0].1), now);
      RefuseAllPings(s1, held[1..], now);
      PingsTrans(s, s1, RefuseAll(s, held), now);
    }
  }

  lemma PongPings(cfg: Config, s: State, id: nat, now: nat)
    ensures PingsMove(s, HandlePong(s, cfg, id, now), now)
  {
    hide PingsMove, MaybeComplete, Put, RefuseAll, Rec;
    SamePings(s, s, now);
    var u := Rec(s, id).(gate := Rec(s, id).gate.(verified := true));
    PutThenPings(cfg, s, id, u, now, now);
    var w := if id in Ids(s) && !Rec(s, id).registered && Rec(s, id).gate.challenged && !Rec(s, id).gate.verified
      then MaybeComplete(Put(s, id, u), cfg, id, now) else s;
    var w1, w2 := w.(pings := w.pings - {id}), w.(pings := w.pings - {id}, marks := w.marks - {id});
    FewerPings(w, w1, id, now);
    FewerPings(w, w2, id, now);
    PingsTrans(s, w, w1, now);
    PingsTrans(s, w, w2, now);
    if id in w.marks {
      var held := w.marks[id].pairings + w.marks[id].renames;
      RefuseAllPings(w2, held, now);
      PingsTrans(s, w2, RefuseAll(w2, held), now);
    }
  }

  // ---- pings are left alone by everything else ----

  lemma {:induction false} JoinPings(s: State, id: nat, entries: seq<(string, string)>, founders: map<string, string>,
          clock: nat)
    ensures var s' := JoinAll(s, id, entries, founders, clock); s'.pings == s.pings && s'.log == s.log
    decreases |entries|
  {
    hide Barred, NormNick, ValidChannel, Founds, Created, Admitting;
    if entries != [] {
      JoinPings(JoinOne(s, id, entries[0].0, entries[0].1, founders, clock), id, entries[1..], founders, clock);
    }
  }

  lemma {:induction false} PartPings(s: State, id: nat, names: seq<string>)
    ensures var s' := PartAll(s, id, names); s'.pings == s.pings && s'.log == s.log
    decreases |names|
  {
    hide NormNick, WithoutMember;
    if names != [] {
      PartPings(PartOne(s, id, names[0]), id, names[1..]);
    }
  }

  lemma KickPings(s: State, id: nat, raw: string, target: string, now: nat)
    ensures var s' := HandleKick(s, id, raw, target, now); s'.pings == s.pings && s'.log == s.log
  {
    hide NormNick, Lookup, WithoutMember;
  }

  lemma LosePings(s: State, id: nat, now: nat)
    ensures PingsMove(s, LoseAndEvict(s, id), now) && LoseAndEvict(s, id).pings == s.pings
    ensures PingsMove(s, CleanupOnEof(s, id), now)
  {
    hide LoseAndEvict, Removed, QuitLines, PingsMove, Evict, DropEmpty, Eject;
    LoseIsRemoved(s, id);
    RemovedFrame(s, id, QuitLines(s, id));
    RemovedFrame(s, id, multiset{});
    SamePings(s, LoseAndEvict(s, id), now);
    SamePings(s, CleanupOnEof(s, id), now);
  }

  lemma {:induction false} LoseAllPings(s: State, order: seq<nat>, now: nat)
    ensures PingsMove(s, LoseAll(s, order), now) && LoseAll(s, order).pings == s.pings
    decreases |order|
  {
    hide LoseAndEvict, PingsMove;
    SamePings(s, s, now);
    if order != [] {
      LosePings(s, order[0], now);
      LoseAllPings(LoseAndEvict(s, order[0]), order[1..], now);
      PingsTrans(s, LoseAndEvict(s, order[0]), LoseAll(s, order), now);
    }
  }

  lemma {:induction false} ExpireLeaves(s: State, order: seq<nat>, now: nat)
    ensures PingsMove(s, ExpirePings(s, order), now)
    decreases |order|
  {
    hide LoseAndEvict, PingsMove;
    SamePings(s, s, now);
    if order != [] {
      var s0 := s.(pings := s.pings - {order[0]});
      FewerPings(s, s0, order[0], now);
      LosePings(s0, order[0], now);
      PingsTrans(s, s0, LoseAndEvict(s0, order[0]), now);
      ExpireLeaves(LoseAndEvict(s0, order[0]), order[1..], now);
      PingsTrans(s, LoseAndEvict(s0, order[0]), ExpirePings(s, order), now);
    }
  }

  lemma SilentPinged(s: State, cfg: Config, now: nat)
    ensures PingsMove(s, PingSilent(s, cfg, now), now)
  {
    hide Silent;
    var ids := Silent(s, cfg, now);
    var lines := set i | i in ids :: Sent(i, Ping);
    assert forall i :: i in ids ==> Sent(i, Ping) in lines && multiset(lines)[Sent(i, Ping)] == 1;
  }

  lemma LivenessPings(s: State, cfg: Config, unregs: seq<nat>, pings: seq<nat>, now: nat)
    ensures PingsMove(s, Liveness(s, cfg, unregs, pings, now), now)
  {
    hide PingsMove, LoseAll, ExpirePings, PingSilent;
    var s1 := LoseAll(s, unregs);
    var s2 := ExpirePings(s1, pings);
    LoseAllPings(s, unregs, now);
    ExpireLeaves(s1, pings, now);
    PingsTrans(s, s1, s2, now);
    SilentPinged(s2, cfg, now);
    PingsTrans(s, s2, PingSilent(s2, cfg, now), now);
  }

  lemma {:induction false} CompleteAllPings(cfg: Config, s: State, held: seq<(nat, string)>, when: nat, now: nat)
    ensures PingsMove(s, CompleteAll(s, cfg, held, when), now)
    decreases |held|
  {
    hide PingsMove, MaybeComplete;
    SamePings(s, s, now);
    if held != [] {
      var s1 := MaybeComplete(s, cfg, held[0].0, when);
      MaybeCompletePings(cfg, s, held[0].0, when, now);
      CompleteAllPings(cfg, s1, held[1..], when, now);
      PingsTrans(s, s1, CompleteAll(s, cfg, held, when), now);
    }
  }

  lemma {:induction false} RenameAllPings(s: State, held: seq<(nat, string)>, when: nat)
    ensures RenameAll(s, held, when).pings == s.pings && RenameAll(s, held, when).log == s.log
    decreases |held|
  {
    hide ApplyRename, ValidNick, NormNick;
    if held != [] {
      RenameFrame(s, held[0].0, held[0].1, when);
      RenameAllPings(FinishRename(s, held[0].0, held[0].1, when), held[1..], when);
    }
  }

  lemma {:induction false} ResolvePings(cfg: Config, s: State, order: seq<nat>, now: nat)
    ensures PingsMove(s, ResolveMarks(s, cfg, order, now), now)
    decreases |order|
  {
    hide PingsMove, LoseAndEvict, CompleteAll, RenameAll;
    SamePings(s, s, now);
    if order != [] {
      var h := order[0];
      var s1 := if h in s.marks then ResolveMark(s, cfg, h, now) else s;
      if h in s.marks {
        var s0 := s.(marks := s.marks - {h}, pings := s.pings - {h});
        FewerPings(s, s0, h, now);
        LosePings(s0, h, now);
        var t := LoseAndEvict(s0, h);
        PingsTrans(s, s0, t, now);
        CompleteAllPings(cfg, t, s.marks[h].pairings, now, now);
        var u := CompleteAll(t, cfg, s.marks[h].pairings, now);
        PingsTrans(s, t, u, now);
        RenameAllPings(u, s.marks[h].renames, now);
        SamePings(u, s1, now);
        PingsTrans(s, u, s1, now);
      }
      ResolvePings(cfg, s1, order[1..], now);
      PingsTrans(s, s1, ResolveMarks(s, cfg, order, now), now);
    }
  }

  lemma CommandPings(cfg: Config, t: State, now: nat, e: Event)
    requires Inv(cfg, t) && IsCommand(e)
    ensures PingsMove(t, Command(t, cfg, now, e), now)
  {
    hide Inv, PingsMove, HandleNick, HandleUser, HandleCap, HandlePong, JoinAll, PartAll, HandleKick, LoseAndEvict,
      Target, Put, Rec, JoinEntries, ChannelNames;
    SamePings(t, t, now);
    match e {
      case NickCmd(id, nick) => NickPings(cfg, t, id, nick, now);
      case UserCmd(id, user) => UserPings(cfg, t, id, user, now);
      case CapCmd(id, sub) => CapPings(t, id, sub, now);
      case PongCmd(id) => PongPings(cfg, t, id, now);
      case ProfileCmd(id, account, host, oper) =>
        PutPings(t, id, Rec(t, id).(info := Rec(t, id).info.(account := account, host := host, oper := oper)), now);
      case JoinCmd(id, list, keys, founders, clock) =>
        if list.Some? {
          JoinPings(t, id, JoinEntries(list.value, keys), founders, clock);
          SamePings(t, JoinAll(t, id, JoinEntries(list.value, keys), founders, clock), now);
        }
      case PartCmd(id, list) =>
        if list.Some? {
          PartPings(t, id, ChannelNames(list.value));
          SamePings(t, HandlePart(t, id, ChannelNames(list.value)), now);
        }
      case KickCmd(id, chan, target) =>
        KickPings(t, id, chan, target, now);
        SamePings(t, HandleKick(t, id, chan, target, now), now);
      case QuitCmd(id) => LosePings(t, id, now);
      case KillCmd(id, target) =>
        if Target(t, id, target, now).Some? {
          LosePings(t, Target(t, id, target, now).value, now);
        }
      case GhostCmd(id, target, _) =>
        if Target(t, id, target, now).Some? {
          LosePings(t, Target(t, id, target, now).value, now);
        }
      case _ =>
    }
  }

  /** In every step lines are only added, and a ping is outstanding only since it was sent. */
  lemma StepPings(cfg: Config, s: State, now: nat, e: Event)
    requires Inv(cfg, s)
    ensures PingsMove(s, Step(s, cfg, now, e), now)
  {
    hide Inv, PingsMove, Command, Touch, LoseAll, CleanupOnEof, ResolveMarks, Liveness, Park;
    var s' := Step(s, cfg, now, e);
    if IsCommand(e) {
      TouchFrame(cfg, s, e.id, now);
      SamePings(s, Touch(s, e.id, now), now);
      CommandPings(cfg, Touch(s, e.id, now), now, e);
      PingsTrans(s, Touch(s, e.id, now), s', now);
    } else {
      match e {
        case Accepted(id, host) =>
          ParkPings(s, id, host, now);
          SamePings(s, s', now);
        case Purge(order) => LoseAllPings(s, order, now);
        case Eof(id) => LosePings(s, id, now);
        case ReclaimTick(order) => ResolvePings(cfg, s, order, now);
        case LivenessTick(unregs, pings) => LivenessPings(s, cfg, unregs, pings, now);
        case _ => SamePings(s, s', now);
      }
    }
  }

  lemma ParkPings(s: State, id: nat, host: string, now: nat)
    ensures Park(s, id, host, now).pings == s.pings && Park(s, id, host, now).log == s.log
  {
    hide Fresh, Ids;
  }

  // ---- over runs ----

  /** In step `j` the connection arrives or sends a command. */
  ghost predicate HeardAt(es: Trace, j: nat, id: nat) {
    j < |es| && ((es[j].1.Accepted? && es[j].1.id == id) || (IsCommand(es[j].1) && es[j].1.id == id))
  }

  /** The step left a connection's stamps as they were, or it is one in which it was heard. */
  lemma StampsAt(sid: string, cfg: Config, es: Trace, k: nat, id: nat)
    requires Feasible(sid, cfg, es) && k < |es| && id in Ids(At(sid, cfg, es, k + 1))
    ensures var s, s' := At(sid, cfg, es, k), At(sid, cfg, es, k + 1);
      if id in Ids(s) then
        && Rec(s', id).info.connectedAt == Rec(s, id).info.connectedAt
        && Rec(s', id).info.lastRx == if HeardAt(es, k, id) then es[k].0 else Rec(s, id).info.lastRx
      else es[k].1.Accepted? && es[k].1.id == id && Rec(s', id).info.lastRx == Rec(s', id).info.connectedAt == es[k].0
  {
    hide Inv, Step, Leavers, QuitsMove, MarksMove, StandingMove, ChansMove, Rec;
    StepAt(sid, cfg, es, k);
    var s := At(sid, cfg, es, k);
    StepStamps(cfg, s, es[k].0, es[k].1);
    if es[k].1.Accepted? {
      StepParks(cfg, s, es[k].0, es[k].1);
      AcceptedKeeps(cfg, s, es[k].0, es[k].1.id, es[k].1.host);
    }
  }

  /** In every run a connection's stamp is the time it was last heard, and nothing has come from it since. */
  lemma {:induction false} LastHeard(sid: string, cfg: Config, es: Trace, k: nat, id: nat) returns (j: nat)
    requires Feasible(sid, cfg, es) && k <= |es| && id in Ids(At(sid, cfg, es, k))
    ensures j < k && HeardAt(es, j, id) && Rec(At(sid, cfg, es, k), id).info.lastRx == es[j].0
    ensures forall m :: j < m < k ==> !HeardAt(es, m, id)
    decreases k
  {
    hide Feasible, Run, Ids, Rec;
    if k == 0 {
      j := 0;
      NobodyThere(sid, cfg, es);
      assert false;
    } else {
      StampsAt(sid, cfg, es, k - 1, id);
      if id in Ids(At(sid, cfg, es, k - 1)) && !HeardAt(es, k - 1, id) {
        j := LastHeard(sid, cfg, es, k - 1, id);
      } else {
        j := k - 1;
      }
    }
  }

  lemma NobodyThere(sid: string, cfg: Config, es: Trace)
    ensures Ids(At(sid, cfg, es, 0)) == {} && At(sid, cfg, es, 0).pings == map[]
  {
  }

  /** And its age counts from the step that accepted it. */
  lemma {:induction false} ArrivedAt(sid: string, cfg: Config, es: Trace, k: nat, id: nat) returns (j: nat)
    requires Feasible(sid, cfg, es) && k <= |es| && id in Ids(At(sid, cfg, es, k))
    ensures j < k && es[j].1.Accepted? && es[j].1.id == id && Rec(At(sid, cfg, es, k), id).info.connectedAt == es[j].0
    decreases k
  {
    hide Feasible, Run, Ids, Rec, HeardAt;
    if k == 0 {
      j := 0;
      NobodyThere(sid, cfg, es);
      assert false;
    } else {
      StampsAt(sid, cfg, es, k - 1, id);
      if id in Ids(At(sid, cfg, es, k - 1)) {
        j := ArrivedAt(sid, cfg, es, k - 1, id);
      } else {
        j := k - 1;
      }
    }
  }

  /** A ping was sent in step `j` and has been outstanding since. */
  ghost predicate PingedAt(sid: string, cfg: Config, es: Trace, j: nat, k: nat, h: nat)
    requires j < k <= |es|
  {
    && At(sid, cfg, es, j + 1).log[Sent(h, Ping)] > At(sid, cfg, es, j).log[Sent(h, Ping)]
    && forall m :: j < m <= k ==> h in At(sid, cfg, es, m).pings && At(sid, cfg, es, m).pings[h] == es[j].0
  }

  lemma PingsAt(sid: string, cfg: Config, es: Trace, k: nat)
    requires Feasible(sid, cfg, es) && k < |es|
    ensures PingsMove(At(sid, cfg, es, k), At(sid, cfg, es, k + 1), es[k].0)
  {
    hide Inv, Step, Moves, Leavers, Enabled, PingsMove;
    StepAt(sid, cfg, es, k);
    StepPings(cfg, At(sid, cfg, es, k), es[k].0, es[k].1);
  }

  /** In every run an outstanding ping was really sent, at the time recorded for it. */
  lemma {:induction false} PingOrigin(sid: string, cfg: Config, es: Trace, k: nat, h: nat) returns (j: nat)
    requires Feasible(sid, cfg, es) && k <= |es| && h in At(sid, cfg, es, k).pings
    ensures j < k && At(sid, cfg, es, k).pings[h] == es[j].0 && PingedAt(sid, cfg, es, j, k, h)
    decreases k
  {
    hide Feasible, Run;
    if k == 0 {
      j := 0;
      NobodyThere(sid, cfg, es);
      assert false;
    } else {
      PingsAt(sid, cfg, es, k - 1);
      var s, s' := At(sid, cfg, es, k - 1), At(sid, cfg, es, k);
      if h in s.pings && s'.pings[h] == s.pings[h] {
        j := PingOrigin(sid, cfg, es, k - 1, h);
      } else {
        j := k - 1;
      }
    }
  }

  /** As long as it is, no PONG of its addressee has been processed. */
  lemma NoPongSince(sid: string, cfg: Config, es: Trace, j: nat, k: nat, h: nat)
    requires Feasible(sid, cfg, es) && j < k <= |es| && PingedAt(sid, cfg, es, j, k, h) && h in Ids(At(sid, cfg, es, k))
    ensures forall m :: j < m < k ==> es[m].1 != PongCmd(h)
  {
    hide Feasible, Run, Ids;
    PingedSeen(sid, cfg, es, j + 1, h);
    LiveSince(sid, cfg, es, j + 1, k, h);
    forall m | j < m < k ensures es[m].1 != PongCmd(h) {
      assert h in At(sid, cfg, es, m + 1).pings;
      PongClears(sid, cfg, es, m, h);
    }
  }

  lemma PingedSeen(sid: string, cfg: Config, es: Trace, k: nat, h: nat)
    requires Feasible(sid, cfg, es) && k <= |es| && h in At(sid, cfg, es, k).pings
    ensures h in At(sid, cfg, es, k).seen
  {
    hide Filed, Mirrored, WelcomeOk, QuitsOk, Run;
    PrefixFeasible(sid, cfg, es, k);
    InvHolds(sid, cfg, es[..k]);
  }

  lemma PongClears(sid: string, cfg: Config, es: Trace, k: nat, h: nat)
    requires Feasible(sid, cfg, es) && k < |es| && h in Ids(At(sid, cfg, es, k))
    ensures es[k].1 == PongCmd(h) ==> h !in At(sid, cfg, es, k + 1).pings
  {
    hide Inv, Step, Moves, Leavers, Enabled;
    StepAt(sid, cfg, es, k);
    if es[k].1 == PongCmd(h) {
      PongAnswers(cfg, At(sid, cfg, es, k), es[k].0, h, h, "");
    }
  }

  // ---- who is evicted, and why ----

  ghost predicate LeadsTo(s: State, target: string, now: nat, d: nat) {
    var t := Lookup(s, NormNick(target), now); t.Some? && t.value.id == d
  }

  /** Everything that ends a connection. */
  ghost predicate Ends(cfg: Config, s: State, now: nat, e: Event, d: nat) {
    match e
    case QuitCmd(id) => id == d && d in s.where
    case KillCmd(id, target) => id in s.where && Rec(s, id).info.oper && LeadsTo(s, target, now, d)
    case GhostCmd(id, target, authorized) => id in s.where && authorized && id != d && LeadsTo(s, target, now, d)
    case Purge(order) => d in order
    case Eof(id) => id == d
    case ReclaimTick(_) => d in s.marks && s.marks[d].expiry <= now
    case LivenessTick(_, _) =>
      || (d in s.unreg && s.unreg[d].info.connectedAt + cfg.regMs < now)
      || (d in s.pings && s.pings[d] + cfg.evictionMs < now)
    case _ => false
  }

  lemma TargetSame(cfg: Config, s: State, id: nat, target: string, now: nat, d: nat)
    requires Inv(cfg, s)
    ensures LeadsTo(s, target, now, d) <==> Target(Touch(s, id, now), id, target, now) == Some(d)
  {
    hide Inv, Touch, NormNick;
    TouchFrame(cfg, s, id, now);
    M.ResolveSame(s, Touch(s, id, now), NormNick(target), now, 8);
  }

  lemma LeaversIff(cfg: Config, s: State, now: nat, e: Event, d: nat)
    requires Inv(cfg, s) && Enabled(s, cfg, now, e) && d in Ids(s)
    ensures d in Leavers(s, now, e) <==> Ends(cfg, s, now, e, d)
  {
    hide Filed, Mirrored, MarksOk, QuitsOk, WelcomeOk, Touch, LeadsTo, Target, Rec, Ids;
    if IsCommand(e) {
      var t := Touch(s, e.id, now);
      TouchFrame(cfg, s, e.id, now);
      if e.id in Ids(s) {
        RecFacts(s, e.id);
        RecFacts(t, e.id);
      }
      if e.KillCmd? || e.GhostCmd? {
        TargetSame(cfg, s, e.id, e.target, now, d);
      }
      WhereIsThere(s, e.id);
    } else if e.ReclaimTick? {
      assert d in e.order <==> d in Elements(e.order);
    } else if e.LivenessTick? {
      assert (d in e.unregs <==> d in Elements(e.unregs)) && (d in e.pings <==> d in Elements(e.pings));
    }
  }

  lemma WhereIsThere(s: State, id: nat)
    ensures id in s.where ==> id in Ids(s)
  {
  }

  /** In every run a connection is gone after a step exactly when that step ends it. */
  lemma GoneIff(sid: string, cfg: Config, es: Trace, k: nat, d: nat)
    requires Feasible(sid, cfg, es) && k < |es| && d in Ids(At(sid, cfg, es, k))
    ensures d !in Ids(At(sid, cfg, es, k + 1)) <==> Ends(cfg, At(sid, cfg, es, k), es[k].0, es[k].1, d)
  {
    hide Inv, Step, Leavers, QuitsMove, MarksMove, StandingMove, ChansMove, Enabled, Ends;
    StepAt(sid, cfg, es, k);
    var s := At(sid, cfg, es, k);
    LeaversIff(cfg, s, es[k].0, es[k].1, d);
    assert d in Elements(Leavers(s, es[k].0, es[k].1)) <==> d in Leavers(s, es[k].0, es[k].1);
    if es[k].1.Accepted? {
      ArrivalsStay(s, es[k].0, es[k].1);
    }
  }

  /**
   * A connection the liveness timer evicts was accepted longer ago than the registration window and has not
   * registered, or was pinged longer ago than the eviction window and no PONG of it has been processed since.
   */
  lemma LivenessJustified(sid: string, cfg: Config, es: Trace, k: nat, d: nat) returns (j: nat)
    requires Feasible(sid, cfg, es) && k < |es| && es[k].1.LivenessTick?
    requires d in Ids(At(sid, cfg, es, k)) && d !in Ids(At(sid, cfg, es, k + 1))
    ensures j < k
    ensures
      || (d in At(sid, cfg, es, k).unreg && es[j].1.Accepted? && es[j].1.id == d && es[j].0 + cfg.regMs < es[k].0)
      || (PingedAt(sid, cfg, es, j, k, d) && es[j].0 + cfg.evictionMs < es[k].0 && forall m :: j < m < k ==> es[m].1 != PongCmd(d))
  {
    hide Feasible, Run, Ids, PingedAt;
    GoneIff(sid, cfg, es, k, d);
    var s := At(sid, cfg, es, k);
    if d in s.unreg && s.unreg[d].info.connectedAt + cfg.regMs < es[k].0 {
      j := ArrivedAt(sid, cfg, es, k, d);
    } else {
      j := PingOrigin(sid, cfg, es, k, d);
      NoPongSince(sid, cfg, es, j, k, d);
    }
  }

  lemma {:induction false} ExpiredFewer(s: State, order: seq<nat>)
    ensures ExpirePings(s, order).pings.Keys <= s.pings.Keys
    decreases |order|
  {
    hide LoseAndEvict, PingsMove;
    if order != [] {
      var s0 := s.(pings := s.pings - {order[0]});
      LosePings(s0, order[0], 0);
      ExpiredFewer(LoseAndEvict(s0, order[0]), order[1..]);
    }
  }

  /**
   * After a liveness tick every registered connection that has been silent too long has a ping outstanding, and
   * no other has been pinged.
   */
  lemma SilentArePinged(sid: string, cfg: Config, es: Trace, k: nat, key: string)
    requires Feasible(sid, cfg, es) && k < |es| && es[k].1.LivenessTick? && key in At(sid, cfg, es, k + 1).users
    ensures var s, s' := At(sid, cfg, es, k), At(sid, cfg, es, k + 1);
      var u := s'.users[key];
      && (u.info.lastRx + cfg.pingAfterMs < es[k].0 ==> u.id in s'.pings)
      && (u.id in s'.pings ==> u.id in s.pings || u.info.lastRx + cfg.pingAfterMs < es[k].0)
  {
    hide Filed, Mirrored, MarksOk, QuitsOk, WelcomeOk, Step, Moves, Leavers, Enabled, LoseAll, ExpirePings, PingsMove;
    StepAt(sid, cfg, es, k);
    var s, s', e := At(sid, cfg, es, k), At(sid, cfg, es, k + 1), es[k].1;
    StepLiveness(s, cfg, es[k].0, e);
    LoseAllPings(s, e.unregs, es[k].0);
    ExpiredFewer(LoseAll(s, e.unregs), e.pings);
    var s2 := ExpirePings(LoseAll(s, e.unregs), e.pings);
    assert s'.users == s2.users;
    SilentOwn(cfg, s', s2, key, es[k].0);
  }

  lemma SilentOwn(cfg: Config, s': State, s2: State, key: string, now: nat)
    requires TablesOk(s') && s' == PingSilent(s2, cfg, now) && key in s'.users
    ensures var u := s'.users[key]; u.id in s'.pings ==> u.id in s2.pings || u.info.lastRx + cfg.pingAfterMs < now
  {
    hide Mirrored;
    var u := s'.users[key];
    if u.id in s'.pings && u.id !in s2.pings {
      var k :| k in s2.users && Since(now, s2.users[k].info.lastRx) > cfg.pingAfterMs && s2.users[k].id == u.id;
      assert s'.where[u.id] == k;
    }
  }

  lemma StepLiveness(s: State, cfg: Config, now: nat, e: Event)
    requires e.LivenessTick?
    ensures Step(s, cfg, now, e) == Liveness(s, cfg, e.unregs, e.pings, now)
  {
    hide Liveness, Command;
  }

  /**
   * A holder whose nick was contested had not answered a ping, or had sent nothing for longer than the silence
   * allowed.
   */
  lemma ContestedSilent(sid: string, cfg: Config, es: Trace, k: nat, h: nat) returns (j: nat)
    requires Feasible(sid, cfg, es) && ContestedAt(sid, cfg, es, k, h)
    ensures j < k
    ensures
      || (PingedAt(sid, cfg, es, j, k, h) && forall m :: j < m < k ==> es[m].1 != PongCmd(h))
      || (HeardAt(es, j, h) && (es[k].0 - es[j].0) / 1000 > cfg.silenceSecs && forall m :: j < m < k ==> !HeardAt(es, m, h))
  {
    hide Feasible, Run, PingedAt, HeardAt, Ids;
    var s := At(sid, cfg, es, k);
    ContestedStale(sid, cfg, es, k, h);
    if h in s.pings {
      j := PingOrigin(sid, cfg, es, k, h);
      NoPongSince(sid, cfg, es, j, k, h);
    } else {
      j := LastHeard(sid, cfg, es, k, h);
    }
  }

  lemma ContestedStale(sid: string, cfg: Config, es: Trace, k: nat, h: nat)
    requires Feasible(sid, cfg, es) && ContestedAt(sid, cfg, es, k, h)
    ensures h in Ids(At(sid, cfg, es, k)) && SeemsGone(At(sid, cfg, es, k), cfg, h, es[k].0)
  {
    hide Inv, Step, Moves, Leavers, Enabled, Touch, Lookup;
    StepAt(sid, cfg, es, k);
    ContestedHolder(sid, cfg, es, k, h);
    TouchFrame(cfg, At(sid, cfg, es, k), es[k].1.id, es[k].0);
  }
}
