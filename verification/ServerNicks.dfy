/** Nobody's nick is taken from under them: a live connection changes it only by its own request. */
module ServerNicks {
  import opened Basics
  import opened Names
  import opened ServerModel
  import opened ServerInvariant
  import opened ServerRegistration
  import opened ServerDepartures
  import opened ServerSteps
  import opened ServerRuns

  /** A connection is not both registered and not. */
  ghost predicate Apart(s: State) {
    s.unreg.Keys !! s.where.Keys
  }

  /** The connections waiting to register, each with the key of the nick it gave. */
  ghost function Pends(s: State): set<(nat, string)> {
    set id | id in Ids(s) && Rec(s, id).info.pendingNick.Some? :: (id, NormNick(Rec(s, id).info.pendingNick.value))
  }

  /**
   * Whoever is still there keeps its nick, unless the pair of it and its new nick was asked for; and who
   * is new to the table of registered connections has a nick it asked for or was waiting for.
   */
  ghost predicate KeepsNicks(s: State, s': State, asked: set<(nat, string)>, pend: set<(nat, string)>) {
    && Apart(s') && Ids(s') <= Ids(s)
    && (forall id :: id in s.where && id in Ids(s') ==>
         id in s'.where && (s'.where[id] == s.where[id] || (id, s'.where[id]) in asked))
    && (forall id :: id in s'.where && id !in s.where ==> (id, s'.where[id]) in asked || (id, s'.where[id]) in pend)
  }

  lemma KeepsTrans(a: State, b: State, c: State, asked: set<(nat, string)>, pend: set<(nat, string)>)
    requires KeepsNicks(a, b, asked, pend) && KeepsNicks(b, c, asked, pend)
    ensures KeepsNicks(a, c, asked, pend)
  {
  }

  lemma KeepsMore(s: State, s': State, asked: set<(nat, string)>, pend: set<(nat, string)>,
                  more: set<(nat, string)>, moreWait: set<(nat, string)>)
    requires KeepsNicks(s, s', asked, pend) && asked <= more && pend <= more + moreWait
    ensures KeepsNicks(s, s', more, moreWait)
  {
  }

  /** Nobody waits for another nick than before. */
  lemma PendsFall(s: State, s': State)
    requires Ids(s') <= Ids(s) && SameStanding(s, s')
    ensures Pends(s') <= Pends(s)
  {
    hide Rec, NormNick;
  }

  lemma CalmPends(s: State, s': State)
    requires Calm(s, s')
    ensures Pends(s') <= Pends(s)
  {
    hide SameQuits, NoNewMarks, SameStanding, Pends;
    PendsFall(s, s');
  }

  lemma LeavesPends(s: State, s': State, order: seq<nat>)
    requires Leaves(s, s', order)
    ensures Pends(s') <= Pends(s)
  {
    hide QuitsMove, Thinned, RemoteMembers, NoNewMarks, Shares, SameStanding, Pends;
    PendsFall(s, s');
  }

  lemma SameFiling(s: State, s': State, asked: set<(nat, string)>, pend: set<(nat, string)>)
    requires Apart(s) && s'.where == s.where && s'.unreg.Keys == s.unreg.Keys
    ensures KeepsNicks(s, s', asked, pend)
  {
  }

  lemma InvApart(cfg: Config, s: State)
    requires Inv(cfg, s)
    ensures Apart(s)
  {
    hide Mirrored, WelcomeOk, QuitsOk, MarksOk;
  }

  // ---- registration ----

  lemma PutFiling(s: State, id: nat, cx: Cx)
    requires id in Ids(s)
    ensures Put(s, id, cx).where == s.where && Put(s, id, cx).unreg.Keys == s.unreg.Keys
  {
  }

  lemma RegisterNicks(s: State, id: nat, nick: string, user: string, pend: set<(nat, string)>)
    requires Apart(s) && (id, NormNick(nick)) in pend
    ensures KeepsNicks(s, Register(s, id, nick, user), {}, pend)
  {
  }

  lemma CompleteNicks(s: State, id: nat, nick: string, user: string, pend: set<(nat, string)>)
    requires Apart(s) && (id, NormNick(nick)) in pend
    ensures KeepsNicks(s, Complete(s, id, nick, user), {}, pend)
  {
    hide KeepsNicks, Register;
    if CanRegister(s, id, nick) {
      var s1 := Register(s, id, nick, user);
      RegisterNicks(s, id, nick, user, pend);
      KeepsApart(s, s1, {}, pend);
      if id in Ids(s1) {
        PutFiling(s1, id, Rec(s1, id).(gate := Rec(s1, id).gate.(gated := true)));
      }
      SameFiling(s1, Complete(s, id, nick, user), {}, pend);
      KeepsTrans(s, s1, Complete(s, id, nick, user), {}, pend);
    } else {
      SameFiling(s, Complete(s, id, nick, user), {}, pend);
    }
  }

  lemma KeepsApart(s: State, s': State, asked: set<(nat, string)>, pend: set<(nat, string)>)
    requires KeepsNicks(s, s', asked, pend)
    ensures Apart(s')
  {
  }

  lemma MaybeCompleteNicks(cfg: Config, s: State, id: nat, now: nat, pend: set<(nat, string)>)
    requires Apart(s) && Pends(s) <= pend
    ensures KeepsNicks(s, MaybeComplete(s, cfg, id, now), {}, pend)
  {
    hide KeepsNicks, Complete, Lookup;
    SameFiling(s, s, {}, pend);
    if Ready(s, id) {
      var u := Rec(s, id);
      assert (id, NormNick(u.info.pendingNick.value)) in Pends(s);
      PutFiling(Deliver(s, id, Challenge), id, u.(gate := u.gate.(challenged := true)));
      SameFiling(s, IssueChallenge(s, id), {}, pend);
      CompleteNicks(s, id, u.info.pendingNick.value, u.info.pendingUser.value, pend);
    }
  }

  lemma PutThenComplete(cfg: Config, s: State, id: nat, cx: Cx, now: nat, pend: set<(nat, string)>)
    requires TablesOk(s) && Apart(s) && id in Ids(s) && Pends(s) <= pend
    requires cx.info.pendingNick.Some? ==> (id, NormNick(cx.info.pendingNick.value)) in pend
    ensures KeepsNicks(s, MaybeComplete(Put(s, id, cx), cfg, id, now), {}, pend)
  {
    hide KeepsNicks, MaybeComplete, Filed, Mirrored, Pends;
    var s1 := Put(s, id, cx);
    PutFiling(s, id, cx);
    PutPends(s, id, cx, pend);
    SameFiling(s, s1, {}, pend);
    KeepsApart(s, s1, {}, pend);
    MaybeCompleteNicks(cfg, s1, id, now, pend);
    KeepsTrans(s, s1, MaybeComplete(s1, cfg, id, now), {}, pend);
  }

  lemma PutPends(s: State, id: nat, cx: Cx, pend: set<(nat, string)>)
    requires TablesOk(s) && id in Ids(s) && Pends(s) <= pend
    requires cx.info.pendingNick.Some? ==> (id, NormNick(cx.info.pendingNick.value)) in pend
    ensures Pends(Put(s, id, cx)) <= pend
  {
    hide Filed, Mirrored, Put, Rec, NormNick;
    PutRec(s, id, cx);
    forall p | p in Pends(Put(s, id, cx)) ensures p in pend {
      if p.0 != id {
        assert p in Pends(s);
      }
    }
  }

  lemma RenameNicks(s: State, id: nat, nick: string, now: nat, asked: set<(nat, string)>, pend: set<(nat, string)>)
    requires Apart(s) && id in s.where && (id, NormNick(nick)) in asked
    ensures KeepsNicks(s, ApplyRename(s, id, nick, now), asked, pend)
  {
  }

  lemma NickNicks(cfg: Config, s: State, id: nat, nick: string, now: nat, pend: set<(nat, string)>)
    requires Inv(cfg, s) && Pends(s) <= pend
    ensures KeepsNicks(s, HandleNick(s, cfg, id, Some(nick), now), {(id, NormNick(nick))}, pend)
  {
    hide Pends, KeepsNicks, MaybeComplete, Lookup, Inv, ValidNick, IsServiceName, LooksStale, BeginReclaim,
      ApplyRename, NormNick;
    var asked := {(id, NormNick(nick))};
    InvApart(cfg, s);
    SameFiling(s, s, asked, pend);
    SameFiling(s, Deliver(s, id, InUse(nick)), asked, pend);
    if Registered(s, id) {
      RegisteredFiled(cfg, s, id);
      if NormNick(nick) in s.users {
        var occ := s.users[NormNick(nick)].id;
        BegunFrame(cfg, s, occ, [], [(id, nick)], now);
        SameFiling(s, BeginReclaim(s, cfg, occ, [], [(id, nick)], now), asked, pend);
      } else {
        RenameNicks(s, id, nick, now, asked, pend);
        var s1 := ApplyRename(s, id, nick, now);
        KeepsApart(s, s1, asked, pend);
        SameFiling(s1, s1.(log := s1.log + RenamedLines(s1, id, nick)), asked, pend);
        KeepsTrans(s, s1, s1.(log := s1.log + RenamedLines(s1, id, nick)), asked, pend);
      }
    } else {
      PairingNicks(cfg, s, id, nick, now, pend + asked);
      KeepsMore(s, NickPairing(s, cfg, id, nick, now), {}, pend + asked, asked, pend);
    }
  }

  lemma RegisteredFiled(cfg: Config, s: State, id: nat)
    requires Inv(cfg, s) && Registered(s, id)
    ensures id in s.where
  {
    hide Filed, Mirrored, WelcomeOk, QuitsOk, MarksOk;
    RecFacts(s, id);
  }

  lemma PairingNicks(cfg: Config, s: State, id: nat, nick: string, now: nat, pend: set<(nat, string)>)
    requires Inv(cfg, s) && Pends(s) <= pend && (id, NormNick(nick)) in pend
    ensures KeepsNicks(s, NickPairing(s, cfg, id, nick, now), {}, pend)
  {
    hide KeepsNicks, MaybeComplete, Lookup, LooksStale, BeginReclaim, NormNick, Filed, Mirrored, WelcomeOk, QuitsOk,
      MarksOk, Pends;
    InvApart(cfg, s);
    var occ := Lookup(s, NormNick(nick), now);
    SameFiling(s, Deliver(s, id, InUse(nick)), {}, pend);
    if occ.Some? && occ.value.id != id && LooksStale(s, cfg, occ.value.id, now) {
      var s1 := BeginReclaim(s, cfg, occ.value.id, [(id, nick)], [], now);
      BegunFrame(cfg, s, occ.value.id, [(id, nick)], [], now);
      SameFiling(s, s1, {}, pend);
      KeepsApart(s, s1, {}, pend);
      SameTables(s, s1);
      FilledNicks(cfg, s1, id, nick, now, pend);
      KeepsTrans(s, s1, NickPairing(s, cfg, id, nick, now), {}, pend);
    } else if occ.None? || occ.value.id == id {
      FilledNicks(cfg, s, id, nick, now, pend);
    }
  }

  lemma SameTables(s: State, s': State)
    requires s'.users == s.users && s'.unreg == s.unreg && s'.where == s.where && s'.chans == s.chans && s'.seen == s.seen
    ensures TablesOk(s) ==> TablesOk(s')
    ensures Pends(s') == Pends(s)
  {
    hide Filed, Mirrored, NormNick, RecIn;
    assert Ids(s') == Ids(s) && forall id :: Rec(s', id) == Rec(s, id);
  }

  lemma FilledNicks(cfg: Config, s: State, id: nat, nick: string, now: nat, pend: set<(nat, string)>)
    requires TablesOk(s) && Apart(s) && Pends(s) <= pend && (id, NormNick(nick)) in pend
    ensures var s2 := if id in Ids(s) then Put(s, id, Rec(s, id).(info := Rec(s, id).info.(pendingNick := Some(nick)))) else s;
      KeepsNicks(s, MaybeComplete(s2, cfg, id, now), {}, pend)
  {
    hide KeepsNicks, MaybeComplete, Put, Filed, Mirrored, NormNick, Pends;
    if id in Ids(s) {
      PutThenComplete(cfg, s, id, Rec(s, id).(info := Rec(s, id).info.(pendingNick := Some(nick))), now, pend);
    } else {
      MaybeCompleteNicks(cfg, s, id, now, pend);
    }
  }

  lemma {:induction false} RefuseFiling(s: State, held: seq<(nat, string)>)
    ensures RefuseAll(s, held).where == s.where && RefuseAll(s, held).unreg == s.unreg
    decreases |held|
  {
    if held != [] {
      RefuseFiling(Deliver(s, held[0].0, InUse(held[0].1)), held[1..]);
    }
  }

  lemma PongNicks(cfg: Config, s: State, id: nat, now: nat, pend: set<(nat, string)>)
    requires TablesOk(s) && Apart(s) && Pends(s) <= pend
    ensures KeepsNicks(s, HandlePong(s, cfg, id, now), {}, pend)
  {
    hide KeepsNicks, MaybeComplete, RefuseAll, Put, Filed, Mirrored;
    var s1 := s;
    SameFiling(s, s, {}, pend);
    if id in Ids(s) && !Rec(s, id).registered && Rec(s, id).gate.challenged && !Rec(s, id).gate.verified {
      var u := Rec(s, id).(gate := Rec(s, id).gate.(verified := true));
      PutThenComplete(cfg, s, id, u, now, pend);
      s1 := MaybeComplete(Put(s, id, u), cfg, id, now);
      KeepsApart(s, s1, {}, pend);
    }
    var s' := HandlePong(s, cfg, id, now);
    if id in s1.pings && id in s1.marks {
      RefuseFiling(s1.(pings := s1.pings - {id}, marks := s1.marks - {id}), s1.marks[id].pairings + s1.marks[id].renames);
    }
    SameFiling(s1, s', {}, pend);
    KeepsTrans(s, s1, s', {}, pend);
  }

  // ---- channels ----

  lemma EnrolFiling(s: State, id: nat, ck: string, c: Chn)
    requires id in Ids(s)
    ensures Enrol(s, id, ck, c).where == s.where && Enrol(s, id, ck, c).unreg.Keys == s.unreg.Keys
  {
    hide Put;
    PutFiling(s, id, Rec(s, id).(chans := Rec(s, id).chans + {ck}));
  }

  lemma JoinOneFiling(s: State, id: nat, raw: string, key: string, founders: map<string, string>, clock: nat)
    ensures var s' := JoinOne(s, id, raw, key, founders, clock); s'.where == s.where && s'.unreg.Keys == s.unreg.Keys
  {
    hide Barred, ValidChannel, NormNick, Enrol, Founds;
    if id in Ids(s) {
      var ck := NormNick(raw);
      var founder := Founds(founders, ck, Rec(s, id).info.account);
      EnrolFiling(s, id, ck, Created(raw, id, clock, ck !in founders || founder));
      if ck in s.chans {
        EnrolFiling(s, id, ck, Admitting(s.chans[ck], id, founder));
      }
    }
  }

  lemma {:induction false} JoinFiling(s: State, id: nat, entries: seq<(string, string)>, founders: map<string, string>,
          clock: nat)
    ensures var s' := JoinAll(s, id, entries, founders, clock); s'.where == s.where && s'.unreg.Keys == s.unreg.Keys
    decreases |entries|
  {
    hide JoinOne;
    if entries != [] {
      JoinOneFiling(s, id, entries[0].0, entries[0].1, founders, clock);
      JoinFiling(JoinOne(s, id, entries[0].0, entries[0].1, founders, clock), id, entries[1..], founders, clock);
    }
  }

  lemma {:induction false} PartFiling(s: State, id: nat, names: seq<string>)
    ensures var s' := PartAll(s, id, names); s'.where == s.where && s'.unreg.Keys == s.unreg.Keys
    decreases |names|
  {
    hide NormNick;
    if names != [] {
      PartFiling(PartOne(s, id, names[0]), id, names[1..]);
    }
  }

  lemma KickFiling(s: State, id: nat, raw: string, target: string, now: nat)
    ensures var s' := HandleKick(s, id, raw, target, now); s'.where == s.where && s'.unreg.Keys == s.unreg.Keys
  {
    hide NormNick, Lookup;
  }

  // ---- departures ----

  lemma LoseNicks(s: State, id: nat, asked: set<(nat, string)>, pend: set<(nat, string)>)
    requires Apart(s)
    ensures KeepsNicks(s, LoseAndEvict(s, id), asked, pend)
  {
    hide QuitLines, DropEmpty;
    DropFiling(Eject(s.(log := s.log + QuitLines(s, id)), id));
  }

  lemma DropFiling(s: State)
    ensures DropEmpty(s).where == s.where && DropEmpty(s).unreg == s.unreg && DropEmpty(s).users == s.users
  {
  }

  lemma {:induction false} LoseAllNicks(s: State, order: seq<nat>)
    requires Apart(s)
    ensures KeepsNicks(s, LoseAll(s, order), {}, {})
    decreases |order|
  {
    hide KeepsNicks, LoseAndEvict;
    if order == [] {
      SameFiling(s, s, {}, {});
    } else {
      var s1 := LoseAndEvict(s, order[0]);
      LoseNicks(s, order[0], {}, {});
      KeepsApart(s, s1, {}, {});
      LoseAllNicks(s1, order[1..]);
      KeepsTrans(s, s1, LoseAll(s, order), {}, {});
    }
  }

  lemma EofNicks(s: State, id: nat)
    requires Apart(s)
    ensures KeepsNicks(s, CleanupOnEof(s, id), {}, {})
  {
    hide LoseAndEvict, DropEmpty;
    LoseNicks(s, id, {}, {});
    DropFiling(Eject(s, id));
  }

  lemma {:induction false} ExpireNicks(s: State, order: seq<nat>)
    requires Apart(s)
    ensures KeepsNicks(s, ExpirePings(s, order), {}, {})
    decreases |order|
  {
    hide KeepsNicks, LoseAndEvict;
    if order == [] {
      SameFiling(s, s, {}, {});
    } else {
      var s0 := s.(pings := s.pings - {order[0]});
      var s1 := LoseAndEvict(s0, order[0]);
      SameFiling(s, s0, {}, {});
      LoseNicks(s0, order[0], {}, {});
      KeepsTrans(s, s0, s1, {}, {});
      KeepsApart(s, s1, {}, {});
      ExpireNicks(s1, order[1..]);
      KeepsTrans(s, s1, ExpirePings(s, order), {}, {});
    }
  }

  lemma LivenessNicks(cfg: Config, s: State, unregs: seq<nat>, pings: seq<nat>, now: nat)
    requires Apart(s)
    ensures KeepsNicks(s, Liveness(s, cfg, unregs, pings, now), {}, {})
  {
    hide KeepsNicks, LoseAll, ExpirePings, Silent;
    var s1 := LoseAll(s, unregs);
    LoseAllNicks(s, unregs);
    KeepsApart(s, s1, {}, {});
    var s2 := ExpirePings(s1, pings);
    ExpireNicks(s1, pings);
    KeepsApart(s1, s2, {}, {});
    SameFiling(s2, PingSilent(s2, cfg, now), {}, {});
    KeepsTrans(s, s1, s2, {}, {});
    KeepsTrans(s, s2, PingSilent(s2, cfg, now), {}, {});
  }

  // ---- deferred renames ----

  /** Renames held back by the markers of these holders. */
  ghost function Asked(marks: map<nat, Reclaim>, order: seq<nat>): set<(nat, string)> {
    set h, i | h in order && h in marks && 0 <= i < |marks[h].renames| :: (marks[h].renames[i].0, NormNick(marks[h].renames[i].1))
  }

  lemma {:induction false} CompleteAllNicks(cfg: Config, s: State, held: seq<(nat, string)>, now: nat, pend: set<(nat,
          string)>)
    requires Inv(cfg, s) && Pends(s) <= pend
    ensures KeepsNicks(s, CompleteAll(s, cfg, held, now), {}, pend)
    decreases |held|
  {
    hide KeepsNicks, MaybeComplete, Inv, Calm, Pends;
    InvApart(cfg, s);
    if held == [] {
      SameFiling(s, s, {}, pend);
    } else {
      var s1 := MaybeComplete(s, cfg, held[0].0, now);
      MaybeCompleteNicks(cfg, s, held[0].0, now, pend);
      MaybeCompleteKeeps(cfg, s, held[0].0, now);
      CalmPends(s, s1);
      CompleteAllNicks(cfg, s1, held[1..], now, pend);
      KeepsTrans(s, s1, CompleteAll(s, cfg, held, now), {}, pend);
    }
  }

  lemma {:induction false} RenameAllNicks(cfg: Config, s: State, held: seq<(nat, string)>, now: nat, asked: set<(nat,
          string)>, pend: set<(nat, string)>)
    requires Inv(cfg, s) && forall i :: 0 <= i < |held| ==> (held[i].0, NormNick(held[i].1)) in asked
    ensures KeepsNicks(s, RenameAll(s, held, now), asked, pend)
    decreases |held|
  {
    hide KeepsNicks, Inv, NormNick, ApplyRename, ValidNick;
    InvApart(cfg, s);
    SameFiling(s, s, asked, pend);
    if held != [] {
      var s1 := FinishRename(s, held[0].0, held[0].1, now);
      FinishRenameKeeps(cfg, s, held[0].0, held[0].1, now);
      if Registered(s, held[0].0) && ValidNick(held[0].1) && NormNick(held[0].1) !in s.users {
        RegisteredFiled(cfg, s, held[0].0);
        RenameNicks(s, held[0].0, held[0].1, now, asked, pend);
      }
      RenameAllNicks(cfg, s1, held[1..], now, asked, pend);
      KeepsTrans(s, s1, RenameAll(s, held, now), asked, pend);
    }
  }

  lemma ResolveMarkNicks(cfg: Config, s: State, h: nat, now: nat, asked: set<(nat, string)>, pend: set<(nat, string)>)
    requires Inv(cfg, s) && h in s.marks && Asked(s.marks, [h]) <= asked && Pends(s) <= pend
    ensures KeepsNicks(s, ResolveMark(s, cfg, h, now), asked, pend)
  {
    hide KeepsNicks, Inv, NormNick, LoseAndEvict, CompleteAll, RenameAll, Leaves, Pends;
    var mark := s.marks[h];
    var s0 := s.(marks := s.marks - {h}, pings := s.pings - {h});
    var s1 := LoseAndEvict(s0, h);
    var s2 := CompleteAll(s1, cfg, mark.pairings, now);
    InvApart(cfg, s);
    SameFiling(s, s0, asked, pend);
    LoseNicks(s0, h, asked, pend);
    KeepsTrans(s, s0, s1, asked, pend);
    LosePinged(cfg, s, h, s0);
    LeavesPends(s, s1, [h]);
    CompleteAllNicks(cfg, s1, mark.pairings, now, pend);
    KeepsMore(s1, s2, {}, pend, asked, pend);
    KeepsTrans(s, s1, s2, asked, pend);
    CompleteAllKeeps(cfg, s1, mark.pairings, now);
    forall i | 0 <= i < |mark.renames| ensures (mark.renames[i].0, NormNick(mark.renames[i].1)) in asked {
      assert (s.marks[h].renames[i].0, NormNick(s.marks[h].renames[i].1)) in Asked(s.marks, [h]);
    }
    RenameAllNicks(cfg, s2, mark.renames, now, asked, pend);
    KeepsTrans(s, s2, ResolveMark(s, cfg, h, now), asked, pend);
  }

  lemma {:induction false} ResolveMarksNicks(cfg: Config, s: State, order: seq<nat>, now: nat, asked: set<(nat,
          string)>, pend: set<(nat, string)>)
    requires Inv(cfg, s) && Asked(s.marks, order) <= asked && Pends(s) <= pend
    ensures KeepsNicks(s, ResolveMarks(s, cfg, order, now), asked, pend)
    decreases |order|
  {
    hide KeepsNicks, Inv, ResolveMark, Leaves, Pends, Asked;
    InvApart(cfg, s);
    SameFiling(s, s, asked, pend);
    if order != [] {
      FewerAsked(s.marks, order);
      var s1 := if order[0] in s.marks then ResolveMark(s, cfg, order[0], now) else s;
      if order[0] in s.marks {
        ResolveMarkNicks(cfg, s, order[0], now, asked, pend);
        ResolveMarkLeaves(cfg, s, order[0], now);
        LeavesPends(s, s1, [order[0]]);
      }
      ResolveMarksNicks(cfg, s1, order[1..], now, asked, pend);
      KeepsTrans(s, s1, ResolveMarks(s, cfg, order, now), asked, pend);
    }
  }

  lemma FewerAsked(marks: map<nat, Reclaim>, order: seq<nat>)
    requires order != []
    ensures Asked(marks, [order[0]]) <= Asked(marks, order)
    ensures Asked(marks, order[1..]) <= Asked(marks, order) && Asked(marks - {order[0]}, order[1..]) <= Asked(marks, order)
  {
    hide NormNick;
  }

  // ---- every step ----

  /** Who may hold which new nick after an event: the sender of NICK, and those an expired marker held back. */
  ghost function MayChange(s: State, e: Event): set<(nat, string)> {
    if e.NickCmd? && e.nick.Some? then {(e.id, NormNick(e.nick.value))}
    else if e.ReclaimTick? then Asked(s.marks, e.order)
    else {}
  }

  lemma CommandNicks(cfg: Config, t: State, now: nat, e: Event)
    requires Inv(cfg, t) && IsCommand(e)
    ensures KeepsNicks(t, Command(t, cfg, now, e), MayChange(t, e), Pends(t))
  {
    hide Pends, KeepsNicks, Inv, HandleNick, HandleUser, HandleCap, HandlePong, JoinAll, HandlePart, HandleKick,
      LoseAndEvict, Target, Asked, NormNick;
    var asked, pend := MayChange(t, e), Pends(t);
    InvApart(cfg, t);
    SameFiling(t, t, asked, pend);
    if e.NickCmd? {
      if e.nick.Some? {
        NickNicks(cfg, t, e.id, e.nick.value, now, pend);
      } else {
        NoNick(cfg, t, e.id, now);
      }
    } else if e.UserCmd? {
      InvTables(cfg, t);
      UserNicks(cfg, t, e.id, e.user, now, pend);
    } else if e.CapCmd? {
      CapFiling(t, e.id, e.sub);
      SameFiling(t, HandleCap(t, e.id, e.sub), asked, pend);
    } else if e.PongCmd? {
      InvTables(cfg, t);
      PongNicks(cfg, t, e.id, now, pend);
    } else if e.JoinCmd? && e.list.Some? {
      var entries := JoinEntries(e.list.value, e.keys);
      JoinFiling(t, e.id, entries, e.founders, e.clock);
      SameFiling(t, JoinAll(t, e.id, entries, e.founders, e.clock), asked, pend);
    } else if e.PartCmd? && e.list.Some? {
      HandlePartFiling(t, e.id, ChannelNames(e.list.value));
      SameFiling(t, HandlePart(t, e.id, ChannelNames(e.list.value)), asked, pend);
    } else if e.KickCmd? {
      KickFiling(t, e.id, e.chan, e.target, now);
      SameFiling(t, HandleKick(t, e.id, e.chan, e.target, now), asked, pend);
    } else if e.QuitCmd? {
      LoseNicks(t, e.id, asked, pend);
    } else if e.KillCmd? || e.GhostCmd? {
      if Target(t, e.id, e.target, now).Some? {
        LoseNicks(t, Target(t, e.id, e.target, now).value, asked, pend);
      }
    } else {
      SameFiling(t, Command(t, cfg, now, e), asked, pend);
    }
  }

  lemma InvTables(cfg: Config, s: State)
    requires Inv(cfg, s)
    ensures TablesOk(s)
  {
  }

  lemma NoNick(cfg: Config, s: State, id: nat, now: nat)
    ensures HandleNick(s, cfg, id, None, now) == s
  {
  }

  lemma UserNicks(cfg: Config, s: State, id: nat, user: Option<string>, now: nat, pend: set<(nat, string)>)
    requires TablesOk(s) && Apart(s) && Pends(s) <= pend
    ensures KeepsNicks(s, HandleUser(s, cfg, id, user, now), {}, pend)
  {
    hide KeepsNicks, MaybeComplete, Put, Filed, Mirrored;
    SameFiling(s, s, {}, pend);
    if !Registered(s, id) && user.Some? && id in Ids(s) {
      var part := if |user.value| > MaxUserLen then user.value[..MaxUserLen] else user.value;
      PutThenComplete(cfg, s, id, Rec(s, id).(info := Rec(s, id).info.(pendingUser := Some(part))), now, pend);
    }
  }

  lemma CapFiling(s: State, id: nat, sub: CapSub)
    ensures HandleCap(s, id, sub).where == s.where && HandleCap(s, id, sub).unreg.Keys == s.unreg.Keys
  {
    hide Put;
    if id in Ids(s) {
      var g := Rec(s, id).gate;
      PutFiling(s, id, Rec(s, id).(gate := g.(negotiating := true)));
      PutFiling(s, id, Rec(s, id).(gate := g.(negotiating := false)));
      PutFiling(s, id, Rec(s, id).(gate := g.(negotiating := false, gated := false)));
    }
  }

  lemma HandlePartFiling(s: State, id: nat, names: seq<string>)
    ensures HandlePart(s, id, names).where == s.where && HandlePart(s, id, names).unreg.Keys == s.unreg.Keys
  {
    hide PartAll;
    PartFiling(s, id, names);
  }

  lemma TouchFiling(s: State, id: nat, now: nat)
    ensures var t := Touch(s, id, now);
      t.where == s.where && t.unreg.Keys == s.unreg.Keys && t.marks == s.marks && Ids(t) == Ids(s)
  {
  }

  lemma StepNicks(cfg: Config, s: State, now: nat, e: Event)
    requires Inv(cfg, s) && !e.Accepted?
    ensures KeepsNicks(s, Step(s, cfg, now, e), MayChange(s, e), Pends(s))
  {
    hide Pends, KeepsNicks, Inv, Command, Touch, LoseAll, CleanupOnEof, ResolveMarks, Liveness, ChannelJoin, Asked, Calm;
    var asked, pend := MayChange(s, e), Pends(s);
    InvApart(cfg, s);
    if IsCommand(e) {
      var t := Touch(s, e.id, now);
      TouchKeeps(cfg, s, e.id, now);
      TouchFiling(s, e.id, now);
      SameFiling(s, t, asked, pend);
      CommandNicks(cfg, t, now, e);
      CalmPends(s, t);
      KeepsMore(t, Step(s, cfg, now, e), asked, Pends(t), asked, pend);
      KeepsTrans(s, t, Step(s, cfg, now, e), asked, pend);
    } else if e.Purge? {
      LoseAllNicks(s, e.order);
      KeepsMore(s, Step(s, cfg, now, e), {}, {}, asked, pend);
    } else if e.Eof? {
      EofNicks(s, e.id);
      KeepsMore(s, Step(s, cfg, now, e), {}, {}, asked, pend);
    } else if e.ReclaimTick? {
      ResolveMarksNicks(cfg, s, e.order, now, asked, pend);
    } else if e.LivenessTick? {
      LivenessNicks(cfg, s, e.unregs, e.pings, now);
      KeepsMore(s, Step(s, cfg, now, e), {}, {}, asked, pend);
    } else {
      LinkFiling(cfg, s, now, e);
      SameFiling(s, Step(s, cfg, now, e), asked, pend);
    }
  }

  lemma LinkFiling(cfg: Config, s: State, now: nat, e: Event)
    requires e.ChannelEdit? || e.RemoteMode? || e.ChannelJoined? || e.NetChanged? || e.Sweep?
    ensures var s' := Step(s, cfg, now, e); s'.where == s.where && s'.unreg == s.unreg
  {
  }

  // ---- every run ----

  /** In step `j` the connection asked for a nick with this key. */
  ghost predicate AskedAt(es: Trace, j: nat, id: nat, key: string) {
    j < |es| && es[j].1.NickCmd? && es[j].1.id == id && es[j].1.nick.Some? && NormNick(es[j].1.nick.value) == key
  }

  /**
   * Step `k` is a tick that takes the marker of `h`; the marker holds back a rename of the connection to a nick
   * with this key, which the connection asked for in step `j` when it found `h` stale.
   */
  ghost predicate HeldBackAt(sid: string, cfg: Config, es: Trace, k: nat, id: nat, key: string, h: nat, j: nat) {
    && j < k < |es| && es[k].1.ReclaimTick? && h in es[k].1.order && h in At(sid, cfg, es, k).marks
    && AskedAt(es, j, id, key) && (id, es[j].1.nick.value) in At(sid, cfg, es, k).marks[h].renames
    && ContestedAt(sid, cfg, es, j, h)
  }

  /**
   * Over every run, a registered connection that survives a step still holds its nick, unless it asked for
   * the one it holds now: by the NICK of this very step, or by an earlier one that was held back by a marker
   * this tick of the reclaim timer takes.
   */
  lemma NickChangesOnlyAsked(sid: string, cfg: Config, es: Trace, k: nat, id: nat)
    requires Feasible(sid, cfg, es) && k < |es| && id in At(sid, cfg, es, k).where && id in Ids(At(sid, cfg, es, k + 1))
    ensures id in At(sid, cfg, es, k + 1).where
    ensures var was, now := At(sid, cfg, es, k).where[id], At(sid, cfg, es, k + 1).where[id];
      now == was || AskedAt(es, k, id, now) || exists h, j :: HeldBackAt(sid, cfg, es, k, id, now, h, j)
  {
    hide Inv, Step, Moves, Leavers, Asked, NormNick, HeldBackAt, Pends;
    StepAt(sid, cfg, es, k);
    var s, s' := At(sid, cfg, es, k), At(sid, cfg, es, k + 1);
    if es[k].1.Accepted? {
      ParkFiling(cfg, s, es[k].0, es[k].1);
    } else {
      StepNicks(cfg, s, es[k].0, es[k].1);
      if s'.where[id] != s.where[id] && es[k].1.ReclaimTick? {
        var h, j := DeferredAsked(sid, cfg, es, k, id, s'.where[id]);
      }
    }
  }

  /** Every rename that a tick takes up was asked for by an earlier NICK of the connection itself. */
  lemma DeferredAsked(sid: string, cfg: Config, es: Trace, k: nat, id: nat, key: string) returns (h: nat, j: nat)
    requires Feasible(sid, cfg, es) && k < |es| && es[k].1.ReclaimTick?
    requires (id, key) in Asked(At(sid, cfg, es, k).marks, es[k].1.order)
    ensures HeldBackAt(sid, cfg, es, k, id, key, h, j)
  {
    hide Feasible, Run, NormNick, ContestedAt;
    var marks, order := At(sid, cfg, es, k).marks, es[k].1.order;
    var holder, i :| holder in order && holder in marks && 0 <= i < |marks[holder].renames|
      && (id, key) == (marks[holder].renames[i].0, NormNick(marks[holder].renames[i].1));
    h := holder;
    var p := marks[h].renames[i];
    assert p in marks[h].renames;
    j := HeldBackAsked(sid, cfg, es, k, h, p);
  }

  /** Whoever waits to register waits for the nick of an earlier NICK of its own. */
  lemma {:induction false} PendingAsked(sid: string, cfg: Config, es: Trace, k: nat, id: nat) returns (j: nat)
    requires Feasible(sid, cfg, es) && k <= |es| && id in Ids(At(sid, cfg, es, k))
    requires Rec(At(sid, cfg, es, k), id).info.pendingNick.Some?
    ensures j < k && es[j].1 == NickCmd(id, Rec(At(sid, cfg, es, k), id).info.pendingNick)
    decreases k
  {
    hide Feasible, Run, Rec, Ids;
    if k == 0 {
      j := 0;
      NobodyAtFirst(sid, cfg, es);
      assert false;
    } else {
      PendingBefore(sid, cfg, es, k - 1, id);
      if es[k - 1].1 == NickCmd(id, Rec(At(sid, cfg, es, k), id).info.pendingNick) {
        j := k - 1;
      } else {
        j := PendingAsked(sid, cfg, es, k - 1, id);
      }
    }
  }

  lemma NobodyAtFirst(sid: string, cfg: Config, es: Trace)
    ensures Ids(At(sid, cfg, es, 0)) == {} && At(sid, cfg, es, 0).where == map[]
  {
  }

  lemma PendingBefore(sid: string, cfg: Config, es: Trace, k: nat, id: nat)
    requires Feasible(sid, cfg, es) && k < |es| && id in Ids(At(sid, cfg, es, k + 1))
    requires Rec(At(sid, cfg, es, k + 1), id).info.pendingNick.Some?
    ensures var s, s' := At(sid, cfg, es, k), At(sid, cfg, es, k + 1);
      es[k].1 == NickCmd(id, Rec(s', id).info.pendingNick)
      || (id in Ids(s) && Rec(s', id).info.pendingNick == Rec(s, id).info.pendingNick)
  {
    hide Step, Enabled, Leavers, IdsMove, QuitsMove, MarksMove, ChansMove, Inv, Rec;
    StepAt(sid, cfg, es, k);
  }

  /** In every reachable state every registered connection holds a nick it asked for itself. */
  lemma {:induction false} EveryNickAsked(sid: string, cfg: Config, es: Trace, k: nat, id: nat) returns (j: nat)
    requires Feasible(sid, cfg, es) && k <= |es| && id in At(sid, cfg, es, k).where
    ensures j < k && AskedAt(es, j, id, At(sid, cfg, es, k).where[id])
    decreases k
  {
    hide Feasible, Run, Ids, NormNick, ContestedAt;
    if k == 0 {
      j := 0;
      NobodyAtFirst(sid, cfg, es);
      assert false;
    } else {
      var s, s' := At(sid, cfg, es, k - 1), At(sid, cfg, es, k);
      var key := s'.where[id];
      RegisteredIsThere(s', id);
      if id in s.where {
        NickChangesOnlyAsked(sid, cfg, es, k - 1, id);
        if key == s.where[id] {
          j := EveryNickAsked(sid, cfg, es, k - 1, id);
        } else if AskedAt(es, k - 1, id, key) {
          j := k - 1;
        } else {
          var h, i :| HeldBackAt(sid, cfg, es, k - 1, id, key, h, i);
          j := i;
        }
      } else {
        j := FirstNickAsked(sid, cfg, es, k - 1, id);
      }
    }
  }

  lemma RegisteredIsThere(s: State, id: nat)
    ensures id in s.where ==> id in Ids(s)
  {
  }

  /** The nick a connection registers under is one it asked for. */
  lemma FirstNickAsked(sid: string, cfg: Config, es: Trace, k: nat, id: nat) returns (j: nat)
    requires Feasible(sid, cfg, es) && k < |es| && id !in At(sid, cfg, es, k).where && id in At(sid, cfg, es, k + 1).where
    ensures j <= k && AskedAt(es, j, id, At(sid, cfg, es, k + 1).where[id])
  {
    hide Inv, Step, Moves, Leavers, Asked, NormNick, HeldBackAt, Rec;
    StepAt(sid, cfg, es, k);
    var s, key := At(sid, cfg, es, k), At(sid, cfg, es, k + 1).where[id];
    if es[k].1.Accepted? {
      ParkFiling(cfg, s, es[k].0, es[k].1);
      assert false;
    }
    StepNicks(cfg, s, es[k].0, es[k].1);
    if (id, key) in Pends(s) {
      j := PendingAsked(sid, cfg, es, k, id);
    } else if es[k].1.ReclaimTick? {
      var h, i := DeferredAsked(sid, cfg, es, k, id, key);
      HeldBackIsAsked(sid, cfg, es, k, id, key, h, i);
      j := i;
    } else {
      j := k;
    }
  }

  lemma HeldBackIsAsked(sid: string, cfg: Config, es: Trace, k: nat, id: nat, key: string, h: nat, j: nat)
    requires HeldBackAt(sid, cfg, es, k, id, key, h, j)
    ensures j < k && AskedAt(es, j, id, key)
  {
  }

  lemma ParkFiling(cfg: Config, s: State, now: nat, e: Event)
    requires e.Accepted?
    ensures Step(s, cfg, now, e).where == s.where
  {
    hide Step;
    StepParks(cfg, s, now, e);
  }
}
