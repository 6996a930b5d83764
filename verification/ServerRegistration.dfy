/** NICK, USER, CAP and PONG: registration, renames and nick reclaim keep the invariant. */
module ServerRegistration {
  import opened Basics
  import opened Names
  import opened ServerModel
  import opened ServerInvariant

  // ---- registering ----

  lemma RegisterTables(s: State, id: nat, nick: string, user: string)
    requires TablesOk(s) && CanRegister(s, id, nick)
    ensures TablesOk(Register(s, id, nick, user))
  {
  }

  lemma RegisterRec(s: State, id: nat, nick: string, user: string)
    requires TablesOk(s) && CanRegister(s, id, nick)
    ensures Ids(Register(s, id, nick, user)) == Ids(s) && id in s.seen
    ensures Rec(Register(s, id, nick, user), id)
         == s.unreg[id].(nickKey := NormNick(nick), registered := true, info := s.unreg[id].info.(nick := nick, user := user))
    ensures forall j :: j in Ids(s) && j != id ==> Rec(Register(s, id, nick, user), j) == Rec(s, j)
  {
    hide Mirrored;
  }

  lemma WelcomeOther(cfg: Config, log: multiset<Sent>, id: nat, u: Cx)
    requires WelcomeFor(cfg, log, u) && u.id != id
    ensures WelcomeFor(cfg, log + multiset{Sent(id, Welcome)}, u)
  {
  }

  /** A welcome for one connection leaves everyone else's account of it alone. */
  lemma WelcomeOne(cfg: Config, users: map<string, Cx>, unreg: map<nat, Cx>, log: multiset<Sent>, id: nat, key: string,
          u: Cx)
    requires WelcomeAll(cfg, users, unreg, log) && WelcomeFor(cfg, log + multiset{Sent(id, Welcome)}, u)
    requires forall k :: k in users && k != key ==> users[k].id != id
    requires forall i :: i in unreg && i != id ==> unreg[i].id != id
    ensures WelcomeAll(cfg, users[key := u], unreg - {id}, log + multiset{Sent(id, Welcome)})
  {
    hide WelcomeFor;
    forall k | k in users && k != key ensures WelcomeFor(cfg, log + multiset{Sent(id, Welcome)}, users[k]) {
      WelcomeOther(cfg, log, id, users[k]);
    }
    forall i | i in unreg && i != id ensures WelcomeFor(cfg, log + multiset{Sent(id, Welcome)}, unreg[i]) {
      WelcomeOther(cfg, log, id, unreg[i]);
    }
  }

  lemma OnlyHolder(s: State, id: nat)
    requires TablesOk(s)
    ensures forall k :: k in s.users && (id in s.where ==> k != s.where[id]) ==> s.users[k].id != id
    ensures forall i :: i in s.unreg && i != id ==> s.unreg[i].id != id
  {
    hide Mirrored;
  }

  lemma NewcomerWelcomed(cfg: Config, s: State, id: nat, u: Cx)
    requires TablesOk(s) && WelcomeOk(cfg, s) && id in s.unreg
    requires u.id == id && u.registered && u.gate == s.unreg[id].gate && (cfg.challenge ==> u.gate.verified)
    ensures WelcomeFor(cfg, s.log + multiset{Sent(id, Welcome)}, u)
  {
    hide Mirrored;
    assert WelcomeFor(cfg, s.log, s.unreg[id]);
  }

  lemma RegisterWelcomed(cfg: Config, s: State, id: nat, nick: string, user: string)
    requires TablesOk(s) && WelcomeOk(cfg, s) && CanRegister(s, id, nick)
    requires cfg.challenge ==> s.unreg[id].gate.verified
    ensures WelcomeOk(cfg, Deliver(Register(s, id, nick, user), id, Welcome))
  {
    hide Filed, Mirrored, WelcomeAll, WelcomeFor;
    RegisterRec(s, id, nick, user);
    OnlyHolder(s, id);
    var u := Rec(Register(s, id, nick, user), id);
    UnregisteredNowhere(s, id);
    NewcomerWelcomed(cfg, s, id, u);
    WelcomeOne(cfg, s.users, s.unreg, s.log, id, NormNick(nick), u);
    var s' := Deliver(Register(s, id, nick, user), id, Welcome);
    assert s'.log == s.log + multiset{Sent(id, Welcome)};
  }

  lemma UnregisteredNowhere(s: State, id: nat)
    requires TablesOk(s) && id in s.unreg
    ensures id !in s.where && id in s.seen && s.unreg[id].id == id
  {
    hide Mirrored;
  }

  lemma RegisterGated(cfg: Config, s: State, id: nat, nick: string, user: string)
    requires TablesOk(s) && WelcomeOk(cfg, s) && CanRegister(s, id, nick)
    requires (cfg.challenge ==> s.unreg[id].gate.verified) && s.unreg[id].gate.negotiating
    ensures var s1 := Register(s, id, nick, user);
      WelcomeOk(cfg, Put(s1, id, Rec(s1, id).(gate := Rec(s1, id).gate.(gated := true))))
  {
    hide Mirrored;
  }

  lemma NoQuitAdded(s: State, s': State, line: Sent)
    requires (s'.log == s.log || s'.log == s.log + multiset{line}) && !line.line.Quit?
    ensures SameQuits(s, s')
  {
  }

  lemma RegisterKeepsGated(cfg: Config, s: State, id: nat, nick: string, user: string)
    requires Inv(cfg, s) && CanRegister(s, id, nick)
    requires (cfg.challenge ==> s.unreg[id].gate.verified) && s.unreg[id].gate.negotiating
    ensures var s1 := Register(s, id, nick, user);
      var s' := Put(s1, id, Rec(s1, id).(gate := Rec(s1, id).gate.(gated := true)));
      Inv(cfg, s') && Calm(s, s')
  {
    hide Filed, Mirrored, MarksOk, WelcomeOk, QuitsOk;
    var s1 := Register(s, id, nick, user);
    RegisterTables(s, id, nick, user);
    RegisterRec(s, id, nick, user);
    var u := Rec(s1, id).(gate := Rec(s1, id).gate.(gated := true));
    RegisterGated(cfg, s, id, nick, user);
    PutTables(s1, id, u);
    PutRec(s1, id, u);
    SameIdsKeeps(s, Put(s1, id, u));
  }

  lemma RegisterKeeps(cfg: Config, s: State, id: nat, nick: string, user: string)
    requires Inv(cfg, s) && CanRegister(s, id, nick) && (cfg.challenge ==> s.unreg[id].gate.verified)
    ensures var s' := Deliver(Register(s, id, nick, user), id, Welcome); Inv(cfg, s') && Calm(s, s')
  {
    hide Filed, Mirrored, MarksOk, WelcomeOk, QuitsOk, SameQuits;
    RegisterTables(s, id, nick, user);
    RegisterRec(s, id, nick, user);
    RegisterWelcomed(cfg, s, id, nick, user);
    var s' := Deliver(Register(s, id, nick, user), id, Welcome);
    NoQuitAdded(s, s', Sent(id, Welcome));
    SameIdsKeeps(s, s');
  }

  lemma CompleteKeeps(cfg: Config, s: State, id: nat, nick: string, user: string)
    requires Inv(cfg, s) && id in Ids(s) && !Rec(s, id).registered && (cfg.challenge ==> Rec(s, id).gate.verified)
    ensures Inv(cfg, Complete(s, id, nick, user)) && Calm(s, Complete(s, id, nick, user))
    ensures Complete(s, id, nick, user).marks == s.marks && Complete(s, id, nick, user).pings == s.pings
  {
    hide Filed, Mirrored, MarksOk, WelcomeOk, QuitsOk, SameQuits, SameStanding, NoNewMarks;
    if CanRegister(s, id, nick) {
      RegisterRec(s, id, nick, user);
      if s.unreg[id].gate.negotiating {
        RegisterKeepsGated(cfg, s, id, nick, user);
      } else {
        RegisterKeeps(cfg, s, id, nick, user);
      }
    } else {
      DeliverKeeps(cfg, s, id, InUse(nick));
    }
  }

  lemma MaybeCompleteKeeps(cfg: Config, s: State, id: nat, now: nat)
    requires Inv(cfg, s)
    ensures Inv(cfg, MaybeComplete(s, cfg, id, now)) && Calm(s, MaybeComplete(s, cfg, id, now))
    ensures MaybeComplete(s, cfg, id, now).marks == s.marks && MaybeComplete(s, cfg, id, now).pings == s.pings
  {
    hide Filed, Mirrored, MarksOk, WelcomeOk, QuitsOk, SameQuits, SameStanding, NoNewMarks, Complete, IssueChallenge;
    StaysCalm(s);
    if Ready(s, id) {
      var u := Rec(s, id);
      if cfg.challenge && !u.gate.verified {
        ChallengeKeeps(cfg, s, id);
      } else {
        CompleteKeeps(cfg, s, id, u.info.pendingNick.value, u.info.pendingUser.value);
      }
    }
  }

  lemma StaysCalm(s: State)
    ensures Calm(s, s)
  {
  }

  lemma ChallengeKeeps(cfg: Config, s: State, id: nat)
    requires Inv(cfg, s) && id in Ids(s) && !Rec(s, id).gate.verified
    ensures Inv(cfg, IssueChallenge(s, id)) && Calm(s, IssueChallenge(s, id))
    ensures IssueChallenge(s, id).marks == s.marks && IssueChallenge(s, id).pings == s.pings
  {
    hide Filed, Mirrored, MarksOk, WelcomeOk, QuitsOk;
    RecFacts(s, id);
    DeliverKeeps(cfg, s, id, Challenge);
    RecWelcome(cfg, Deliver(s, id, Challenge), id);
    PutKeeps(cfg, Deliver(s, id, Challenge), id, Rec(s, id).(gate := Rec(s, id).gate.(challenged := true)));
  }

  // ---- renaming ----

  lemma RefiledFiled(users: map<string, Cx>, unreg: map<nat, Cx>, where: map<nat, string>, seen: set<nat>, id: nat,
          key: string, u: Cx)
    requires Filed(users, unreg, where, seen) && id in where && key !in users
    requires u.id == id && u.nickKey == key && u.registered && u.chans == users[where[id]].chans
    ensures Filed((users - {where[id]})[key := u], unreg, where[id := key], seen)
  {
  }

  lemma RefiledMirrored(users: map<string, Cx>, unreg: map<nat, Cx>, where: map<nat, string>, seen: set<nat>,
                        chans: map<string, Chn>, id: nat, key: string, u: Cx)
    requires Filed(users, unreg, where, seen) && Mirrored(users, where, chans) && id in where && key !in users
    requires u.id == id && u.chans == users[where[id]].chans
    ensures Mirrored((users - {where[id]})[key := u], where[id := key], chans)
  {
  }

  lemma RenameTables(s: State, id: nat, nick: string, now: nat)
    requires TablesOk(s) && Registered(s, id) && NormNick(nick) !in s.users
    ensures TablesOk(ApplyRename(s, id, nick, now))
  {
    hide Filed, Mirrored;
    RecFacts(s, id);
    var u := Rec(s, id).(nickKey := NormNick(nick), info := Rec(s, id).info.(nick := nick));
    RefiledFiled(s.users, s.unreg, s.where, s.seen, id, NormNick(nick), u);
    RefiledMirrored(s.users, s.unreg, s.where, s.seen, s.chans, id, NormNick(nick), u);
  }

  lemma RenameRec(s: State, id: nat, nick: string, now: nat)
    requires TablesOk(s) && Registered(s, id) && NormNick(nick) !in s.users
    ensures var s' := ApplyRename(s, id, nick, now);
      && Ids(s') == Ids(s) && s'.where == s.where[id := NormNick(nick)]
      && Rec(s', id) == Rec(s, id).(nickKey := NormNick(nick), info := Rec(s, id).info.(nick := nick))
      && (forall j :: j in Ids(s) && j != id ==> Rec(s', j) == Rec(s, j))
  {
    hide Mirrored;
    RecFacts(s, id);
  }

  lemma RenameWelcome(cfg: Config, s: State, id: nat, nick: string, now: nat)
    requires TablesOk(s) && WelcomeOk(cfg, s) && Registered(s, id) && NormNick(nick) !in s.users
    ensures WelcomeOk(cfg, ApplyRename(s, id, nick, now))
  {
    hide Mirrored;
    RecFacts(s, id);
  }

  lemma RenameKeeps(cfg: Config, s: State, id: nat, nick: string, now: nat)
    requires Inv(cfg, s) && Registered(s, id) && NormNick(nick) !in s.users
    ensures Inv(cfg, ApplyRename(s, id, nick, now)) && Calm(s, ApplyRename(s, id, nick, now))
  {
    hide Filed, Mirrored, MarksOk, WelcomeOk, QuitsOk;
    RecFacts(s, id);
    RenameTables(s, id, nick, now);
    RenameRec(s, id, nick, now);
    RenameWelcome(cfg, s, id, nick, now);
    SameIdsKeeps(s, ApplyRename(s, id, nick, now));
  }

  lemma FinishRenameKeeps(cfg: Config, s: State, id: nat, nick: string, now: nat)
    requires Inv(cfg, s)
    ensures Inv(cfg, FinishRename(s, id, nick, now)) && Calm(s, FinishRename(s, id, nick, now))
  {
    hide Filed, Mirrored, MarksOk, WelcomeOk, QuitsOk;
    if Registered(s, id) && ValidNick(nick) && NormNick(nick) !in s.users {
      RenameKeeps(cfg, s, id, nick, now);
    }
  }

  // ---- reclaim ----

  /** The nick asked for is held, now or by a recent rename, by somebody else who looks gone. */
  ghost predicate Contests(cfg: Config, s: State, now: nat, id: nat, nick: string, h: nat) {
    var occ := Lookup(s, NormNick(nick), now);
    occ.Some? && occ.value.id == h && h != id && LooksStale(s, cfg, h, now)
  }

  /** A marker is new, a full grace period ahead, or keeps its deadline; only `ask` is held back besides. */
  ghost predicate Extended(cfg: Config, marks: map<nat, Reclaim>, h: nat, mark: Reclaim, now: nat, ask: (nat, string)) {
    && mark.expiry == (if h in marks then marks[h].expiry else now + Grace(cfg))
    && (forall p :: p in mark.pairings ==> p == ask || (h in marks && p in marks[h].pairings))
    && (forall p :: p in mark.renames ==> p == ask || (h in marks && p in marks[h].renames))
  }

  /** Markers come, and hold back more, only by a NICK that contests their holder's nick. */
  ghost predicate MarksGrow(cfg: Config, s: State, marks: map<nat, Reclaim>, now: nat, id: nat, nick: Option<string>) {
    forall h :: h in marks ==>
      || (h in s.marks && marks[h] == s.marks[h])
      || (nick.Some? && Contests(cfg, s, now, id, nick.value, h) && Extended(cfg, s.marks, h, marks[h], now, (id, nick.value)))
  }

  /** NICK may start a reclaim; otherwise it is calm. */
  ghost predicate Reclaims(cfg: Config, s: State, s': State, now: nat, id: nat, nick: Option<string>) {
    && s'.seen == s.seen && Ids(s') == Ids(s) && s'.net == s.net && s'.chans == s.chans
    && SameQuits(s, s') && StandingBut(s, s', id, nick) && MarksGrow(cfg, s, s'.marks, now, id, nick)
  }

  /** Standing is kept, but that the sender may now wait to register under the nick it gave. */
  ghost predicate StandingBut(s: State, s': State, id: nat, nick: Option<string>) {
    forall i :: i in Ids(s) && i in Ids(s') ==>
      || SamePlace(Rec(s', i), Rec(s, i))
      || (i == id && nick.Some? && Rec(s', i).gate.verified == Rec(s, i).gate.verified && Rec(s', i).info.pendingNick == nick)
  }

  lemma StandingIsBut(s: State, s': State, id: nat, nick: Option<string>)
    requires SameStanding(s, s')
    ensures StandingBut(s, s', id, nick)
  {
    hide Rec;
  }

  ghost predicate AskOnly(held: seq<(nat, string)>, ask: (nat, string)) {
    forall p :: p in held ==> p == ask
  }

  /** A marker is installed with its ping, and an existing one keeps its deadline. */
  lemma BeginReclaimKeeps(cfg: Config, s: State, occ: nat, pairings: seq<(nat, string)>, renames: seq<(nat, string)>,
          now: nat,
                          id: nat, nick: string)
    requires Inv(cfg, s) && occ in Ids(s) && Contests(cfg, s, now, id, nick, occ)
    requires AskOnly(pairings, (id, nick)) && AskOnly(renames, (id, nick))
    ensures var s' := BeginReclaim(s, cfg, occ, pairings, renames, now);
      && Inv(cfg, s') && Reclaims(cfg, s, s', now, id, Some(nick))
      && s'.users == s.users && s'.unreg == s.unreg && s'.where == s.where
  {
    hide Filed, Mirrored, WelcomeOk, QuitsOk, MarksOk, Reclaims, Contests, AskOnly;
    var s' := BeginReclaim(s, cfg, occ, pairings, renames, now);
    DeliverKeeps(cfg, s, occ, Ping);
    var d := if occ in s.pings then s else Deliver(s, occ, Ping);
    WelcomeSame(cfg, d, s');
    QuitsSame(d, s');
    BegunMarks(cfg, s, occ, pairings, renames, now);
    BegunReclaims(cfg, s, occ, pairings, renames, now, id, nick);
  }

  lemma BegunMarks(cfg: Config, s: State, occ: nat, pairings: seq<(nat, string)>, renames: seq<(nat, string)>, now: nat)
    requires TablesOk(s) && MarksOk(s) && occ in Ids(s)
    ensures MarksOk(BeginReclaim(s, cfg, occ, pairings, renames, now))
  {
    hide Filed, Mirrored;
    RecFacts(s, occ);
  }

  lemma BegunReclaims(cfg: Config, s: State, occ: nat, pairings: seq<(nat, string)>, renames: seq<(nat, string)>, now: nat,
                      id: nat, nick: string)
    requires Contests(cfg, s, now, id, nick, occ) && AskOnly(pairings, (id, nick)) && AskOnly(renames, (id, nick))
    ensures Reclaims(cfg, s, BeginReclaim(s, cfg, occ, pairings, renames, now), now, id, Some(nick))
  {
    hide SameQuits, SameStanding, StandingBut, BeginReclaim, Contests, Extended, AskOnly;
    var s' := BeginReclaim(s, cfg, occ, pairings, renames, now);
    BegunFrame(cfg, s, occ, pairings, renames, now);
    BegunExtends(cfg, s, occ, pairings, renames, now, (id, nick));
    TablesUnmoved(s, s');
    StandingIsBut(s, s', id, Some(nick));
    NoQuitAdded(s, s', Sent(occ, Ping));
  }

  lemma BegunFrame(cfg: Config, s: State, occ: nat, pairings: seq<(nat, string)>, renames: seq<(nat, string)>, now: nat)
    ensures var s' := BeginReclaim(s, cfg, occ, pairings, renames, now);
      && s'.users == s.users && s'.unreg == s.unreg && s'.where == s.where && s'.chans == s.chans && s'.net == s.net
      && s'.seen == s.seen && (s'.log == s.log || s'.log == s.log + multiset{Sent(occ, Ping)})
  {
  }

  lemma BegunExtends(cfg: Config, s: State, occ: nat, pairings: seq<(nat, string)>, renames: seq<(nat, string)>, now: nat,
                     ask: (nat, string))
    requires AskOnly(pairings, ask) && AskOnly(renames, ask)
    ensures var marks := BeginReclaim(s, cfg, occ, pairings, renames, now).marks;
      && marks.Keys == s.marks.Keys + {occ} && (forall h :: h in s.marks && h != occ ==> marks[h] == s.marks[h])
      && Extended(cfg, s.marks, occ, marks[occ], now, ask)
  {
  }

  lemma WelcomeSame(cfg: Config, s: State, s': State)
    requires WelcomeOk(cfg, s) && s'.users == s.users && s'.unreg == s.unreg && s'.seen == s.seen && s'.log == s.log
    ensures WelcomeOk(cfg, s')
  {
  }

  lemma QuitsSame(s: State, s': State)
    requires QuitsOk(s) && s'.unreg == s.unreg && s'.where == s.where && s'.seen == s.seen && s'.log == s.log
    ensures QuitsOk(s')
  {
  }

  lemma ReclaimsTrans(cfg: Config, s: State, s1: State, s2: State, now: nat, id: nat, nick: Option<string>)
    requires Reclaims(cfg, s, s1, now, id, nick) && Reclaims(cfg, s1, s2, now, id, nick) && s2.marks == s1.marks
    ensures Reclaims(cfg, s, s2, now, id, nick)
  {
    hide Contests, Extended, Rec, MarksGrow;
  }

  lemma CalmReclaims(cfg: Config, s: State, s': State, now: nat, id: nat, nick: Option<string>)
    requires Calm(s, s')
    ensures Reclaims(cfg, s, s', now, id, nick)
  {
    hide Contests, Extended, SameStanding, StandingBut;
    StandingIsBut(s, s', id, nick);
  }

  lemma NickKeeps(cfg: Config, s: State, id: nat, nick: Option<string>, now: nat)
    requires Inv(cfg, s)
    ensures Inv(cfg, HandleNick(s, cfg, id, nick, now)) && Reclaims(cfg, s, HandleNick(s, cfg, id, nick, now), now, id, nick)
  {
    hide Filed, Mirrored, MarksOk, WelcomeOk, QuitsOk, Calm, Reclaims, NickRegistered, NickPairing, ValidNick, IsServiceName;
    StaysCalm(s);
    CalmReclaims(cfg, s, s, now, id, nick);
    if nick.None? || !ValidNick(nick.value) || IsServiceName(nick.value) {
    } else if Registered(s, id) {
      NickRegisteredKeeps(cfg, s, id, nick.value, now);
    } else {
      NickPairingKeeps(cfg, s, id, nick.value, now);
    }
  }

  lemma NickRegisteredKeeps(cfg: Config, s: State, id: nat, nick: string, now: nat)
    requires Inv(cfg, s) && Registered(s, id)
    ensures Inv(cfg, NickRegistered(s, cfg, id, nick, now))
    ensures Reclaims(cfg, s, NickRegistered(s, cfg, id, nick, now), now, id, Some(nick))
  {
    hide Filed, Mirrored, MarksOk, WelcomeOk, QuitsOk, SameQuits, SameStanding, NoNewMarks, Reclaims, BeginReclaim,
      ApplyRename, RenamedLines, NormNick;
    if NormNick(nick) in s.users {
      var occ := s.users[NormNick(nick)].id;
      UserFacts(s, NormNick(nick));
      if occ != id && LooksStale(s, cfg, occ, now) {
        BeginReclaimKeeps(cfg, s, occ, [], [(id, nick)], now, id, nick);
      }
      DeliverKeeps(cfg, s, id, InUse(nick));
      CalmReclaims(cfg, s, Deliver(s, id, InUse(nick)), now, id, Some(nick));
    } else {
      RenameKeeps(cfg, s, id, nick, now);
      var s1 := ApplyRename(s, id, nick, now);
      RenamedOnly(s1, id, nick);
      LogKeeps(cfg, s1, RenamedLines(s1, id, nick));
      SteadyTrans(s, s1, NickRegistered(s, cfg, id, nick, now));
      CalmReclaims(cfg, s, NickRegistered(s, cfg, id, nick, now), now, id, Some(nick));
    }
  }

  lemma RenamedOnly(s: State, id: nat, nick: string)
    ensures forall l :: l in RenamedLines(s, id, nick) ==> l.line == Renamed(id, nick)
  {
  }

  lemma LookupLive(s: State, key: string, now: nat)
    requires TablesOk(s) && Lookup(s, key, now).Some?
    ensures Lookup(s, key, now).value.id in s.where
  {
    hide Mirrored;
    var k :| k in s.users && s.users[k] == Lookup(s, key, now).value;
  }

  /** The nick half of a pairing filled in. */
  lemma FillKeeps(cfg: Config, s: State, id: nat, nick: string, now: nat)
    requires Inv(cfg, s) && id in Ids(s)
    ensures var s1 := Put(s, id, Rec(s, id).(info := Rec(s, id).info.(pendingNick := Some(nick))));
      Inv(cfg, s1) && Reclaims(cfg, s, s1, now, id, Some(nick)) && s1.marks == s.marks
  {
    hide Filed, Mirrored, MarksOk, WelcomeOk, QuitsOk, SameQuits, Contests, Extended;
    var u := Rec(s, id).(info := Rec(s, id).info.(pendingNick := Some(nick)));
    RecWelcome(cfg, s, id);
    PutKeeps(cfg, s, id, u);
    QuitsUnmoved(s, Put(s, id, u));
  }

  lemma PairKeeps(cfg: Config, s: State, id: nat, nick: string, now: nat)
    requires Inv(cfg, s)
    ensures var s1 := if id in Ids(s) then Put(s, id, Rec(s, id).(info := Rec(s, id).info.(pendingNick := Some(nick)))) else s;
      var s2 := MaybeComplete(s1, cfg, id, now);
      Inv(cfg, s2) && Reclaims(cfg, s, s2, now, id, Some(nick)) && s2.marks == s.marks
  {
    hide Filed, Mirrored, MarksOk, WelcomeOk, QuitsOk, Calm, Reclaims, MaybeComplete, Put;
    var s1 := s;
    StaysCalm(s);
    CalmReclaims(cfg, s, s, now, id, Some(nick));
    if id in Ids(s) {
      s1 := Put(s, id, Rec(s, id).(info := Rec(s, id).info.(pendingNick := Some(nick))));
      FillKeeps(cfg, s, id, nick, now);
    }
    var s2 := MaybeComplete(s1, cfg, id, now);
    MaybeCompleteKeeps(cfg, s1, id, now);
    CalmReclaims(cfg, s1, s2, now, id, Some(nick));
    ReclaimsTrans(cfg, s, s1, s2, now, id, Some(nick));
  }

  lemma NickPairingKeeps(cfg: Config, s: State, id: nat, nick: string, now: nat)
    requires Inv(cfg, s)
    ensures Inv(cfg, NickPairing(s, cfg, id, nick, now))
    ensures Reclaims(cfg, s, NickPairing(s, cfg, id, nick, now), now, id, Some(nick))
  {
    hide Filed, Mirrored, MarksOk, WelcomeOk, QuitsOk, SameQuits, SameStanding, NoNewMarks, MaybeComplete, Calm,
      Reclaims, BeginReclaim;
    var occ := Lookup(s, NormNick(nick), now);
    if occ.Some? {
      LookupLive(s, NormNick(nick), now);
    }
    if occ.Some? && occ.value.id != id && !LooksStale(s, cfg, occ.value.id, now) {
      DeliverKeeps(cfg, s, id, InUse(nick));
      CalmReclaims(cfg, s, Deliver(s, id, InUse(nick)), now, id, Some(nick));
    } else if occ.Some? && occ.value.id != id {
      BeginReclaimKeeps(cfg, s, occ.value.id, [(id, nick)], [], now, id, nick);
      var s1 := BeginReclaim(s, cfg, occ.value.id, [(id, nick)], [], now);
      PairKeeps(cfg, s1, id, nick, now);
      ReclaimsTrans(cfg, s, s1, NickPairing(s, cfg, id, nick, now), now, id, Some(nick));
    } else {
      PairKeeps(cfg, s, id, nick, now);
    }
  }

  lemma UserKeeps(cfg: Config, s: State, id: nat, user: Option<string>, now: nat)
    requires Inv(cfg, s)
    ensures Inv(cfg, HandleUser(s, cfg, id, user, now)) && Calm(s, HandleUser(s, cfg, id, user, now))
  {
    hide Filed, Mirrored, MarksOk, WelcomeOk, QuitsOk, SameQuits, SameStanding, NoNewMarks, MaybeComplete;
    StaysCalm(s);
    if !Registered(s, id) && user.Some? && id in Ids(s) {
      var part := if |user.value| > MaxUserLen then user.value[..MaxUserLen] else user.value;
      var u := Rec(s, id).(info := Rec(s, id).info.(pendingUser := Some(part)));
      RecWelcome(cfg, s, id);
      PutKeeps(cfg, s, id, u);
      MaybeCompleteKeeps(cfg, Put(s, id, u), id, now);
      SteadyTrans(s, Put(s, id, u), MaybeComplete(Put(s, id, u), cfg, id, now));
    }
  }

  // ---- CAP ----

  lemma CapKeeps(cfg: Config, s: State, id: nat, sub: CapSub)
    requires Inv(cfg, s)
    ensures Inv(cfg, HandleCap(s, id, sub)) && Calm(s, HandleCap(s, id, sub))
  {
    hide Filed, Mirrored, MarksOk, WelcomeOk, QuitsOk, SameQuits, SameStanding, NoNewMarks;
    StaysCalm(s);
    if id in Ids(s) && !sub.Other? {
      RecFacts(s, id);
      RecWelcome(cfg, s, id);
      if sub.Negotiate? {
        PutKeeps(cfg, s, id, Rec(s, id).(gate := Rec(s, id).gate.(negotiating := true)));
      } else if Rec(s, id).registered && Rec(s, id).gate.gated {
        PayWelcome(cfg, s, id);
      } else {
        PutKeeps(cfg, s, id, Rec(s, id).(gate := Rec(s, id).gate.(negotiating := false)));
      }
    }
  }

  lemma OwedWelcomed(cfg: Config, s: State, id: nat, u: Cx)
    requires TablesOk(s) && WelcomeOk(cfg, s) && id in s.where && Rec(s, id).gate.gated
    requires u == Rec(s, id).(gate := Rec(s, id).gate.(negotiating := false, gated := false))
    ensures WelcomeFor(cfg, s.log + multiset{Sent(id, Welcome)}, u)
    ensures (s.log + multiset{Sent(id, Welcome)})[Sent(id, Welcome)] == 1
  {
    hide Filed, Mirrored;
    RecFacts(s, id);
    RecWelcome(cfg, s, id);
  }

  lemma PaidWelcome(cfg: Config, s: State, id: nat, u: Cx)
    requires TablesOk(s) && WelcomeOk(cfg, s) && id in s.where && Rec(s, id).gate.gated
    requires u == Rec(s, id).(gate := Rec(s, id).gate.(negotiating := false, gated := false))
    ensures WelcomeOk(cfg, Deliver(Put(s, id, u), id, Welcome))
    ensures Deliver(Put(s, id, u), id, Welcome).log[Sent(id, Welcome)] == 1
  {
    hide Filed, Mirrored, WelcomeAll, WelcomeFor;
    RecFacts(s, id);
    OnlyHolder(s, id);
    OwedWelcomed(cfg, s, id, u);
    WelcomeOne(cfg, s.users, s.unreg, s.log, id, s.where[id], u);
    assert s.unreg - {id} == s.unreg;
    assert Deliver(Put(s, id, u), id, Welcome).log == s.log + multiset{Sent(id, Welcome)};
  }

  lemma PaidCalm(s: State, id: nat, u: Cx)
    requires TablesOk(s) && id in Ids(s) && SamePlace(u, Rec(s, id))
    ensures var s' := Deliver(Put(s, id, u), id, Welcome); Calm(s, s') && s'.log == s.log + multiset{Sent(id, Welcome)}
  {
    hide Filed, Mirrored, SameQuits, SameStanding;
    var s1 := Put(s, id, u);
    var s' := Deliver(s1, id, Welcome);
    PutCalm(s, id, u);
    TablesUnmoved(s1, s');
    NoQuitAdded(s1, s', Sent(id, Welcome));
    SteadyTrans(s, s1, s');
  }

  /** `CAP END` pays the welcome that was withheld. */
  lemma PayWelcome(cfg: Config, s: State, id: nat)
    requires Inv(cfg, s) && id in Ids(s) && Rec(s, id).registered && Rec(s, id).gate.gated
    ensures Inv(cfg, HandleCap(s, id, End)) && Calm(s, HandleCap(s, id, End))
    ensures HandleCap(s, id, End).log[Sent(id, Welcome)] == 1
  {
    hide Filed, Mirrored, MarksOk, WelcomeOk, QuitsOk, SameQuits, SameStanding, NoNewMarks;
    RecFacts(s, id);
    var u := Rec(s, id).(gate := Rec(s, id).gate.(negotiating := false, gated := false));
    var s' := Deliver(Put(s, id, u), id, Welcome);
    assert HandleCap(s, id, End) == s';
    PutTables(s, id, u);
    PaidWelcome(cfg, s, id, u);
    PaidCalm(s, id, u);
    SameIdsKeeps(s, s');
  }

  // ---- PONG ----

  lemma {:induction false} RefuseAllKeeps(cfg: Config, s: State, held: seq<(nat, string)>)
    requires Inv(cfg, s)
    ensures Inv(cfg, RefuseAll(s, held)) && Calm(s, RefuseAll(s, held))
    ensures RefuseAll(s, held).marks == s.marks
    decreases |held|
  {
    hide Filed, Mirrored, MarksOk, WelcomeOk, QuitsOk, SameQuits, SameStanding, NoNewMarks;
    StaysCalm(s);
    if held != [] {
      DeliverKeeps(cfg, s, held[0].0, InUse(held[0].1));
      var s1 := Deliver(s, held[0].0, InUse(held[0].1));
      RefuseAllKeeps(cfg, s1, held[1..]);
      SteadyTrans(s, s1, RefuseAll(s1, held[1..]));
    }
  }

  /** A PONG may verify its own sender, once challenged; it does nothing else of the kind. */
  ghost predicate Verifies(s: State, s': State, id: nat) {
    forall i :: i in Ids(s) && i in Ids(s') ==>
      && Rec(s', i).info.pendingNick == Rec(s, i).info.pendingNick
      && (Rec(s', i).gate.verified ==> Rec(s, i).gate.verified || (i == id && Rec(s, i).gate.challenged))
  }

  ghost predicate Answers(s: State, s': State, id: nat) {
    && s'.chans == s.chans && s'.net == s.net && s'.seen == s.seen && Ids(s') == Ids(s)
    && SameQuits(s, s') && NoNewMarks(s, s') && Verifies(s, s', id)
  }

  lemma AnswersThenCalm(s: State, s1: State, s2: State, id: nat)
    requires Answers(s, s1, id) && Calm(s1, s2)
    ensures Answers(s, s2, id)
  {
  }

  lemma VerifyKeeps(cfg: Config, s: State, id: nat)
    requires Inv(cfg, s) && id in Ids(s) && !Rec(s, id).registered && Rec(s, id).gate.challenged
    ensures var s1 := Put(s, id, Rec(s, id).(gate := Rec(s, id).gate.(verified := true)));
      Inv(cfg, s1) && Answers(s, s1, id)
  {
    hide Filed, Mirrored, MarksOk, WelcomeOk, QuitsOk;
    RecWelcome(cfg, s, id);
    PutKeeps(cfg, s, id, Rec(s, id).(gate := Rec(s, id).gate.(verified := true)));
  }

  lemma ChallengeAnswered(cfg: Config, s: State, id: nat, now: nat)
    requires Inv(cfg, s) && id in Ids(s) && !Rec(s, id).registered && Rec(s, id).gate.challenged
    ensures var s1 := MaybeComplete(Put(s, id, Rec(s, id).(gate := Rec(s, id).gate.(verified := true))), cfg, id, now);
      Inv(cfg, s1) && Answers(s, s1, id) && s1.marks == s.marks && s1.pings == s.pings
  {
    hide Filed, Mirrored, MarksOk, WelcomeOk, QuitsOk, SameQuits, SameStanding, NoNewMarks, MaybeComplete, Answers, Calm;
    VerifyKeeps(cfg, s, id);
    var s0 := Put(s, id, Rec(s, id).(gate := Rec(s, id).gate.(verified := true)));
    MaybeCompleteKeeps(cfg, s0, id, now);
    AnswersThenCalm(s, s0, MaybeComplete(s0, cfg, id, now), id);
  }

  lemma UnmarkKeeps(cfg: Config, s: State, id: nat)
    requires Inv(cfg, s)
    ensures var s' := s.(pings := s.pings - {id}, marks := s.marks - {id});
      Inv(cfg, s') && Calm(s, s')
  {
    hide Filed, Mirrored, WelcomeAll;
  }

  /** A processed PONG always clears its sender's marker. */
  lemma PongKeeps(cfg: Config, s: State, id: nat, now: nat)
    requires Inv(cfg, s)
    ensures var s' := HandlePong(s, cfg, id, now);
      Inv(cfg, s') && Answers(s, s', id) && (id in Ids(s) ==> id !in s'.marks)
  {
    hide Filed, Mirrored, WelcomeOk, QuitsOk, SameQuits, SameStanding, NoNewMarks, MaybeComplete, RefuseAll, Answers, Calm;
    var s1 := s;
    AnswersSelf(s, id);
    if id in Ids(s) && !Rec(s, id).registered && Rec(s, id).gate.challenged && !Rec(s, id).gate.verified {
      ChallengeAnswered(cfg, s, id, now);
      s1 := MaybeComplete(Put(s, id, Rec(s, id).(gate := Rec(s, id).gate.(verified := true))), cfg, id, now);
      AnswersIds(s, s1, id);
    }
    if id in s1.pings {
      var s2 := s1.(pings := s1.pings - {id}, marks := s1.marks - {id});
      UnmarkKeeps(cfg, s1, id);
      AnswersThenCalm(s, s1, s2, id);
      if id in s1.marks {
        RefuseAllKeeps(cfg, s2, s1.marks[id].pairings + s1.marks[id].renames);
        AnswersThenCalm(s, s2, HandlePong(s, cfg, id, now), id);
      } else {
        assert s2 == s1.(pings := s1.pings - {id});
      }
    }
  }

  lemma AnswersSelf(s: State, id: nat)
    ensures Answers(s, s, id)
  {
  }

  lemma AnswersIds(s: State, s': State, id: nat)
    requires Answers(s, s', id)
    ensures Ids(s') == Ids(s)
  {
  }
}
