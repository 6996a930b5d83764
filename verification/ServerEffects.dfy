/** What a command brings about: who is registered, renamed, refused or held back. */
module ServerEffects {
  import opened Basics
  import opened Names
  import opened ServerModel
  import opened ServerInvariant
  import opened ServerRegistration
  import opened ServerDepartures
  import opened ServerSteps
  import opened ServerRuns
  import opened ServerNicks

  // ---- outcomes, as seen in the tables and the lines delivered ----

  /** The lines that tell a connection its nick is taken: one more for each of these nicks. */
  ghost predicate ToldInUse(s: State, s': State, id: nat, nicks: multiset<string>) {
    forall x :: s'.log[Sent(id, InUse(x))] == s.log[Sent(id, InUse(x))] + nicks[x]
  }

  /** Registered under this nick and user name, and welcomed at once unless still negotiating. */
  ghost predicate Joins(s: State, s': State, id: nat, nick: string, user: string) {
    && s'.where == s.where[id := NormNick(nick)] && id !in s'.unreg && NormNick(nick) in s'.users
    && s'.users[NormNick(nick)].id == id && Rec(s', id).registered
    && Rec(s', id).info.nick == nick && Rec(s', id).info.user == user
    && ToldInUse(s, s', id, multiset{})
    && s'.log[Sent(id, Welcome)] == (if Rec(s, id).gate.negotiating then 0 else 1)
    && Rec(s', id).gate.gated == Rec(s, id).gate.negotiating
  }

  /** Told once that this nick is in use, and nothing else. */
  ghost predicate Refused(s: State, s': State, id: nat, nick: string) {
    s'.where == s.where && s'.unreg.Keys == s.unreg.Keys && ToldInUse(s, s', id, multiset{nick})
  }

  /** Neither registered nor refused. */
  ghost predicate Waits(s: State, s': State, id: nat) {
    s'.where == s.where && s'.unreg.Keys == s.unreg.Keys && ToldInUse(s, s', id, multiset{})
  }

  /** Whoever has passed the challenge, or need not. */
  predicate Cleared(cfg: Config, u: Cx) {
    cfg.challenge ==> u.gate.verified
  }

  /** A connection found under a nick is contested by others only once it seems gone. */
  predicate SeemsGone(s: State, cfg: Config, h: nat, now: nat) {
    h in s.pings || Since(now, Rec(s, h).info.lastRx) / 1000 > cfg.silenceSecs
  }

  // ---- frames ----

  lemma {:induction false} ResolveFrame(s: State, t: State, key: string, now: nat, hops: nat)
    requires t.users == s.users && t.history == s.history
    ensures Resolve(t, key, now, hops) == Resolve(s, key, now, hops)
    decreases hops
  {
    if key !in s.users && hops > 0 {
      var hop := LastHop(s.history, key, now, |s.history|);
      if hop.Some? {
        ResolveFrame(s, t, hop.value, now, hops - 1);
      }
    }
  }

  lemma PutWaiting(s: State, id: nat, cx: Cx)
    requires id in s.unreg
    ensures Put(s, id, cx) == s.(unreg := s.unreg[id := cx]) && Rec(Put(s, id, cx), id) == cx
  {
  }

  /** Before registration a connection has no welcome and no place among the registered. */
  lemma WaitingFacts(cfg: Config, s: State, id: nat)
    requires Inv(cfg, s) && id in s.unreg
    ensures id !in s.where && id in Ids(s) && Rec(s, id) == s.unreg[id] && s.unreg[id].id == id && !s.unreg[id].registered
    ensures s.log[Sent(id, Welcome)] == 0 && !s.unreg[id].gate.gated
  {
    hide Mirrored, QuitsOk, MarksOk;
    assert WelcomeFor(cfg, s.log, s.unreg[id]);
  }

  // ---- both halves of the pairing are in ----

  lemma NothingInUse(s: State, s': State, id: nat, line: Sent)
    requires (s'.log == s.log || s'.log == s.log + multiset{line}) && !line.line.InUse?
    ensures ToldInUse(s, s', id, multiset{})
  {
  }

  lemma RefusedOnce(s: State, id: nat, nick: string)
    requires id in Ids(s)
    ensures Refused(s, Deliver(s, id, InUse(nick)), id, nick)
  {
    assert forall x :: Sent(id, InUse(x)) == Sent(id, InUse(nick)) <==> x == nick;
  }

  /** The record a connection is registered with. */
  function Enlisted(u: Cx, nick: string, user: string): Cx {
    Enrolled(u, nick, user).(gate := u.gate.(gated := u.gate.gated || u.gate.negotiating))
  }

  lemma CompleteFiles(s: State, id: nat, nick: string, user: string)
    requires id in s.unreg && id !in s.where && NormNick(nick) !in s.users
    ensures var s', key, u := Complete(s, id, nick, user), NormNick(nick), Enlisted(s.unreg[id], nick, user);
      && s'.where == s.where[id := key] && s'.unreg == s.unreg - {id} && s'.users == s.users[key := u]
      && s'.history == s.history && s'.marks == s.marks && s'.pings == s.pings
      && s'.log == if s.unreg[id].gate.negotiating then s.log else s.log + multiset{Sent(id, Welcome)}
  {
    hide NormNick, Register, Put;
    var s1, key, cx := Register(s, id, nick, user), NormNick(nick), Enrolled(s.unreg[id], nick, user);
    RegisterFiles(s, id, nick, user);
    var v := cx.(gate := cx.gate.(gated := true));
    PutFiled(s1, id, v);
    assert s.users[key := cx][key := v] == s.users[key := v];
  }

  function Enrolled(u: Cx, nick: string, user: string): Cx {
    u.(nickKey := NormNick(nick), registered := true, info := u.info.(nick := nick, user := user))
  }

  lemma RegisterFiles(s: State, id: nat, nick: string, user: string)
    requires id in s.unreg && NormNick(nick) !in s.users
    ensures var s1, key, cx := Register(s, id, nick, user), NormNick(nick), Enrolled(s.unreg[id], nick, user);
      && s1 == s.(unreg := s.unreg - {id}, users := s.users[key := cx], where := s.where[id := key])
      && id in Ids(s1) && Rec(s1, id) == cx
  {
    hide NormNick;
  }

  lemma PutFiled(s: State, id: nat, cx: Cx)
    requires id !in s.unreg && id in s.where
    ensures Put(s, id, cx) == s.(users := s.users[s.where[id] := cx])
  {
  }

  lemma CompleteJoins(cfg: Config, s: State, id: nat, nick: string, user: string)
    requires Inv(cfg, s) && id in s.unreg && NormNick(nick) !in s.users
    ensures Joins(s, Complete(s, id, nick, user), id, nick, user)
  {
    hide Inv, NormNick, Complete, ToldInUse;
    WaitingFacts(cfg, s, id);
    CompleteFiles(s, id, nick, user);
    NothingInUse(s, Complete(s, id, nick, user), id, Sent(id, Welcome));
  }

  /**
   * What becomes of a pairing that is complete: it waits while the holder found for its nick is being reclaimed;
   * otherwise it is refused if the nick is held and registered if it is free.
   */
  ghost predicate Settles(s: State, s': State, now: nat, id: nat, nick: string, user: string) {
    var occ := Lookup(s, NormNick(nick), now);
    if occ.Some? && occ.value.id in s.marks then Waits(s, s', id)
    else if NormNick(nick) in s.users then Refused(s, s', id, nick)
    else Joins(s, s', id, nick, user)
  }

  lemma MaybeSettles(cfg: Config, s: State, id: nat, now: nat, nick: string, user: string)
    requires Inv(cfg, s) && id in s.unreg && Cleared(cfg, s.unreg[id])
    requires s.unreg[id].info.pendingNick == Some(nick) && s.unreg[id].info.pendingUser == Some(user)
    ensures Settles(s, MaybeComplete(s, cfg, id, now), now, id, nick, user)
  {
    hide Inv, NormNick, Lookup, Complete, Joins, Refused;
    WaitingFacts(cfg, s, id);
    if NormNick(nick) in s.users {
      RefusedOnce(s, id, nick);
      CompleteTaken(s, id, nick, user);
    } else {
      CompleteJoins(cfg, s, id, nick, user);
    }
  }

  lemma CompleteTaken(s: State, id: nat, nick: string, user: string)
    requires NormNick(nick) in s.users
    ensures Complete(s, id, nick, user) == Deliver(s, id, InUse(nick))
  {
  }

  /** The states agree on everything such an outcome speaks about. */
  ghost predicate SameFor(s: State, t: State, id: nat) {
    && t.where == s.where && t.unreg.Keys == s.unreg.Keys && t.users == s.users && t.history == s.history
    && t.marks == s.marks && t.log == s.log && Rec(t, id).gate.negotiating == Rec(s, id).gate.negotiating
  }

  lemma SettlesFrom(s: State, t: State, s': State, now: nat, id: nat, nick: string, user: string)
    requires SameFor(s, t, id) && Settles(t, s', now, id, nick, user)
    ensures Settles(s, s', now, id, nick, user)
  {
    hide NormNick, Rec;
    ResolveFrame(s, t, NormNick(nick), now, 8);
  }

  // ---- USER ----

  /** What is kept of a user name: its first ten characters. */
  ghost predicate CutTo(raw: string, user: string) {
    user <= raw && |user| == Min(|raw|, 10)
  }

  lemma StepUser(s: State, cfg: Config, now: nat, id: nat, raw: string)
    ensures Step(s, cfg, now, UserCmd(id, Some(raw))) == HandleUser(Touch(s, id, now), cfg, id, Some(raw), now)
  {
    hide HandleUser, Touch;
  }

  lemma TouchWaiting(cfg: Config, s: State, id: nat, now: nat)
    requires Inv(cfg, s) && id in s.unreg
    ensures var t := Touch(s, id, now);
      t == s.(unreg := s.unreg[id := s.unreg[id].(info := s.unreg[id].info.(lastRx := now))]) && Inv(cfg, t)
  {
    hide Inv;
    WaitingFacts(cfg, s, id);
    TouchKeeps(cfg, s, id, now);
  }

  lemma UserSettles(cfg: Config, s: State, now: nat, id: nat, raw: string, nick: string, user: string)
    requires Inv(cfg, s) && id in s.unreg && Cleared(cfg, s.unreg[id])
    requires s.unreg[id].info.pendingNick == Some(nick) && CutTo(raw, user)
    ensures Settles(s, Step(s, cfg, now, UserCmd(id, Some(raw))), now, id, nick, user)
  {
    hide Inv, NormNick, MaybeComplete, Settles, Step, Put, Touch;
    StepUser(s, cfg, now, id, raw);
    TouchWaiting(cfg, s, id, now);
    var t := Touch(s, id, now);
    WaitingFacts(cfg, s, id);
    WaitingFacts(cfg, t, id);
    var u := t.unreg[id].(info := t.unreg[id].info.(pendingUser := Some(user)));
    var v := Put(t, id, u);
    PutWaiting(t, id, u);
    RewriteKeeps(cfg, t, id, u);
    MaybeSettles(cfg, v, id, now, nick, user);
    SettlesFrom(s, v, MaybeComplete(v, cfg, id, now), now, id, nick, user);
    assert user == raw[..|user|] && (|user| == |raw| ==> user == raw);
  }

  /** A user name that does not complete the pairing, or not before the challenge, is recorded. */
  lemma UserWaits(cfg: Config, s: State, now: nat, id: nat, raw: string, user: string)
    requires Inv(cfg, s) && id in s.unreg && CutTo(raw, user)
    requires s.unreg[id].info.pendingNick.None? || !Cleared(cfg, s.unreg[id])
    ensures var s' := Step(s, cfg, now, UserCmd(id, Some(raw)));
      Waits(s, s', id) && Rec(s', id).info.pendingUser == Some(user) && Challenges(s, s', id, s.unreg[id].info.pendingNick.Some?)
  {
    hide Inv, NormNick, MaybeComplete, Step, Put, Touch, ToldInUse;
    StepUser(s, cfg, now, id, raw);
    TouchWaiting(cfg, s, id, now);
    var t := Touch(s, id, now);
    WaitingFacts(cfg, s, id);
    WaitingFacts(cfg, t, id);
    var u := t.unreg[id].(info := t.unreg[id].info.(pendingUser := Some(user)));
    var v := Put(t, id, u);
    PutWaiting(t, id, u);
    MaybeWaits(cfg, v, id, now);
    NothingInUse(s, v, id, Sent(id, Challenge));
    WaitsFrom(s, v, MaybeComplete(v, cfg, id, now), id);
    assert user == raw[..|user|] && (|user| == |raw| ==> user == raw);
  }

  /** A waiting connection's private fields may be rewritten. */
  lemma RewriteKeeps(cfg: Config, s: State, id: nat, u: Cx)
    requires Inv(cfg, s) && id in s.unreg && u == s.unreg[id].(info := u.info)
    ensures Inv(cfg, Put(s, id, u))
  {
    hide Inv, Calm;
    WaitingFacts(cfg, s, id);
    InvApart(cfg, s);
    WelcomedAs(cfg, s, id, u);
    PutKeeps(cfg, s, id, u);
  }

  lemma WelcomedAs(cfg: Config, s: State, id: nat, u: Cx)
    requires Inv(cfg, s) && id in s.unreg && u == s.unreg[id].(info := u.info)
    ensures WelcomeFor(cfg, s.log, u) && SameIdentity(u, Rec(s, id))
  {
    hide Filed, Mirrored, MarksOk, QuitsOk;
    assert WelcomeFor(cfg, s.log, s.unreg[id]);
  }

  // ---- the challenge ----

  /** The registration challenge is sent with the first complete pairing, and not again. */
  ghost predicate Challenges(s: State, s': State, id: nat, ready: bool) {
    && s'.log[Sent(id, Challenge)] == s.log[Sent(id, Challenge)] + (if ready && !Rec(s, id).gate.challenged then 1 else 0)
    && Rec(s', id).gate == Rec(s, id).gate.(challenged := Rec(s, id).gate.challenged || ready)
  }

  lemma MaybeWaits(cfg: Config, s: State, id: nat, now: nat)
    requires id in s.unreg && id !in s.where && !s.unreg[id].registered
    requires s.unreg[id].info.pendingUser.None? || s.unreg[id].info.pendingNick.None? || !Cleared(cfg, s.unreg[id])
    ensures var s', u := MaybeComplete(s, cfg, id, now), s.unreg[id];
      && Waits(s, s', id) && s'.users == s.users && s'.marks == s.marks && s'.pings == s.pings
      && Rec(s', id).info == u.info && Challenges(s, s', id, u.info.pendingUser.Some? && u.info.pendingNick.Some?)
  {
    hide Complete, Lookup, ToldInUse, IssueChallenge;
    var s' := MaybeComplete(s, cfg, id, now);
    IssueIs(s, id);
    NothingInUse(s, s', id, Sent(id, Challenge));
  }

  lemma IssueIs(s: State, id: nat)
    requires id in s.unreg
    ensures var u := s.unreg[id].(gate := s.unreg[id].gate.(challenged := true));
      IssueChallenge(s, id) == s.(unreg := s.unreg[id := u], log := s.log + multiset{Sent(id, Challenge)})
  {
  }

  // ---- NICK before registration ----

  lemma StepNick(s: State, cfg: Config, now: nat, id: nat, nick: Option<string>)
    ensures Step(s, cfg, now, NickCmd(id, nick)) == HandleNick(Touch(s, id, now), cfg, id, nick, now)
  {
    hide HandleNick, Touch;
  }

  /** The request is held back by a marker on the holder, who has been pinged. */
  ghost predicate HeldFor(s': State, h: nat, id: nat, nick: string) {
    && h in s'.marks && h in s'.pings
    && ((id, nick) in s'.marks[h].pairings || (id, nick) in s'.marks[h].renames)
  }

  /**
   * A nick asked for before registration: refused while its holder is alive, held back while its holder seems gone,
   * and otherwise taken at once, or as soon as the user name is in and the challenge answered.
   */
  ghost predicate PairsNick(cfg: Config, s: State, s': State, now: nat, id: nat, nick: string) {
    var occ, u := Lookup(s, NormNick(nick), now), Rec(s, id);
    if occ.Some? && !SeemsGone(s, cfg, occ.value.id, now) then Refused(s, s', id, nick) && s'.marks == s.marks
    else if occ.Some? then Waits(s, s', id) && HeldFor(s', occ.value.id, id, nick) && Rec(s', id).info.pendingNick == Some(nick)
    else if u.info.pendingUser.Some? && Cleared(cfg, u) then Joins(s, s', id, nick, u.info.pendingUser.value) && s'.marks == s.marks
    else Waits(s, s', id) && Rec(s', id).info.pendingNick == Some(nick) && s'.marks == s.marks && Challenges(s, s', id, u.info.pendingUser.Some?)
  }

  lemma HolderElse(cfg: Config, s: State, id: nat, key: string, now: nat)
    requires Inv(cfg, s) && id in s.unreg && Lookup(s, key, now).Some?
    ensures var h := Lookup(s, key, now).value.id; h in s.where && h != id && h in Ids(s)
  {
    hide Filed, Mirrored, MarksOk, QuitsOk, WelcomeOk, Lookup;
    WaitingFacts(cfg, s, id);
    LookupLive(s, key, now);
  }

  /** With the nick filled in and nobody found under it. */
  lemma FreePairs(cfg: Config, s: State, id: nat, nick: string, now: nat)
    requires Inv(cfg, s) && id in s.unreg && Lookup(s, NormNick(nick), now).None?
    ensures var v := Put(s, id, s.unreg[id].(info := s.unreg[id].info.(pendingNick := Some(nick))));
      PairsNick(cfg, s, MaybeComplete(v, cfg, id, now), now, id, nick)
  {
    hide Inv, NormNick, MaybeComplete, Put, Joins, Waits, ToldInUse;
    WaitingFacts(cfg, s, id);
    var u := s.unreg[id].(info := s.unreg[id].info.(pendingNick := Some(nick)));
    var v := Put(s, id, u);
    PutWaiting(s, id, u);
    RewriteKeeps(cfg, s, id, u);
    ResolveFrame(s, v, NormNick(nick), now, 8);
    if u.info.pendingUser.Some? && Cleared(cfg, u) {
      MaybeSettles(cfg, v, id, now, nick, u.info.pendingUser.value);
      SettlesFrom(s, v, MaybeComplete(v, cfg, id, now), now, id, nick, u.info.pendingUser.value);
      MaybeCompleteKeeps(cfg, v, id, now);
    } else {
      MaybeWaits(cfg, v, id, now);
      WaitsFrom(s, v, MaybeComplete(v, cfg, id, now), id);
    }
  }

  lemma WaitsFrom(s: State, t: State, s': State, id: nat)
    requires t.where == s.where && t.unreg.Keys == s.unreg.Keys && ToldInUse(s, t, id, multiset{}) && Waits(t, s', id)
    ensures Waits(s, s', id)
  {
  }

  /** With the nick filled in while its holder is being reclaimed. */
  lemma HeldPairs(cfg: Config, s: State, id: nat, nick: string, now: nat)
    requires Inv(cfg, s) && id in s.unreg && Lookup(s, NormNick(nick), now).Some?
    requires Lookup(s, NormNick(nick), now).value.id in s.marks
    ensures var v := Put(s, id, s.unreg[id].(info := s.unreg[id].info.(pendingNick := Some(nick))));
      var s' := MaybeComplete(v, cfg, id, now);
      Waits(s, s', id) && s'.marks == s.marks && s'.pings == s.pings && Rec(s', id).info.pendingNick == Some(nick)
  {
    hide Inv, NormNick, MaybeComplete, Put, Joins, Waits, ToldInUse, Challenges;
    WaitingFacts(cfg, s, id);
    var u := s.unreg[id].(info := s.unreg[id].info.(pendingNick := Some(nick)));
    var v := Put(s, id, u);
    PutWaiting(s, id, u);
    RewriteKeeps(cfg, s, id, u);
    WaitingFacts(cfg, v, id);
    ResolveFrame(s, v, NormNick(nick), now, 8);
    NothingInUse(s, v, id, Sent(id, Challenge));
    if u.info.pendingUser.Some? && Cleared(cfg, u) {
      StillHeld(cfg, v, id, now, nick, u.info.pendingUser.value);
      WaitsSelf(v, id);
    } else {
      MaybeWaits(cfg, v, id, now);
    }
    WaitsFrom(s, v, MaybeComplete(v, cfg, id, now), id);
  }

  lemma StillHeld(cfg: Config, s: State, id: nat, now: nat, nick: string, user: string)
    requires id in s.unreg && Cleared(cfg, s.unreg[id]) && s.unreg[id].info.pendingNick == Some(nick) && s.unreg[id].info.pendingUser == Some(user)
    requires var occ := Lookup(s, NormNick(nick), now); occ.Some? && occ.value.id in s.marks
    ensures MaybeComplete(s, cfg, id, now) == s
  {
    hide Lookup, Complete, NormNick;
  }

  lemma WaitsSelf(s: State, id: nat)
    ensures Waits(s, s, id)
  {
  }

  lemma PairingPairs(cfg: Config, s: State, id: nat, nick: string, now: nat)
    requires Inv(cfg, s) && id in s.unreg
    ensures PairsNick(cfg, s, NickPairing(s, cfg, id, nick, now), now, id, nick)
  {
    hide Inv, NormNick, MaybeComplete, Put, Joins, Waits, Refused, BeginReclaim, Lookup, Reclaims, Contests, AskOnly;
    WaitingFacts(cfg, s, id);
    var occ := Lookup(s, NormNick(nick), now);
    if occ.None? {
      FreePairs(cfg, s, id, nick, now);
    } else {
      HolderElse(cfg, s, id, NormNick(nick), now);
      if !SeemsGone(s, cfg, occ.value.id, now) {
        RefusedOnce(s, id, nick);
      } else {
        GoneHeld(cfg, s, id, nick, now);
      }
    }
  }

  lemma GoneHeld(cfg: Config, s: State, id: nat, nick: string, now: nat)
    requires Inv(cfg, s) && id in s.unreg
    requires var occ := Lookup(s, NormNick(nick), now); occ.Some? && occ.value.id != id && occ.value.id in Ids(s) && LooksStale(s, cfg, occ.value.id, now)
    ensures var s', h := NickPairing(s, cfg, id, nick, now), Lookup(s, NormNick(nick), now).value.id;
      Waits(s, s', id) && HeldFor(s', h, id, nick) && Rec(s', id).info.pendingNick == Some(nick)
  {
    hide Inv, NormNick, MaybeComplete, Put, Waits, BeginReclaim, Reclaims, LooksStale;
    WaitingFacts(cfg, s, id);
    var h := Lookup(s, NormNick(nick), now).value.id;
    var s1 := BeginReclaim(s, cfg, h, [(id, nick)], [], now);
    BeginReclaimKeeps(cfg, s, h, [(id, nick)], [], now, id, nick);
    Begun(s, cfg, h, [(id, nick)], [], now);
    ResolveFrame(s, s1, NormNick(nick), now, 8);
    HeldPairs(cfg, s1, id, nick, now);
    NothingInUse(s, s1, id, Sent(h, Ping));
    WaitsFrom(s, s1, NickPairing(s, cfg, id, nick, now), id);
  }

  /** A marker holds what it held and what is added, and its holder is pinged unless a ping is outstanding. */
  lemma Begun(s: State, cfg: Config, h: nat, pairings: seq<(nat, string)>, renames: seq<(nat, string)>, now: nat)
    ensures var s' := BeginReclaim(s, cfg, h, pairings, renames, now);
      && s'.users == s.users && s'.unreg == s.unreg && s'.where == s.where && s'.history == s.history
      && h in s'.marks && h in s'.pings && (s'.log == s.log || s'.log == s.log + multiset{Sent(h, Ping)})
      && (forall p :: p in pairings ==> p in s'.marks[h].pairings) && (forall p :: p in renames ==> p in s'.marks[h].renames)
  {
  }

  lemma PairsFrom(cfg: Config, s: State, t: State, s': State, now: nat, id: nat, nick: string)
    requires SameFor(s, t, id) && t.pings == s.pings && Rec(t, id).gate == Rec(s, id).gate && PairsNick(cfg, t, s', now, id, nick)
    requires Rec(t, id).info.pendingUser == Rec(s, id).info.pendingUser
    requires var occ := Lookup(s, NormNick(nick), now); occ.Some? ==> Rec(t, occ.value.id) == Rec(s, occ.value.id)
    ensures PairsNick(cfg, s, s', now, id, nick)
  {
    hide NormNick, Rec;
    ResolveFrame(s, t, NormNick(nick), now, 8);
  }

  lemma WaitingNickSettles(cfg: Config, s: State, now: nat, id: nat, nick: string)
    requires Inv(cfg, s) && id in s.unreg && ValidNick(nick) && !IsServiceName(nick)
    ensures PairsNick(cfg, s, Step(s, cfg, now, NickCmd(id, Some(nick))), now, id, nick)
  {
    hide Inv, NormNick, NickPairing, PairsNick, Step, Touch, ValidNick, IsServiceName, Lookup;
    StepNick(s, cfg, now, id, Some(nick));
    TouchWaiting(cfg, s, id, now);
    var t := Touch(s, id, now);
    WaitingFacts(cfg, s, id);
    WaitingFacts(cfg, t, id);
    PairingPairs(cfg, t, id, nick, now);
    if Lookup(s, NormNick(nick), now).Some? {
      HolderElse(cfg, s, id, NormNick(nick), now);
    }
    PairsFrom(cfg, s, t, NickPairing(t, cfg, id, nick, now), now, id, nick);
  }

  // ---- NICK after registration ----

  /** Everyone who shares a channel with the connection, and it itself, is told of the new nick once. */
  ghost predicate ToldRenamed(s: State, s': State, id: nat, nick: string) {
    forall p :: s'.log[Sent(p, Renamed(id, nick))] == s.log[Sent(p, Renamed(id, nick))] + if p == id || Shares(s, p, id) then 1 else 0
  }

  /** A nick asked for by a registered connection: taken if free, held back if its holder seems gone, otherwise refused. */
  ghost predicate TakesNick(cfg: Config, s: State, s': State, now: nat, id: nat, nick: string) {
    var key := NormNick(nick);
    if key !in s.users then
      && s'.where == s.where[id := key] && key in s'.users && s'.users[key].id == id && s'.users[key].info.nick == nick
      && s'.marks == s.marks && ToldInUse(s, s', id, multiset{}) && ToldRenamed(s, s', id, nick)
    else if s.users[key].id != id && SeemsGone(s, cfg, s.users[key].id, now) then
      Waits(s, s', id) && HeldFor(s', s.users[key].id, id, nick)
    else Refused(s, s', id, nick) && s'.marks == s.marks
  }

  lemma FreeTaken(cfg: Config, s: State, id: nat, nick: string, now: nat)
    requires Inv(cfg, s) && id in s.where && NormNick(nick) !in s.users
    ensures TakesNick(cfg, s, NickRegistered(s, cfg, id, nick, now), now, id, nick)
  {
    hide Filed, Mirrored, MarksOk, QuitsOk, WelcomeOk, NormNick, ApplyRename, RenamedLines, ToldRenamed, ToldInUse,
      Calm, Shares;
    RecFacts(s, id);
    var s1 := ApplyRename(s, id, nick, now);
    var s' := NickRegistered(s, cfg, id, nick, now);
    RenameRec(s, id, nick, now);
    RenameKeeps(cfg, s, id, nick, now);
    RecFacts(s1, id);
    RenameFrame(s, id, nick, now);
    RenamedTold(s1, id, nick);
    SharesSame(s, s1);
    RenamedCounts(s, s1, s', id, nick);
  }

  lemma RenameFrame(s: State, id: nat, nick: string, now: nat)
    ensures var s1 := ApplyRename(s, id, nick, now); s1 == s.(users := s1.users, where := s1.where, history := s1.history)
  {
    hide NormNick, Record, Rec, Ids;
  }

  lemma SharesSame(s: State, t: State)
    requires t.chans == s.chans
    ensures forall p, q :: Shares(t, p, q) == Shares(s, p, q)
  {
  }

  lemma RenamedTold(s: State, id: nat, nick: string)
    requires TablesOk(s) && id in s.where
    ensures forall p :: RenamedLines(s, id, nick)[Sent(p, Renamed(id, nick))] == if p == id || Shares(s, p, id) then 1 else 0
    ensures forall l :: l in RenamedLines(s, id, nick) ==> l.line.Renamed?
  {
    hide Filed, Mirrored, Shares;
    PeersShare(s, id);
    var lines := set p | (p in Peers(s, id) || p == id) && p in Ids(s) :: Sent(p, Renamed(id, nick));
    assert RenamedLines(s, id, nick) == multiset(lines);
    assert forall p :: Sent(p, Renamed(id, nick)) in lines <==> (p in Peers(s, id) || p == id) && p in Ids(s);
  }

  lemma RenamedCounts(s: State, s1: State, s': State, id: nat, nick: string)
    requires s1.log == s.log && s'.log == s1.log + RenamedLines(s1, id, nick)
    requires forall p :: RenamedLines(s1, id, nick)[Sent(p, Renamed(id, nick))] == if p == id || Shares(s, p, id) then 1 else 0
    requires forall l :: l in RenamedLines(s1, id, nick) ==> l.line.Renamed?
    ensures ToldRenamed(s, s', id, nick) && ToldInUse(s, s', id, multiset{})
  {
    hide RenamedLines, Shares;
  }

  lemma HeldTakes(cfg: Config, s: State, id: nat, nick: string, now: nat)
    requires Inv(cfg, s) && id in s.where && NormNick(nick) in s.users
    ensures TakesNick(cfg, s, NickRegistered(s, cfg, id, nick, now), now, id, nick)
  {
    hide Filed, Mirrored, MarksOk, QuitsOk, WelcomeOk, NormNick, ApplyRename, RenamedLines, BeginReclaim, ToldInUse;
    RecFacts(s, id);
    var h := s.users[NormNick(nick)].id;
    UserFacts(s, NormNick(nick));
    RefusedOnce(s, id, nick);
    Begun(s, cfg, h, [], [(id, nick)], now);
    NothingInUse(s, BeginReclaim(s, cfg, h, [], [(id, nick)], now), id, Sent(h, Ping));
  }

  /** Refreshing the sender's liveness stamp touches nothing else. */
  lemma TouchFrame(cfg: Config, s: State, id: nat, now: nat)
    requires Inv(cfg, s)
    ensures var t := Touch(s, id, now);
      && Inv(cfg, t) && t.where == s.where && t.unreg.Keys == s.unreg.Keys && t.users.Keys == s.users.Keys && Ids(t) == Ids(s)
      && t.log == s.log && t.marks == s.marks && t.pings == s.pings && t.chans == s.chans && t.history == s.history && t.net == s.net
      && (forall k :: k in s.users ==> t.users[k].id == s.users[k].id)
      && (forall j :: j != id ==> Rec(t, j) == Rec(s, j))
      && (id in Ids(s) ==> Rec(t, id) == Rec(s, id).(info := Rec(s, id).info.(lastRx := now)))
  {
    hide Filed, Mirrored, MarksOk, QuitsOk, WelcomeOk, Calm, Put, Rec;
    TouchKeeps(cfg, s, id, now);
    if id in Ids(s) {
      RecFacts(s, id);
      var u := Rec(s, id).(info := Rec(s, id).info.(lastRx := now));
      PutRec(s, id, u);
      PutFrame(s, id, u);
      forall j | j !in Ids(s) ensures Rec(Put(s, id, u), j) == Rec(s, j) {
        NobodyElse(s, j);
        NobodyElse(Put(s, id, u), j);
      }
    }
  }

  lemma PutFrame(s: State, id: nat, u: Cx)
    requires id in Ids(s) && u.id == Rec(s, id).id && (id in s.where && id !in s.unreg ==> s.where[id] in s.users)
    ensures var t := Put(s, id, u);
      && t == s.(users := t.users, unreg := t.unreg) && t.unreg.Keys == s.unreg.Keys && t.users.Keys == s.users.Keys
      && forall k :: k in s.users ==> t.users[k].id == s.users[k].id
  {
  }

  lemma NobodyElse(s: State, j: nat)
    requires j !in Ids(s)
    ensures Rec(s, j) == Nobody
  {
  }

  lemma TakesFrom(cfg: Config, s: State, t: State, s': State, now: nat, id: nat, nick: string)
    requires t.where == s.where && t.unreg.Keys == s.unreg.Keys && t.users.Keys == s.users.Keys && t.log == s.log && t.marks == s.marks
    requires t.pings == s.pings && t.chans == s.chans && (forall k :: k in s.users ==> t.users[k].id == s.users[k].id)
    requires forall j :: j != id ==> Rec(t, j) == Rec(s, j)
    requires TakesNick(cfg, t, s', now, id, nick)
    ensures TakesNick(cfg, s, s', now, id, nick)
  {
    hide NormNick, Rec, Shares;
    SharesSame(s, t);
  }

  lemma RegisteredNickSettles(cfg: Config, s: State, now: nat, id: nat, nick: string)
    requires Inv(cfg, s) && id in s.where && ValidNick(nick) && !IsServiceName(nick)
    ensures TakesNick(cfg, s, Step(s, cfg, now, NickCmd(id, Some(nick))), now, id, nick)
  {
    hide Filed, Mirrored, MarksOk, QuitsOk, WelcomeOk, NormNick, NickRegistered, TakesNick, Step, Touch, ValidNick,
      IsServiceName;
    StepNick(s, cfg, now, id, Some(nick));
    TouchFrame(cfg, s, id, now);
    var t := Touch(s, id, now);
    RecFacts(s, id);
    RecFacts(t, id);
    if NormNick(nick) in t.users {
      HeldTakes(cfg, t, id, nick, now);
    } else {
      FreeTaken(cfg, t, id, nick, now);
    }
    TakesFrom(cfg, s, t, NickRegistered(t, cfg, id, nick, now), now, id, nick);
  }

  /** A missing, malformed or reserved nick moves nobody. */
  lemma BadNickIgnored(cfg: Config, s: State, now: nat, id: nat, nick: Option<string>)
    requires Inv(cfg, s) && (nick.None? || !ValidNick(nick.value) || IsServiceName(nick.value))
    ensures var s' := Step(s, cfg, now, NickCmd(id, nick)); Waits(s, s', id) && s'.marks == s.marks && s'.users.Keys == s.users.Keys
  {
    hide Inv, Step, Touch, ValidNick, IsServiceName, NormNick;
    StepNick(s, cfg, now, id, nick);
    TouchFrame(cfg, s, id, now);
  }

  // ---- PONG ----

  lemma {:induction false} RefuseAllTells(s: State, held: seq<(nat, string)>, p: nat, n: string)
    ensures var s' := RefuseAll(s, held);
      && s' == s.(log := s'.log)
      && s'.log[Sent(p, InUse(n))] == s.log[Sent(p, InUse(n))] + (if p in Ids(s) then multiset(held)[(p, n)] else 0)
      && s'.log[Sent(p, Welcome)] == s.log[Sent(p, Welcome)]
    decreases |held|
  {
    if held != [] {
      var s1 := Deliver(s, held[0].0, InUse(held[0].1));
      RefuseAllTells(s1, held[1..], p, n);
      assert held == [held[0]] + held[1..];
      assert multiset(held)[(p, n)] == multiset(held[1..])[(p, n)] + if held[0] == (p, n) then 1 else 0;
    }
  }

  lemma StepPong(s: State, cfg: Config, now: nat, id: nat)
    ensures Step(s, cfg, now, PongCmd(id)) == HandlePong(Touch(s, id, now), cfg, id, now)
  {
    hide HandlePong, Touch;
  }

  /** An answered challenge completes the pairing, if it was complete but for that. */
  lemma PongSettles(cfg: Config, s: State, now: nat, id: nat, nick: string, user: string)
    requires Inv(cfg, s) && id in s.unreg && id !in s.marks && s.unreg[id].gate.challenged && !s.unreg[id].gate.verified
    requires s.unreg[id].info.pendingNick == Some(nick) && s.unreg[id].info.pendingUser == Some(user)
    ensures Settles(s, Step(s, cfg, now, PongCmd(id)), now, id, nick, user)
  {
    hide Inv, NormNick, MaybeComplete, Settles, Step, Put, Touch, HandlePong, Answers, Calm;
    StepPong(s, cfg, now, id);
    TouchWaiting(cfg, s, id, now);
    var t := Touch(s, id, now);
    WaitingFacts(cfg, s, id);
    WaitingFacts(cfg, t, id);
    var u := t.unreg[id].(gate := t.unreg[id].gate.(verified := true));
    var v := Put(t, id, u);
    PutWaiting(t, id, u);
    VerifyKeeps(cfg, t, id);
    MaybeSettles(cfg, v, id, now, nick, user);
    MaybeCompleteKeeps(cfg, v, id, now);
    var w := MaybeComplete(v, cfg, id, now);
    SettlesFrom(s, v, w, now, id, nick, user);
    PongWaiting(cfg, t, id, now);
    SettlesOn(s, w, HandlePong(t, cfg, id, now), now, id, nick, user);
  }

  lemma PongWaiting(cfg: Config, t: State, id: nat, now: nat)
    requires id in t.unreg && !t.unreg[id].registered && t.unreg[id].gate.challenged && !t.unreg[id].gate.verified
    requires var w := MaybeComplete(Put(t, id, t.unreg[id].(gate := t.unreg[id].gate.(verified := true))), cfg, id, now); id !in w.marks
    ensures var w := MaybeComplete(Put(t, id, t.unreg[id].(gate := t.unreg[id].gate.(verified := true))), cfg, id, now);
      var s' := HandlePong(t, cfg, id, now); s' == w.(pings := s'.pings)
  {
    hide MaybeComplete, Put, RefuseAll;
  }

  lemma SettlesOn(s: State, w: State, s': State, now: nat, id: nat, nick: string, user: string)
    requires Settles(s, w, now, id, nick, user) && s' == w.(pings := s'.pings)
    ensures Settles(s, s', now, id, nick, user)
  {
    hide NormNick, Lookup;
  }

  lemma MaybeTellsSelf(cfg: Config, s: State, id: nat, now: nat, p: nat, line: Line)
    requires p != id
    ensures MaybeComplete(s, cfg, id, now).log[Sent(p, line)] == s.log[Sent(p, line)]
  {
    hide Lookup, NormNick, Rec, Register, Put;
    CompleteLog(s, id, Rec(s, id).info.pendingNick, Rec(s, id).info.pendingUser);
    PutLog(Deliver(s, id, Challenge), id, Rec(s, id).(gate := Rec(s, id).gate.(challenged := true)));
  }

  lemma CompleteLog(s: State, id: nat, nick: Option<string>, user: Option<string>)
    ensures nick.Some? && user.Some? ==>
      var s' := Complete(s, id, nick.value, user.value); forall p, l :: p != id ==> s'.log[Sent(p, l)] == s.log[Sent(p, l)]
  {
    hide NormNick;
  }

  lemma PutLog(s: State, id: nat, u: Cx)
    ensures Put(s, id, u).log == s.log
  {
  }

  /** How often `p` is told that `n` is in use when the holder of a marker answers. */
  ghost function Answered(s: State, id: nat, p: nat, n: string): nat {
    if id in s.marks && p in Ids(s) then multiset(s.marks[id].pairings + s.marks[id].renames)[(p, n)] else 0
  }

  /** A PONG clears the ping and the marker of its sender, and everyone the marker held back is told so, once per request. */
  lemma PongAnswers(cfg: Config, s: State, now: nat, id: nat, p: nat, n: string)
    requires Inv(cfg, s) && id in Ids(s)
    ensures var s' := Step(s, cfg, now, PongCmd(id));
      && id !in s'.pings && id !in s'.marks
      && (p != id || id in s.where ==> s'.log[Sent(p, InUse(n))] == s.log[Sent(p, InUse(n))] + Answered(s, id, p, n))
  {
    hide Inv, Step, Touch, HandlePong, Answers, Calm;
    StepPong(s, cfg, now, id);
    TouchFrame(cfg, s, id, now);
    PongTells(cfg, Touch(s, id, now), now, id, p, n);
  }

  lemma PongTells(cfg: Config, t: State, now: nat, id: nat, p: nat, n: string)
    requires Inv(cfg, t) && id in Ids(t)
    ensures var s' := HandlePong(t, cfg, id, now);
      && id !in s'.pings && id !in s'.marks
      && (p != id || id in t.where ==> s'.log[Sent(p, InUse(n))] == t.log[Sent(p, InUse(n))] + Answered(t, id, p, n))
  {
    hide Filed, Mirrored, WelcomeOk, QuitsOk, MaybeComplete, Put, Calm, Answers, AnswerPing;
    RecFacts(t, id);
    var w := AnswerChallenge(t, cfg, id, now);
    if !Rec(t, id).registered && Rec(t, id).gate.challenged && !Rec(t, id).gate.verified {
      var u := Rec(t, id).(gate := Rec(t, id).gate.(verified := true));
      ChallengeAnswered(cfg, t, id, now);
      AnswersIds(t, w, id);
      PutLog(t, id, u);
      if p != id {
        MaybeTellsSelf(cfg, Put(t, id, u), id, now, p, InUse(n));
      }
    }
    AnsweredTells(w, id, p, n);
  }

  lemma AnsweredTells(w: State, id: nat, p: nat, n: string)
    requires id in w.marks ==> id in w.pings
    ensures var s' := AnswerPing(w, id);
      && id !in s'.pings && id !in s'.marks
      && s'.log[Sent(p, InUse(n))] == w.log[Sent(p, InUse(n))] + Answered(w, id, p, n)
  {
    hide RefuseAll;
    if id in w.marks {
      var s2 := w.(pings := w.pings - {id}, marks := w.marks - {id});
      RefuseAllTells(s2, w.marks[id].pairings + w.marks[id].renames, p, n);
    }
  }

  // ---- CAP ----

  /** CAP starts and ends negotiation for its sender, and does so for nobody else. */
  lemma CapTakesEffect(cfg: Config, s: State, now: nat, id: nat, sub: CapSub)
    requires Inv(cfg, s) && id in Ids(s)
    ensures var s' := Step(s, cfg, now, CapCmd(id, sub));
      && s'.where == s.where && s'.unreg.Keys == s.unreg.Keys
      && Rec(s', id).gate.negotiating == (if sub.Negotiate? then true else if sub.End? then false else Rec(s, id).gate.negotiating)
      && (forall j :: j in Ids(s) && j != id ==> Rec(s', j) == Rec(s, j))
  {
    hide Filed, Mirrored, WelcomeOk, QuitsOk, MarksOk, Step, Touch, Put, Rec;
    StepCap(s, cfg, now, id, sub);
    TouchFrame(cfg, s, id, now);
    var t := Touch(s, id, now);
    CapPuts(t, id, Rec(t, id).(gate := Rec(t, id).gate.(negotiating := true)));
    CapPuts(t, id, Rec(t, id).(gate := Rec(t, id).gate.(negotiating := false)));
    CapPuts(t, id, Rec(t, id).(gate := Rec(t, id).gate.(negotiating := false, gated := false)));
  }

  lemma CapPuts(t: State, id: nat, u: Cx)
    requires TablesOk(t) && id in Ids(t)
    ensures var v, w := Put(t, id, u), SendWelcome(Put(t, id, u), id);
      && v.where == t.where && v.unreg.Keys == t.unreg.Keys && w.where == t.where && w.unreg.Keys == t.unreg.Keys
      && Rec(v, id) == u && Rec(w, id) == u
      && (forall j :: j in Ids(t) && j != id ==> Rec(v, j) == Rec(t, j) && Rec(w, j) == Rec(t, j))
  {
    hide Filed, Mirrored, RecIn;
    PutRec(t, id, u);
  }

  // ---- recent renames ----

  /** A nick given up by a rename leads to whoever gave it up, for as long as the rename is recent. */
  lemma RenameFollowed(cfg: Config, s: State, now: nat, id: nat, nick: string, later: nat)
    requires Inv(cfg, s) && id in s.where && ValidNick(nick) && !IsServiceName(nick) && NormNick(nick) !in s.users
    requires Since(later, now) <= 120_000
    ensures var s' := Step(s, cfg, now, NickCmd(id, Some(nick)));
      && s.where[id] !in s'.users && Lookup(s', s.where[id], later).Some? && Lookup(s', s.where[id], later).value.id == id
  {
    hide Filed, Mirrored, MarksOk, QuitsOk, WelcomeOk, NormNick, Step, Touch, ValidNick, IsServiceName, RenamedLines,
      ApplyRename;
    StepNick(s, cfg, now, id, Some(nick));
    TouchFrame(cfg, s, id, now);
    var t := Touch(s, id, now);
    RecFacts(s, id);
    RecFacts(t, id);
    RenameRecorded(t, id, nick, now);
    var s1 := ApplyRename(t, id, nick, now);
    ResolveFrame(s1, Step(s, cfg, now, NickCmd(id, Some(nick))), s.where[id], later, 8);
    assert LastHop(s1.history, s.where[id], later, |s1.history|) == Some(NormNick(nick));
  }

  lemma {:induction false} NoRecentHop(h: seq<Hist>, key: string, now: nat, i: nat)
    requires i <= |h| && forall j :: 0 <= j < i && h[j].oldKey == key ==> Since(now, h[j].at) > 120_000
    ensures LastHop(h, key, now, i) == None
    decreases i
  {
    if i > 0 {
      NoRecentHop(h, key, now, i - 1);
    }
  }

  /** A nick nobody holds and nobody has given up recently leads nowhere; one that is held leads to its holder. */
  lemma OnlyRecentRenames(s: State, key: string, now: nat)
    ensures key in s.users ==> Lookup(s, key, now) == Some(s.users[key])
    ensures key !in s.users && (forall j :: 0 <= j < |s.history| && s.history[j].oldKey == key ==> Since(now, s.history[j].at) > 120_000) ==>
      Lookup(s, key, now) == None
  {
    if forall j :: 0 <= j < |s.history| && s.history[j].oldKey == key ==> Since(now, s.history[j].at) > 120_000 {
      NoRecentHop(s.history, key, now, |s.history|);
    }
  }

  lemma RenameRecorded(s: State, id: nat, nick: string, now: nat)
    requires TablesOk(s) && id in s.where && NormNick(nick) !in s.users
    ensures var s1 := ApplyRename(s, id, nick, now);
      && s.where[id] !in s1.users && NormNick(nick) in s1.users && s1.users[NormNick(nick)].id == id && |s1.history| > 0
      && s1.history[|s1.history| - 1] == Hist(s.where[id], NormNick(nick), id, now)
  {
    hide Mirrored, NormNick;
    RecFacts(s, id);
  }

  /**
   * So a nick is not to be had before registration while somebody who is alive has given it up recently, though
   * nobody holds it.
   */
  lemma RenamedAwayRefused(cfg: Config, s: State, now: nat, id: nat, nick: string, later: nat, other: nat, given: string)
    requires Inv(cfg, s) && id in s.where && ValidNick(nick) && !IsServiceName(nick) && NormNick(nick) !in s.users
    requires Since(later, now) <= 120_000 && ValidNick(given) && !IsServiceName(given) && NormNick(given) == s.where[id]
    requires var s1 := Step(s, cfg, now, NickCmd(id, Some(nick))); other in s1.unreg && !SeemsGone(s1, cfg, id, later)
    ensures var s1 := Step(s, cfg, now, NickCmd(id, Some(nick)));
      NormNick(given) !in s1.users && Refused(s1, Step(s1, cfg, later, NickCmd(other, Some(given))), other, given)
  {
    hide Inv, Step, NormNick, ValidNick, IsServiceName, Refused, SeemsGone, Moves, Leavers, Lookup, Waits, Joins;
    var s1 := Step(s, cfg, now, NickCmd(id, Some(nick)));
    RenameFollowed(cfg, s, now, id, nick, later);
    StepMoves(cfg, s, now, NickCmd(id, Some(nick)));
    WaitingNickSettles(cfg, s1, later, other, given);
  }

  // ---- over runs ----

  /** Only registered connections are ever marked. */
  lemma {:induction false} MarkedRegistered(sid: string, cfg: Config, es: Trace, k: nat, h: nat)
    requires Feasible(sid, cfg, es) && k <= |es| && h in At(sid, cfg, es, k).marks && h in Ids(At(sid, cfg, es, k))
    ensures h in At(sid, cfg, es, k).where
    decreases k
  {
    hide Feasible, Run, Ids, Contests, Extended, Entered;
    if k == 0 {
      NoInitialMarks(sid, cfg, es);
    } else {
      NickMarks(sid, cfg, es, k - 1, h);
      if h in At(sid, cfg, es, k - 1).marks {
        MarkedBefore(sid, cfg, es, k - 1, h);
        MarkedRegistered(sid, cfg, es, k - 1, h);
      } else {
        ContestedHolder(sid, cfg, es, k - 1, h);
      }
      NickChangesOnlyAsked(sid, cfg, es, k - 1, h);
    }
  }

  lemma MarkedBefore(sid: string, cfg: Config, es: Trace, k: nat, h: nat)
    requires Feasible(sid, cfg, es) && k < |es| && h in Ids(At(sid, cfg, es, k + 1)) && h in At(sid, cfg, es, k).marks
    ensures h in Ids(At(sid, cfg, es, k))
  {
    hide Filed, Mirrored, WelcomeOk, QuitsOk, Step, Moves, Leavers, Enabled;
    StepAt(sid, cfg, es, k);
    SeenBefore(sid, cfg, es, k, h);
  }

  lemma ContestedHolder(sid: string, cfg: Config, es: Trace, k: nat, h: nat)
    requires Feasible(sid, cfg, es) && k < |es| && ContestedAt(sid, cfg, es, k, h)
    ensures h in At(sid, cfg, es, k).where
  {
    hide Filed, Mirrored, WelcomeOk, QuitsOk, MarksOk, Step, Moves, Leavers, Enabled, Touch, Lookup;
    StepAt(sid, cfg, es, k);
    var s := At(sid, cfg, es, k);
    TouchFrame(cfg, s, es[k].1.id, es[k].0);
    LookupLive(Touch(s, es[k].1.id, es[k].0), NormNick(es[k].1.nick.value), es[k].0);
  }

  /** The event that makes a pairing of this nick and user name complete, and cleared. */
  ghost predicate Readies(cfg: Config, s: State, e: Event, id: nat, nick: string, user: string) {
    var u := Rec(s, id);
    && u.info.pendingNick == Some(nick)
    && ((e.UserCmd? && e.id == id && e.user.Some? && CutTo(e.user.value, user) && Cleared(cfg, u))
        || (e == PongCmd(id) && u.info.pendingUser == Some(user) && u.gate.challenged && !u.gate.verified))
  }

  /**
   * In every run, a USER or PONG that completes a pairing registers the connection under its nick if and only if the
   * nick is free, and otherwise it is told once that it is not; only while a holder found for it is being reclaimed
   * does it wait.
   */
  lemma PairingSettles(sid: string, cfg: Config, es: Trace, k: nat, id: nat, nick: string, user: string)
    requires Feasible(sid, cfg, es) && k < |es| && id in At(sid, cfg, es, k).unreg
    requires Readies(cfg, At(sid, cfg, es, k), es[k].1, id, nick, user)
    ensures Settles(At(sid, cfg, es, k), At(sid, cfg, es, k + 1), es[k].0, id, nick, user)
  {
    hide Inv, Step, Moves, Leavers, Enabled, Settles, Run, Feasible;
    StepAt(sid, cfg, es, k);
    var s := At(sid, cfg, es, k);
    WaitingFacts(cfg, s, id);
    if es[k].1.PongCmd? {
      if id in s.marks {
        MarkedRegistered(sid, cfg, es, k, id);
      }
      PongSettles(cfg, s, es[k].0, id, nick, user);
    } else {
      UserSettles(cfg, s, es[k].0, id, es[k].1.user.value, nick, user);
    }
  }

  /** In every run, a NICK has exactly the outcome its nick, its holder and its sender call for. */
  lemma NickSettles(sid: string, cfg: Config, es: Trace, k: nat)
    requires Feasible(sid, cfg, es) && k < |es| && es[k].1.NickCmd? && es[k].1.id in Ids(At(sid, cfg, es, k))
    ensures var s, s', now, id, nick := At(sid, cfg, es, k), At(sid, cfg, es, k + 1), es[k].0, es[k].1.id, es[k].1.nick;
      if nick.None? || !ValidNick(nick.value) || IsServiceName(nick.value) then Waits(s, s', id) && s'.marks == s.marks
      else if id in s.where then TakesNick(cfg, s, s', now, id, nick.value)
      else PairsNick(cfg, s, s', now, id, nick.value)
  {
    hide Inv, Step, Moves, Leavers, Enabled, TakesNick, PairsNick, Waits, ValidNick, IsServiceName;
    StepAt(sid, cfg, es, k);
    var s, now, id, nick := At(sid, cfg, es, k), es[k].0, es[k].1.id, es[k].1.nick;
    if nick.None? || !ValidNick(nick.value) || IsServiceName(nick.value) {
      BadNickIgnored(cfg, s, now, id, nick);
    } else if id in s.where {
      RegisteredNickSettles(cfg, s, now, id, nick.value);
    } else {
      WaitingNickSettles(cfg, s, now, id, nick.value);
    }
  }

  lemma NobodyFound(cfg: Config, s: State, key: string, now: nat)
    requires Inv(cfg, s) && s.where == map[]
    ensures Lookup(s, key, now) == None && s.users == map[]
  {
    hide Mirrored, WelcomeOk, QuitsOk, MarksOk;
    assert forall k :: k in s.users ==> s.users[k].id in s.where;
    assert s.users.Keys == {};
  }

  lemma FirstParked(sid: string, cfg: Config, host: string, now: nat)
    ensures var s := Step(Init(sid), cfg, now, Accepted(1, host));
      Inv(cfg, s) && s == Init(sid).(unreg := map[1 := Fresh(1, host, now)], seen := {1})
  {
    hide Inv, Step, Moves, Leavers;
    InitOk(sid, cfg);
    StepMoves(cfg, Init(sid), now, Accepted(1, host));
    StepParks(cfg, Init(sid), now, Accepted(1, host));
  }

  /** With the challenge off, the first connection to send a valid NICK and a USER is registered and welcomed. */
  lemma NewcomerRegisters(sid: string, cfg: Config, host: string, nick: string, raw: string, user: string, a: nat,
          b: nat, c: nat)
    requires !cfg.challenge && ValidNick(nick) && !IsServiceName(nick) && CutTo(raw, user)
    ensures var es: Trace := [(a, Accepted(1, host)), (b, NickCmd(1, Some(nick))), (c, UserCmd(1, Some(raw)))];
      var s := Run(sid, cfg, es);
      && Feasible(sid, cfg, es) && s.where == map[1 := NormNick(nick)]
      && Rec(s, 1).info.nick == nick && Rec(s, 1).info.user == user && s.log[Sent(1, Welcome)] == 1
  {
    hide Inv, Step, Moves, Leavers, ValidNick, IsServiceName, NormNick, Lookup, CutTo, ToldInUse;
    var es: Trace := [(a, Accepted(1, host)), (b, NickCmd(1, Some(nick))), (c, UserCmd(1, Some(raw)))];
    FirstParked(sid, cfg, host, a);
    var s1 := Step(Init(sid), cfg, a, es[0].1);
    var s2 := Step(s1, cfg, b, es[1].1);
    NobodyFound(cfg, s1, NormNick(nick), b);
    WaitingNickSettles(cfg, s1, b, 1, nick);
    StepMoves(cfg, s1, b, es[1].1);
    NobodyFound(cfg, s2, NormNick(nick), c);
    WaitingFacts(cfg, s2, 1);
    UserSettles(cfg, s2, c, 1, raw, nick, user);
    ThreeSteps(sid, cfg, es);
  }

  lemma ThreeSteps(sid: string, cfg: Config, es: Trace)
    requires |es| == 3
    ensures var s1 := Step(Init(sid), cfg, es[0].0, es[0].1);
      var s2 := Step(s1, cfg, es[1].0, es[1].1);
      && Run(sid, cfg, es) == Step(s2, cfg, es[2].0, es[2].1)
      && (Enabled(Init(sid), cfg, es[0].0, es[0].1) && Enabled(s1, cfg, es[1].0, es[1].1) && Enabled(s2, cfg, es[2].0, es[2].1) ==>
          Feasible(sid, cfg, es))
  {
    hide Step, Enabled, Init;
    assert es[..2][..1] == es[..1] && es[..1][..0] == [] && es[..0] == [];
    assert Run(sid, cfg, es[..1]) == Step(Init(sid), cfg, es[0].0, es[0].1);
    assert Run(sid, cfg, es[..2]) == Step(Run(sid, cfg, es[..1]), cfg, es[1].0, es[1].1);
  }
}
