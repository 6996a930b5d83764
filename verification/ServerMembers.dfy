/** Who enters and leaves a channel, and on whose word. */
module ServerMembers {
  import opened Basics
  import opened Names
  import opened Text
  import opened ServerModel
  import opened ServerInvariant
  import opened ServerRegistration
  import opened ServerDepartures
  import opened ServerChannels
  import opened ServerSteps
  import opened ServerRuns
  import opened ServerOrigins
  import opened Bans

  ghost predicate Seated(s: State, c: string, m: nat) {
    c in s.chans && m in s.chans[c].members
  }

  /** Only `gain` enters; whoever leaves a channel has left the server or is in `lose`. */
  ghost predicate Seats(s: State, s': State, gain: set<(string, nat)>, lose: set<(string, nat)>) {
    && Ids(s') <= Ids(s)
    && (forall c, m: nat :: Seated(s', c, m) && !Seated(s, c, m) ==> (c, m) in gain)
    && (forall c, m: nat :: Seated(s, c, m) && !Seated(s', c, m) ==> m !in Ids(s') || (c, m) in lose)
  }

  lemma SeatsTrans(a: State, b: State, c: State, gain: set<(string, nat)>, lose: set<(string, nat)>)
    requires Seats(a, b, gain, lose) && Seats(b, c, gain, lose)
    ensures Seats(a, c, gain, lose)
  {
    hide Seated;
  }

  lemma SameSeats(s: State, s': State, gain: set<(string, nat)>, lose: set<(string, nat)>)
    requires s'.chans == s.chans && Ids(s') <= Ids(s)
    ensures Seats(s, s', gain, lose)
  {
  }

  // ---- departures ----

  lemma DropSeats(s: State, c: string, m: nat)
    ensures Seated(DropEmpty(s), c, m) == Seated(s, c, m)
  {
  }

  lemma RemovedSeats(s: State, id: nat, lines: multiset<Sent>)
    requires TablesOk(s)
    ensures Seats(s, Removed(s, id, lines), {}, {})
  {
    hide Filed, Mirrored, Removed, WithoutEverywhere;
    RemovedTables(s, id, lines);
    RemovedFrame(s, id, lines);
    MembersLeft(s, id);
  }

  lemma LoseSeats(s: State, id: nat)
    requires TablesOk(s)
    ensures Seats(s, LoseAndEvict(s, id), {}, {})
  {
    hide Filed, Mirrored, Removed, Seats, LoseAndEvict, QuitLines;
    LoseIsRemoved(s, id);
    RemovedSeats(s, id, QuitLines(s, id));
  }

  lemma {:induction false} LoseAllSeats(cfg: Config, s: State, order: seq<nat>)
    requires Inv(cfg, s)
    ensures Seats(s, LoseAll(s, order), {}, {})
    decreases |order|
  {
    hide Filed, Mirrored, WelcomeOk, QuitsOk, MarksOk, Seats, LoseAndEvict, Leaves;
    if order == [] {
      SameSeats(s, s, {}, {});
    } else {
      var s1 := LoseAndEvict(s, order[0]);
      LoseSeats(s, order[0]);
      LoseLeaves(cfg, s, order[0]);
      LoseAllSeats(cfg, s1, order[1..]);
      SeatsTrans(s, s1, LoseAll(s, order), {}, {});
    }
  }

  lemma PingedSeats(cfg: Config, s: State, id: nat, s0: State)
    requires Inv(cfg, s)
    requires s0 == s.(pings := s.pings - {id}) || s0 == s.(pings := s.pings - {id}, marks := s.marks - {id})
    ensures Seats(s, LoseAndEvict(s0, id), {}, {})
  {
    hide Filed, Mirrored, WelcomeOk, QuitsOk, MarksOk, Seats, LoseAndEvict;
    SameSeats(s, s0, {}, {});
    LoseSeats(s0, id);
    SeatsTrans(s, s0, LoseAndEvict(s0, id), {}, {});
  }

  lemma {:induction false} ExpireSeats(cfg: Config, s: State, order: seq<nat>)
    requires Inv(cfg, s)
    ensures Seats(s, ExpirePings(s, order), {}, {})
    decreases |order|
  {
    hide Filed, Mirrored, WelcomeOk, QuitsOk, MarksOk, Seats, LoseAndEvict, Leaves;
    if order == [] {
      SameSeats(s, s, {}, {});
    } else {
      var s0 := s.(pings := s.pings - {order[0]});
      var s1 := LoseAndEvict(s0, order[0]);
      PingedSeats(cfg, s, order[0], s0);
      LosePinged(cfg, s, order[0], s0);
      ExpireSeats(cfg, s1, order[1..]);
      SeatsTrans(s, s1, ExpirePings(s, order), {}, {});
    }
  }

  lemma LivenessSeats(cfg: Config, s: State, unregs: seq<nat>, pings: seq<nat>, now: nat)
    requires Inv(cfg, s)
    ensures Seats(s, Liveness(s, cfg, unregs, pings, now), {}, {})
  {
    hide Inv, Seats, LoseAll, ExpirePings, Leaves, Silent;
    var s1 := LoseAll(s, unregs);
    LoseAllSeats(cfg, s, unregs);
    LoseAllLeaves(cfg, s, unregs);
    var s2 := ExpirePings(s1, pings);
    ExpireSeats(cfg, s1, pings);
    SeatsTrans(s, s1, s2, {}, {});
    SameSeats(s2, PingSilent(s2, cfg, now), {}, {});
    SeatsTrans(s, s2, PingSilent(s2, cfg, now), {}, {});
  }

  lemma EofSeats(s: State, id: nat)
    requires TablesOk(s)
    ensures Seats(s, CleanupOnEof(s, id), {}, {})
  {
    hide Filed, Mirrored, Removed, Seats, LoseAndEvict, DropEmpty, Eject, Evict;
    SameSeats(s, s, {}, {});
    LoseSeats(s, id);
    LoseIsRemoved(s, id);
    RemovedSeats(s, id, multiset{});
  }

  lemma CalmSeats(s: State, s': State)
    requires Calm(s, s')
    ensures Seats(s, s', {}, {})
  {
    hide SameQuits, SameStanding, NoNewMarks, Seats;
    SameSeats(s, s', {}, {});
  }

  lemma ResolveSeats(cfg: Config, s: State, h: nat, now: nat)
    requires Inv(cfg, s) && h in s.marks
    ensures Seats(s, ResolveMark(s, cfg, h, now), {}, {})
  {
    hide Inv, Seats, LoseAndEvict, CompleteAll, RenameAll, Leaves, Calm;
    var s0 := s.(marks := s.marks - {h}, pings := s.pings - {h});
    var s1 := LoseAndEvict(s0, h);
    var s2 := CompleteAll(s1, cfg, s.marks[h].pairings, now);
    var s3 := RenameAll(s2, s.marks[h].renames, now);
    PingedSeats(cfg, s, h, s0);
    LosePinged(cfg, s, h, s0);
    CompleteAllKeeps(cfg, s1, s.marks[h].pairings, now);
    CalmSeats(s1, s2);
    SeatsTrans(s, s1, s2, {}, {});
    RenameAllKeeps(cfg, s2, s.marks[h].renames, now);
    CalmSeats(s2, s3);
    SeatsTrans(s, s2, s3, {}, {});
  }

  lemma {:induction false} ResolveAllSeats(cfg: Config, s: State, order: seq<nat>, now: nat)
    requires Inv(cfg, s)
    ensures Seats(s, ResolveMarks(s, cfg, order, now), {}, {})
    decreases |order|
  {
    hide Inv, Seats, ResolveMark, Leaves;
    SameSeats(s, s, {}, {});
    if order != [] {
      var s1 := if order[0] in s.marks then ResolveMark(s, cfg, order[0], now) else s;
      if order[0] in s.marks {
        ResolveSeats(cfg, s, order[0], now);
        ResolveMarkLeaves(cfg, s, order[0], now);
      }
      ResolveAllSeats(cfg, s1, order[1..], now);
      SeatsTrans(s, s1, ResolveMarks(s, cfg, order, now), {}, {});
    }
  }

  // ---- joining ----

  /** Two records that every ban, invitation, key and account check treats alike. */
  ghost predicate SameBearer(a: Cx, b: Cx) {
    && a.id == b.id && a.nickKey == b.nickKey && a.info.user == b.info.user && a.info.host == b.info.host
    && a.info.account == b.info.account
  }

  lemma SameBans(a: Cx, b: Cx, masks: seq<string>)
    requires SameBearer(a, b)
    ensures MatchesAny(a, masks) == MatchesAny(b, masks)
  {
    hide NormNick;
    assert forall i :: 0 <= i < |masks| ==> MatchesBan(a, masks[i]) == MatchesBan(b, masks[i]);
  }

  lemma SameBarred(c: Chn, a: Cx, b: Cx, key: string)
    requires SameBearer(a, b)
    ensures Barred(c, a, key) == Barred(c, b, key)
  {
    hide NormNick, MatchesAny;
    SameBans(a, b, c.modes.invex);
    SameBans(a, b, c.modes.bans);
    SameBans(a, b, c.modes.excepts);
  }

  /** Invited where an invitation is needed, logged in where an account is, not banned without exception, and with the key. */
  ghost predicate Passes(c: Chn, u: Cx, key: string) {
    && ('i' in c.modes.flags ==> u.id in c.invites || MatchesAny(u, c.modes.invex))
    && ('R' in c.modes.flags ==> u.info.account.Some?)
    && (MatchesAny(u, c.modes.bans) ==> MatchesAny(u, c.modes.excepts))
    && (c.modes.key.Some? ==> NormNick(key) == c.modes.key.value)
  }

  lemma BarredOrPasses(c: Chn, u: Cx, key: string)
    ensures Barred(c, u, key) <==> !Passes(c, u, key)
  {
    hide NormNick, MatchesAny;
  }

  /** A well-formed name of a channel that is new or whose checks the connection passes. */
  ghost predicate Admits(s: State, id: nat, raw: string, key: string) {
    ValidChannel(raw) && (NormNick(raw) in s.chans ==> Passes(s.chans[NormNick(raw)], Rec(s, id), key))
  }

  ghost function MayEnter(s: State, id: nat, entries: seq<(string, string)>): set<(string, nat)> {
    set i | 0 <= i < |entries| && Admits(s, id, entries[i].0, entries[i].1) :: (NormNick(entries[i].0), id)
  }

  /** Since `base`, `id` has joined some channels, and the others are as they were for it. */
  ghost predicate JoinsSince(base: State, s: State, id: nat) {
    && Ids(s) == Ids(base) && SameBearer(Rec(s, id), Rec(base, id))
    && forall c :: Seated(s, c, id) || ((c in s.chans <==> c in base.chans) && (c in s.chans ==> s.chans[c] == base.chans[c]))
  }

  lemma EnrolSeats(s: State, id: nat, ck: string, c: Chn)
    requires TablesOk(s) && id in Ids(s) && c.members == if ck in s.chans then s.chans[ck].members else {}
    ensures var s' := Enrol(s, id, ck, c);
      && Seats(s, s', {(ck, id)}, {}) && Seated(s', ck, id) && Ids(s') == Ids(s) && SameBearer(Rec(s', id), Rec(s, id))
      && forall x :: x != ck ==> ((x in s'.chans <==> x in s.chans) && (x in s'.chans ==> s'.chans[x] == s.chans[x]))
  {
    hide Filed, Mirrored, Put, Enrol, Seats;
    var u := Rec(s, id).(chans := Rec(s, id).chans + {ck});
    PutRec(s, id, u);
    EnrolFrame(s, id, ck, c);
    SeatAdded(s, Enrol(s, id, ck, c), ck, c.(members := c.members + {id}), id);
  }

  lemma SeatAdded(s: State, s': State, ck: string, c: Chn, id: nat)
    requires Ids(s') == Ids(s) && s'.chans == s.chans[ck := c]
    requires c.members == (if ck in s.chans then s.chans[ck].members else {}) + {id}
    ensures Seats(s, s', {(ck, id)}, {}) && Seated(s', ck, id)
  {
  }

  lemma EnrolFrame(s: State, id: nat, ck: string, c: Chn)
    ensures var s1, s' := Put(s, id, Rec(s, id).(chans := Rec(s, id).chans + {ck})), Enrol(s, id, ck, c);
      && Ids(s') == Ids(s1) && Rec(s', id) == Rec(s1, id) && s'.chans == s.chans[ck := c.(members := c.members + {id})]
  {
  }

  lemma JoinOneSeats(base: State, s: State, id: nat, raw: string, key: string, founders: map<string, string>,
          clock: nat, gain: set<(string, nat)>)
    requires TablesOk(s) && id in Ids(s) && JoinsSince(base, s, id)
    requires Admits(base, id, raw, key) ==> (NormNick(raw), id) in gain
    ensures var s' := JoinOne(s, id, raw, key, founders, clock); Seats(s, s', gain, {}) && JoinsSince(base, s', id)
  {
    hide Filed, Mirrored, Enrol, Barred, Passes, ValidChannel, NormNick, Seats, SameBearer, Founds;
    SameSeats(s, s, gain, {});
    var ck, u := NormNick(raw), Rec(s, id);
    if ValidChannel(raw) && |u.chans| < MaxChannels && !Seated(s, ck, id) {
      var founder := Founds(founders, ck, u.info.account);
      if ck !in s.chans {
        var c := Created(raw, id, clock, ck !in founders || founder);
        EnrolSeats(s, id, ck, c);
        JoinedOne(base, s, id, ck, c, gain);
      } else if !Barred(s.chans[ck], u, key) {
        SameBarred(s.chans[ck], u, Rec(base, id), key);
        BarredOrPasses(s.chans[ck], Rec(base, id), key);
        var c := Admitting(s.chans[ck], id, founder);
        EnrolSeats(s, id, ck, c);
        JoinedOne(base, s, id, ck, c, gain);
      }
    }
  }

  lemma JoinedOne(base: State, s: State, id: nat, ck: string, c: Chn, gain: set<(string, nat)>)
    requires var s' := Enrol(s, id, ck, c);
      && Seats(s, s', {(ck, id)}, {}) && Seated(s', ck, id) && Ids(s') == Ids(s) && SameBearer(Rec(s', id), Rec(s, id))
      && forall x :: x != ck ==> ((x in s'.chans <==> x in s.chans) && (x in s'.chans ==> s'.chans[x] == s.chans[x]))
    requires JoinsSince(base, s, id) && (ck, id) in gain
    ensures var s' := Enrol(s, id, ck, c); Seats(s, s', gain, {}) && JoinsSince(base, s', id)
  {
    hide Enrol;
  }

  lemma {:induction false} JoinAllSeats(cfg: Config, base: State, s: State, id: nat, entries: seq<(string, string)>,
          founders: map<string, string>, clock: nat, gain: set<(string, nat)>)
    requires Inv(cfg, s) && id in s.where && JoinsSince(base, s, id)
    requires forall i :: 0 <= i < |entries| && Admits(base, id, entries[i].0, entries[i].1) ==> (NormNick(entries[i].0), id) in gain
    ensures Seats(s, JoinAll(s, id, entries, founders, clock), gain, {})
    decreases |entries|
  {
    hide Filed, Mirrored, WelcomeOk, QuitsOk, MarksOk, JoinOne, Seats, JoinsSince, Admits, NormNick, Steady, Grows;
    SameSeats(s, s, gain, {});
    if entries != [] {
      var e := entries[0];
      var s1 := JoinOne(s, id, e.0, e.1, founders, clock);
      JoinOneSeats(base, s, id, e.0, e.1, founders, clock, gain);
      JoinOneKeeps(cfg, s, id, e.0, e.1, founders, clock);
      JoinAllSeats(cfg, base, s1, id, entries[1..], founders, clock, gain);
      SeatsTrans(s, s1, JoinAll(s, id, entries, founders, clock), gain, {});
    }
  }

  /** Past every check, and with room left, a JOIN does seat its sender. */
  lemma JoinTakesEffect(s: State, id: nat, raw: string, key: string, founders: map<string, string>, clock: nat)
    requires id in Ids(s) && Admits(s, id, raw, key) && |Rec(s, id).chans| < MaxChannels
    ensures Seated(JoinOne(s, id, raw, key, founders, clock), NormNick(raw), id)
  {
    hide NormNick, Barred, Passes, ValidChannel, Enrol, Founds;
    var ck := NormNick(raw);
    var founder := Founds(founders, ck, Rec(s, id).info.account);
    EnrolFrame(s, id, ck, Created(raw, id, clock, ck !in founders || founder));
    if ck in s.chans {
      BarredOrPasses(s.chans[ck], Rec(s, id), key);
      EnrolFrame(s, id, ck, Admitting(s.chans[ck], id, founder));
    }
  }

  lemma JoinOneRoom(cfg: Config, s: State, id: nat, raw: string, key: string, founders: map<string, string>, clock: nat)
    requires Inv(cfg, s) && id in s.where
    ensures |Rec(JoinOne(s, id, raw, key, founders, clock), id).chans| <= |Rec(s, id).chans| + 1
  {
    hide Filed, Mirrored, MarksOk, QuitsOk, WelcomeOk, Enrol, Put, Barred, NormNick, ValidChannel, Founds;
    var ck, u := NormNick(raw), Rec(s, id);
    var founder := Founds(founders, ck, u.info.account);
    PutRec(s, id, u.(chans := u.chans + {ck}));
    EnrolFrame(s, id, ck, Created(raw, id, clock, ck !in founders || founder));
    if ck in s.chans {
      EnrolFrame(s, id, ck, Admitting(s.chans[ck], id, founder));
    }
  }

  /** The entry at `i` seats its sender, if it passed the checks at the start and there is room for all up to it. */
  lemma {:induction false} JoinAllGrants(cfg: Config, base: State, s: State, id: nat, entries: seq<(string, string)>,
                                         founders: map<string, string>, clock: nat, i: nat)
    requires Inv(cfg, s) && id in s.where && JoinsSince(base, s, id) && i < |entries|
    requires Admits(base, id, entries[i].0, entries[i].1) && |Rec(s, id).chans| + i < MaxChannels
    ensures Seated(JoinAll(s, id, entries, founders, clock), NormNick(entries[i].0), id)
    decreases |entries|
  {
    hide Filed, Mirrored, WelcomeOk, QuitsOk, MarksOk, JoinOne, Passes, ValidChannel, NormNick, Steady, Grows, Seats, Rec;
    var e, c := entries[0], NormNick(entries[i].0);
    var s1 := JoinOne(s, id, e.0, e.1, founders, clock);
    JoinOneKeeps(cfg, s, id, e.0, e.1, founders, clock);
    if i > 0 {
      JoinOneSeats(base, s, id, e.0, e.1, founders, clock, {(NormNick(e.0), id)});
      JoinOneRoom(cfg, s, id, e.0, e.1, founders, clock);
      JoinAllGrants(cfg, base, s1, id, entries[1..], founders, clock, i - 1);
    } else {
      if Seated(s, c, id) {
        JoinLeavesIt(s, id, e.0, e.1, founders, clock, c);
      } else {
        StillAdmits(base, s, id, e.0, e.1);
        JoinTakesEffect(s, id, e.0, e.1, founders, clock);
      }
      JoinLeavesOwn(s1, id, entries[1..], founders, clock, c);
    }
  }

  lemma StillAdmits(base: State, s: State, id: nat, raw: string, key: string)
    requires JoinsSince(base, s, id) && !Seated(s, NormNick(raw), id) && Admits(base, id, raw, key)
    ensures Admits(s, id, raw, key)
  {
    hide NormNick, ValidChannel, Passes, SameBearer, Rec, Barred;
    var ck := NormNick(raw);
    if ck in s.chans {
      SameBarred(s.chans[ck], Rec(s, id), Rec(base, id), key);
      BarredOrPasses(s.chans[ck], Rec(s, id), key);
      BarredOrPasses(s.chans[ck], Rec(base, id), key);
    }
  }

  // ---- leaving ----

  lemma DroppedSeats(s: State, s1: State, lose: set<(string, nat)>)
    requires Seats(s, s1, {}, lose)
    ensures Seats(s, DropEmpty(s1), {}, lose)
  {
    hide Seated;
    forall c, m { DropSeats(s1, c, m); }
    assert Ids(DropEmpty(s1)) == Ids(s1);
  }

  lemma WithdrawSeats(s: State, id: nat, ck: string)
    requires ck in s.chans && id in Ids(s)
    ensures Seats(s, Withdraw(s, id, ck), {}, {(ck, id)}) && Ids(Withdraw(s, id, ck)) == Ids(s)
  {
  }

  /** A PART of any list leaves its sender in none of the channels named. */
  lemma PartTakesEffect(s: State, id: nat, names: seq<string>, i: nat)
    requires id in Ids(s) && i < |names|
    ensures !Seated(HandlePart(s, id, names), NormNick(names[i]), id)
  {
    hide NormNick, PartAll, DropEmpty, Seated;
    PartAllLeaves(s, id, names, i);
    DropSeats(PartAll(s, id, names), NormNick(names[i]), id);
  }

  lemma {:induction false} PartAllLeaves(s: State, id: nat, names: seq<string>, i: nat)
    requires id in Ids(s) && i < |names|
    ensures !Seated(PartAll(s, id, names), NormNick(names[i]), id)
    decreases |names|
  {
    hide NormNick, Withdraw;
    var s1, ck := PartOne(s, id, names[0]), NormNick(names[0]);
    OneLeaves(s, id, names[0]);
    if i > 0 {
      PartAllLeaves(s1, id, names[1..], i - 1);
    } else {
      StaysOut(s1, id, names[1..], ck);
    }
  }

  lemma OneLeaves(s: State, id: nat, raw: string)
    requires id in Ids(s)
    ensures var s1 := PartOne(s, id, raw); id in Ids(s1) && !Seated(s1, NormNick(raw), id)
    ensures var s1 := PartOne(s, id, raw); forall c :: Seated(s1, c, id) ==> Seated(s, c, id)
  {
    hide NormNick;
  }

  lemma {:induction false} StaysOut(s: State, id: nat, names: seq<string>, c: string)
    requires id in Ids(s) && !Seated(s, c, id)
    ensures !Seated(PartAll(s, id, names), c, id)
    decreases |names|
  {
    hide PartOne;
    if names != [] {
      OneLeaves(s, id, names[0]);
      StaysOut(PartOne(s, id, names[0]), id, names[1..], c);
    }
  }

  lemma {:induction false} PartAllSeats(s: State, id: nat, names: seq<string>, lose: set<(string, nat)>)
    requires forall i :: 0 <= i < |names| ==> (NormNick(names[i]), id) in lose
    ensures Seats(s, PartAll(s, id, names), {}, lose)
    decreases |names|
  {
    hide NormNick, Withdraw, Seats;
    SameSeats(s, s, {}, lose);
    if names != [] {
      var s1, ck := PartOne(s, id, names[0]), NormNick(names[0]);
      if id in Ids(s) && ck in s.chans && id in s.chans[ck].members {
        WithdrawSeats(s, id, ck);
        LoseMore(s, s1, {(ck, id)}, lose);
      }
      PartAllSeats(s1, id, names[1..], lose);
      SeatsTrans(s, s1, PartAll(s, id, names), {}, lose);
    }
  }

  lemma LoseMore(s: State, s': State, lose: set<(string, nat)>, more: set<(string, nat)>)
    requires Seats(s, s', {}, lose) && lose <= more
    ensures Seats(s, s', {}, more)
  {
    hide Seated;
  }

  /** Whom a KICK may remove: the one named, by an operator of the channel, or oneself. */
  ghost function Kicked(s: State, id: nat, raw: string, target: string, now: nat): set<(string, nat)> {
    var ck, t := NormNick(raw), Lookup(s, NormNick(target), now);
    if Seated(s, ck, id) && t.Some? && (t.value.id == id || id in s.chans[ck].modes.ops) then {(ck, t.value.id)} else {}
  }

  lemma KickSeats(cfg: Config, s: State, id: nat, raw: string, target: string, now: nat)
    requires Inv(cfg, s)
    ensures Seats(s, HandleKick(s, id, raw, target, now), {}, Kicked(s, id, raw, target, now))
  {
    hide NormNick, Lookup, Withdraw, Seats, DropEmpty, Filed, MarksOk, QuitsOk, WelcomeOk;
    var ck, t := NormNick(raw), Lookup(s, NormNick(target), now);
    var lose := Kicked(s, id, raw, target, now);
    SameSeats(s, s, {}, lose);
    if ck in s.chans && id in s.chans[ck].members && t.Some? && t.value.id in s.chans[ck].members
       && (t.value.id == id || id in s.chans[ck].modes.ops) {
      WithdrawSeats(s, t.value.id, ck);
      DroppedSeats(s, Withdraw(s, t.value.id, ck), lose);
    }
  }

  // ---- every step ----

  ghost function MayGain(s: State, e: Event): set<(string, nat)> {
    if e.JoinCmd? && e.list.Some? then MayEnter(s, e.id, JoinEntries(e.list.value, e.keys)) else {}
  }

  ghost function MayLose(s: State, now: nat, e: Event): set<(string, nat)> {
    if e.PartCmd? && e.list.Some? then set i | 0 <= i < |ChannelNames(e.list.value)| :: (NormNick(ChannelNames(e.list.value)[i]), e.id)
    else if e.KickCmd? then Kicked(s, e.id, e.chan, e.target, now)
    else {}
  }

  lemma {:induction false} ResolveSame(s: State, t: State, key: string, now: nat, hops: nat)
    requires t.history == s.history && t.users.Keys == s.users.Keys && forall k :: k in s.users ==> t.users[k].id == s.users[k].id
    ensures Resolve(t, key, now, hops).Some? <==> Resolve(s, key, now, hops).Some?
    ensures Resolve(s, key, now, hops).Some? ==> Resolve(t, key, now, hops).value.id == Resolve(s, key, now, hops).value.id
    decreases hops
  {
    if key !in s.users && hops > 0 {
      var hop := LastHop(s.history, key, now, |s.history|);
      if hop.Some? {
        ResolveSame(s, t, hop.value, now, hops - 1);
      }
    }
  }

  lemma TouchedSame(cfg: Config, s: State, id: nat, now: nat)
    requires Inv(cfg, s)
    ensures var t := Touch(s, id, now);
      && t.chans == s.chans && Ids(t) == Ids(s) && t.history == s.history && t.where == s.where
      && t.users.Keys == s.users.Keys && (forall k :: k in s.users ==> t.users[k].id == s.users[k].id)
      && SameBearer(Rec(t, id), Rec(s, id))
  {
    hide Mirrored, MarksOk, QuitsOk, WelcomeOk;
    if id in Ids(s) {
      RecFacts(s, id);
    }
  }

  lemma KickedSame(cfg: Config, s: State, id: nat, raw: string, target: string, now: nat)
    requires Inv(cfg, s)
    ensures Kicked(Touch(s, id, now), id, raw, target, now) == Kicked(s, id, raw, target, now)
  {
    hide Inv, NormNick, Touch;
    TouchedSame(cfg, s, id, now);
    ResolveSame(s, Touch(s, id, now), NormNick(target), now, 8);
  }

  lemma CommandSeats(cfg: Config, s: State, now: nat, e: Event)
    requires Inv(cfg, s) && IsCommand(e) && Inv(cfg, Touch(s, e.id, now))
    ensures Seats(Touch(s, e.id, now), Command(Touch(s, e.id, now), cfg, now, e), MayGain(s, e), MayLose(s, now, e))
  {
    hide Inv, Seats, HandleNick, HandleUser, HandleCap, HandlePong, JoinAll, HandlePart, HandleKick, LoseAndEvict,
      ChannelNames, JoinEntries,
      Target, Touch, NormNick, Reclaims, Answers, Calm, MayEnter, Kicked;
    var t := Touch(s, e.id, now);
    var gain, lose := MayGain(s, e), MayLose(s, now, e);
    SameSeats(t, t, gain, lose);
    if e.NickCmd? {
      NickKeeps(cfg, t, e.id, e.nick, now);
      ReclaimsSeats(cfg, t, HandleNick(t, cfg, e.id, e.nick, now), now, e.id, e.nick);
    } else if e.UserCmd? {
      UserKeeps(cfg, t, e.id, e.user, now);
      CalmSeats(t, HandleUser(t, cfg, e.id, e.user, now));
    } else if e.CapCmd? {
      CapKeeps(cfg, t, e.id, e.sub);
      CalmSeats(t, HandleCap(t, e.id, e.sub));
    } else if e.PongCmd? {
      PongKeeps(cfg, t, e.id, now);
      AnswersSeats(t, HandlePong(t, cfg, e.id, now), e.id);
    } else if e.JoinCmd? && e.list.Some? {
      JoinSeats(cfg, s, now, e);
    } else if e.PartCmd? && e.list.Some? {
      PartSeats(t, e.id, ChannelNames(e.list.value));
    } else if e.KickCmd? {
      KickSeats(cfg, t, e.id, e.chan, e.target, now);
      KickedSame(cfg, s, e.id, e.chan, e.target, now);
    } else if e.QuitCmd? {
      TablesOf(cfg, t);
      LoseSeats(t, e.id);
    } else if e.KillCmd? || e.GhostCmd? {
      TablesOf(cfg, t);
      if Target(t, e.id, e.target, now).Some? {
        LoseSeats(t, Target(t, e.id, e.target, now).value);
      }
    } else if e.ProfileCmd? {
      ProfileSeats(cfg, t, now, e);
    }
  }

  lemma TablesOf(cfg: Config, s: State)
    requires Inv(cfg, s)
    ensures TablesOk(s)
  {
  }

  lemma ReclaimsSeats(cfg: Config, s: State, s': State, now: nat, id: nat, nick: Option<string>)
    requires Reclaims(cfg, s, s', now, id, nick)
    ensures Seats(s, s', {}, {})
  {
    hide Seats, SameQuits, StandingBut;
    SameSeats(s, s', {}, {});
  }

  lemma AnswersSeats(s: State, s': State, id: nat)
    requires Answers(s, s', id)
    ensures Seats(s, s', {}, {})
  {
    hide Seats, SameQuits, Verifies, NoNewMarks;
    SameSeats(s, s', {}, {});
  }

  lemma JoinSeats(cfg: Config, s: State, now: nat, e: Event)
    requires Inv(cfg, s) && e.JoinCmd? && e.list.Some? && Inv(cfg, Touch(s, e.id, now))
    ensures var t, entries := Touch(s, e.id, now), JoinEntries(e.list.value, e.keys);
      Registered(t, e.id) ==> Seats(t, JoinAll(t, e.id, entries, e.founders, e.clock), MayEnter(s, e.id, entries), {})
  {
    hide Inv, Seats, JoinAll, Touch, Admits, NormNick, SameBearer;
    var t := Touch(s, e.id, now);
    TouchedSame(cfg, s, e.id, now);
    if Registered(t, e.id) {
      InTable(cfg, t, e.id);
      var entries := JoinEntries(e.list.value, e.keys);
      JoinAllSeats(cfg, s, t, e.id, entries, e.founders, e.clock, MayEnter(s, e.id, entries));
    }
  }

  lemma InTable(cfg: Config, s: State, id: nat)
    requires Inv(cfg, s) && Registered(s, id)
    ensures id in s.where
  {
    hide Filed, Mirrored, MarksOk, QuitsOk, WelcomeOk;
    RecFacts(s, id);
  }

  lemma PartSeats(s: State, id: nat, names: seq<string>)
    ensures Seats(s, HandlePart(s, id, names), {}, set i | 0 <= i < |names| :: (NormNick(names[i]), id))
  {
    hide NormNick, Seats, DropEmpty, PartAll;
    var lose := set i | 0 <= i < |names| :: (NormNick(names[i]), id);
    PartAllSeats(s, id, names, lose);
    DroppedSeats(s, PartAll(s, id, names), lose);
  }

  lemma ProfileSeats(cfg: Config, s: State, now: nat, e: Event)
    requires e.ProfileCmd?
    ensures Seats(s, Command(s, cfg, now, e), {}, {})
  {
    hide Seats;
    SameSeats(s, Command(s, cfg, now, e), {}, {});
  }

  lemma StepSeats(cfg: Config, s: State, now: nat, e: Event)
    requires Inv(cfg, s) && !e.Accepted?
    ensures Seats(s, Step(s, cfg, now, e), MayGain(s, e), MayLose(s, now, e))
  {
    hide Inv, Seats, Command, Touch, LoseAll, CleanupOnEof, ResolveMarks, Liveness, ChannelJoin, Calm, MayGain,
      MayLose, DropEmpty;
    var gain, lose := MayGain(s, e), MayLose(s, now, e);
    NothingElse(s, now, e);
    if IsCommand(e) {
      var t := Touch(s, e.id, now);
      TouchKeeps(cfg, s, e.id, now);
      TouchedSame(cfg, s, e.id, now);
      SameSeats(s, t, gain, lose);
      CommandSeats(cfg, s, now, e);
      SeatsTrans(s, t, Step(s, cfg, now, e), gain, lose);
    } else if e.Purge? {
      LoseAllSeats(cfg, s, e.order);
    } else if e.Eof? {
      TablesOf(cfg, s);
      EofSeats(s, e.id);
    } else if e.ReclaimTick? {
      ResolveAllSeats(cfg, s, e.order, now);
    } else if e.LivenessTick? {
      LivenessSeats(cfg, s, e.unregs, e.pings, now);
    } else if e.Sweep? {
      SameSeats(s, s, {}, {});
      DroppedSeats(s, s, {});
    } else {
      LinkSeats(cfg, s, now, e);
    }
  }

  lemma NothingElse(s: State, now: nat, e: Event)
    ensures !IsCommand(e) ==> MayGain(s, e) == {} && MayLose(s, now, e) == {}
  {
  }

  lemma LinkSeats(cfg: Config, s: State, now: nat, e: Event)
    requires e.ChannelEdit? || e.RemoteMode? || e.ChannelJoined? || e.NetChanged?
    ensures Seats(s, Step(s, cfg, now, e), {}, {})
  {
    hide Step, ChannelJoin, ChansMove;
    if e.ChannelJoined? {
      AdoptChans(s, e.chan, e.ts, e.members);
      StepAdopts(cfg, s, now, e);
    } else {
      EditChans(cfg, s, now, e);
    }
  }

  /**
   * Over every run a connection enters a channel only by its own JOIN naming it, past every check the
   * channel makes; and while connected it leaves only by its own PART naming it, or by a KICK naming
   * it from an operator of the channel or itself.
   */
  lemma MembershipJustified(sid: string, cfg: Config, es: Trace, k: nat, c: string, m: nat)
    requires Feasible(sid, cfg, es) && k < |es|
    ensures var s, s' := At(sid, cfg, es, k), At(sid, cfg, es, k + 1);
      && (Seated(s', c, m) && !Seated(s, c, m) ==> (c, m) in MayGain(s, es[k].1))
      && (Seated(s, c, m) && !Seated(s', c, m) ==> m !in Ids(s') || (c, m) in MayLose(s, es[k].0, es[k].1))
  {
    hide Inv, Step, Moves, Leavers, MayGain, MayLose, Seated;
    StepAt(sid, cfg, es, k);
    var s := At(sid, cfg, es, k);
    if es[k].1.Accepted? {
      ParkSeats(cfg, s, es[k].0, es[k].1, c, m);
    } else {
      StepSeats(cfg, s, es[k].0, es[k].1);
    }
  }

  /** The name at a position of a JOIN's list is the channel's, and the key is the one at the same position, if any. */
  ghost predicate NamedBy(e: Event, m: nat, c: string, key: string, i: nat) {
    && e.JoinCmd? && e.id == m && e.list.Some? && i < |ChannelNames(e.list.value)|
    && var name := ChannelNames(e.list.value)[i];
    && ValidChannel(name) && NormNick(name) == c
    && key == if e.keys.Some? && i < |Split(e.keys.value, ',')| then Split(e.keys.value, ',')[i] else ""
  }

  /**
   * Over every run, whoever newly enters a channel that exists named it in a JOIN and met what the channel asks of
   * everybody: where it is invite-only they were invited or a mask that stands for an invitation catches them, where
   * it is for accounts they have one, if a ban catches them so does an exception, and where there is a key they gave it.
   */
  lemma EntryChecked(sid: string, cfg: Config, es: Trace, k: nat, c: string, m: nat)
    requires Feasible(sid, cfg, es) && k < |es|
    requires var s := At(sid, cfg, es, k); c in s.chans && !Seated(s, c, m) && StarFree(Rec(s, m))
    requires Seated(At(sid, cfg, es, k + 1), c, m)
    ensures var s := At(sid, cfg, es, k);
      exists i, key :: NamedBy(es[k].1, m, c, key, i) && Clears(s.chans[c], Rec(s, m), key)
  {
    hide Feasible, Run, Barred, Passes, Clears, NormNick, ValidChannel, StarFree, JoinEntries;
    MembershipJustified(sid, cfg, es, k, c, m);
    var s, e := At(sid, cfg, es, k), es[k].1;
    var entries := JoinEntries(e.list.value, e.keys);
    var i :| 0 <= i < |entries| && Admits(s, e.id, entries[i].0, entries[i].1) && (NormNick(entries[i].0), e.id) == (c, m);
    BarredOrPasses(s.chans[c], Rec(s, m), entries[i].1);
    BarredIff(s.chans[c], Rec(s, m), entries[i].1);
    assert NamedBy(e, m, c, entries[i].1, i);
  }

  /** And whoever names a channel, meets all that and has room for the channels named up to it is let in. */
  lemma EntryGranted(sid: string, cfg: Config, es: Trace, k: nat, c: string, m: nat, key: string, i: nat)
    requires Feasible(sid, cfg, es) && k < |es|
    requires var s := At(sid, cfg, es, k);
      && m in s.where && StarFree(Rec(s, m)) && NamedBy(es[k].1, m, c, key, i) && |Rec(s, m).chans| + i < 10
      && (c in s.chans ==> Clears(s.chans[c], Rec(s, m), key))
    ensures Seated(At(sid, cfg, es, k + 1), c, m)
  {
    hide Filed, Mirrored, WelcomeOk, QuitsOk, MarksOk, Step, Moves, Leavers, Enabled, Barred, Passes, Clears, NormNick,
      ValidChannel, StarFree,
      JoinAll, Touch, SameBearer, Rec;
    StepAt(sid, cfg, es, k);
    var s, e := At(sid, cfg, es, k), es[k].1;
    var t, entries := Touch(s, m, es[k].0), JoinEntries(e.list.value, e.keys);
    StepJoins(s, cfg, es[k].0, e);
    TouchKeeps(cfg, s, m, es[k].0);
    TouchedSame(cfg, s, m, es[k].0);
    TouchedChans(cfg, s, m, es[k].0);
    RecFacts(t, m);
    if c in s.chans {
      BarredOrPasses(s.chans[c], Rec(s, m), key);
      BarredIff(s.chans[c], Rec(s, m), key);
    }
    assert Admits(s, m, entries[i].0, entries[i].1);
    JoinAllGrants(cfg, s, t, m, entries, e.founders, e.clock, i);
  }

  lemma TouchedChans(cfg: Config, s: State, id: nat, now: nat)
    requires Inv(cfg, s)
    ensures Rec(Touch(s, id, now), id).chans == Rec(s, id).chans
  {
    hide Mirrored, MarksOk, QuitsOk, WelcomeOk;
    if id in Ids(s) {
      RecFacts(s, id);
    }
  }

  lemma StepKicks(s: State, cfg: Config, now: nat, e: Event)
    requires e.KickCmd?
    ensures var t := Touch(s, e.id, now);
      Step(s, cfg, now, e) == if Registered(t, e.id) then HandleKick(t, e.id, e.chan, e.target, now) else t
  {
    hide Touch, HandleKick, Registered;
  }

  /** A KICK by an operator of the channel, or of oneself, does remove the member it names. */
  lemma KickTakesEffect(sid: string, cfg: Config, es: Trace, k: nat, d: nat)
    requires Feasible(sid, cfg, es) && k < |es| && es[k].1.KickCmd?
    requires var s, e := At(sid, cfg, es, k), es[k].1;
      var c, t := NormNick(e.chan), Lookup(s, NormNick(e.target), es[k].0);
      && Seated(s, c, e.id) && Seated(s, c, d) && t.Some? && t.value.id == d && (d == e.id || e.id in s.chans[c].modes.ops)
    ensures !Seated(At(sid, cfg, es, k + 1), NormNick(es[k].1.chan), d)
  {
    hide Filed, WelcomeOk, QuitsOk, MarksOk, Step, Moves, Leavers, Enabled, Touch, NormNick, Withdraw, DropEmpty, Rec;
    StepAt(sid, cfg, es, k);
    var s, e, now := At(sid, cfg, es, k), es[k].1, es[k].0;
    var t, c := Touch(s, e.id, now), NormNick(e.chan);
    StepKicks(s, cfg, now, e);
    TouchKeeps(cfg, s, e.id, now);
    TouchedSame(cfg, s, e.id, now);
    ResolveSame(s, t, NormNick(e.target), now, 8);
    RecFacts(t, e.id);
    RecFacts(t, d);
    Withdrawn(t, d, c);
    DropSeats(Withdraw(t, d, c), c, d);
  }

  lemma Withdrawn(s: State, id: nat, c: string)
    requires c in s.chans
    ensures !Seated(Withdraw(s, id, c), c, id)
  {
    hide Put;
  }

  // ---- empty channels ----

  /** Every channel has somebody in it, here or elsewhere. */
  ghost predicate Clean(s: State) {
    forall c :: c in s.chans ==> HasMember(s, c)
  }

  lemma SameClean(s: State, s': State)
    requires Clean(s) && s'.chans == s.chans && s'.net == s.net
    ensures Clean(s')
  {
  }

  lemma DropCleans(s: State)
    ensures Clean(DropEmpty(s))
  {
  }

  lemma LoseCleans(s: State, id: nat)
    ensures Clean(LoseAndEvict(s, id)) && (id in Ids(s) ==> Clean(CleanupOnEof(s, id)))
  {
    hide LoseAndEvict, Removed, QuitLines, Evict, DropEmpty, Eject, RemoteMembers;
    LoseIsRemoved(s, id);
    RemovedFrame(s, id, QuitLines(s, id));
    RemovedFrame(s, id, multiset{});
  }

  lemma {:induction false} LoseAllCleans(s: State, order: seq<nat>)
    requires order != [] || Clean(s)
    ensures Clean(LoseAll(s, order))
    decreases |order|
  {
    hide LoseAndEvict, Clean;
    if order != [] {
      LoseCleans(s, order[0]);
      LoseAllCleans(LoseAndEvict(s, order[0]), order[1..]);
    }
  }

  lemma {:induction false} ExpireCleans(s: State, order: seq<nat>)
    requires order != [] || Clean(s)
    ensures Clean(ExpirePings(s, order))
    decreases |order|
  {
    hide LoseAndEvict, Clean;
    if order != [] {
      var s0 := s.(pings := s.pings - {order[0]});
      LoseCleans(s0, order[0]);
      ExpireCleans(LoseAndEvict(s0, order[0]), order[1..]);
    }
  }

  lemma LivenessCleans(s: State, cfg: Config, unregs: seq<nat>, pings: seq<nat>, now: nat)
    requires unregs + pings != []
    ensures Clean(Liveness(s, cfg, unregs, pings, now))
  {
    hide LoseAll, ExpirePings, Clean, Silent;
    if unregs != [] {
      LoseAllCleans(s, unregs);
    }
    ExpireCleans(LoseAll(s, unregs), pings);
    var s2 := ExpirePings(LoseAll(s, unregs), pings);
    SameClean(s2, PingSilent(s2, cfg, now));
  }

  lemma ResolveCleans(cfg: Config, s: State, h: nat, now: nat)
    requires Inv(cfg, s) && h in s.marks
    ensures Clean(ResolveMark(s, cfg, h, now))
  {
    hide Inv, LoseAndEvict, CompleteAll, RenameAll, Leaves, Clean, SameQuits, SameStanding, NoNewMarks;
    var s0 := s.(marks := s.marks - {h}, pings := s.pings - {h});
    var s1 := LoseAndEvict(s0, h);
    var s2 := CompleteAll(s1, cfg, s.marks[h].pairings, now);
    LoseCleans(s0, h);
    LosePinged(cfg, s, h, s0);
    CompleteAllKeeps(cfg, s1, s.marks[h].pairings, now);
    SameClean(s1, s2);
    RenameAllKeeps(cfg, s2, s.marks[h].renames, now);
    SameClean(s2, ResolveMark(s, cfg, h, now));
  }

  lemma {:induction false} ResolveAllCleans(cfg: Config, s: State, order: seq<nat>, now: nat)
    requires Inv(cfg, s) && NoRepeats(order) && Elements(order) <= s.marks.Keys && (order != [] || Clean(s))
    ensures Clean(ResolveMarks(s, cfg, order, now))
    decreases |order|
  {
    hide Inv, ResolveMark, Leaves, Clean;
    if order != [] {
      assert order[0] in Elements(order);
      ResolveCleans(cfg, s, order[0], now);
      ResolveMarkLeaves(cfg, s, order[0], now);
      assert order[0] !in order[1..] && forall x :: x in Elements(order[1..]) ==> x in Elements(order);
      ResolveAllCleans(cfg, ResolveMark(s, cfg, order[0], now), order[1..], now);
    }
  }

  lemma DepartureCleans(cfg: Config, s: State, now: nat, e: Event, d: nat)
    requires Inv(cfg, s) && Enabled(s, cfg, now, e) && d in Ids(s) && d in Leavers(s, now, e)
    ensures Clean(Step(s, cfg, now, e))
  {
    hide Inv, Clean, LoseAndEvict, LoseAll, CleanupOnEof, ResolveMarks, Liveness, Touch, Target, Rec, Registered,
      LateUnregistered, LatePings;
    if IsCommand(e) {
      var t := Touch(s, e.id, now);
      LoseCleans(t, d);
    } else if e.Purge? {
      LoseAllCleans(s, e.order);
    } else if e.Eof? {
      LoseCleans(s, d);
    } else if e.ReclaimTick? {
      ResolveAllCleans(cfg, s, e.order, now);
    } else {
      LivenessCleans(s, cfg, e.unregs, e.pings, now);
    }
  }

  lemma StepParts(s: State, cfg: Config, now: nat, e: Event)
    requires e.PartCmd?
    ensures var t := Touch(s, e.id, now);
      Step(s, cfg, now, e) == if Registered(t, e.id) && e.list.Some? then HandlePart(t, e.id, ChannelNames(e.list.value)) else t
  {
    hide Touch, HandlePart, Registered, ChannelNames;
  }

  lemma StepSweeps(s: State, cfg: Config, now: nat)
    ensures Step(s, cfg, now, Sweep) == DropEmpty(s)
  {
    hide DropEmpty, Command;
  }

  /** In every run no empty channel is left by a step in which somebody departs, by a PART, or by the end of a MODE. */
  lemma EmptyChannelsGo(sid: string, cfg: Config, es: Trace, k: nat, d: nat)
    requires Feasible(sid, cfg, es) && k < |es|
    requires var s, s', e := At(sid, cfg, es, k), At(sid, cfg, es, k + 1), es[k].1;
      (d in Ids(s) && d !in Ids(s')) || e.Sweep? || (e.PartCmd? && e.id in s.where && e.list.Some?)
    ensures Clean(At(sid, cfg, es, k + 1))
  {
    hide Filed, Mirrored, WelcomeOk, QuitsOk, MarksOk, Step, Leavers, QuitsMove, MarksMove, StandingMove, ChansMove,
      Clean, Touch, HandlePart, DropEmpty,
      PartAll, ChannelNames, Calm, Rec;
    StepAt(sid, cfg, es, k);
    var s, e, now := At(sid, cfg, es, k), es[k].1, es[k].0;
    if d in Ids(s) && d !in Ids(At(sid, cfg, es, k + 1)) {
      assert d in Elements(Leavers(s, now, e));
      DepartureCleans(cfg, s, now, e, d);
    } else if e.Sweep? {
      StepSweeps(s, cfg, now);
      DropCleans(s);
    } else {
      var t := Touch(s, e.id, now);
      StepParts(s, cfg, now, e);
      TouchKeeps(cfg, s, e.id, now);
      TouchedSame(cfg, s, e.id, now);
      RecFacts(t, e.id);
      PartCleans(t, e.id, ChannelNames(e.list.value));
    }
  }

  lemma PartCleans(s: State, id: nat, names: seq<string>)
    ensures Clean(HandlePart(s, id, names))
  {
    hide PartAll, DropEmpty, Clean;
    DropCleans(PartAll(s, id, names));
  }

  lemma ParkSeats(cfg: Config, s: State, now: nat, e: Event, c: string, m: nat)
    requires e.Accepted?
    ensures Seated(Step(s, cfg, now, e), c, m) == Seated(s, c, m)
  {
    hide Step;
    StepParks(cfg, s, now, e);
  }
}
