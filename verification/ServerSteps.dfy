/** Every event keeps the invariant, and moves the state only in the ways listed here. */
module ServerSteps {
  import opened Basics
  import opened Names
  import opened ServerModel
  import opened ServerInvariant
  import opened ServerRegistration
  import opened ServerDepartures
  import opened ServerChannels
  import N = Network

  // ---- reclaim and liveness ticks ----

  lemma {:induction false} CompleteAllKeeps(cfg: Config, s: State, held: seq<(nat, string)>, now: nat)
    requires Inv(cfg, s)
    ensures var s' := CompleteAll(s, cfg, held, now); Inv(cfg, s') && Calm(s, s') && s'.marks == s.marks
    decreases |held|
  {
    hide Filed, Mirrored, MarksOk, WelcomeOk, QuitsOk, SameQuits, SameStanding, NoNewMarks, MaybeComplete;
    StaysCalm(s);
    if held != [] {
      MaybeCompleteKeeps(cfg, s, held[0].0, now);
      var s1 := MaybeComplete(s, cfg, held[0].0, now);
      CompleteAllKeeps(cfg, s1, held[1..], now);
      SteadyTrans(s, s1, CompleteAll(s, cfg, held, now));
    }
  }

  lemma {:induction false} RenameAllKeeps(cfg: Config, s: State, held: seq<(nat, string)>, now: nat)
    requires Inv(cfg, s)
    ensures var s' := RenameAll(s, held, now); Inv(cfg, s') && Calm(s, s') && s'.marks == s.marks
    decreases |held|
  {
    hide Filed, Mirrored, MarksOk, WelcomeOk, QuitsOk, SameQuits, SameStanding, NoNewMarks;
    StaysCalm(s);
    if held != [] {
      FinishRenameKeeps(cfg, s, held[0].0, held[0].1, now);
      var s1 := FinishRename(s, held[0].0, held[0].1, now);
      RenameAllKeeps(cfg, s1, held[1..], now);
      SteadyTrans(s, s1, RenameAll(s, held, now));
    }
  }

  lemma LoseKeepsMarks(s: State, id: nat)
    ensures LoseAndEvict(s, id).marks == s.marks
  {
  }

  lemma ResolveMarkLeaves(cfg: Config, s: State, h: nat, now: nat)
    requires Inv(cfg, s) && h in s.marks
    ensures var s' := ResolveMark(s, cfg, h, now);
      Inv(cfg, s') && Leaves(s, s', [h]) && s'.marks == s.marks - {h}
  {
    hide Filed, Mirrored, MarksOk, WelcomeOk, QuitsOk, Leaves, Calm, LoseAndEvict, CompleteAll, RenameAll;
    var mark := s.marks[h];
    var s0 := s.(marks := s.marks - {h}, pings := s.pings - {h});
    LosePinged(cfg, s, h, s0);
    LoseKeepsMarks(s0, h);
    var s1 := LoseAndEvict(s0, h);
    CompleteAllKeeps(cfg, s1, mark.pairings, now);
    var s2 := CompleteAll(s1, cfg, mark.pairings, now);
    RenameAllKeeps(cfg, s2, mark.renames, now);
    LeavesCalm(cfg, s, s1, s2, [h]);
    LeavesCalm(cfg, s, s2, RenameAll(s2, mark.renames, now), [h]);
  }

  lemma {:induction false} ResolveMarksLeaves(cfg: Config, s: State, order: seq<nat>, now: nat)
    requires Inv(cfg, s) && NoRepeats(order) && Elements(order) <= s.marks.Keys
    ensures var s' := ResolveMarks(s, cfg, order, now);
      Inv(cfg, s') && Leaves(s, s', order) && s'.marks == s.marks - Elements(order)
    decreases |order|
  {
    hide Filed, Mirrored, MarksOk, WelcomeOk, QuitsOk, Leaves, ResolveMark;
    if order == [] {
      SelfLeaves(s);
    } else {
      assert order[0] in Elements(order);
      ResolveMarkLeaves(cfg, s, order[0], now);
      var s1 := ResolveMark(s, cfg, order[0], now);
      assert Elements(order) == {order[0]} + Elements(order[1..]);
      assert order[0] !in order[1..];
      ResolveMarksLeaves(cfg, s1, order[1..], now);
      LeavesTrans(cfg, s, s1, ResolveMarks(s, cfg, order, now), [order[0]], order[1..]);
      assert [order[0]] + order[1..] == order;
    }
  }

  lemma PingSilentKeeps(cfg: Config, s: State, now: nat)
    requires Inv(cfg, s)
    ensures Inv(cfg, PingSilent(s, cfg, now)) && Calm(s, PingSilent(s, cfg, now))
  {
    hide Filed, Mirrored, WelcomeOk, QuitsOk, MarksOk, SameQuits, SameStanding;
    var lines := multiset(set i | i in Silent(s, cfg, now) :: Sent(i, Ping));
    LogKeeps(cfg, s, lines);
    var s1, s' := s.(log := s.log + lines), PingSilent(s, cfg, now);
    WelcomeSame(cfg, s1, s');
    QuitsSame(s1, s');
    TablesUnmoved(s, s');
    QuitsUnmoved(s1, s');
    QuitsChain(s, s1, s');
    SilentMarks(cfg, s, now);
  }

  lemma QuitsChain(a: State, b: State, c: State)
    requires SameQuits(a, b) && SameQuits(b, c)
    ensures SameQuits(a, c)
  {
  }

  /** Pinging the silent only adds pings, for connections that are there. */
  lemma SilentMarks(cfg: Config, s: State, now: nat)
    requires TablesOk(s) && MarksOk(s)
    ensures MarksOk(PingSilent(s, cfg, now))
  {
    hide Mirrored;
    assert Silent(s, cfg, now) <= s.seen;
  }

  lemma LivenessLeaves(cfg: Config, s: State, unregs: seq<nat>, pings: seq<nat>, now: nat)
    requires Inv(cfg, s)
    ensures var s' := Liveness(s, cfg, unregs, pings, now); Inv(cfg, s') && Leaves(s, s', unregs + pings)
  {
    hide Filed, Mirrored, MarksOk, WelcomeOk, QuitsOk, Leaves, LoseAll, ExpirePings, PingSilent, Calm;
    LoseAllLeaves(cfg, s, unregs);
    var s1 := LoseAll(s, unregs);
    ExpirePingsLeaves(cfg, s1, pings);
    var s2 := ExpirePings(s1, pings);
    LeavesTrans(cfg, s, s1, s2, unregs, pings);
    PingSilentKeeps(cfg, s2, now);
    LeavesCalm(cfg, s, s2, PingSilent(s2, cfg, now), unregs + pings);
  }

  lemma EofLeaves(cfg: Config, s: State, id: nat)
    requires Inv(cfg, s)
    ensures Inv(cfg, CleanupOnEof(s, id)) && Leaves(s, CleanupOnEof(s, id), [id])
  {
    hide Filed, Mirrored, WelcomeOk, QuitsOk, MarksBut, Departs, QuitsMove, Shrinks, LoseAndEvict, Shares;
    if id !in Ids(s) {
      AbsentLeaves(s, id);
    } else {
      RecFacts(s, id);
      LoseLeaves(cfg, s, id);
      if !Rec(s, id).registered {
        MarksOkBut(s, id);
        LoseIsRemoved(s, id);
        RemovedKeeps(cfg, s, id, multiset{});
        SilentQuits(s, id, CleanupOnEof(s, id));
      }
    }
  }

  lemma AbsentLeaves(s: State, id: nat)
    requires TablesOk(s) && id !in Ids(s)
    ensures Leaves(s, s, [id])
  {
    hide Filed, Outlasts;
    assert Elements([id]) == {id};
    SilentQuits(s, id, s);
  }

  lemma SilentQuits(s: State, id: nat, s': State)
    requires TablesOk(s) && id !in s.where && s'.log == s.log
    ensures QuitsMove(s, s', [id])
  {
    hide Filed;
    assert forall p, d :: Outlasts([id], p, d) ==> d == id by {
      assert [id][1..] == [];
    }
  }

  // ---- what one event may do ----

  function Arriving(e: Event): set<nat> {
    if e.Accepted? then {e.id} else {}
  }

  /** The connections an event removes, in the order it removes them. */
  function Departing(s: State, now: nat, e: Event): seq<nat> {
    match e
    case QuitCmd(id) => if Registered(s, id) then [id] else []
    case KillCmd(id, target) =>
      if Registered(s, id) && Rec(s, id).info.oper && Target(s, id, target, now).Some?
      then [Target(s, id, target, now).value] else []
    case GhostCmd(id, target, authorized) =>
      if Registered(s, id) && authorized && Target(s, id, target, now).Some? && Target(s, id, target, now).value != id
      then [Target(s, id, target, now).value] else []
    case Purge(order) => order
    case Eof(id) => [id]
    case ReclaimTick(order) => order
    case LivenessTick(unregs, pings) => unregs + pings
    case _ => []
  }

  /** Exactly the listed connections go, and only an accepted one comes. */
  ghost predicate IdsMove(s: State, s': State, e: Event, order: seq<nat>) {
    s'.seen == s.seen + Arriving(e) && Ids(s') == (Ids(s) + Arriving(e)) - Elements(order)
  }

  /** The state a command runs in: its sender's liveness stamp is refreshed first. */
  function Entered(s: State, now: nat, e: Event): State {
    if IsCommand(e) then Touch(s, e.id, now) else s
  }

  /** Markers come, and hold back more, only by NICK, a full grace period ahead; they are never postponed. */
  ghost predicate MarksMove(cfg: Config, s: State, s': State, now: nat, e: Event) {
    && (if e.NickCmd? then MarksGrow(cfg, Entered(s, now, e), s'.marks, now, e.id, e.nick) else NoNewMarks(s, s'))
    && (e.PongCmd? && e.id in Ids(s) ==> e.id !in s'.marks)
  }

  /** Only a PONG from a challenged connection verifies it, and only its own NICK gives it a nick to register under. */
  ghost predicate StandingMove(s: State, s': State, e: Event) {
    && (forall i :: i in Ids(s') && Rec(s', i).gate.verified ==>
         i in Ids(s) && (Rec(s, i).gate.verified || (e == PongCmd(i) && Rec(s, i).gate.challenged)))
    && (forall i :: i in Ids(s') && Rec(s', i).info.pendingNick.Some? ==>
         i in Ids(s) && (Rec(s', i).info.pendingNick == Rec(s, i).info.pendingNick || e == NickCmd(i, Rec(s', i).info.pendingNick)))
  }

  ghost predicate HasMember(s: State, c: string) {
    (c in s.chans && s.chans[c].members != {}) || RemoteMembers(s.net, c) != {}
  }

  function Stamped(e: Event, c: string, ts: nat): nat {
    if e.ChannelJoined? && NormNick(e.chan) == c then Min(ts, e.ts) else ts
  }

  /** The event edits the modes of a channel: here, or on a server whose timestamp does not lose. */
  predicate Edits(s: State, e: Event, c: string)
    requires c in s.chans
  {
    || (e.ChannelEdit? && e.ck == c)
    || (e.RemoteMode? && ValidChannel(e.chan) && NormNick(e.chan) == c && Heeds(s.chans[c].createdAt, e.ts))
  }

  /**
   * Modes are wiped by an older introduction, set by an edit that is heeded, given to a founder who joins, and otherwise
   * only lose the privileges of those who left.
   */
  ghost predicate ModesMove(s: State, s': State, e: Event, c: string)
    requires c in s.chans && c in s'.chans
  {
    if e.ChannelJoined? && NormNick(e.chan) == c && e.ts < s.chans[c].createdAt then s'.chans[c].modes == NoModes
    else if Edits(s, e, c) then s'.chans[c].modes == e.modes
    else if e.JoinCmd? then OpsGrow(s.chans[c], s'.chans[c], e.id, Founds(e.founders, c, Rec(s, e.id).info.account))
    else Thinned(s.chans[c], s'.chans[c], Ids(s'))
  }

  /** The channel as it is first introduced over a link. */
  ghost predicate Introduces(e: Event, c: string, chan: Chn) {
    e.ChannelJoined? && NormNick(e.chan) == c && chan == Chn(e.chan, e.ts, NoModes, {}, {})
  }

  /**
   * A channel with anyone in it stays, its timestamp only ever drops to an introduced one, and its modes move as
   * above. Channels come only by JOIN and by introduction.
   */
  ghost predicate ChansMove(s: State, s': State, e: Event) {
    && (forall c :: c in s'.chans && c !in s.chans ==> e.JoinCmd? || Introduces(e, c, s'.chans[c]))
    && (forall c :: c in s.chans && c in s'.chans ==> s'.chans[c].createdAt == Stamped(e, c, s.chans[c].createdAt))
    && (forall c :: c in s.chans && c in s'.chans ==> ModesMove(s, s', e, c))
    && (forall c :: c in s.chans && HasMember(s', c) ==> c in s'.chans)
  }

  /** Events that do not set channel timestamps or modes. */
  predicate Plain(e: Event) {
    !e.ChannelJoined? && !e.ChannelEdit? && !e.RemoteMode?
  }

  ghost predicate Moves(cfg: Config, s: State, s': State, now: nat, e: Event, order: seq<nat>) {
    && IdsMove(s, s', e, order) && QuitsMove(s, s', order) && MarksMove(cfg, s, s', now, e)
    && StandingMove(s, s', e) && ChansMove(s, s', e)
  }

  // ---- from the relations kept by each handler ----

  lemma GrowsChans(s: State, s': State, e: Event)
    requires e.JoinCmd? && Grows(s, s', e.id, e.founders, Rec(s, e.id).info.account)
    ensures ChansMove(s, s', e)
  {
    hide RemoteMembers, OpsGrow, Founds, Rec;
  }

  lemma ShrinksChans(s: State, s': State, e: Event)
    requires Shrinks(s, s') && Plain(e) && !e.JoinCmd?
    ensures ChansMove(s, s', e)
  {
    hide RemoteMembers, Thinned;
  }

  lemma SteadyMoves(cfg: Config, s: State, s': State, now: nat, e: Event)
    requires Steady(s, s') && ChansMove(s, s', e)
    requires !e.Accepted? && !e.PongCmd?
    ensures Moves(cfg, s, s', now, e, [])
  {
    hide ChansMove, Shares, StandingMove, SameStanding, Contests, Extended, NoNewMarks;
    assert Elements<nat>([]) == {};
    SameGate(s, s', e);
    SteadyMarks(cfg, s, s', now, e);
  }

  lemma SteadyMarks(cfg: Config, s: State, s': State, now: nat, e: Event)
    requires NoNewMarks(s, s') && !e.PongCmd?
    ensures MarksMove(cfg, s, s', now, e)
  {
    hide Contests, Extended;
  }

  lemma LeavesMoves(cfg: Config, s: State, s': State, now: nat, e: Event, order: seq<nat>)
    requires Leaves(s, s', order) && Plain(e) && !e.JoinCmd? && !e.Accepted? && !e.PongCmd?
    ensures Moves(cfg, s, s', now, e, order)
  {
    hide QuitsMove, Shrinks, ChansMove, Shares, StandingMove, SameStanding, MarksMove, NoNewMarks;
    ShrinksChans(s, s', e);
    LeavesIds(s, s', order);
    SameGate(s, s', e);
    SteadyMarks(cfg, s, s', now, e);
  }

  lemma LeavesIds(s: State, s': State, order: seq<nat>)
    requires Leaves(s, s', order)
    ensures Ids(s') <= Ids(s)
  {
    hide QuitsMove, Thinned, RemoteMembers, SameStanding, NoNewMarks, Shares;
  }

  lemma ReclaimsMoves(cfg: Config, s: State, s': State, now: nat, e: Event)
    requires e.NickCmd? && Reclaims(cfg, s, s', now, e.id, e.nick) && Entered(s, now, e) == s
    ensures Moves(cfg, s, s', now, e, [])
  {
    hide ChansMove, MarksGrow, Entered, StandingBut, StandingMove;
    assert Elements<nat>([]) == {};
    NickGate(s, s', e);
    SameChans(s, s', e);
  }

  lemma AnswersMoves(cfg: Config, s: State, s': State, now: nat, id: nat)
    requires Answers(s, s', id) && (id in Ids(s) ==> id !in s'.marks)
    ensures Moves(cfg, s, s', now, PongCmd(id), [])
  {
    hide ChansMove, NoNewMarks;
    assert Elements<nat>([]) == {};
    SameChans(s, s', PongCmd(id));
  }

  lemma CalmThenQuits(s: State, t: State, s': State, order: seq<nat>)
    requires Calm(s, t) && QuitsMove(t, s', order)
    ensures QuitsMove(s, s', order)
  {
    hide SameStanding, NoNewMarks, Outlasts;
    assert forall p, q :: Shares(t, p, q) == Shares(s, p, q);
  }

  lemma CalmThenStanding(s: State, t: State, s': State, e: Event)
    requires Ids(t) == Ids(s) && StandingMove(t, s', e)
    requires forall i :: i in Ids(s) ==> Rec(t, i).gate == Rec(s, i).gate && Rec(t, i).info.pendingNick == Rec(s, i).info.pendingNick
    ensures StandingMove(s, s', e)
  {
    hide Rec;
  }

  lemma CalmThenChans(s: State, t: State, s': State, e: Event)
    requires t.chans == s.chans && ChansMove(t, s', e) && (e.JoinCmd? ==> Rec(t, e.id).info.account == Rec(s, e.id).info.account)
    ensures ChansMove(s, s', e)
  {
    hide HasMember, Stamped, Thinned, OpsGrow, Founds, Rec;
  }

  /** Refreshing the sender's liveness stamp first makes no difference to any of this. */
  lemma CalmThenMoves(cfg: Config, s: State, t: State, s': State, now: nat, e: Event, order: seq<nat>)
    requires Calm(s, t) && t.marks == s.marks && Moves(cfg, t, s', now, e, order)
    requires IsCommand(e) && t == Entered(s, now, e) == Entered(t, now, e) && Rec(t, e.id).info.account == Rec(s, e.id).info.account
    requires forall i :: i in Ids(s) ==> Rec(t, i).gate == Rec(s, i).gate && Rec(t, i).info.pendingNick == Rec(s, i).info.pendingNick
    ensures Moves(cfg, s, s', now, e, order)
  {
    hide QuitsMove, StandingMove, ChansMove, SameStanding, SameQuits, Elements, Contests, Extended, Entered, Rec;
    CalmThenQuits(s, t, s', order);
    CalmThenStanding(s, t, s', e);
    CalmThenChans(s, t, s', e);
  }

  lemma TouchTwice(cfg: Config, s: State, id: nat, now: nat)
    requires Inv(cfg, s)
    ensures Touch(Touch(s, id, now), id, now) == Touch(s, id, now)
    ensures Rec(Touch(s, id, now), id).info.account == Rec(s, id).info.account
  {
    hide Mirrored, MarksOk, WelcomeOk, QuitsOk;
    if id in Ids(s) {
      var u := Rec(s, id).(info := Rec(s, id).info.(lastRx := now));
      PutRec(s, id, u);
      PutSame(Put(s, id, u), id);
    }
  }

  lemma PutSame(s: State, id: nat)
    ensures id in Ids(s) && (id in s.where && id !in s.unreg ==> s.where[id] in s.users) ==> Put(s, id, Rec(s, id)) == s
  {
  }

  lemma TouchKeeps(cfg: Config, s: State, id: nat, now: nat)
    requires Inv(cfg, s)
    ensures var t := Touch(s, id, now);
      && Inv(cfg, t) && Calm(s, t) && t.marks == s.marks && Touch(t, id, now) == t
      && (forall i :: i in Ids(s) ==> Rec(t, i).gate == Rec(s, i).gate && Rec(t, i).info.pendingNick == Rec(s, i).info.pendingNick)
      && Rec(t, id).info.account == Rec(s, id).info.account
  {
    hide Filed, Mirrored, MarksOk, WelcomeOk, QuitsOk, SameQuits, SameStanding, NoNewMarks;
    StaysCalm(s);
    TouchTwice(cfg, s, id, now);
    if id in Ids(s) {
      RecWelcome(cfg, s, id);
      PutKeeps(cfg, s, id, Rec(s, id).(info := Rec(s, id).info.(lastRx := now)));
    }
  }

  // ---- every event ----

  lemma CommandMoves(cfg: Config, t: State, now: nat, e: Event)
    requires Inv(cfg, t) && IsCommand(e) && Entered(t, now, e) == t
    ensures Inv(cfg, Command(t, cfg, now, e)) && Moves(cfg, t, Command(t, cfg, now, e), now, e, Departing(t, now, e))
  {
    hide Filed, Mirrored, MarksOk, WelcomeOk, QuitsOk, Moves, Calm, Steady, Leaves, Reclaims, Answers, Grows, Shrinks,
      ChansMove, Entered, Rec,
      HandleNick, HandleUser, HandleCap, HandlePong, JoinAll, HandlePart, HandleKick, LoseAndEvict, Lookup;
    var s' := Command(t, cfg, now, e);
    QuietMoves(cfg, t, now, e);
    if e.NickCmd? {
      NickKeeps(cfg, t, e.id, e.nick, now);
      ReclaimsMoves(cfg, t, s', now, e);
    } else if e.UserCmd? {
      UserKeeps(cfg, t, e.id, e.user, now);
      CalmMoves(cfg, t, s', now, e);
    } else if e.CapCmd? {
      CapKeeps(cfg, t, e.id, e.sub);
      CalmMoves(cfg, t, s', now, e);
    } else if e.PongCmd? {
      PongKeeps(cfg, t, e.id, now);
      AnswersMoves(cfg, t, s', now, e.id);
    } else if e.ProfileCmd? && e.id in Ids(t) {
      RecWelcome(cfg, t, e.id);
      PutKeeps(cfg, t, e.id, Rec(t, e.id).(info := Rec(t, e.id).info.(account := e.account, host := e.host, oper := e.oper)));
      CalmMoves(cfg, t, s', now, e);
    } else if e.JoinCmd? && Registered(t, e.id) && e.list.Some? {
      RecFacts(t, e.id);
      JoinAllKeeps(cfg, t, e.id, JoinEntries(e.list.value, e.keys), e.founders, e.clock);
      GrowsChans(t, s', e);
      SteadyMoves(cfg, t, s', now, e);
    } else if e.PartCmd? && Registered(t, e.id) && e.list.Some? {
      RecFacts(t, e.id);
      PartKeeps(cfg, t, e.id, ChannelNames(e.list.value));
      ShrinksChans(t, s', e);
      SteadyMoves(cfg, t, s', now, e);
    } else if e.KickCmd? && Registered(t, e.id) {
      KickKeeps(cfg, t, e.id, e.chan, e.target, now);
      ShrinksChans(t, s', e);
      SteadyMoves(cfg, t, s', now, e);
    } else if Departing(t, now, e) != [] {
      LoseLeaves(cfg, t, Departing(t, now, e)[0]);
      LeavesMoves(cfg, t, s', now, e, Departing(t, now, e));
    }
  }

  lemma CalmMoves(cfg: Config, s: State, s': State, now: nat, e: Event)
    requires Calm(s, s') && Plain(e) && !e.Accepted? && !e.PongCmd?
    ensures Moves(cfg, s, s', now, e, [])
  {
    hide Moves, SameQuits, SameStanding, NoNewMarks, ChansMove;
    SameChans(s, s', e);
    SteadyMoves(cfg, s, s', now, e);
  }

  /** A command that changes nothing. */
  lemma QuietMoves(cfg: Config, s: State, now: nat, e: Event)
    ensures Plain(e) && !e.Accepted? && !e.PongCmd? ==> Moves(cfg, s, s, now, e, [])
  {
    hide Moves;
    StaysCalm(s);
    if Plain(e) && !e.Accepted? && !e.PongCmd? {
      CalmMoves(cfg, s, s, now, e);
    }
  }

  lemma ParkedFiled(users: map<string, Cx>, unreg: map<nat, Cx>, where: map<nat, string>, seen: set<nat>, id: nat, u: Cx)
    requires Filed(users, unreg, where, seen) && id > 0 && id !in seen
    requires u.id == id && !u.registered && u.chans == {}
    ensures Filed(users, unreg[id := u], where, seen + {id}) && id !in where && id !in unreg
  {
  }

  lemma ParkedWelcome(cfg: Config, s: State, id: nat, host: string, now: nat)
    requires WelcomeOk(cfg, s) && id !in s.seen
    ensures WelcomeAll(cfg, s.users, s.unreg[id := Fresh(id, host, now)], s.log)
  {
    assert Sent(id, Welcome) !in s.log;
  }

  lemma ParkedMarks(s: State, s': State, id: nat)
    requires MarksOk(s) && QuitsOk(s) && id !in s.seen && Ids(s') == Ids(s) + {id} && s'.seen == s.seen + {id}
    requires s'.marks == s.marks && s'.pings == s.pings && s'.log == s.log
    ensures MarksOk(s') && QuitsOk(s')
  {
  }

  lemma AcceptedKeeps(cfg: Config, s: State, now: nat, id: nat, host: string)
    requires Inv(cfg, s) && id > 0 && id !in s.seen
    ensures var s' := Park(s, id, host, now);
      && Inv(cfg, s') && Ids(s') == Ids(s) + {id} && id !in Ids(s) && s'.seen == s.seen + {id}
      && s' == s.(unreg := s'.unreg, seen := s'.seen) && Rec(s', id) == Fresh(id, host, now)
      && (forall i :: i in Ids(s) ==> Rec(s', i) == Rec(s, i))
  {
    hide Filed, Mirrored, WelcomeAll, MarksOk, QuitsOk;
    ParkedFiled(s.users, s.unreg, s.where, s.seen, id, Fresh(id, host, now));
    ParkedWelcome(cfg, s, id, host, now);
    ParkedMarks(s, Park(s, id, host, now), id);
  }

  lemma StepParks(cfg: Config, s: State, now: nat, e: Event)
    requires e.Accepted?
    ensures Step(s, cfg, now, e) == Park(s, e.id, e.host, now)
  {
    hide Park, Command;
  }

  lemma AcceptedMoves(cfg: Config, s: State, now: nat, id: nat, host: string)
    requires Inv(cfg, s) && id > 0 && id !in s.seen
    ensures Inv(cfg, Park(s, id, host, now)) && Moves(cfg, s, Park(s, id, host, now), now, Accepted(id, host), [])
  {
    hide Filed, Mirrored, MarksOk, WelcomeOk, QuitsOk, ChansMove, Shares, Rec, Park, Ids;
    assert Elements<nat>([]) == {};
    AcceptedKeeps(cfg, s, now, id, host);
    SameChans(s, Park(s, id, host, now), Accepted(id, host));
  }

  lemma SameChans(s: State, s': State, e: Event)
    requires s'.chans == s.chans && Plain(e)
    ensures ChansMove(s, s', e)
  {
    hide RemoteMembers, Rec, Founds;
  }

  /** The channel table moves, but no membership does. */
  ghost predicate OnlyChans(s: State, s': State) {
    && s' == s.(chans := s'.chans, net := s'.net)
    && (forall c :: c in s.chans ==> c in s'.chans && s'.chans[c].members == s.chans[c].members)
    && (forall c :: c in s'.chans && c !in s.chans ==> s'.chans[c].members == {})
  }

  lemma AdoptChans(s: State, chan: string, ts: nat, members: seq<string>)
    ensures var s' := ChannelJoin(s, chan, ts, members);
      OnlyChans(s, s') && ChansMove(s, s', ChannelJoined(chan, ts, members))
  {
    hide EnterRemote, RemoteMembers, Adopt, Thinned, NormNick;
    AdoptIs(s.chans, chan, ts);
    ThinnedSelf(s, Ids(ChannelJoin(s, chan, ts, members)));
  }

  lemma EditChans(cfg: Config, s: State, now: nat, e: Event)
    requires e.ChannelEdit? || e.RemoteMode? || e.NetChanged?
    ensures var s' := Step(s, cfg, now, e); OnlyChans(s, s') && ChansMove(s, s', e)
  {
    hide RemoteMembers, N.NetStep, Thinned, Step;
    StepEdits(cfg, s, now, e);
    var s' := Step(s, cfg, now, e);
    ThinnedSelf(s, Ids(s'));
  }

  lemma StepEdits(cfg: Config, s: State, now: nat, e: Event)
    ensures e.ChannelEdit? ==> Step(s, cfg, now, e) == s.(chans := Edit(s.chans, e.ck, e.modes, e.invites))
    ensures e.RemoteMode? ==> Step(s, cfg, now, e) == s.(chans := RemoteEdit(s.chans, e.chan, e.ts, e.modes))
    ensures e.NetChanged? ==> Step(s, cfg, now, e) == s.(net := N.NetStep(s.net, e.e))
  {
    hide Command, Edit, RemoteEdit, N.NetStep;
  }

  lemma LinkMoves(cfg: Config, s: State, now: nat, e: Event)
    requires Inv(cfg, s) && (e.ChannelEdit? || e.RemoteMode? || e.ChannelJoined? || e.NetChanged?)
    ensures Inv(cfg, Step(s, cfg, now, e)) && Moves(cfg, s, Step(s, cfg, now, e), now, e, [])
  {
    hide Filed, Mirrored, MarksOk, WelcomeOk, QuitsOk, ChansMove, Shares, Step, SameStanding, ChannelJoin;
    assert Elements<nat>([]) == {};
    if e.ChannelJoined? {
      AdoptChans(s, e.chan, e.ts, e.members);
      StepAdopts(cfg, s, now, e);
    } else {
      EditChans(cfg, s, now, e);
    }
    SameMembersKeep(cfg, s, Step(s, cfg, now, e));
    SameGate(s, Step(s, cfg, now, e), e);
  }

  lemma StepAdopts(cfg: Config, s: State, now: nat, e: Event)
    requires e.ChannelJoined?
    ensures Step(s, cfg, now, e) == ChannelJoin(s, e.chan, e.ts, e.members)
  {
  }

  lemma SameGate(s: State, s': State, e: Event)
    requires Ids(s') <= Ids(s) && SameStanding(s, s')
    ensures StandingMove(s, s', e)
  {
    hide Rec;
  }

  lemma NickGate(s: State, s': State, e: Event)
    requires Ids(s') <= Ids(s) && e.NickCmd? && StandingBut(s, s', e.id, e.nick)
    ensures StandingMove(s, s', e)
  {
    hide Rec;
  }

  ghost function Leavers(s: State, now: nat, e: Event): seq<nat> {
    Departing(Entered(s, now, e), now, e)
  }

  /** Every enabled event keeps the invariant and moves the state as `Moves` says. */
  lemma StepMoves(cfg: Config, s: State, now: nat, e: Event)
    requires Inv(cfg, s) && Enabled(s, cfg, now, e)
    ensures Inv(cfg, Step(s, cfg, now, e)) && Moves(cfg, s, Step(s, cfg, now, e), now, e, Leavers(s, now, e))
  {
    hide Filed, Mirrored, MarksOk, WelcomeOk, QuitsOk, Moves, Calm, Leaves, Command, Touch, LoseAll, CleanupOnEof,
      ResolveMarks, Liveness, Departing;
    var s' := Step(s, cfg, now, e);
    if IsCommand(e) {
      var t := Touch(s, e.id, now);
      TouchKeeps(cfg, s, e.id, now);
      CommandMoves(cfg, t, now, e);
      CalmThenMoves(cfg, s, t, s', now, e, Departing(t, now, e));
    } else {
      PlainMoves(cfg, s, now, e);
    }
  }

  lemma SweepMoves(cfg: Config, s: State, now: nat)
    requires Inv(cfg, s)
    ensures Inv(cfg, DropEmpty(s)) && Moves(cfg, s, DropEmpty(s), now, Sweep, [])
  {
    hide Inv, DropEmpty, Shrinks, Steady, Moves, ChansMove;
    DropEmptyKeeps(cfg, s);
    ShrinksChans(s, DropEmpty(s), Sweep);
    SteadyMoves(cfg, s, DropEmpty(s), now, Sweep);
  }

  lemma PlainMoves(cfg: Config, s: State, now: nat, e: Event)
    requires Inv(cfg, s) && Enabled(s, cfg, now, e) && !IsCommand(e)
    ensures Inv(cfg, Step(s, cfg, now, e)) && Moves(cfg, s, Step(s, cfg, now, e), now, e, Departing(s, now, e))
  {
    hide Filed, Mirrored, MarksOk, WelcomeOk, QuitsOk, Moves, Leaves, LoseAll, CleanupOnEof, ResolveMarks, Liveness,
      ChannelJoin, DropEmpty;
    var s' := Step(s, cfg, now, e);
    match e
    case Accepted(id, host) => AcceptedMoves(cfg, s, now, id, host);
    case Purge(order) =>
      LoseAllLeaves(cfg, s, order);
      LeavesMoves(cfg, s, s', now, e, order);
    case Eof(id) =>
      EofLeaves(cfg, s, id);
      LeavesMoves(cfg, s, s', now, e, [id]);
    case ReclaimTick(order) =>
      ResolveMarksLeaves(cfg, s, order, now);
      LeavesMoves(cfg, s, s', now, e, order);
    case LivenessTick(unregs, pings) =>
      LivenessLeaves(cfg, s, unregs, pings, now);
      LeavesMoves(cfg, s, s', now, e, unregs + pings);
    case Sweep => SweepMoves(cfg, s, now);
    case _ => LinkMoves(cfg, s, now, e);
  }
}
