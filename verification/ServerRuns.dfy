/** What holds over every run of the server. */
module ServerRuns {
  import opened Basics
  import opened Names
  import opened ServerModel
  import opened ServerInvariant
  import opened ServerRegistration
  import opened ServerDepartures
  import opened ServerChannels
  import opened ServerSteps

  type Trace = seq<(nat, Event)>

  ghost function At(sid: string, cfg: Config, es: Trace, k: nat): State
    requires k <= |es|
  {
    Run(sid, cfg, es[..k])
  }

  lemma InitOk(sid: string, cfg: Config)
    ensures Inv(cfg, Init(sid))
  {
  }

  /** In every reachable state the tables agree, markers have pings, and welcomes are paid or owed. */
  lemma {:induction false} InvHolds(sid: string, cfg: Config, es: Trace)
    requires Feasible(sid, cfg, es)
    ensures Inv(cfg, Run(sid, cfg, es))
    decreases |es|
  {
    hide Inv, Step, Enabled, Init;
    if es == [] {
      InitOk(sid, cfg);
    } else {
      var k := |es| - 1;
      PrefixFeasible(sid, cfg, es, k);
      InvHolds(sid, cfg, es[..k]);
      StepMoves(cfg, Run(sid, cfg, es[..k]), es[k].0, es[k].1);
    }
  }

  lemma PrefixFeasible(sid: string, cfg: Config, es: Trace, k: nat)
    requires Feasible(sid, cfg, es) && k <= |es|
    ensures Feasible(sid, cfg, es[..k])
  {
    hide Enabled;
    forall i | 0 <= i < k ensures Enabled(Run(sid, cfg, es[..k][..i]), cfg, es[..k][i].0, es[..k][i].1) {
      assert es[..k][..i] == es[..i];
    }
  }

  /** One step of a run. */
  lemma StepAt(sid: string, cfg: Config, es: Trace, k: nat)
    requires Feasible(sid, cfg, es) && k < |es|
    ensures var s := At(sid, cfg, es, k);
      && Inv(cfg, s) && Inv(cfg, At(sid, cfg, es, k + 1)) && Enabled(s, cfg, es[k].0, es[k].1)
      && At(sid, cfg, es, k + 1) == Step(s, cfg, es[k].0, es[k].1)
      && Moves(cfg, s, At(sid, cfg, es, k + 1), es[k].0, es[k].1, Leavers(s, es[k].0, es[k].1))
  {
    hide Inv, Step, Enabled, Moves, Leavers;
    PrefixFeasible(sid, cfg, es, k);
    InvHolds(sid, cfg, es[..k]);
    assert es[..k+1][..k] == es[..k] && es[..k+1][k] == es[k];
    StepMoves(cfg, At(sid, cfg, es, k), es[k].0, es[k].1);
  }

  // ---- tables ----

  /** The two sides of every membership, as one equivalence. */
  lemma MembershipMirrored(sid: string, cfg: Config, es: Trace, id: nat, c: string)
    requires Feasible(sid, cfg, es)
    ensures var s := Run(sid, cfg, es);
      && (id in s.where ==> (c in Rec(s, id).chans <==> c in s.chans && id in s.chans[c].members))
      && (c in s.chans && id in s.chans[c].members ==> Registered(s, id))
      && (id in Ids(s) ==> |Rec(s, id).chans| <= MaxChannels)
  {
    InvHolds(sid, cfg, es);
    var s := Run(sid, cfg, es);
    if id in Ids(s) {
      RecFacts(s, id);
    }
  }

  /** A nickname names one connection, and a connection has one nickname and one table. */
  lemma OneHolder(sid: string, cfg: Config, es: Trace, a: string, b: string)
    requires Feasible(sid, cfg, es)
    ensures var s := Run(sid, cfg, es);
      && (a in s.users && b in s.users && s.users[a].id == s.users[b].id ==> a == b)
      && (a in s.users ==> s.users[a].nickKey == a && s.users[a].id !in s.unreg)
  {
    InvHolds(sid, cfg, es);
  }

  // ---- departures ----

  lemma {:induction false} SurvivorOutlasts(order: seq<nat>, p: nat, d: nat)
    requires d in order && p !in order
    ensures Outlasts(order, p, d)
    decreases |order|
  {
    if order[0] != d {
      SurvivorOutlasts(order[1..], p, d);
    }
  }

  /** How often `p` has been told that `d` quit, when `d` left in step `j`. */
  ghost function Told(sid: string, cfg: Config, es: Trace, j: nat, p: nat, d: nat): nat
    requires j < |es|
  {
    var s := At(sid, cfg, es, j);
    if p != d && Shares(s, p, d) && Outlasts(Leavers(s, es[j].0, es[j].1), p, d) then 1 else 0
  }

  ghost predicate LeftAt(sid: string, cfg: Config, es: Trace, j: nat, d: nat) {
    j < |es| && d in Ids(At(sid, cfg, es, j)) && d !in Ids(At(sid, cfg, es, j + 1))
  }

  /**
   * A connection that is gone left in one step, and over the whole run every connection that
   * shared a channel with it then and was still there to hear it has been told exactly once,
   * everybody else never, whatever QUIT, kill, eviction or end of stream came afterwards.
   */
  lemma {:induction false} DepartureToldOnce(sid: string, cfg: Config, es: Trace, d: nat) returns (j: nat)
    requires Feasible(sid, cfg, es) && d in Run(sid, cfg, es).seen && d !in Ids(Run(sid, cfg, es))
    ensures j < |es| && LeftAt(sid, cfg, es, j, d)
    ensures forall p :: Run(sid, cfg, es).log[Sent(p, Quit(d))] == Told(sid, cfg, es, j, p, d)
    ensures forall p :: p in Ids(At(sid, cfg, es, j + 1)) ==>
      Run(sid, cfg, es).log[Sent(p, Quit(d))] == if Shares(At(sid, cfg, es, j), p, d) then 1 else 0
    decreases |es|
  {
    hide Feasible, Told, LeftAt, Shares, Run, Ids;
    if es == [] {
      NobodySeen(sid, cfg);
      assert false;
    } else {
      var k := |es| - 1;
      assert es[..|es|] == es;
      if d in Ids(At(sid, cfg, es, k)) {
        j := k;
        LeavesNow(sid, cfg, es, d);
      } else {
        StaysGone(sid, cfg, es, d);
        PrefixFeasible(sid, cfg, es, k);
        j := DepartureToldOnce(sid, cfg, es[..k], d);
        SamePrefix(sid, cfg, es, k, j, d);
      }
      SurvivorsTold(sid, cfg, es, j, d);
    }
  }

  lemma NobodySeen(sid: string, cfg: Config)
    ensures Run(sid, cfg, []).seen == {}
  {
  }

  lemma LeavesNow(sid: string, cfg: Config, es: Trace, d: nat)
    requires Feasible(sid, cfg, es) && es != [] && d in Ids(At(sid, cfg, es, |es| - 1)) && d !in Ids(At(sid, cfg, es, |es|))
    ensures LeftAt(sid, cfg, es, |es| - 1, d)
    ensures forall p :: At(sid, cfg, es, |es|).log[Sent(p, Quit(d))] == Told(sid, cfg, es, |es| - 1, p, d)
  {
    hide Step, Enabled, Leavers, MarksMove, StandingMove, ChansMove, TablesOk, WelcomeOk, MarksOk, Shares, IdsMove;
    StepAt(sid, cfg, es, |es| - 1);
    assert forall p :: Sent(p, Quit(d)) !in At(sid, cfg, es, |es| - 1).log;
  }

  /** Once gone, a connection stays gone and no more is said about it. */
  lemma StaysGone(sid: string, cfg: Config, es: Trace, d: nat)
    requires Feasible(sid, cfg, es) && es != []
    requires d !in Ids(At(sid, cfg, es, |es| - 1)) && d !in Ids(At(sid, cfg, es, |es|)) && d in At(sid, cfg, es, |es|).seen
    ensures d in At(sid, cfg, es, |es| - 1).seen
    ensures forall p :: At(sid, cfg, es, |es|).log[Sent(p, Quit(d))] == At(sid, cfg, es, |es| - 1).log[Sent(p, Quit(d))]
  {
    hide Step, Enabled, Leavers, MarksMove, StandingMove, ChansMove, Filed, Mirrored, WelcomeOk, MarksOk, QuitsOk, Shares;
    var k := |es| - 1;
    StepAt(sid, cfg, es, k);
    ArrivalsStay(At(sid, cfg, es, k), es[k].0, es[k].1);
    forall p { GoneShareNothing(At(sid, cfg, es, k), p, d); }
  }

  lemma SamePrefix(sid: string, cfg: Config, es: Trace, k: nat, j: nat, d: nat)
    requires j < k <= |es|
    ensures LeftAt(sid, cfg, es[..k], j, d) == LeftAt(sid, cfg, es, j, d)
    ensures forall p :: Told(sid, cfg, es[..k], j, p, d) == Told(sid, cfg, es, j, p, d)
  {
    hide Shares, Outlasts, Leavers, Run;
    assert es[..k][..j] == es[..j] && es[..k][..j+1] == es[..j+1];
  }

  lemma ArrivalsStay(s: State, now: nat, e: Event)
    ensures e.Accepted? ==> Leavers(s, now, e) == []
  {
  }

  lemma SurvivorsTold(sid: string, cfg: Config, es: Trace, j: nat, d: nat)
    requires Feasible(sid, cfg, es) && LeftAt(sid, cfg, es, j, d)
    ensures forall p :: p in Ids(At(sid, cfg, es, j + 1)) ==>
      Told(sid, cfg, es, j, p, d) == if Shares(At(sid, cfg, es, j), p, d) then 1 else 0
  {
    hide Step, Enabled, Leavers, MarksMove, StandingMove, ChansMove, Filed, Mirrored, WelcomeOk, MarksOk, Shares,
      QuitsOk, QuitsMove;
    StepAt(sid, cfg, es, j);
    var order := Leavers(At(sid, cfg, es, j), es[j].0, es[j].1);
    assert d in Elements(order);
    forall p | p in Ids(At(sid, cfg, es, j + 1))
      ensures Told(sid, cfg, es, j, p, d) == if Shares(At(sid, cfg, es, j), p, d) then 1 else 0
    {
      assert p in order ==> p in Elements(order);
      SurvivorOutlasts(order, p, d);
    }
  }

  // ---- reclaim ----

  ghost predicate MarkedSince(sid: string, cfg: Config, es: Trace, j: nat, i: nat, h: nat, expiry: nat)
    requires j <= i <= |es|
  {
    forall k :: j < k <= i ==> h in At(sid, cfg, es, k).marks && At(sid, cfg, es, k).marks[h].expiry == expiry
  }

  /** The NICK in step `j` contested the nick of `h`, in the state it ran in. */
  ghost predicate ContestedAt(sid: string, cfg: Config, es: Trace, j: nat, h: nat) {
    && j < |es| && es[j].1.NickCmd? && es[j].1.nick.Some?
    && Contests(cfg, Entered(At(sid, cfg, es, j), es[j].0, es[j].1), es[j].0, es[j].1.id, es[j].1.nick.value, h)
  }

  lemma NickMarks(sid: string, cfg: Config, es: Trace, k: nat, h: nat)
    requires Feasible(sid, cfg, es) && k < |es| && h in At(sid, cfg, es, k + 1).marks
    ensures var s, s' := At(sid, cfg, es, k), At(sid, cfg, es, k + 1);
      || (h in s.marks && s'.marks[h] == s.marks[h])
      || (ContestedAt(sid, cfg, es, k, h)
          && Extended(cfg, s.marks, h, s'.marks[h], es[k].0, (es[k].1.id, es[k].1.nick.value)))
  {
    hide Step, Enabled, Leavers, IdsMove, QuitsMove, StandingMove, ChansMove, Inv, Contests, Extended;
    StepAt(sid, cfg, es, k);
    EnteredMarks(At(sid, cfg, es, k), es[k].0, es[k].1);
  }

  lemma EnteredMarks(s: State, now: nat, e: Event)
    ensures Entered(s, now, e).marks == s.marks
  {
  }

  /** Every marker was installed by an earlier NICK contesting its holder, with its deadline, and has stood ever since. */
  lemma {:induction false} MarkerOrigin(sid: string, cfg: Config, es: Trace, i: nat, h: nat) returns (j: nat)
    requires Feasible(sid, cfg, es) && i <= |es| && h in At(sid, cfg, es, i).marks
    ensures j < i && h !in At(sid, cfg, es, j).marks && ContestedAt(sid, cfg, es, j, h)
    ensures At(sid, cfg, es, i).marks[h].expiry == es[j].0 + Grace(cfg)
    ensures MarkedSince(sid, cfg, es, j, i, h, es[j].0 + Grace(cfg))
    decreases i
  {
    hide Feasible, Init, Contests, Run;
    if i == 0 {
      j := 0;
      NoInitialMarks(sid, cfg, es);
      assert false;
    } else {
      NickMarks(sid, cfg, es, i - 1, h);
      if h in At(sid, cfg, es, i - 1).marks {
        j := MarkerOrigin(sid, cfg, es, i - 1, h);
      } else {
        j := i - 1;
      }
    }
  }

  /** Whatever a marker holds back was asked for by its own earlier NICK. */
  lemma {:induction false} HeldBackAsked(sid: string, cfg: Config, es: Trace, i: nat, h: nat, p: (nat,
          string)) returns (j: nat)
    requires Feasible(sid, cfg, es) && i <= |es| && h in At(sid, cfg, es, i).marks
    requires p in At(sid, cfg, es, i).marks[h].pairings || p in At(sid, cfg, es, i).marks[h].renames
    ensures j < i && es[j].1 == NickCmd(p.0, Some(p.1)) && ContestedAt(sid, cfg, es, j, h)
    decreases i
  {
    hide Feasible, Init, Contests, Run;
    if i == 0 {
      j := 0;
      NoInitialMarks(sid, cfg, es);
      assert false;
    } else {
      NickMarks(sid, cfg, es, i - 1, h);
      var s := At(sid, cfg, es, i - 1);
      if h in s.marks && (p in s.marks[h].pairings || p in s.marks[h].renames) {
        j := HeldBackAsked(sid, cfg, es, i - 1, h, p);
      } else {
        j := i - 1;
      }
    }
  }

  lemma NoInitialMarks(sid: string, cfg: Config, es: Trace)
    ensures At(sid, cfg, es, 0).marks == map[]
  {
  }

  /** Ids are never reused: a connection that is there now was there at every step since it was first seen. */
  lemma {:induction false} LiveSince(sid: string, cfg: Config, es: Trace, j: nat, i: nat, h: nat)
    requires Feasible(sid, cfg, es) && j <= i <= |es|
    requires h in At(sid, cfg, es, j).seen && h in Ids(At(sid, cfg, es, i))
    ensures forall k :: j <= k <= i ==> h in Ids(At(sid, cfg, es, k))
    decreases i - j
  {
    hide Feasible, Run, Ids;
    if j < i {
      SeenBefore(sid, cfg, es, j, h);
      LiveSince(sid, cfg, es, j + 1, i, h);
    }
  }

  lemma SeenBefore(sid: string, cfg: Config, es: Trace, k: nat, h: nat)
    requires Feasible(sid, cfg, es) && k < |es| && h in At(sid, cfg, es, k).seen
    ensures h in At(sid, cfg, es, k + 1).seen
    ensures h in Ids(At(sid, cfg, es, k + 1)) ==> h in Ids(At(sid, cfg, es, k))
  {
    hide Step, Leavers, MarksMove, QuitsMove, StandingMove, ChansMove, Inv;
    StepAt(sid, cfg, es, k);
  }

  /**
   * A live holder whose marker runs out had its nick contested by a NICK at least a full grace period
   * earlier, when it looked gone; the marker that NICK set has stood since, and no PONG of its holder
   * has been processed since.
   */
  lemma ReclaimJustified(sid: string, cfg: Config, es: Trace, i: nat, h: nat) returns (j: nat)
    requires Feasible(sid, cfg, es) && i < |es| && es[i].1.ReclaimTick? && h in es[i].1.order
    requires h in Ids(At(sid, cfg, es, i))
    ensures j < i && ContestedAt(sid, cfg, es, j, h) && es[j].0 + Grace(cfg) <= es[i].0
    ensures h !in At(sid, cfg, es, j).marks && MarkedSince(sid, cfg, es, j, i, h, es[j].0 + Grace(cfg))
    ensures forall k :: j <= k < i ==> es[k].1 != PongCmd(h)
    ensures h !in Ids(At(sid, cfg, es, i + 1))
  {
    hide Feasible, Contests, Run, Ids;
    TickEvictsExpired(sid, cfg, es, i, h);
    j := MarkerOrigin(sid, cfg, es, i, h);
    SeenAfter(sid, cfg, es, j, i, h);
    forall k | j <= k < i ensures es[k].1 != PongCmd(h) {
      PongUnmarks(sid, cfg, es, k, h);
    }
  }

  lemma PongUnmarks(sid: string, cfg: Config, es: Trace, k: nat, h: nat)
    requires Feasible(sid, cfg, es) && k < |es| && h in Ids(At(sid, cfg, es, k)) && h in At(sid, cfg, es, k + 1).marks
    ensures es[k].1 != PongCmd(h)
  {
    hide Step, QuitsMove, StandingMove, ChansMove, Inv, IdsMove, Leavers, NoNewMarks, Contests, Extended;
    StepAt(sid, cfg, es, k);
  }

  lemma TickEvictsExpired(sid: string, cfg: Config, es: Trace, i: nat, h: nat)
    requires Feasible(sid, cfg, es) && i < |es| && es[i].1.ReclaimTick? && h in es[i].1.order
    ensures h in At(sid, cfg, es, i).marks && At(sid, cfg, es, i).marks[h].expiry <= es[i].0
    ensures h !in Ids(At(sid, cfg, es, i + 1))
  {
    hide Step, QuitsMove, StandingMove, ChansMove, Inv, MarksMove;
    StepAt(sid, cfg, es, i);
    assert h in Elements(es[i].1.order);
  }

  lemma SeenAfter(sid: string, cfg: Config, es: Trace, j: nat, i: nat, h: nat)
    requires Feasible(sid, cfg, es) && j < i <= |es| && h in At(sid, cfg, es, j + 1).marks
    requires h in Ids(At(sid, cfg, es, i))
    ensures forall k :: j + 1 <= k <= i ==> h in Ids(At(sid, cfg, es, k))
    ensures es[j].1.NickCmd? ==> h in Ids(At(sid, cfg, es, j))
  {
    hide Step, Leavers, MarksMove, QuitsMove, StandingMove, ChansMove, Filed, Mirrored, WelcomeOk, QuitsOk;
    StepAt(sid, cfg, es, j);
    LiveSince(sid, cfg, es, j + 1, i, h);
  }

  // ---- welcome and challenge ----

  /** A registered connection has had the welcome once or is owed it while negotiating; others neither. */
  lemma WelcomeOnce(sid: string, cfg: Config, es: Trace, id: nat)
    requires Feasible(sid, cfg, es) && id in Ids(Run(sid, cfg, es))
    ensures var s := Run(sid, cfg, es);
      var had, owed := s.log[Sent(id, Welcome)], Rec(s, id).gate.gated;
      && (Registered(s, id) ==> (had == 1 && !owed) || (had == 0 && owed))
      && (!Registered(s, id) ==> had == 0 && !owed)
      && (owed ==> Rec(s, id).gate.negotiating)
  {
    hide Filed, Mirrored, QuitsOk, MarksOk;
    InvHolds(sid, cfg, es);
    RecFacts(Run(sid, cfg, es), id);
    RecWelcome(cfg, Run(sid, cfg, es), id);
  }

  lemma StepCap(s: State, cfg: Config, now: nat, id: nat, sub: CapSub)
    ensures Step(s, cfg, now, CapCmd(id, sub)) == HandleCap(Touch(s, id, now), id, sub)
  {
    hide HandleCap, Touch;
  }

  /** `CAP END` from a registered connection leaves it welcomed exactly once. */
  lemma CapEndPays(sid: string, cfg: Config, es: Trace, id: nat, now: nat)
    requires Feasible(sid, cfg, es) && Registered(Run(sid, cfg, es), id)
    ensures var s' := Step(Run(sid, cfg, es), cfg, now, CapCmd(id, End));
      s'.log[Sent(id, Welcome)] == 1 && id in Ids(s') && !Rec(s', id).gate.gated && !Rec(s', id).gate.negotiating
  {
    hide Step, HandleCap, Touch, Inv, Registered, Calm;
    InvHolds(sid, cfg, es);
    var s := Run(sid, cfg, es);
    TouchKeeps(cfg, s, id, now);
    TouchRegistered(cfg, s, id, now);
    CapEndSettles(cfg, Touch(s, id, now), id);
    StepCap(s, cfg, now, id, End);
  }

  lemma TouchRegistered(cfg: Config, s: State, id: nat, now: nat)
    requires Inv(cfg, s) && Registered(s, id)
    ensures Registered(Touch(s, id, now), id)
  {
    hide Filed, Mirrored, QuitsOk, MarksOk, WelcomeOk;
    RecWelcome(cfg, s, id);
    PutKeeps(cfg, s, id, Rec(s, id).(info := Rec(s, id).info.(lastRx := now)));
  }

  lemma CapEndSettles(cfg: Config, t: State, id: nat)
    requires Inv(cfg, t) && Registered(t, id)
    ensures var s' := HandleCap(t, id, End);
      s'.log[Sent(id, Welcome)] == 1 && id in Ids(s') && !Rec(s', id).gate.gated && !Rec(s', id).gate.negotiating
  {
    hide Filed, Mirrored, QuitsOk, MarksOk, WelcomeOk;
    var u := Rec(t, id).(gate := Rec(t, id).gate.(negotiating := false));
    var v := u.(gate := u.gate.(gated := false));
    RecWelcome(cfg, t, id);
    RecFacts(t, id);
    PutRec(t, id, u);
    PutRec(t, id, v);
  }

  /** With the challenge on nobody registers before a PONG that follows the challenge. */
  lemma {:induction false} VerifiedByPong(sid: string, cfg: Config, es: Trace, i: nat, id: nat) returns (j: nat)
    requires Feasible(sid, cfg, es) && i <= |es|
    requires id in Ids(At(sid, cfg, es, i)) && Rec(At(sid, cfg, es, i), id).gate.verified
    ensures j < i && es[j].1 == PongCmd(id) && id in Ids(At(sid, cfg, es, j))
    ensures Rec(At(sid, cfg, es, j), id).gate.challenged && Sent(id, Challenge) in At(sid, cfg, es, j).log
    decreases i
  {
    hide Step, Enabled, Leavers, IdsMove, QuitsMove, MarksMove, ChansMove, Filed, Mirrored, QuitsOk, MarksOk, WelcomeOk;
    if i == 0 {
      assert false;
    } else {
      StepAt(sid, cfg, es, i - 1);
      var s := At(sid, cfg, es, i - 1);
      if Rec(s, id).gate.verified {
        j := VerifiedByPong(sid, cfg, es, i - 1, id);
      } else {
        j := i - 1;
        RecFacts(s, id);
        RecWelcome(cfg, s, id);
      }
    }
  }

  lemma RegisteredAfterPong(sid: string, cfg: Config, es: Trace, id: nat) returns (j: nat)
    requires Feasible(sid, cfg, es) && cfg.challenge && Registered(Run(sid, cfg, es), id)
    ensures j < |es| && es[j].1 == PongCmd(id) && Sent(id, Challenge) in At(sid, cfg, es, j).log
  {
    hide Filed, Mirrored, QuitsOk, MarksOk, WelcomeOk;
    InvHolds(sid, cfg, es);
    RecWelcome(cfg, Run(sid, cfg, es), id);
    assert es[..|es|] == es;
    j := VerifiedByPong(sid, cfg, es, |es|, id);
  }

  // ---- channel timestamps ----

  /** The channel is introduced over a link in step `k` with timestamp `ts`. */
  ghost predicate Introduced(es: Trace, k: nat, c: string, ts: nat) {
    k < |es| && es[k].1.ChannelJoined? && NormNick(es[k].1.chan) == c && es[k].1.ts == ts
  }

  /**
   * While somebody, here or elsewhere, is in a channel it exists, and its timestamp is the
   * least of where it started and everything introduced since, in whatever order it came.
   */
  lemma {:induction false} TimestampIsMinimum(sid: string, cfg: Config, es: Trace, a: nat, b: nat, c: string)
    requires Feasible(sid, cfg, es) && a <= b <= |es| && c in At(sid, cfg, es, a).chans
    requires forall k :: a < k <= b ==> HasMember(At(sid, cfg, es, k), c)
    ensures c in At(sid, cfg, es, b).chans
    ensures At(sid, cfg, es, b).chans[c].createdAt <= At(sid, cfg, es, a).chans[c].createdAt
    ensures forall k, ts :: a <= k < b && Introduced(es, k, c, ts) ==> At(sid, cfg, es, b).chans[c].createdAt <= ts
    ensures At(sid, cfg, es, b).chans[c].createdAt == At(sid, cfg, es, a).chans[c].createdAt
      || exists k :: a <= k < b && Introduced(es, k, c, At(sid, cfg, es, b).chans[c].createdAt)
    decreases b - a
  {
    hide Step, Enabled, Leavers, IdsMove, QuitsMove, MarksMove, StandingMove, HasMember, Inv;
    if a < b {
      TimestampIsMinimum(sid, cfg, es, a, b - 1, c);
      StepAt(sid, cfg, es, b - 1);
      var prior, latest := At(sid, cfg, es, b - 1).chans[c].createdAt, At(sid, cfg, es, b).chans[c].createdAt;
      if latest != prior {
        assert Introduced(es, b - 1, c, latest);
      } else if latest != At(sid, cfg, es, a).chans[c].createdAt {
        var k :| a <= k < b - 1 && Introduced(es, k, c, latest);
        assert a <= k < b;
      }
    }
  }

  /**
   * In every step a channel that stays has its modes wiped when it is introduced with a strictly older
   * timestamp, set when they are edited by someone it heeds, and otherwise unchanged, but that a founder who joins becomes
   * operator and those who leave lose their privileges.
   */
  lemma ModesWipedIffOlder(sid: string, cfg: Config, es: Trace, k: nat, c: string)
    requires Feasible(sid, cfg, es) && k < |es| && c in At(sid, cfg, es, k).chans && c in At(sid, cfg, es, k + 1).chans
    ensures var s, s', e := At(sid, cfg, es, k), At(sid, cfg, es, k + 1), es[k].1;
      var was, now := s.chans[c], s'.chans[c];
      if now.createdAt < was.createdAt then
        now.modes == NoModes && Introduced(es, k, c, now.createdAt)
      else if Edits(s, e, c) then now.modes == e.modes
      else if e.JoinCmd? then OpsGrow(was, now, e.id, Founds(e.founders, c, Rec(s, e.id).info.account))
      else Thinned(was, now, Ids(s'))
  {
    hide Step, Enabled, Leavers, IdsMove, QuitsMove, MarksMove, StandingMove, Inv, Thinned, OpsGrow, Founds, Rec, HasMember;
    StepAt(sid, cfg, es, k);
  }

  /** Everything a channel's modes say but who is operator and who has voice. */
  function Settings(m: Modes): Modes {
    m.(ops := {}, voices := {})
  }

  /**
   * Over any stretch in which a channel has members and no edit of its modes is heeded, its settings are wiped
   * exactly when its timestamp has dropped, and are otherwise what they were.
   */
  lemma {:induction false} SettingsFollowTimestamp(sid: string, cfg: Config, es: Trace, a: nat, b: nat, c: string)
    requires Feasible(sid, cfg, es) && a <= b <= |es| && c in At(sid, cfg, es, a).chans
    requires forall k :: a < k <= b ==> HasMember(At(sid, cfg, es, k), c)
    requires forall k :: a <= k < b && c in At(sid, cfg, es, k).chans ==> !Edits(At(sid, cfg, es, k), es[k].1, c)
    ensures c in At(sid, cfg, es, b).chans
    ensures var was, later := At(sid, cfg, es, a).chans[c], At(sid, cfg, es, b).chans[c];
      Settings(later.modes) == Settings(if later.createdAt < was.createdAt then NoModes else was.modes)
    decreases b - a
  {
    hide Feasible, HasMember, Run;
    if a < b {
      SettingsFollowTimestamp(sid, cfg, es, a, b - 1, c);
      TimestampIsMinimum(sid, cfg, es, a, b - 1, c);
      TimestampIsMinimum(sid, cfg, es, b - 1, b, c);
      ModesWipedIffOlder(sid, cfg, es, b - 1, c);
    }
  }

  /** A mode change from a younger channel is ignored, whatever it says, if and only if ours has a timestamp other than zero. */
  lemma YoungerModeIgnoredIff(cfg: Config, s: State, now: nat, chan: string, ts: nat)
    requires ValidChannel(chan) && NormNick(chan) in s.chans && s.chans[NormNick(chan)].createdAt < ts
    ensures (forall modes :: Step(s, cfg, now, RemoteMode(chan, ts, modes)) == s) <==> s.chans[NormNick(chan)].createdAt != 0
  {
    hide Step, NormNick, ValidChannel;
    var ck := NormNick(chan);
    forall modes {
      StepEdits(cfg, s, now, RemoteMode(chan, ts, modes));
    }
    if s.chans[ck].createdAt == 0 {
      var other := s.chans[ck].modes.(limit := s.chans[ck].modes.limit + 1);
      assert Step(s, cfg, now, RemoteMode(chan, ts, other)).chans[ck].modes == other;
    }
  }

  /** Such a channel comes of an introduction without a readable timestamp, and then takes anybody's modes. */
  lemma ZeroStampHeedsAll(sid: string, cfg: Config, chan: string, ts: nat, modes: Modes)
    requires ValidChannel(chan)
    ensures var es: Trace := [(0, ChannelJoined(chan, 0, [])), (0, RemoteMode(chan, ts, modes))];
      Feasible(sid, cfg, es) && NormNick(chan) in Run(sid, cfg, es).chans && Run(sid, cfg, es).chans[NormNick(chan)].modes == modes
  {
    hide NormNick, ValidChannel, Step;
    var e1, e2 := ChannelJoined(chan, 0, []), RemoteMode(chan, ts, modes);
    var es: Trace := [(0, e1), (0, e2)];
    assert es[..1] == [(0, e1)] && es[..1][..0] == [] && es[..0] == [];
    var s0 := Init(sid);
    var s1 := Step(s0, cfg, 0, e1);
    assert Run(sid, cfg, es[..1]) == s1 && Run(sid, cfg, es) == Step(s1, cfg, 0, e2);
    StepAdopts(cfg, s0, 0, e1);
    StepEdits(cfg, s1, 0, e2);
  }
}
