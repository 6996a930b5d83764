/** Departures: who leaves, who is told, and what is left behind. */
module ServerDepartures {
  import opened Basics
  import opened ServerModel
  import opened ServerInvariant

  // ---- relations ----

  /** Members may go, and with them their privileges; every other mode stays. `here` is who is still connected. */
  ghost predicate Thinned(c: Chn, c': Chn, here: set<nat>) {
    && c'.members <= c.members && c'.modes == c.modes.(ops := c'.modes.ops, voices := c'.modes.voices)
    && c'.modes.ops <= c.modes.ops && c'.modes.voices <= c.modes.voices
    && (forall x :: x in (c.modes.ops - c'.modes.ops) + (c.modes.voices - c'.modes.voices) ==>
         x !in c'.members && (x in c.members || x !in here))
    && (forall x :: x in c.members && x !in c'.members ==> x !in c'.modes.ops && x !in c'.modes.voices)
  }

  lemma ThinnedTrans(a: Chn, b: Chn, c: Chn, before: set<nat>, here: set<nat>)
    requires Thinned(a, b, before) && Thinned(b, c, here) && here <= before
    ensures Thinned(a, c, here)
  {
  }

  /** Channels may go, never come, keep their timestamps, are only thinned, and stay while a remote user is in them. */
  ghost predicate Shrinks(s: State, s': State) {
    && s'.net == s.net && Ids(s') <= Ids(s)
    && (forall c :: c in s'.chans ==> c in s.chans && s'.chans[c].createdAt == s.chans[c].createdAt)
    && (forall c :: c in s'.chans && c in s.chans ==> Thinned(s.chans[c], s'.chans[c], Ids(s')))
    && (forall c :: c in s.chans && RemoteMembers(s.net, c) != {} ==> c in s'.chans)
  }

  /** `p` is still there when `d` goes, if connections go in this order. */
  ghost predicate Outlasts(order: seq<nat>, p: nat, d: nat) {
    order != [] && (order[0] == d || (order[0] != p && Outlasts(order[1..], p, d)))
  }

  /** Exactly the peers who outlast a departing connection are told, once each. */
  ghost predicate QuitsMove(s: State, s': State, order: seq<nat>) {
    forall p, d :: s'.log[Sent(p, Quit(d))]
      == s.log[Sent(p, Quit(d))] + if p != d && Shares(s, p, d) && Outlasts(order, p, d) then 1 else 0
  }

  /** Exactly the listed connections leave. */
  ghost predicate Departs(s: State, s': State, order: seq<nat>) {
    && s'.seen == s.seen && Ids(s') == Ids(s) - Elements(order)
    && SameStanding(s, s') && NoNewMarks(s, s')
    && (forall p, q :: p !in order && q !in order ==> Shares(s', p, q) == Shares(s, p, q))
  }

  // ---- one departure ----

  /** `MarksOk`, but for one connection that is about to go. */
  ghost predicate MarksBut(s: State, id: nat) {
    && s.marks.Keys <= s.seen && s.pings.Keys <= s.seen
    && (forall h :: h in s.marks && h in Ids(s) && h != id ==> h in s.pings)
  }

  function WithoutEverywhere(s: State, id: nat): map<string, Chn> {
    map c | c in s.chans && !(s.chans[c].members - {id} == {} && RemoteMembers(s.net, c) == {})
      :: WithoutMember(s.chans[c], id)
  }

  function Removed(s: State, id: nat, lines: multiset<Sent>): State {
    var gone := id !in s.unreg && id in s.where;
    s.(log := s.log + lines, chans := WithoutEverywhere(s, id),
       unreg := if id in s.unreg then s.unreg - {id} else s.unreg,
       users := if gone then s.users - {s.where[id]} else s.users,
       where := if gone then s.where - {id} else s.where)
  }

  lemma LoseIsRemoved(s: State, id: nat)
    ensures LoseAndEvict(s, id) == Removed(s, id, QuitLines(s, id))
    ensures Evict(DropEmpty(Eject(s, id)), id) == Removed(s, id, multiset{})
  {
    hide RemoteMembers, QuitLines;
    EjectDrop(s, id);
    EjectDrop(s.(log := s.log + QuitLines(s, id)), id);
    assert s.log + multiset{} == s.log;
    assert WithoutEverywhere(s.(log := s.log + QuitLines(s, id)), id) == WithoutEverywhere(s, id);
  }

  lemma EjectDrop(s: State, id: nat)
    ensures DropEmpty(Eject(s, id)) == s.(chans := WithoutEverywhere(s, id))
  {
    assert DropEmpty(Eject(s, id)).chans == WithoutEverywhere(s, id);
  }

  lemma PeersShare(s: State, id: nat)
    requires TablesOk(s)
    ensures forall p :: p in Peers(s, id) <==> p != id && Shares(s, p, id)
    ensures Peers(s, id) <= Ids(s)
    ensures id !in s.where ==> Peers(s, id) == {}
  {
    if id in Ids(s) {
      RecFacts(s, id);
    }
    forall p | p in Peers(s, id) ensures p != id && Shares(s, p, id) && p in Ids(s) {
      var c :| c in Rec(s, id).chans && c in s.chans && p in s.chans[c].members;
      assert id in s.chans[c].members;
    }
    forall p | p != id && Shares(s, p, id) ensures p in Peers(s, id) {
      var c :| c in s.chans && p in s.chans[c].members && id in s.chans[c].members;
      assert c in Rec(s, id).chans;
    }
  }

  lemma QuitLinesCount(s: State, id: nat)
    requires TablesOk(s)
    ensures forall p, d :: QuitLines(s, id)[Sent(p, Quit(d))] == if d == id && p != d && Shares(s, p, d) then 1 else 0
    ensures forall l :: l in QuitLines(s, id) ==> l.line == Quit(id) && id in s.where
  {
    hide Filed, Mirrored, Shares;
    PeersShare(s, id);
    var lines := set p | p in Peers(s, id) && p in Ids(s) :: Sent(p, Quit(id));
    assert QuitLines(s, id) == multiset(lines);
    assert forall p, d :: Sent(p, Quit(d)) in lines <==> d == id && p in Peers(s, id) && p in Ids(s);
  }

  lemma RemovedFiled(s: State, id: nat, lines: multiset<Sent>)
    requires TablesOk(s)
    ensures var s' := Removed(s, id, lines);
      Filed(s'.users, s'.unreg, s'.where, s'.seen) && Ids(s') == Ids(s) - {id}
  {
    hide Mirrored, WithoutEverywhere;
    if id in s.unreg {
    } else if id in s.where {
      FiledWithout(s.users, s.unreg, s.where, s.seen, id);
    }
  }

  lemma FiledWithout(users: map<string, Cx>, unreg: map<nat, Cx>, where: map<nat, string>, seen: set<nat>, id: nat)
    requires Filed(users, unreg, where, seen) && id in where
    ensures Filed(users - {where[id]}, unreg, where - {id}, seen)
  {
  }

  lemma MembersLeft(s: State, id: nat)
    ensures forall c, m {:trigger m in s.chans[c].members} :: c in s.chans && m in s.chans[c].members && m != id ==>
      c in WithoutEverywhere(s, id) && m in WithoutEverywhere(s, id)[c].members
    ensures forall c :: c in WithoutEverywhere(s, id) ==>
      c in s.chans && WithoutEverywhere(s, id)[c].members == s.chans[c].members - {id}
  {
    forall c, m | c in s.chans && m in s.chans[c].members && m != id
      ensures c in WithoutEverywhere(s, id) && m in WithoutEverywhere(s, id)[c].members
    {
      assert m in s.chans[c].members - {id};
    }
  }

  lemma MirroredWithout(s: State, id: nat)
    requires TablesOk(s) && id in s.where
    ensures Mirrored(s.users - {s.where[id]}, s.where - {id}, WithoutEverywhere(s, id))
  {
    hide WithoutEverywhere;
    MembersLeft(s, id);
  }

  lemma MirroredUntouched(s: State, id: nat)
    requires TablesOk(s) && id !in s.where
    ensures Mirrored(s.users, s.where, WithoutEverywhere(s, id))
  {
    hide WithoutEverywhere;
    MembersLeft(s, id);
  }

  lemma RemovedTables(s: State, id: nat, lines: multiset<Sent>)
    requires TablesOk(s)
    ensures TablesOk(Removed(s, id, lines)) && Ids(Removed(s, id, lines)) == Ids(s) - {id}
  {
    hide Mirrored, WithoutEverywhere;
    RemovedFiled(s, id, lines);
    if id in s.where {
      MirroredWithout(s, id);
    } else {
      MirroredUntouched(s, id);
    }
  }

  lemma RemovedRec(s: State, id: nat, lines: multiset<Sent>)
    requires TablesOk(s)
    ensures forall i :: i in Ids(s) && i != id ==> Rec(Removed(s, id, lines), i) == Rec(s, i)
  {
    hide Mirrored, WithoutEverywhere;
  }

  lemma RemovedShares(s: State, id: nat, lines: multiset<Sent>)
    ensures forall p, q :: p != id && q != id ==> Shares(Removed(s, id, lines), p, q) == Shares(s, p, q)
  {
    hide WithoutEverywhere, Removed, Shares;
    MembersLeft(s, id);
    RemovedFrame(s, id, lines);
    SharesLeft(s, id, Removed(s, id, lines));
  }

  lemma SharesLeft(s: State, id: nat, s': State)
    requires forall c, m {:trigger m in s.chans[c].members} :: c in s.chans && m in s.chans[c].members && m != id ==>
      c in s'.chans && m in s'.chans[c].members
    requires forall c :: c in s'.chans ==> c in s.chans && s'.chans[c].members == s.chans[c].members - {id}
    ensures forall p, q :: p != id && q != id ==> Shares(s', p, q) == Shares(s, p, q)
  {
    forall p, q | p != id && q != id ensures Shares(s', p, q) == Shares(s, p, q) {
      if Shares(s, p, q) {
        var c :| c in s.chans && p in s.chans[c].members && q in s.chans[c].members;
        assert c in s'.chans && p in s'.chans[c].members && q in s'.chans[c].members;
      }
      if Shares(s', p, q) {
        var c :| c in s'.chans && p in s'.chans[c].members && q in s'.chans[c].members;
        assert p in s.chans[c].members && q in s.chans[c].members;
      }
    }
  }

  lemma QuitsDoNotWelcome(cfg: Config, users: map<string, Cx>, unreg: map<nat, Cx>, log: multiset<Sent>,
          lines: multiset<Sent>)
    requires WelcomeAll(cfg, users, unreg, log) && forall l :: l in lines ==> l.line.Quit?
    ensures WelcomeAll(cfg, users, unreg, log + lines)
    ensures forall i :: (log + lines)[Sent(i, Welcome)] == log[Sent(i, Welcome)]
  {
    assert forall i :: (log + lines)[Sent(i, Welcome)] == log[Sent(i, Welcome)];
  }

  lemma RemovedWelcome(cfg: Config, s: State, id: nat, lines: multiset<Sent>)
    requires WelcomeOk(cfg, s) && forall l :: l in lines ==> l.line.Quit?
    ensures WelcomeOk(cfg, Removed(s, id, lines))
  {
    hide WithoutEverywhere, WelcomeFor;
    QuitsDoNotWelcome(cfg, s.users, s.unreg, s.log, lines);
  }

  lemma RemovedQuits(s: State, id: nat, lines: multiset<Sent>)
    requires QuitsOk(s) && Ids(Removed(s, id, lines)) == Ids(s) - {id}
    requires forall l :: l in lines ==> l.line == Quit(id) && id in s.seen
    ensures QuitsOk(Removed(s, id, lines))
  {
    hide WithoutEverywhere;
    var s' := Removed(s, id, lines);
    forall p, d | Sent(p, Quit(d)) in s'.log ensures d in s'.seen && d !in Ids(s') {
      assert Sent(p, Quit(d)) in s.log || Sent(p, Quit(d)) in lines;
    }
  }

  lemma RemovedShrinks(s: State, id: nat, lines: multiset<Sent>)
    requires TablesOk(s)
    ensures Shrinks(s, Removed(s, id, lines))
  {
    hide RemoteMembers, WithoutEverywhere, Removed, Filed, Mirrored, Thinned;
    WithoutShrinks(s, id, Ids(Removed(s, id, lines)));
    RemovedFrame(s, id, lines);
    RemovedTables(s, id, lines);
  }

  lemma WithoutThins(c: Chn, id: nat, here: set<nat>)
    ensures id in c.members || id !in here ==> Thinned(c, WithoutMember(c, id), here)
  {
  }

  lemma WithoutShrinks(s: State, id: nat, here: set<nat>)
    ensures id !in here ==> forall c :: c in WithoutEverywhere(s, id) && c in s.chans ==> Thinned(s.chans[c], WithoutEverywhere(s, id)[c], here)
    ensures forall c :: c in WithoutEverywhere(s, id) ==> c in s.chans && WithoutEverywhere(s, id)[c].createdAt == s.chans[c].createdAt
    ensures forall c :: c in s.chans && RemoteMembers(s.net, c) != {} ==> c in WithoutEverywhere(s, id)
  {
    hide RemoteMembers, Thinned;
    forall c | c in s.chans { WithoutThins(s.chans[c], id, here); }
  }

  lemma RemovedKeeps(cfg: Config, s: State, id: nat, lines: multiset<Sent>)
    requires TablesOk(s) && WelcomeOk(cfg, s) && QuitsOk(s) && MarksBut(s, id)
    requires forall l :: l in lines ==> l.line == Quit(id) && id in s.where
    ensures Inv(cfg, Removed(s, id, lines)) && Departs(s, Removed(s, id, lines), [id]) && Shrinks(s, Removed(s, id, lines))
  {
    hide Filed, Mirrored, WelcomeOk, QuitsOk, MarksOk, MarksBut, Departs, Shrinks, Removed;
    RemovedShrinks(s, id, lines);
    RemovedTables(s, id, lines);
    RemovedDeparts(s, id, lines);
    RemovedMarks(s, id, lines);
    RemovedWelcome(cfg, s, id, lines);
    if id in s.where {
      RecFacts(s, id);
    }
    RemovedQuits(s, id, lines);
  }

  lemma RemovedMarks(s: State, id: nat, lines: multiset<Sent>)
    requires MarksBut(s, id) && Ids(Removed(s, id, lines)) == Ids(s) - {id}
    ensures MarksOk(Removed(s, id, lines))
  {
    hide WithoutEverywhere;
    RemovedFrame(s, id, lines);
  }

  lemma RemovedFrame(s: State, id: nat, lines: multiset<Sent>)
    ensures var s' := Removed(s, id, lines);
      && s'.marks == s.marks && s'.pings == s.pings && s'.seen == s.seen && s'.net == s.net
      && s'.chans == WithoutEverywhere(s, id) && s'.log == s.log + lines
  {
    hide WithoutEverywhere;
  }

  lemma RemovedDeparts(s: State, id: nat, lines: multiset<Sent>)
    requires TablesOk(s)
    ensures Departs(s, Removed(s, id, lines), [id])
  {
    hide Filed, Mirrored, Shares, Removed;
    RemovedFrame(s, id, lines);
    RemovedTables(s, id, lines);
    RemovedRec(s, id, lines);
    RemovedShares(s, id, lines);
    assert Elements([id]) == {id};
  }

  lemma LoseQuits(s: State, id: nat, s': State)
    requires TablesOk(s) && s'.log == s.log + QuitLines(s, id)
    ensures QuitsMove(s, s', [id])
  {
    hide Filed, Mirrored, Shares, QuitLines;
    QuitLinesCount(s, id);
    assert forall p, d :: Outlasts([id], p, d) <==> d == id by {
      assert [id][1..] == [];
    }
  }

  /** One departure: the peers are told once each, and nothing of the connection is left. */
  lemma LoseKeeps(cfg: Config, s: State, id: nat)
    requires TablesOk(s) && WelcomeOk(cfg, s) && QuitsOk(s) && MarksBut(s, id)
    ensures var s' := LoseAndEvict(s, id);
      Inv(cfg, s') && Departs(s, s', [id]) && Shrinks(s, s') && QuitsMove(s, s', [id])
  {
    hide Filed, Mirrored, WelcomeOk, QuitsOk, MarksOk, MarksBut, Departs, Shrinks, QuitsMove, QuitLines, LoseAndEvict,
      Removed, Shares;
    LoseIsRemoved(s, id);
    QuitLinesCount(s, id);
    RemovedFrame(s, id, QuitLines(s, id));
    LoseQuits(s, id, LoseAndEvict(s, id));
    RemovedKeeps(cfg, s, id, QuitLines(s, id));
  }

  // ---- many departures ----

  lemma {:induction false} OutlastsConcat(a: seq<nat>, b: seq<nat>, p: nat, d: nat)
    ensures Outlasts(a + b, p, d) <==> Outlasts(a, p, d) || (d !in a && p !in a && Outlasts(b, p, d))
    decreases |a|
  {
    if a == [] {
      assert a + b == b;
    } else {
      assert (a + b)[1..] == a[1..] + b;
      OutlastsConcat(a[1..], b, p, d);
    }
  }

  lemma {:induction false} OutlastsMember(order: seq<nat>, p: nat, d: nat)
    requires Outlasts(order, p, d)
    ensures d in order
    decreases |order|
  {
    if order[0] != d {
      OutlastsMember(order[1..], p, d);
    }
  }

  lemma GoneShareNothing(s: State, p: nat, q: nat)
    requires TablesOk(s) && (p !in Ids(s) || q !in Ids(s))
    ensures !Shares(s, p, q)
  {
  }

  lemma DepartsTrans(s: State, s1: State, s2: State, a: seq<nat>, b: seq<nat>)
    requires TablesOk(s) && TablesOk(s1) && Departs(s, s1, a) && Departs(s1, s2, b)
    ensures Departs(s, s2, a + b)
  {
    hide Filed, Mirrored, Shares;
    assert Elements(a + b) == Elements(a) + Elements(b);
  }

  lemma QuitsTrans(s: State, s1: State, s2: State, a: seq<nat>, b: seq<nat>)
    requires TablesOk(s1) && Departs(s, s1, a)
    requires QuitsMove(s, s1, a) && QuitsMove(s1, s2, b)
    ensures QuitsMove(s, s2, a + b)
  {
    hide Filed, Mirrored, Shares, SameStanding, NoNewMarks;
    forall p, d
      ensures s2.log[Sent(p, Quit(d))]
           == s.log[Sent(p, Quit(d))] + if p != d && Shares(s, p, d) && Outlasts(a + b, p, d) then 1 else 0
    {
      OutlastsConcat(a, b, p, d);
      if Outlasts(a, p, d) {
        OutlastsMember(a, p, d);
      }
      if d in a || p in a {
        assert (d in Elements(a) <==> d in a) && (p in Elements(a) <==> p in a);
        GoneShareNothing(s1, p, d);
      }
    }
  }

  lemma ShrinksTrans(s: State, s1: State, s2: State)
    requires Shrinks(s, s1) && Shrinks(s1, s2)
    ensures Shrinks(s, s2)
  {
    hide RemoteMembers, Thinned;
    forall c | c in s2.chans && c in s.chans ensures Thinned(s.chans[c], s2.chans[c], Ids(s2)) {
      ThinnedTrans(s.chans[c], s1.chans[c], s2.chans[c], Ids(s1), Ids(s2));
    }
  }

  /** A calm step is a departure of nobody. */
  lemma CalmDeparts(s: State, s': State)
    requires Calm(s, s')
    ensures Departs(s, s', []) && QuitsMove(s, s', []) && Shrinks(s, s')
  {
    assert Elements<nat>([]) == {};
  }

  /** What a step in which some connections leave amounts to. */
  ghost predicate Leaves(s: State, s': State, order: seq<nat>) {
    Departs(s, s', order) && QuitsMove(s, s', order) && Shrinks(s, s')
  }

  lemma LeavesTrans(cfg: Config, s: State, s1: State, s2: State, a: seq<nat>, b: seq<nat>)
    requires Inv(cfg, s) && Inv(cfg, s1) && Leaves(s, s1, a) && Leaves(s1, s2, b)
    ensures Leaves(s, s2, a + b)
  {
    hide Filed, Mirrored, WelcomeOk, QuitsOk, MarksOk, Shares, Departs, QuitsMove, Shrinks;
    DepartsTrans(s, s1, s2, a, b);
    QuitsTrans(s, s1, s2, a, b);
    ShrinksTrans(s, s1, s2);
  }

  lemma LeavesCalm(cfg: Config, s: State, s1: State, s2: State, a: seq<nat>)
    requires Inv(cfg, s) && Inv(cfg, s1) && Leaves(s, s1, a) && Calm(s1, s2)
    ensures Leaves(s, s2, a)
  {
    hide Filed, Mirrored, WelcomeOk, QuitsOk, MarksOk, Shares, Leaves, Calm;
    CalmDeparts(s1, s2);
    LeavesNothing(s1, s2);
    LeavesTrans(cfg, s, s1, s2, a, []);
    assert a + [] == a;
  }

  lemma LeavesNothing(s: State, s': State)
    requires Departs(s, s', []) && QuitsMove(s, s', []) && Shrinks(s, s')
    ensures Leaves(s, s', [])
  {
  }

  lemma MarksOkBut(s: State, id: nat)
    requires MarksOk(s)
    ensures MarksBut(s, id)
    ensures MarksBut(s.(pings := s.pings - {id}), id)
    ensures MarksBut(s.(pings := s.pings - {id}, marks := s.marks - {id}), id)
  {
  }

  lemma LoseLeaves(cfg: Config, s: State, id: nat)
    requires Inv(cfg, s)
    ensures Inv(cfg, LoseAndEvict(s, id)) && Leaves(s, LoseAndEvict(s, id), [id])
  {
    hide Filed, Mirrored, WelcomeOk, QuitsOk, MarksOk, MarksBut, Shares, Departs, QuitsMove, Shrinks;
    MarksOkBut(s, id);
    LoseKeeps(cfg, s, id);
  }

  lemma {:induction false} LoseAllLeaves(cfg: Config, s: State, order: seq<nat>)
    requires Inv(cfg, s)
    ensures Inv(cfg, LoseAll(s, order)) && Leaves(s, LoseAll(s, order), order)
    decreases |order|
  {
    hide Filed, Mirrored, WelcomeOk, QuitsOk, MarksOk, Leaves, LoseAndEvict, SameQuits, SameStanding, NoNewMarks;
    if order == [] {
      SelfLeaves(s);
    } else {
      LoseLeaves(cfg, s, order[0]);
      var s1 := LoseAndEvict(s, order[0]);
      LoseAllLeaves(cfg, s1, order[1..]);
      LeavesTrans(cfg, s, s1, LoseAll(s, order), [order[0]], order[1..]);
      assert [order[0]] + order[1..] == order;
    }
  }

  lemma SelfLeaves(s: State)
    ensures Leaves(s, s, []) && Calm(s, s)
  {
    CalmDeparts(s, s);
  }

  /** Dropping a connection's ping first changes nothing else about its departure. */
  lemma LosePinged(cfg: Config, s: State, id: nat, s0: State)
    requires Inv(cfg, s)
    requires s0 == s.(pings := s.pings - {id}) || s0 == s.(pings := s.pings - {id}, marks := s.marks - {id})
    ensures Inv(cfg, LoseAndEvict(s0, id)) && Leaves(s, LoseAndEvict(s0, id), [id])
  {
    hide Filed, Mirrored, MarksOk, MarksBut, LoseAndEvict, Departs, QuitsMove, Shrinks, WelcomeAll;
    MarksOkBut(s, id);
    LoseKeeps(cfg, s0, id);
    SameButTimers(s, s0, LoseAndEvict(s0, id), [id]);
  }

  lemma SameButTimers(s: State, s0: State, s': State, order: seq<nat>)
    requires Departs(s0, s', order) && QuitsMove(s0, s', order) && Shrinks(s0, s')
    requires s0 == s.(pings := s0.pings, marks := s0.marks) && NoNewMarks(s, s0)
    ensures Leaves(s, s', order)
  {
    hide RemoteMembers, Outlasts;
    assert forall p, q :: Shares(s0, p, q) == Shares(s, p, q);
  }

  lemma {:induction false} ExpirePingsLeaves(cfg: Config, s: State, order: seq<nat>)
    requires Inv(cfg, s)
    ensures Inv(cfg, ExpirePings(s, order)) && Leaves(s, ExpirePings(s, order), order)
    decreases |order|
  {
    hide Filed, Mirrored, WelcomeOk, QuitsOk, MarksOk, Leaves, LoseAndEvict, SameQuits, SameStanding, NoNewMarks;
    if order == [] {
      SelfLeaves(s);
    } else {
      var s0 := s.(pings := s.pings - {order[0]});
      LosePinged(cfg, s, order[0], s0);
      var s1 := LoseAndEvict(s0, order[0]);
      ExpirePingsLeaves(cfg, s1, order[1..]);
      LeavesTrans(cfg, s, s1, ExpirePings(s, order), [order[0]], order[1..]);
      assert [order[0]] + order[1..] == order;
    }
  }
}
