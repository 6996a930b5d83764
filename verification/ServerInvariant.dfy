/** What every step of the server keeps, and how a step may move the state. */
module ServerInvariant {
  import opened ServerModel

  // ---- the invariant ----

  /** Each connection is in exactly one table, filed under its own key, in at most ten channels. */
  ghost predicate Filed(users: map<string, Cx>, unreg: map<nat, Cx>, where: map<nat, string>, seen: set<nat>) {
    && (forall k :: k in users ==>
         && users[k].nickKey == k && users[k].registered && |users[k].chans| <= MaxChannels
         && users[k].id in where && where[users[k].id] == k)
    && (forall i :: i in where ==>
         0 < i && i in seen && i !in unreg && where[i] in users && users[where[i]].id == i)
    && (forall i :: i in unreg ==>
         0 < i && i in seen && unreg[i].id == i && !unreg[i].registered && unreg[i].chans == {})
  }

  /** The two sides of every membership agree, and every member is a registered connection. */
  ghost predicate Mirrored(users: map<string, Cx>, where: map<nat, string>, chans: map<string, Chn>) {
    && (forall k, c {:trigger c in users[k].chans} :: k in users && c in users[k].chans ==>
         c in chans && users[k].id in chans[c].members)
    && (forall c, m {:trigger m in chans[c].members} :: c in chans && m in chans[c].members ==>
         m in where && where[m] in users && c in users[where[m]].chans)
  }

  ghost predicate TablesOk(s: State) {
    Filed(s.users, s.unreg, s.where, s.seen) && Mirrored(s.users, s.where, s.chans)
  }

  /** A live connection with a reclaim marker has an unanswered ping. */
  ghost predicate MarksOk(s: State) {
    && s.marks.Keys <= s.seen && s.pings.Keys <= s.seen
    && (forall h :: h in s.marks && h in Ids(s) ==> h in s.pings)
  }

  /** Welcomed once or owed it while negotiating; with the challenge on, only after a PONG. */
  ghost predicate WelcomeFor(cfg: Config, log: multiset<Sent>, u: Cx) {
    && log[Sent(u.id, Welcome)] + (if u.gate.gated then 1 else 0) == (if u.registered then 1 else 0)
    && (u.gate.gated ==> u.gate.negotiating)
    && (u.registered && cfg.challenge ==> u.gate.verified)
    && (u.gate.verified ==> u.gate.challenged)
    && (u.gate.challenged ==> Sent(u.id, Challenge) in log)
  }

  ghost predicate WelcomeAll(cfg: Config, users: map<string, Cx>, unreg: map<nat, Cx>, log: multiset<Sent>) {
    && (forall k :: k in users ==> WelcomeFor(cfg, log, users[k]))
    && (forall i :: i in unreg ==> WelcomeFor(cfg, log, unreg[i]))
  }

  ghost predicate WelcomeOk(cfg: Config, s: State) {
    && WelcomeAll(cfg, s.users, s.unreg, s.log)
    && (forall i :: i !in s.seen ==> Sent(i, Welcome) !in s.log)
  }

  /** Nobody is told that a live connection has quit. */
  ghost predicate QuitsOk(s: State) {
    forall p, d :: Sent(p, Quit(d)) in s.log ==> d in s.seen && d !in Ids(s)
  }

  ghost predicate Inv(cfg: Config, s: State) {
    TablesOk(s) && MarksOk(s) && WelcomeOk(cfg, s) && QuitsOk(s)
  }

  // ---- how steps move the state ----

  ghost predicate SameQuits(s: State, s': State) {
    forall p, d :: s'.log[Sent(p, Quit(d))] == s.log[Sent(p, Quit(d))]
  }

  /** As far as verification and the nick to register under go. */
  predicate SamePlace(a: Cx, b: Cx) {
    a.gate.verified == b.gate.verified && a.info.pendingNick == b.info.pendingNick
  }

  ghost predicate SameStanding(s: State, s': State) {
    forall i :: i in Ids(s) && i in Ids(s') ==> SamePlace(Rec(s', i), Rec(s, i))
  }

  ghost predicate NoNewMarks(s: State, s': State) {
    forall h :: h in s'.marks ==> h in s.marks && s'.marks[h] == s.marks[h]
  }

  /** Nobody comes or goes, nobody is told of a quit, nobody answers a challenge or picks a nick to register under. */
  ghost predicate Steady(s: State, s': State) {
    && s'.seen == s.seen && Ids(s') == Ids(s) && s'.net == s.net
    && SameQuits(s, s') && SameStanding(s, s') && NoNewMarks(s, s')
  }

  /** `Steady`, and the channels are not touched either. */
  ghost predicate Calm(s: State, s': State) {
    Steady(s, s') && s'.chans == s.chans
  }

  lemma SteadyTrans(a: State, b: State, c: State)
    requires Steady(a, b) && Steady(b, c)
    ensures Steady(a, c)
  {
  }

  // ---- records ----

  lemma RecFacts(s: State, id: nat)
    requires TablesOk(s) && id in Ids(s)
    ensures Rec(s, id).id == id && id in s.seen && id > 0
    ensures Rec(s, id).registered <==> id in s.where
    ensures id in s.where <==> id !in s.unreg
    ensures id in s.where ==> Rec(s, id).nickKey == s.where[id] && s.where[id] in s.users && s.users[s.where[id]] == Rec(s, id)
  {
  }

  lemma UserFacts(s: State, k: string)
    requires TablesOk(s) && k in s.users
    ensures s.users[k].id in s.where && s.where[s.users[k].id] == k && s.users[k].id in Ids(s)
    ensures Rec(s, s.users[k].id) == s.users[k]
  {
  }

  lemma RecWelcome(cfg: Config, s: State, id: nat)
    requires TablesOk(s) && WelcomeOk(cfg, s) && id in Ids(s)
    ensures WelcomeFor(cfg, s.log, Rec(s, id))
  {
    RecFacts(s, id);
  }

  ghost predicate SameIdentity(a: Cx, b: Cx) {
    a.id == b.id && a.nickKey == b.nickKey && a.registered == b.registered && a.chans == b.chans
  }

  lemma PutTables(s: State, id: nat, cx: Cx)
    requires TablesOk(s) && id in Ids(s) && SameIdentity(cx, Rec(s, id))
    ensures TablesOk(Put(s, id, cx))
  {
    RecFacts(s, id);
  }

  lemma PutRec(s: State, id: nat, cx: Cx)
    requires TablesOk(s) && id in Ids(s)
    ensures Ids(Put(s, id, cx)) == Ids(s) && Rec(Put(s, id, cx), id) == cx
    ensures forall j :: j in Ids(s) && j != id ==> Rec(Put(s, id, cx), j) == Rec(s, j)
  {
    RecFacts(s, id);
  }

  lemma PutWelcome(cfg: Config, s: State, id: nat, cx: Cx)
    requires WelcomeOk(cfg, s) && WelcomeFor(cfg, s.log, cx)
    ensures WelcomeOk(cfg, Put(s, id, cx))
  {
  }

  /** Markers and departures only depend on who is there. */
  lemma SameIdsKeeps(s: State, s': State)
    requires MarksOk(s) && QuitsOk(s) && Ids(s') == Ids(s) && s'.seen == s.seen && SameQuits(s, s')
    requires s'.marks == s.marks && s'.pings == s.pings
    ensures MarksOk(s') && QuitsOk(s')
  {
    forall p, d | Sent(p, Quit(d)) in s'.log ensures d in s'.seen && d !in Ids(s') {
      assert s.log[Sent(p, Quit(d))] == s'.log[Sent(p, Quit(d))];
    }
  }

  lemma QuitsUnmoved(s: State, s': State)
    requires s'.log == s.log
    ensures SameQuits(s, s')
  {
  }

  lemma TablesUnmoved(s: State, s': State)
    requires s'.users == s.users && s'.unreg == s.unreg && s'.where == s.where
    ensures SameStanding(s, s') && Ids(s') == Ids(s)
  {
  }

  lemma PutCalm(s: State, id: nat, cx: Cx)
    requires TablesOk(s) && id in Ids(s) && SamePlace(cx, Rec(s, id))
    ensures Calm(s, Put(s, id, cx))
  {
    hide Filed, Mirrored, SameQuits;
    PutRec(s, id, cx);
    QuitsUnmoved(s, Put(s, id, cx));
  }

  /** Rewriting a record's private fields. */
  lemma PutKeeps(cfg: Config, s: State, id: nat, cx: Cx)
    requires Inv(cfg, s) && id in Ids(s) && SameIdentity(cx, Rec(s, id)) && WelcomeFor(cfg, s.log, cx)
    ensures Inv(cfg, Put(s, id, cx)) && Ids(Put(s, id, cx)) == Ids(s) && Rec(Put(s, id, cx), id) == cx
    ensures SamePlace(cx, Rec(s, id)) ==> Calm(s, Put(s, id, cx))
    ensures forall j :: j in Ids(s) && j != id ==> Rec(Put(s, id, cx), j) == Rec(s, j)
  {
    hide Filed, Mirrored, MarksOk, WelcomeOk, QuitsOk, Calm, SameQuits;
    PutTables(s, id, cx);
    PutRec(s, id, cx);
    PutWelcome(cfg, s, id, cx);
    QuitsUnmoved(s, Put(s, id, cx));
    SameIdsKeeps(s, Put(s, id, cx));
    if SamePlace(cx, Rec(s, id)) {
      PutCalm(s, id, cx);
    }
  }

  /** Queueing any number of lines that are neither a welcome nor a quit. */
  lemma LogKeeps(cfg: Config, s: State, lines: multiset<Sent>)
    requires Inv(cfg, s)
    requires forall l :: l in lines ==> !l.line.Quit? && !l.line.Welcome?
    ensures Inv(cfg, s.(log := s.log + lines)) && Calm(s, s.(log := s.log + lines))
  {
    hide Filed, Mirrored;
    var s' := s.(log := s.log + lines);
    assert forall i :: s'.log[Sent(i, Welcome)] == s.log[Sent(i, Welcome)];
    assert forall p, d :: s'.log[Sent(p, Quit(d))] == s.log[Sent(p, Quit(d))];
  }

  lemma DeliverKeeps(cfg: Config, s: State, id: nat, line: Line)
    requires Inv(cfg, s) && !line.Quit? && !line.Welcome?
    ensures Inv(cfg, Deliver(s, id, line)) && Calm(s, Deliver(s, id, line))
    ensures forall i :: i in Ids(s) ==> Rec(Deliver(s, id, line), i) == Rec(s, i)
  {
    hide Filed, Mirrored, MarksOk, WelcomeOk, QuitsOk;
    LogKeeps(cfg, s, multiset{Sent(id, line)});
  }
}
