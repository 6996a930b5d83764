/** The server itself: tables changed in place, each method proved against the step functions. */
module Server {
  import opened Basics
  import opened Names
  import opened ServerModel
  import opened ServerInvariant
  import opened ServerRegistration
  import opened ServerDepartures
  import opened ServerChannels
  import opened ServerSteps
  import N = Network

  ghost function LineToEach(to: set<nat>, live: set<nat>, line: Line): multiset<Sent> {
    multiset(set p | p in to && p in live :: Sent(p, line))
  }

  lemma NoLines(live: set<nat>, line: Line)
    ensures LineToEach({}, live, line) == multiset{}
  {
    var to: set<nat> := {};
    assert (set p | p in to && p in live :: Sent(p, line)) == {};
  }

  /** Outstanding pings with those of `ids` added. */
  ghost function WithPings(pings: map<nat, nat>, ids: set<nat>, now: nat): map<nat, nat> {
    map i | i in pings.Keys + ids :: if i in pings then pings[i] else now
  }

  ghost function PingLines(ids: set<nat>): multiset<Sent> {
    multiset(set i | i in ids :: Sent(i, Ping))
  }

  lemma NoPings(pings: map<nat, nat>, now: nat)
    ensures WithPings(pings, {}, now) == pings && PingLines({}) == multiset{}
  {
    var none: set<nat> := {};
    assert (set i | i in none :: Sent(i, Ping)) == {};
  }

  lemma OneMorePing(pings: map<nat, nat>, ids: set<nat>, id: nat, now: nat)
    requires id !in ids && id !in pings
    ensures WithPings(pings, ids + {id}, now) == WithPings(pings, ids, now)[id := now]
  {
  }

  lemma OneMorePingLine(ids: set<nat>, id: nat)
    requires id !in ids
    ensures PingLines(ids + {id}) == PingLines(ids) + multiset{Sent(id, Ping)}
  {
    var was, will := set i | i in ids :: Sent(i, Ping), set i | i in ids + {id} :: Sent(i, Ping);
    assert will == was + {Sent(id, Ping)} && Sent(id, Ping) !in was;
  }

  /** Of the silent, those pinged so far and those still to do who have no ping outstanding. */
  ghost predicate Underway(silent: set<nat>, already: set<nat>, pinged: set<nat>, todo: set<nat>) {
    pinged !! todo && pinged !! already && silent == pinged + (todo - already)
  }

  lemma NoneUnderway(silent: set<nat>, already: set<nat>, todo: set<nat>)
    requires silent == todo - already
    ensures Underway(silent, already, {}, todo)
  {
  }

  lemma AllUnderway(silent: set<nat>, already: set<nat>, pinged: set<nat>)
    requires Underway(silent, already, pinged, {})
    ensures pinged == silent
  {
  }

  lemma OneMoreUnderway(silent: set<nat>, already: set<nat>, pinged: set<nat>, todo: set<nat>, id: nat)
    requires Underway(silent, already, pinged, todo) && id in todo
    ensures id !in pinged
    ensures if id in already then Underway(silent, already, pinged, todo - {id}) else Underway(silent, already, pinged + {id}, todo - {id})
  {
  }

  lemma SilentAre(s: State, cfg: Config, now: nat, todo: set<nat>)
    requires todo == set k | k in s.users && Since(now, s.users[k].info.lastRx) > cfg.pingAfterMs :: s.users[k].id
    ensures Silent(s, cfg, now) == todo - s.pings.Keys
  {
  }

  lemma PingedAll(s: State, cfg: Config, now: nat)
    ensures var ids := Silent(s, cfg, now);
      PingSilent(s, cfg, now) == s.(pings := WithPings(s.pings, ids, now), log := s.log + PingLines(ids))
  {
    hide Silent;
  }

  lemma OneMoreLine(to: set<nat>, live: set<nat>, line: Line, id: nat)
    requires id !in to
    ensures LineToEach(to + {id}, live, line)
         == if id in live then LineToEach(to, live, line) + multiset{Sent(id, line)} else LineToEach(to, live, line)
  {
    var was := set p | p in to && p in live :: Sent(p, line);
    var will := set p | p in to + {id} && p in live :: Sent(p, line);
    if id in live {
      assert will == was + {Sent(id, line)};
      assert Sent(id, line) !in was;
    } else {
      assert will == was;
    }
  }

  class ServerState {
    const cfg: Config
    var users: map<string, Cx>
    var unreg: map<nat, Cx>
    var chans: map<string, Chn>
    var history: seq<Hist>
    var pings: map<nat, nat>
    var marks: map<nat, Reclaim>
    var net: N.Net
    ghost var where: map<nat, string>
    ghost var seen: set<nat>
    ghost var log: multiset<Sent>

    ghost function View(): State
      reads this
    {
      State(users, unreg, where, chans, history, pings, marks, net, seen, log)
    }

    ghost predicate Valid()
      reads this
    {
      Inv(cfg, View())
    }

    /** The tables are well filed, whatever the channels say: enough to find a connection. */
    ghost predicate Findable()
      reads this
    {
      Filed(users, unreg, where, seen)
    }

    constructor (cfg: Config, sid: string)
      ensures Valid() && View() == Init(sid) && this.cfg == cfg
    {
      this.cfg := cfg;
      users, unreg, chans, history, pings, marks := map[], map[], map[], [], map[], map[];
      net := N.EmptyNet(sid);
      where, seen, log := map[], {}, multiset{};
    }

    // ---- lookups ----

    /** The key of a registered connection, found by walking the user table. */
    method KeyById(id: nat) returns (key: Option<string>)
      requires Findable()
      ensures key == if id in where then Some(where[id]) else None
    {
      var todo := users.Keys;
      while todo != {}
        invariant todo <= users.Keys
        invariant forall k :: k in users && k !in todo ==> users[k].id != id
      {
        var k :| k in todo;
        if users[k].id == id {
          return Some(k);
        }
        todo := todo - {k};
      }
      key := None;
    }

    method FindById(id: nat) returns (cx: Option<Cx>)
      requires Findable()
      ensures cx == if id in Ids(View()) then Some(Rec(View(), id)) else None
    {
      if id in unreg {
        return Some(unreg[id]);
      }
      var key := KeyById(id);
      cx := if key.Some? then Some(users[key.value]) else None;
    }

    /** Write back a record found by id. */
    method Store(id: nat, cx: Cx)
      requires Findable()
      modifies this`users, this`unreg
      ensures View() == Put(old(View()), id, cx)
    {
      if id in unreg {
        unreg := unreg[id := cx];
      } else {
        var key := KeyById(id);
        if key.Some? {
          users := users[key.value := cx];
        }
      }
    }

    method Lookup(key: string, now: nat) returns (r: Option<Cx>)
      ensures r == ServerModel.Lookup(View(), key, now)
    {
      var cur, hops := key, 8;
      while hops > 0
        invariant 0 <= hops <= 8
        invariant Resolve(View(), cur, now, hops) == ServerModel.Lookup(View(), key, now)
      {
        if cur in users {
          return Some(users[cur]);
        }
        var i := |history|;
        while i > 0 && !(history[i-1].oldKey == cur && Since(now, history[i-1].at) <= RenameWindow)
          invariant 0 <= i <= |history|
          invariant LastHop(history, cur, now, i) == LastHop(history, cur, now, |history|)
        {
          i := i - 1;
        }
        if i == 0 {
          return None;
        }
        cur := history[i-1].newKey;
        hops := hops - 1;
      }
      r := if cur in users then Some(users[cur]) else None;
    }

    /** Everyone sharing a channel with `id`, each once. */
    method ChannelPeers(id: nat) returns (peers: seq<nat>)
      requires Findable()
      ensures NoRepeats(peers) && Elements(peers) == Peers(View(), id)
    {
      peers := [];
      var cx := FindById(id);
      if cx.None? {
        return;
      }
      var found: set<nat> := {};
      var todo := cx.value.chans;
      ghost var all := cx.value.chans;
      while todo != {}
        invariant todo <= all && NoRepeats(peers) && Elements(peers) == found
        invariant found == set c, m | c in all - todo && c in chans && m in chans[c].members && m != id :: m
      {
        var c :| c in todo;
        todo := todo - {c};
        if c in chans {
          var members := chans[c].members;
          ghost var before := found;
          while members != {}
            invariant members <= chans[c].members && NoRepeats(peers) && Elements(peers) == found
            invariant found == before + set m | m in chans[c].members - members && m != id
          {
            var m :| m in members;
            members := members - {m};
            if m != id && m !in found {
              assert Elements(peers + [m]) == Elements(peers) + {m};
              assert m !in Elements(peers);
              peers, found := peers + [m], found + {m};
            }
          }
        }
      }
    }

    // ---- deliveries ----

    /** Hand one line to a connection's queue, if it is still there. */
    ghost method Send(id: nat, line: Line)
      modifies this`log
      ensures View() == Deliver(old(View()), id, line)
    {
      if id in Ids(View()) {
        log := log + multiset{Sent(id, line)};
      }
    }

    /** The same line to each of a list of distinct connections. */
    method SendEach(ids: seq<nat>, ghost line: Line)
      requires NoRepeats(ids)
      modifies this`log
      ensures log == old(log) + LineToEach(Elements(ids), Ids(old(View())), line)
    {
      hide LineToEach;
      var i := 0;
      ghost var live := Ids(View());
      NoLines(live, line);
      assert Elements(ids[..0]) == {};
      while i < |ids|
        invariant 0 <= i <= |ids| && Ids(View()) == live
        invariant log == old(log) + LineToEach(Elements(ids[..i]), live, line)
      {
        assert Elements(ids[..i+1]) == Elements(ids[..i]) + {ids[i]};
        assert ids[i] !in ids[..i];
        OneMoreLine(Elements(ids[..i]), live, line, ids[i]);
        Send(ids[i], line);
        i := i + 1;
      }
      assert ids[..i] == ids;
    }

    // ---- table operations ----

    method Register(id: nat, nick: string, user: string) returns (ok: bool)
      modifies this`users, this`unreg, this`where
      ensures ok == CanRegister(old(View()), id, nick)
      ensures View() == ServerModel.Register(old(View()), id, nick, user)
    {
      if id !in unreg {
        return false;
      }
      var cx := unreg[id];
      var key := NormNick(nick);
      if key in users {
        return false;
      }
      unreg := unreg - {id};
      users := users[key := cx.(nickKey := key, registered := true, info := cx.info.(nick := nick, user := user))];
      where := where[id := key];
      ok := true;
    }

    method RecordRename(oldKey: string, newKey: string, id: nat, now: nat)
      modifies this`history
      ensures history == Record(old(history), Hist(oldKey, newKey, id, now))
    {
      ghost var all := history + [Hist(oldKey, newKey, id, now)];
      history := history + [Hist(oldKey, newKey, id, now)];
      ghost var dropped := 0;
      while |history| > HistoryCap
        invariant 0 <= dropped <= |all| && history == all[dropped..]
        invariant dropped > 0 ==> |history| >= HistoryCap
      {
        history := history[1..];
        dropped := dropped + 1;
      }
    }

    method ApplyRename(id: nat, nick: string, now: nat)
      requires Findable()
      modifies this`users, this`history, this`where
      ensures View() == ServerModel.ApplyRename(old(View()), id, nick, now)
    {
      var cx := FindById(id);
      if cx.None? {
        return;
      }
      var oldKey, newKey := cx.value.nickKey, NormNick(nick);
      if oldKey == newKey {
        return;
      }
      RecordRename(oldKey, newKey, id, now);
      if oldKey !in users {
        return;
      }
      var moved := users[oldKey].(nickKey := newKey, info := users[oldKey].info.(nick := nick));
      users := (users - {oldKey})[newKey := moved];
      where := where[id := newKey];
    }

    method Evict(id: nat)
      requires Findable()
      modifies this`users, this`unreg, this`where
      ensures View() == ServerModel.Evict(old(View()), id)
    {
      if id in unreg {
        unreg := unreg - {id};
        return;
      }
      var key := KeyById(id);
      if key.Some? {
        users := users - {users[key.value].nickKey};
        where := where - {id};
      }
    }

    method EjectUser(id: nat)
      modifies this`chans
      ensures View() == Eject(old(View()), id)
    {
      var todo := chans.Keys;
      while todo != {}
        invariant todo <= chans.Keys == old(chans).Keys
        invariant forall c :: c in chans ==>
          chans[c] == if c in todo then old(chans)[c] else WithoutMember(old(chans)[c], id)
      {
        var c :| c in todo;
        todo := todo - {c};
        chans := chans[c := WithoutMember(chans[c], id)];
      }
      assert chans == Eject(old(View()), id).chans;
    }

    method DropEmptyChannels()
      modifies this`chans
      ensures View() == DropEmpty(old(View()))
    {
      var dead: set<string> := {};
      var todo := chans.Keys;
      while todo != {}
        invariant todo <= chans.Keys && chans == old(chans)
        invariant dead == set c | c in chans && c !in todo && Dead(View(), c)
      {
        var c :| c in todo;
        todo := todo - {c};
        if chans[c].members == {} && RemoteMembers(net, c) == {} {
          dead := dead + {c};
        }
      }
      chans := chans - dead;
      assert chans == DropEmpty(old(View())).chans;
    }

    // ---- departures ----

    /** Tell the peers once each and remove the connection from every table. */
    method Depart(id: nat)
      requires Findable()
      modifies this
      ensures View() == LoseAndEvict(old(View()), id)
    {
      hide Filed, Peers, ServerModel.Evict, DropEmpty, Eject;
      var peers := ChannelPeers(id);
      SendEach(peers, Quit(id));
      EjectUser(id);
      DropEmptyChannels();
      Evict(id);
    }

    method AnnounceLossAndEvict(id: nat)
      requires Valid()
      modifies this
      ensures Valid() && View() == LoseAndEvict(old(View()), id)
    {
      LoseLeaves(cfg, View(), id);
      Depart(id);
    }

    method HandleQuit(id: nat)
      requires Valid()
      modifies this
      ensures Valid() && View() == ServerModel.HandleQuit(old(View()), id)
    {
      var cx := FindById(id);
      if cx.None? || !cx.value.registered {
        return;
      }
      AnnounceLossAndEvict(id);
    }

    method CleanupOnEof(id: nat)
      requires Valid()
      modifies this
      ensures Valid() && View() == ServerModel.CleanupOnEof(old(View()), id)
    {
      hide Filed, Mirrored, MarksOk, WelcomeOk, QuitsOk, Leaves, Peers, ServerModel.Evict, DropEmpty, Eject;
      EofLeaves(cfg, View(), id);
      var cx := FindById(id);
      if cx.None? {
        return;
      }
      if cx.value.registered {
        var peers := ChannelPeers(id);
        SendEach(peers, Quit(id));
      }
      EjectUser(id);
      DropEmptyChannels();
      Evict(id);
    }

    // ---- registration ----

    /** A freshly accepted connection; the id comes from the accept counter. */
    method ParkUnregistered(id: nat, host: string, now: nat)
      requires Valid() && id > 0 && id !in seen
      modifies this
      ensures Valid() && View() == Park(old(View()), id, host, now)
    {
      AcceptedKeeps(cfg, View(), now, id, host);
      var cx := FindById(id);
      seen := seen + {id};
      if cx.None? {
        unreg := unreg[id := Fresh(id, host, now)];
      }
    }

    method MaybeComplete(id: nat, now: nat)
      requires Valid()
      modifies this
      ensures Valid() && View() == ServerModel.MaybeComplete(old(View()), cfg, id, now)
    {
      hide Filed, Mirrored, MarksOk, WelcomeOk, QuitsOk, Steady, ServerModel.Lookup;
      MaybeCompleteKeeps(cfg, View(), id, now);
      var cx := FindById(id);
      if cx.None? || cx.value.info.pendingNick.None? || cx.value.info.pendingUser.None? || cx.value.registered {
        return;
      }
      var u := cx.value;
      if cfg.challenge && !u.gate.verified {
        if !u.gate.challenged {
          Send(id, Challenge);
          Store(id, u.(gate := u.gate.(challenged := true)));
        }
        return;
      }
      var nick := u.info.pendingNick.value;
      var occ := Lookup(NormNick(nick), now);
      if occ.Some? && occ.value.id in marks {
        return;
      }
      Finish(id, nick, u.info.pendingUser.value);
    }

    method Finish(id: nat, nick: string, user: string)
      requires Valid() && id in Ids(View()) && !Rec(View(), id).registered
      requires cfg.challenge ==> Rec(View(), id).gate.verified
      modifies this
      ensures Valid() && View() == Complete(old(View()), id, nick, user)
    {
      hide Mirrored, MarksOk, WelcomeOk, QuitsOk, Steady;
      ghost var s := View();
      CompleteKeeps(cfg, s, id, nick, user);
      if CanRegister(s, id, nick) {
        RegisterTables(s, id, nick, user);
      }
      var ok := Register(id, nick, user);
      if !ok {
        Send(id, InUse(nick));
        return;
      }
      var cx := FindById(id);
      if cx.Some? && cx.value.gate.negotiating {
        Store(id, cx.value.(gate := cx.value.gate.(gated := true)));
        return;
      }
      Send(id, Welcome);
    }

    method BeginReclaim(occ: nat, pairings: seq<(nat, string)>, renames: seq<(nat, string)>, now: nat)
      modifies this
      ensures View() == ServerModel.BeginReclaim(old(View()), cfg, occ, pairings, renames, now)
    {
      if occ !in pings {
        Send(occ, Ping);
        pings := pings[occ := now];
      }
      if occ in marks {
        var mark := marks[occ];
        marks := marks[occ := mark.(pairings := mark.pairings + pairings, renames := mark.renames + renames)];
      } else {
        marks := marks[occ := Reclaim(now + Grace(cfg), pairings, renames)];
      }
    }

    method HolderLooksStale(id: nat, now: nat) returns (stale: bool)
      requires Findable()
      ensures stale == LooksStale(View(), cfg, id, now)
    {
      var cx := FindById(id);
      stale := cx.None? || id in pings || Since(now, cx.value.info.lastRx) / 1000 > cfg.silenceSecs;
    }

    /** Tell a renamed connection and its channel peers about its new nickname. */
    method AnnounceRename(id: nat, nick: string)
      requires Findable()
      modifies this`log
      ensures log == old(log) + RenamedLines(old(View()), id, nick)
    {
      hide Filed;
      ghost var s := View();
      var peers := ChannelPeers(id);
      assert id !in Elements(peers);
      assert Elements(peers + [id]) == Peers(s, id) + {id};
      SendEach(peers + [id], Renamed(id, nick));
      assert (set p | (p in Peers(s, id) || p == id) && p in Ids(s) :: Sent(p, Renamed(id, nick)))
          == (set p | p in Peers(s, id) + {id} && p in Ids(s) :: Sent(p, Renamed(id, nick)));
    }

    method RenameRegistered(id: nat, nick: string, now: nat)
      requires Valid() && Registered(View(), id)
      modifies this
      ensures Valid() && View() == NickRegistered(old(View()), cfg, id, nick, now)
    {
      hide Mirrored, MarksOk, WelcomeOk, QuitsOk, Reclaims, RenamedLines, ServerModel.ApplyRename,
        ServerModel.BeginReclaim, LooksStale;
      ghost var s := View();
      NickRegisteredKeeps(cfg, s, id, nick, now);
      if NormNick(nick) in users {
        var occ := users[NormNick(nick)].id;
        var stale := HolderLooksStale(occ, now);
        if occ != id && stale {
          BeginReclaim(occ, [], [(id, nick)], now);
        } else {
          Send(id, InUse(nick));
        }
      } else {
        RenameTables(s, id, nick, now);
        ApplyRename(id, nick, now);
        AnnounceRename(id, nick);
      }
    }

    /** Fill the nick half of a pairing and complete it if the other half is in. */
    method FillNick(id: nat, nick: string, now: nat)
      requires Valid()
      modifies this
      ensures Valid()
      ensures var s := old(View());
        var s1 := if id in Ids(s) then Put(s, id, Rec(s, id).(info := Rec(s, id).info.(pendingNick := Some(nick)))) else s;
        View() == ServerModel.MaybeComplete(s1, cfg, id, now)
    {
      hide Mirrored, MarksOk, WelcomeOk, QuitsOk, ServerModel.MaybeComplete;
      var cx := FindById(id);
      if cx.Some? {
        RecWelcome(cfg, View(), id);
        PutKeeps(cfg, View(), id, cx.value.(info := cx.value.info.(pendingNick := Some(nick))));
        Store(id, cx.value.(info := cx.value.info.(pendingNick := Some(nick))));
      }
      MaybeComplete(id, now);
    }

    method PairNick(id: nat, nick: string, now: nat)
      requires Valid()
      modifies this
      ensures Valid() && View() == NickPairing(old(View()), cfg, id, nick, now)
    {
      hide Mirrored, MarksOk, WelcomeOk, QuitsOk, ServerModel.MaybeComplete, ServerModel.BeginReclaim,
        ServerModel.Lookup, Reclaims;
      ghost var s := View();
      var occ := Lookup(NormNick(nick), now);
      if occ.Some? && occ.value.id != id {
        LookupLive(s, NormNick(nick), now);
        var stale := HolderLooksStale(occ.value.id, now);
        if !stale {
          DeliverKeeps(cfg, s, id, InUse(nick));
          Send(id, InUse(nick));
          return;
        }
        BeginReclaimKeeps(cfg, s, occ.value.id, [(id, nick)], [], now, id, nick);
        BeginReclaim(occ.value.id, [(id, nick)], [], now);
      }
      FillNick(id, nick, now);
    }

    method HandleNick(id: nat, nick: Option<string>, now: nat)
      requires Valid()
      modifies this
      ensures Valid() && View() == ServerModel.HandleNick(old(View()), cfg, id, nick, now)
    {
      hide Mirrored, MarksOk, WelcomeOk, QuitsOk, NickRegistered, NickPairing;
      if nick.None? || !ValidNick(nick.value) || IsServiceName(nick.value) {
        return;
      }
      var cx := FindById(id);
      if cx.Some? && cx.value.registered {
        RenameRegistered(id, nick.value, now);
      } else {
        PairNick(id, nick.value, now);
      }
    }

    method HandleUser(id: nat, user: Option<string>, now: nat)
      requires Valid()
      modifies this
      ensures Valid() && View() == ServerModel.HandleUser(old(View()), cfg, id, user, now)
    {
      hide Mirrored, MarksOk, WelcomeOk, QuitsOk;
      var cx := FindById(id);
      if cx.None? || cx.value.registered || user.None? {
        return;
      }
      var part := if |user.value| > MaxUserLen then user.value[..MaxUserLen] else user.value;
      RecWelcome(cfg, View(), id);
      PutKeeps(cfg, View(), id, cx.value.(info := cx.value.info.(pendingUser := Some(part))));
      Store(id, cx.value.(info := cx.value.info.(pendingUser := Some(part))));
      MaybeComplete(id, now);
    }

    method HandleCap(id: nat, sub: CapSub)
      requires Valid()
      modifies this
      ensures Valid() && View() == ServerModel.HandleCap(old(View()), id, sub)
    {
      hide Mirrored, MarksOk, WelcomeOk, QuitsOk;
      CapKeeps(cfg, View(), id, sub);
      var cx := FindById(id);
      if cx.None? {
        return;
      }
      match sub
      case Negotiate =>
        Store(id, cx.value.(gate := cx.value.gate.(negotiating := true)));
      case End =>
        var u := cx.value.(gate := cx.value.gate.(negotiating := false));
        if u.registered && u.gate.gated {
          PutRec(View(), id, u.(gate := u.gate.(gated := false)));
          Store(id, u.(gate := u.gate.(gated := false)));
          Send(id, Welcome);
        } else {
          Store(id, u);
        }
      case Other =>
    }

    method RefuseHeld(held: seq<(nat, string)>)
      modifies this`log
      ensures View() == RefuseAll(old(View()), held)
    {
      ghost var s := View();
      var i := 0;
      while i < |held|
        invariant 0 <= i <= |held|
        invariant View() == s.(log := log) && RefuseAll(View(), held[i..]) == RefuseAll(s, held)
      {
        assert held[i..][0] == held[i] && held[i..][1..] == held[i+1..];
        Send(held[i].0, InUse(held[i].1));
        i := i + 1;
      }
    }

    method AnswerChallenge(id: nat, now: nat)
      requires Valid()
      modifies this
      ensures Valid() && View() == ServerModel.AnswerChallenge(old(View()), cfg, id, now)
    {
      hide Filed, Mirrored, MarksOk, WelcomeOk, QuitsOk, Answers, ServerModel.MaybeComplete;
      var cx := FindById(id);
      if cx.Some? && !cx.value.registered && cx.value.gate.challenged && !cx.value.gate.verified {
        VerifyKeeps(cfg, View(), id);
        Store(id, cx.value.(gate := cx.value.gate.(verified := true)));
        MaybeComplete(id, now);
      }
    }

    method AnswerPing(id: nat)
      modifies this
      ensures View() == ServerModel.AnswerPing(old(View()), id)
    {
      hide RefuseAll;
      if id in pings {
        pings := pings - {id};
        if id in marks {
          var held := marks[id].pairings + marks[id].renames;
          marks := marks - {id};
          RefuseHeld(held);
        }
      }
    }

    method HandlePong(id: nat, now: nat)
      requires Valid()
      modifies this
      ensures Valid() && View() == ServerModel.HandlePong(old(View()), cfg, id, now)
    {
      hide Inv, Answers, ServerModel.AnswerChallenge, ServerModel.AnswerPing;
      PongKeeps(cfg, View(), id, now);
      AnswerChallenge(id, now);
      AnswerPing(id);
    }

    // ---- timers ----

    method CompletePairings(held: seq<(nat, string)>, now: nat)
      requires Valid()
      modifies this
      ensures Valid() && View() == CompleteAll(old(View()), cfg, held, now)
    {
      hide Filed, Mirrored, MarksOk, WelcomeOk, QuitsOk, ServerModel.MaybeComplete;
      ghost var s := View();
      var i := 0;
      while i < |held|
        invariant 0 <= i <= |held| && Valid()
        invariant CompleteAll(View(), cfg, held[i..], now) == CompleteAll(s, cfg, held, now)
      {
        assert held[i..][0] == held[i] && held[i..][1..] == held[i+1..];
        MaybeComplete(held[i].0, now);
        i := i + 1;
      }
    }

    method FinishDeferredRename(id: nat, nick: string, now: nat)
      requires Valid()
      modifies this
      ensures Valid() && View() == FinishRename(old(View()), id, nick, now)
    {
      hide Mirrored, MarksOk, WelcomeOk, QuitsOk, ServerModel.ApplyRename;
      FinishRenameKeeps(cfg, View(), id, nick, now);
      var cx := FindById(id);
      if cx.None? || !cx.value.registered || !ValidNick(nick) || NormNick(nick) in users {
        return;
      }
      ApplyRename(id, nick, now);
    }

    method FinishRenames(held: seq<(nat, string)>, now: nat)
      requires Valid()
      modifies this
      ensures Valid() && View() == RenameAll(old(View()), held, now)
    {
      hide Filed, Mirrored, MarksOk, WelcomeOk, QuitsOk, FinishRename;
      ghost var s := View();
      var i := 0;
      while i < |held|
        invariant 0 <= i <= |held| && Valid()
        invariant RenameAll(View(), held[i..], now) == RenameAll(s, held, now)
      {
        assert held[i..][0] == held[i] && held[i..][1..] == held[i+1..];
        FinishDeferredRename(held[i].0, held[i].1, now);
        i := i + 1;
      }
    }

    /** Evict one silent holder and settle everyone held back by its marker. */
    method SettleMark(holder: nat, now: nat)
      requires Valid() && holder in marks
      modifies this
      ensures Valid() && View() == ResolveMark(old(View()), cfg, holder, now)
    {
      hide Mirrored, WelcomeOk, QuitsOk, MarksOk, Leaves, CompleteAll, RenameAll;
      ghost var s := View();
      ResolveMarkLeaves(cfg, s, holder, now);
      var mark := marks[holder];
      ghost var s0 := s.(marks := s.marks - {holder}, pings := s.pings - {holder});
      LosePinged(cfg, s, holder, s0);
      marks := marks - {holder};
      pings := pings - {holder};
      Depart(holder);
      CompletePairings(mark.pairings, now);
      FinishRenames(mark.renames, now);
    }

    method ExpiredMarks(now: nat) returns (expired: set<nat>)
      ensures expired == Expired(View(), now)
    {
      expired := {};
      var todo := marks.Keys;
      while todo != {}
        invariant todo <= marks.Keys && expired == Expired(View(), now) - todo
      {
        var h :| h in todo;
        todo := todo - {h};
        if now >= marks[h].expiry {
          expired := expired + {h};
        }
      }
    }

    lemma {:induction false} ResolveMarksSnoc(s: State, order: seq<nat>, h: nat, now: nat)
      requires h in ResolveMarks(s, cfg, order, now).marks
      ensures ResolveMarks(s, cfg, order + [h], now) == ResolveMark(ResolveMarks(s, cfg, order, now), cfg, h, now)
      decreases |order|
    {
      hide ResolveMark;
      if order == [] {
        assert order + [h] == [h] && [h][1..] == [];
      } else {
        assert (order + [h])[0] == order[0] && (order + [h])[1..] == order[1..] + [h];
        ResolveMarksSnoc(if order[0] in s.marks then ResolveMark(s, cfg, order[0], now) else s, order[1..], h, now);
      }
    }

    /** The timer walks the expired markers in whatever order the table yields them. */
    method ReclaimTick(now: nat) returns (ghost order: seq<nat>)
      requires Valid()
      modifies this
      ensures NoRepeats(order) && Elements(order) == Expired(old(View()), now)
      ensures Valid() && View() == ResolveMarks(old(View()), cfg, order, now)
    {
      hide Filed, Mirrored, MarksOk, WelcomeOk, QuitsOk, ResolveMark;
      ghost var s := View();
      var todo := ExpiredMarks(now);
      order := [];
      while todo != {}
        invariant Valid() && NoRepeats(order) && Elements(order) == Expired(s, now) - todo && todo <= Expired(s, now)
        invariant todo <= marks.Keys && View() == ResolveMarks(s, cfg, order, now)
      {
        var h :| h in todo;
        todo := todo - {h};
        assert h !in Elements(order);
        assert Elements(order + [h]) == Elements(order) + {h};
        ResolveMarksSnoc(s, order, h, now);
        ResolveMarkLeaves(cfg, View(), h, now);
        SettleMark(h, now);
        order := order + [h];
      }
    }

    /** Evict the given connections one after another, in some order. */
    method EvictAll(ids: set<nat>) returns (ghost order: seq<nat>)
      requires Valid()
      modifies this
      ensures NoRepeats(order) && Elements(order) == ids
      ensures Valid() && View() == LoseAll(old(View()), order)
    {
      hide Filed, Mirrored, MarksOk, WelcomeOk, QuitsOk, LoseAndEvict;
      ghost var s := View();
      var todo := ids;
      order := [];
      while todo != {}
        invariant Valid() && NoRepeats(order) && Elements(order) == ids - todo && todo <= ids
        invariant View() == LoseAll(s, order)
      {
        var h :| h in todo;
        todo := todo - {h};
        assert h !in Elements(order);
        assert Elements(order + [h]) == Elements(order) + {h};
        LoseAllSnoc(s, order, h);
        AnnounceLossAndEvict(h);
        order := order + [h];
      }
    }

    static lemma {:induction false} LoseAllSnoc(s: State, order: seq<nat>, h: nat)
      ensures LoseAll(s, order + [h]) == LoseAndEvict(LoseAll(s, order), h)
      decreases |order|
    {
      hide LoseAndEvict;
      if order == [] {
        assert order + [h] == [h] && [h][1..] == [];
      } else {
        assert (order + [h])[0] == order[0] && (order + [h])[1..] == order[1..] + [h];
        LoseAllSnoc(LoseAndEvict(s, order[0]), order[1..], h);
      }
    }

    static lemma {:induction false} ExpirePingsSnoc(s: State, order: seq<nat>, h: nat)
      ensures var s1 := ExpirePings(s, order);
        ExpirePings(s, order + [h]) == LoseAndEvict(s1.(pings := s1.pings - {h}), h)
      decreases |order|
    {
      hide LoseAndEvict;
      if order == [] {
        assert order + [h] == [h] && [h][1..] == [];
      } else {
        assert (order + [h])[0] == order[0] && (order + [h])[1..] == order[1..] + [h];
        ExpirePingsSnoc(LoseAndEvict(s.(pings := s.pings - {order[0]}), order[0]), order[1..], h);
      }
    }

    method EvictUnanswered(ids: set<nat>) returns (ghost order: seq<nat>)
      requires Valid()
      modifies this
      ensures NoRepeats(order) && Elements(order) == ids
      ensures Valid() && View() == ExpirePings(old(View()), order)
    {
      hide Filed, Mirrored, MarksOk, WelcomeOk, QuitsOk, LoseAndEvict, Leaves;
      ghost var s := View();
      var todo := ids;
      order := [];
      while todo != {}
        invariant Valid() && NoRepeats(order) && Elements(order) == ids - todo && todo <= ids
        invariant View() == ExpirePings(s, order)
      {
        var h :| h in todo;
        todo := todo - {h};
        assert h !in Elements(order);
        assert Elements(order + [h]) == Elements(order) + {h};
        ExpirePingsSnoc(s, order, h);
        LosePinged(cfg, View(), h, View().(pings := pings - {h}));
        pings := pings - {h};
        Depart(h);
        order := order + [h];
      }
    }

    method LivenessTick(now: nat) returns (ghost unregs: seq<nat>, ghost late: seq<nat>)
      requires Valid()
      modifies this
      ensures Elements(unregs) == LateUnregistered(old(View()), cfg, now) && NoRepeats(unregs)
      ensures Elements(late) == LatePings(old(View()), cfg, now) && NoRepeats(late)
      ensures Valid() && View() == Liveness(old(View()), cfg, unregs, late, now)
    {
      hide Filed, Mirrored, MarksOk, WelcomeOk, QuitsOk, LoseAll, ExpirePings, ServerModel.PingSilent, Steady;
      ghost var s := View();
      var slow := set id | id in unreg && Since(now, unreg[id].info.connectedAt) > cfg.regMs;
      var unanswered := set id | id in pings && Since(now, pings[id]) > cfg.evictionMs;
      unregs := EvictAll(slow);
      late := EvictUnanswered(unanswered);
      PingSilent(now);
    }

    method PingSilent(now: nat)
      requires Valid()
      modifies this`pings, this`log
      ensures Valid() && View() == ServerModel.PingSilent(old(View()), cfg, now)
    {
      hide Inv, Calm, Silent, PingLines, WithPings, Underway, ServerModel.PingSilent;
      ghost var s := View();
      var todo := set k | k in users && Since(now, users[k].info.lastRx) > cfg.pingAfterMs :: users[k].id;
      ghost var silent, pinged: set<nat> := Silent(s, cfg, now), {};
      SilentAre(s, cfg, now, todo);
      NoPings(pings, now);
      NoneUnderway(silent, pings.Keys, todo);
      while todo != {}
        invariant pings == WithPings(s.pings, pinged, now) && log == s.log + PingLines(pinged)
        invariant pings.Keys == s.pings.Keys + pinged && Underway(silent, s.pings.Keys, pinged, todo)
      {
        var id :| id in todo;
        OneMoreUnderway(silent, s.pings.Keys, pinged, todo, id);
        todo := todo - {id};
        if id !in pings {
          OneMorePing(s.pings, pinged, id, now);
          OneMorePingLine(pinged, id);
          pings := pings[id := now];
          log := log + multiset{Sent(id, Ping)};
          pinged := pinged + {id};
        }
      }
      AllUnderway(silent, s.pings.Keys, pinged);
      PingedAll(s, cfg, now);
      PingSilentKeeps(cfg, s, now);
    }

    // ---- channels ----

    /** Enter both sides of a membership. */
    method EnterChannel(id: nat, u: Cx, ck: string, c: Chn)
      requires Findable() && id in Ids(View()) && u == Rec(View(), id)
      modifies this
      ensures View() == Enrol(old(View()), id, ck, c)
    {
      hide Filed;
      Store(id, u.(chans := u.chans + {ck}));
      chans := chans[ck := c.(members := c.members + {id})];
    }

    method JoinOne(id: nat, raw: string, key: string, founders: map<string, string>, clock: nat)
      requires Valid() && id in where
      modifies this
      ensures Valid() && where == old(where) && View() == ServerModel.JoinOne(old(View()), id, raw, key, founders, clock)
    {
      hide Mirrored, Filed, MarksOk, WelcomeOk, QuitsOk, Steady, Grows, Barred, Enrol, Founds, Admitting, Created;
      JoinOneKeeps(cfg, View(), id, raw, key, founders, clock);
      if !ValidChannel(raw) {
        return;
      }
      var ck := NormNick(raw);
      var cx := FindById(id);
      var u := cx.value;
      var founder := Founds(founders, ck, u.info.account);
      if ck in chans {
        var c := chans[ck];
        if Barred(c, u, key) || id in c.members || |u.chans| >= MaxChannels {
          return;
        }
        EnterChannel(id, u, ck, Admitting(c, id, founder));
      } else if |u.chans| < MaxChannels {
        EnterChannel(id, u, ck, Created(raw, id, clock, ck !in founders || founder));
      }
    }

    method HandleJoin(id: nat, list: Option<string>, keys: Option<string>, founders: map<string, string>, clock: nat)
      requires Valid() && Registered(View(), id)
      modifies this
      ensures Valid()
      ensures View() == if list.None? then old(View()) else JoinAll(old(View()), id, JoinEntries(list.value, keys), founders, clock)
    {
      hide Filed, Mirrored, MarksOk, WelcomeOk, QuitsOk, ServerModel.JoinOne, ChannelNames;
      if list.None? {
        return;
      }
      ghost var s := View();
      RecFacts(s, id);
      var names := ChannelNames(list.value);
      ghost var entries := JoinEntries(list.value, keys);
      var i := 0;
      while i < |names|
        invariant 0 <= i <= |names| && Valid() && id in where
        invariant JoinAll(View(), id, entries[i..], founders, clock) == JoinAll(s, id, entries, founders, clock)
      {
        assert entries[i..][0] == entries[i] && entries[i..][1..] == entries[i+1..];
        JoinOne(id, names[i], KeyAt(keys, i), founders, clock);
        i := i + 1;
      }
    }

    method LeaveChannel(id: nat, ck: string)
      requires Valid() && id in where && ck in chans && id in chans[ck].members
      modifies this
      ensures Valid() && View() == Withdraw(old(View()), id, ck) && where == old(where)
    {
      hide Mirrored, MarksOk, WelcomeOk, QuitsOk, Steady, Shrinks;
      ghost var s := View();
      RecFacts(s, id);
      WithdrawKeeps(cfg, s, id, ck);
      var cx := FindById(id);
      Store(id, cx.value.(chans := cx.value.chans - {ck}));
      chans := chans[ck := WithoutMember(chans[ck], id)];
    }

    method HandlePart(id: nat, list: Option<string>)
      requires Valid() && Registered(View(), id)
      modifies this
      ensures Valid()
      ensures View() == if list.None? then old(View()) else ServerModel.HandlePart(old(View()), id, ChannelNames(list.value))
    {
      hide Filed, Mirrored, MarksOk, WelcomeOk, QuitsOk, Withdraw, DropEmpty, Steady, Shrinks, ChannelNames;
      if list.None? {
        return;
      }
      ghost var s := View();
      var names := ChannelNames(list.value);
      RecFacts(s, id);
      var i := 0;
      while i < |names|
        invariant 0 <= i <= |names| && Valid() && id in where
        invariant PartAll(View(), id, names[i..]) == PartAll(s, id, names)
      {
        assert names[i..][0] == names[i] && names[i..][1..] == names[i+1..];
        var ck := NormNick(names[i]);
        if ck in chans && id in chans[ck].members {
          LeaveChannel(id, ck);
        }
        i := i + 1;
      }
      DropEmptyKeeps(cfg, View());
      DropEmptyChannels();
    }

    method HandleKick(id: nat, raw: string, target: string, now: nat)
      requires Valid()
      modifies this
      ensures Valid() && View() == ServerModel.HandleKick(old(View()), id, raw, target, now)
    {
      hide Filed, MarksOk, WelcomeOk, QuitsOk, Withdraw, DropEmpty, Steady, Shrinks, ServerModel.Lookup;
      var ck := NormNick(raw);
      if ck !in chans || id !in chans[ck].members {
        return;
      }
      var t := Lookup(NormNick(target), now);
      if t.None? || t.value.id == 0 || t.value.id !in chans[ck].members {
        return;
      }
      if t.value.id != id && id !in chans[ck].modes.ops {
        return;
      }
      LeaveChannel(t.value.id, ck);
      DropEmptyKeeps(cfg, View());
      DropEmptyChannels();
    }

    /** FMODE: ignored from the losing side of a timestamp conflict; `modes` is what it makes of ours. */
    method ApplyRemoteMode(chan: string, ts: nat, modes: Modes, ghost now: nat)
      requires Valid()
      modifies this
      ensures Valid() && View() == Step(old(View()), cfg, now, RemoteMode(chan, ts, modes))
    {
      hide Inv, Step, Moves, Leavers, NormNick, ValidChannel;
      StepMoves(cfg, View(), now, RemoteMode(chan, ts, modes));
      StepEdits(cfg, View(), now, RemoteMode(chan, ts, modes));
      if !ValidChannel(chan) {
        return;
      }
      var ck := NormNick(chan);
      if ck !in chans {
        return;
      }
      if ts > chans[ck].createdAt && chans[ck].createdAt != 0 {
        return;
      }
      chans := chans[ck := chans[ck].(modes := modes)];
    }

    /** FJOIN: enter the remote members, then settle the timestamp conflict. */
    method AdoptRemoteChannel(chan: string, ts: nat, members: seq<string>)
      requires Valid()
      modifies this`net, this`chans
      ensures Valid() && View() == ChannelJoin(old(View()), chan, ts, members)
    {
      hide Inv, SameQuits, SameStanding, NoNewMarks, Adopts, NormNick;
      AdoptKeeps(cfg, View(), chan, ts, members);
      var ck := NormNick(chan);
      ghost var n0 := net;
      var i := 0;
      while i < |members|
        invariant 0 <= i <= |members| && chans == old(chans)
        invariant EnterRemote(net, ck, members[i..]) == EnterRemote(n0, ck, members)
      {
        assert members[i..][0] == members[i] && members[i..][1..] == members[i+1..];
        if members[i] in net.users {
          var u := net.users[members[i]];
          net := net.(users := net.users[members[i] := u.(chans := u.chans + {ck})]);
        }
        i := i + 1;
      }
      if ck in chans {
        if chans[ck].createdAt > ts {
          chans := chans[ck := chans[ck].(createdAt := ts, modes := NoModes)];
        }
      } else {
        chans := chans[ck := Chn(chan, ts, NoModes, {}, {})];
      }
    }
  }
}
