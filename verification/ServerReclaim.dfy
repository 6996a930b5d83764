/** What the reclaim timer brings about: who ends up with the nick of an evicted holder. */
module ServerReclaim {
  import opened Basics
  import opened Names
  import opened ServerModel
  import opened ServerInvariant
  import opened ServerRegistration
  import opened ServerDepartures
  import opened ServerSteps
  import opened ServerRuns
  import opened ServerEffects

  // ---- who may have the nick ----

  /** Waits to register under this key, with nothing missing. */
  ghost predicate Waiting(cfg: Config, s: State, id: nat, key: string) {
    && id in s.unreg && s.unreg[id].info.pendingNick.Some? && NormNick(s.unreg[id].info.pendingNick.value) == key
    && s.unreg[id].info.pendingUser.Some? && Cleared(cfg, s.unreg[id])
  }

  /** Whoever is named here and still has a nick to register under has one with this key. */
  ghost predicate PairsAsk(s: State, pairs: seq<(nat, string)>, key: string) {
    forall i :: 0 <= i < |pairs| && pairs[i].0 in s.unreg && s.unreg[pairs[i].0].info.pendingNick.Some? ==>
      NormNick(s.unreg[pairs[i].0].info.pendingNick.value) == key
  }

  ghost predicate RenamesAsk(pairs: seq<(nat, string)>, key: string) {
    forall i :: 0 <= i < |pairs| ==> NormNick(pairs[i].1) == key
  }

  /** The nick leads, now or by a recent rename, to somebody who is being reclaimed. */
  ghost predicate Reclaimed(s: State, key: string, now: nat) {
    var occ := Lookup(s, key, now); occ.Some? && occ.value.id in s.marks
  }

  // ---- pairings ----

  /** Nobody is registered or renamed, and whoever waits still waits for the same. */
  ghost predicate StillWait(s: State, s': State) {
    && s'.users == s.users && s'.where == s.where && s'.history == s.history && s'.marks == s.marks
    && s'.unreg.Keys == s.unreg.Keys && (forall j :: j in s.unreg ==> SameWait(s'.unreg[j], s.unreg[j]))
    && (forall p, n :: s'.log[Sent(p, InUse(n))] >= s.log[Sent(p, InUse(n))])
  }

  predicate SameWait(a: Cx, b: Cx) {
    a.info == b.info && a.gate.verified == b.gate.verified && a.gate.negotiating == b.gate.negotiating
  }

  /** Besides, nobody is refused. */
  ghost predicate Idles(s: State, s': State) {
    StillWait(s, s') && forall p, n :: s'.log[Sent(p, InUse(n))] == s.log[Sent(p, InUse(n))]
  }

  lemma IdlesTrans(a: State, b: State, c: State)
    requires Idles(a, b) && Idles(b, c)
    ensures Idles(a, c)
  {
  }

  lemma SameWaiting(cfg: Config, s: State, s': State, key: string)
    requires StillWait(s, s')
    ensures forall id :: Waiting(cfg, s', id, key) == Waiting(cfg, s, id, key)
    ensures forall id :: Waiting(cfg, s, id, key) ==> id in s.unreg && s'.unreg[id].info == s.unreg[id].info
  {
    hide NormNick;
  }

  lemma SameReclaimed(s: State, s': State, key: string, now: nat)
    requires StillWait(s, s')
    ensures Reclaimed(s', key, now) == Reclaimed(s, key, now)
  {
    ResolveFrame(s, s', key, now, 8);
  }

  lemma StillAsk(s: State, s': State, pairs: seq<(nat, string)>, key: string)
    requires StillWait(s, s') && PairsAsk(s, pairs, key)
    ensures PairsAsk(s', pairs, key)
  {
    hide NormNick;
  }

  lemma NotReady(cfg: Config, s: State, id: nat, now: nat)
    requires Inv(cfg, s) && id !in s.unreg
    ensures MaybeComplete(s, cfg, id, now) == s
  {
    hide Filed, Mirrored, MarksOk, QuitsOk, WelcomeOk, Lookup, Complete;
    if id in Ids(s) {
      RecFacts(s, id);
    }
  }

  lemma IssuedIdles(s: State, id: nat)
    requires id in s.unreg
    ensures Idles(s, IssueChallenge(s, id))
  {
    hide IssueChallenge;
    IssueIs(s, id);
  }

  lemma OneIdles(cfg: Config, s: State, id: nat, key: string, now: nat)
    requires Inv(cfg, s) && PairsAsk(s, [(id, "")], key) && (Reclaimed(s, key, now) || !Waiting(cfg, s, id, key))
    ensures Idles(s, MaybeComplete(s, cfg, id, now))
  {
    hide Filed, Mirrored, MarksOk, QuitsOk, WelcomeOk, Lookup, Complete, IssueChallenge, NormNick;
    if id !in s.unreg {
      NotReady(cfg, s, id, now);
    } else {
      WaitingFacts(cfg, s, id);
      IssuedIdles(s, id);
      assert [(id, "")][0].0 == id;
    }
  }

  lemma {:induction false} NoneComplete(cfg: Config, s: State, pairs: seq<(nat, string)>, key: string, now: nat)
    requires Inv(cfg, s) && PairsAsk(s, pairs, key)
    requires Reclaimed(s, key, now) || forall i :: 0 <= i < |pairs| ==> !Waiting(cfg, s, pairs[i].0, key)
    ensures var s' := CompleteAll(s, cfg, pairs, now); Inv(cfg, s') && Idles(s, s')
    decreases |pairs|
  {
    hide Inv, StillWait, Waiting, Reclaimed, MaybeComplete, Calm, NormNick;
    if pairs == [] {
      IdlesSelf(s);
    } else {
      var s1 := MaybeComplete(s, cfg, pairs[0].0, now);
      AskOne(s, pairs, key);
      OneIdles(cfg, s, pairs[0].0, key, now);
      MaybeCompleteKeeps(cfg, s, pairs[0].0, now);
      SameWaiting(cfg, s, s1, key);
      SameReclaimed(s, s1, key, now);
      StillAsk(s, s1, pairs[1..], key);
      NoneComplete(cfg, s1, pairs[1..], key, now);
      IdlesTrans(s, s1, CompleteAll(s, cfg, pairs, now));
    }
  }

  lemma IdlesSelf(s: State)
    ensures Idles(s, s)
  {
  }

  lemma AskOne(s: State, pairs: seq<(nat, string)>, key: string)
    requires PairsAsk(s, pairs, key) && pairs != []
    ensures PairsAsk(s, [(pairs[0].0, "")], key) && PairsAsk(s, pairs[1..], key)
  {
    hide NormNick;
  }

  /** Told at least once that the nick it waited for is in use. */
  ghost predicate ToldTaken(s: State, s': State, id: nat) {
    && id in s.unreg && s.unreg[id].info.pendingNick.Some?
    && var n := s.unreg[id].info.pendingNick.value; s'.log[Sent(id, InUse(n))] > s.log[Sent(id, InUse(n))]
  }

  ghost predicate OthersTold(cfg: Config, s: State, s': State, pairs: seq<(nat, string)>, key: string, id: nat) {
    forall j :: 0 <= j < |pairs| && Waiting(cfg, s, pairs[j].0, key) && pairs[j].0 != id ==> ToldTaken(s, s', pairs[j].0)
  }

  /** Once the nick is held, everybody else who waited for it is told so. */
  ghost predicate Tells(cfg: Config, s: State, s': State, pairs: seq<(nat, string)>, key: string) {
    && s'.users == s.users && s'.where == s.where && s'.history == s.history && s'.marks == s.marks
    && (forall p, n :: s'.log[Sent(p, InUse(n))] >= s.log[Sent(p, InUse(n))])
    && (forall i :: 0 <= i < |pairs| && Waiting(cfg, s, pairs[i].0, key) ==> ToldTaken(s, s', pairs[i].0))
  }

  lemma {:induction false} AllTold(cfg: Config, s: State, pairs: seq<(nat, string)>, key: string, now: nat)
    requires Inv(cfg, s) && key in s.users && s.users[key].id !in s.marks && PairsAsk(s, pairs, key)
    ensures var s' := CompleteAll(s, cfg, pairs, now); Inv(cfg, s') && Tells(cfg, s, s', pairs, key)
    decreases |pairs|
  {
    hide Inv, Idles, Waiting, MaybeComplete, Calm, NormNick;
    if pairs != [] {
      var id := pairs[0].0;
      var s1 := MaybeComplete(s, cfg, id, now);
      AskOne(s, pairs, key);
      MaybeCompleteKeeps(cfg, s, id, now);
      OneTold(cfg, s, id, key, now);
      SameWaiting(cfg, s, s1, key);
      StillAsk(s, s1, pairs[1..], key);
      AllTold(cfg, s1, pairs[1..], key, now);
    }
  }

  lemma OneTold(cfg: Config, s: State, id: nat, key: string, now: nat)
    requires Inv(cfg, s) && key in s.users && s.users[key].id !in s.marks && PairsAsk(s, [(id, "")], key)
    ensures var s' := MaybeComplete(s, cfg, id, now);
      && StillWait(s, s')
      && (Waiting(cfg, s, id, key) ==> ToldTaken(s, s', id))
  {
    hide Filed, Mirrored, MarksOk, QuitsOk, WelcomeOk, Complete, IssueChallenge, NormNick;
    if id !in s.unreg {
      NotReady(cfg, s, id, now);
    } else {
      WaitingFacts(cfg, s, id);
      IssuedIdles(s, id);
      assert [(id, "")][0].0 == id;
      if Waiting(cfg, s, id, key) {
        CompleteTaken(s, id, s.unreg[id].info.pendingNick.value, s.unreg[id].info.pendingUser.value);
      }
    }
  }

  lemma {:induction false} CompleteAllSplit(cfg: Config, s: State, a: seq<(nat, string)>, b: seq<(nat, string)>, now: nat)
    ensures CompleteAll(s, cfg, a + b, now) == CompleteAll(CompleteAll(s, cfg, a, now), cfg, b, now)
    decreases |a|
  {
    hide MaybeComplete;
    if a == [] {
      assert a + b == b;
    } else {
      assert (a + b)[1..] == a[1..] + b;
      CompleteAllSplit(cfg, MaybeComplete(s, cfg, a[0].0, now), a[1..], b, now);
    }
  }

  /** The first of these pairs whose connection waits for the nick with nothing missing. */
  ghost predicate FirstWaiting(cfg: Config, s: State, pairs: seq<(nat, string)>, key: string, i: nat) {
    i < |pairs| && Waiting(cfg, s, pairs[i].0, key) && forall j :: 0 <= j < i ==> !Waiting(cfg, s, pairs[j].0, key)
  }

  /** Registered under a key that was free, as it asked; everybody else stays where they were. */
  ghost predicate Gets(s: State, s': State, id: nat, nick: string) {
    && s'.where == s.where[id := NormNick(nick)] && NormNick(nick) in s'.users
    && s'.users[NormNick(nick)].id == id && s'.users[NormNick(nick)].info.nick == nick
  }

  lemma FirstCompletes(cfg: Config, s: State, pairs: seq<(nat, string)>, key: string, now: nat, i: nat)
    requires Inv(cfg, s) && key !in s.users && !Reclaimed(s, key, now) && PairsAsk(s, pairs, key) && FirstWaiting(cfg, s, pairs, key, i)
    requires pairs[i].0 !in s.marks
    ensures var s', id := CompleteAll(s, cfg, pairs, now), pairs[i].0;
      && Inv(cfg, s') && Gets(s, s', id, s.unreg[id].info.pendingNick.value)
      && s'.users[key].info.user == s.unreg[id].info.pendingUser.value
      && OthersTold(cfg, s, s', pairs, key, id)
  {
    hide Inv, StillWait, Waiting, Reclaimed, MaybeComplete, CompleteAll, Calm, NormNick, PairsAsk;
    var id, a, b := pairs[i].0, pairs[..i], pairs[i + 1..];
    assert pairs == a + ([pairs[i]] + b) && pairs[i..] == [pairs[i]] + b && a + pairs[i..] == pairs;
    CompleteAllSplit(cfg, s, a, pairs[i..], now);
    AskPart(s, pairs, key, i);
    NoneComplete(cfg, s, a, key, now);
    var s1 := CompleteAll(s, cfg, a, now);
    SameWaiting(cfg, s, s1, key);
    SameReclaimed(s, s1, key, now);
    StillAsk(s, s1, pairs[i..], key);
    IdlesFrame(s, s1);
    ThenRest(cfg, s1, pairs[i..], key, now);
    ToldFrom(cfg, s, s1, CompleteAll(s, cfg, pairs, now), pairs, key, i);
  }

  lemma ToldFrom(cfg: Config, s: State, s1: State, s': State, pairs: seq<(nat, string)>, key: string, i: nat)
    requires FirstWaiting(cfg, s, pairs, key, i) && Idles(s, s1) && OthersTold(cfg, s1, s', pairs[i..], key, pairs[i].0)
    ensures OthersTold(cfg, s, s', pairs, key, pairs[i].0)
  {
    hide NormNick;
    forall j | 0 <= j < |pairs| && Waiting(cfg, s, pairs[j].0, key) && pairs[j].0 != pairs[i].0
      ensures ToldTaken(s, s', pairs[j].0)
    {
      assert j > i && pairs[j] == pairs[i..][j - i];
      assert Waiting(cfg, s1, pairs[i..][j - i].0, key);
    }
  }

  lemma IdlesFrame(s: State, s': State)
    requires Idles(s, s')
    ensures s'.users == s.users && s'.where == s.where && s'.marks == s.marks
    ensures forall p, n :: s'.log[Sent(p, InUse(n))] == s.log[Sent(p, InUse(n))]
  {
  }

  lemma AskPart(s: State, pairs: seq<(nat, string)>, key: string, i: nat)
    requires PairsAsk(s, pairs, key) && i <= |pairs|
    ensures PairsAsk(s, pairs[..i], key) && PairsAsk(s, pairs[i..], key)
  {
    hide NormNick;
  }

  lemma CompleteAllNext(cfg: Config, s: State, pairs: seq<(nat, string)>, now: nat)
    requires pairs != []
    ensures CompleteAll(s, cfg, pairs, now) == CompleteAll(MaybeComplete(s, cfg, pairs[0].0, now), cfg, pairs[1..], now)
  {
  }

  /** The first to wait registers, and the rest are told. */
  lemma ThenRest(cfg: Config, s: State, pairs: seq<(nat, string)>, key: string, now: nat)
    requires Inv(cfg, s) && key !in s.users && !Reclaimed(s, key, now) && PairsAsk(s, pairs, key)
    requires pairs != [] && Waiting(cfg, s, pairs[0].0, key) && pairs[0].0 !in s.marks
    ensures var s', id := CompleteAll(s, cfg, pairs, now), pairs[0].0;
      && Inv(cfg, s') && Gets(s, s', id, s.unreg[id].info.pendingNick.value)
      && s'.users[key].info.user == s.unreg[id].info.pendingUser.value
      && OthersTold(cfg, s, s', pairs, key, id)
  {
    hide Inv, MaybeComplete, CompleteAll, Calm, NormNick, Lookup;
    var id := pairs[0].0;
    var nick, user := s.unreg[id].info.pendingNick.value, s.unreg[id].info.pendingUser.value;
    CompleteAllNext(cfg, s, pairs, now);
    WaitingFacts(cfg, s, id);
    MaybeCompleteKeeps(cfg, s, id, now);
    var s1 := MaybeComplete(s, cfg, id, now);
    RegistersNow(cfg, s, id, now, nick, user);
    AllTold(cfg, s1, pairs[1..], key, now);
    forall j | 0 <= j < |pairs| && Waiting(cfg, s, pairs[j].0, key) && pairs[j].0 != id
      ensures ToldTaken(s, CompleteAll(s, cfg, pairs, now), pairs[j].0)
    {
      assert pairs[1..][j - 1] == pairs[j];
      assert Waiting(cfg, s1, pairs[j].0, key);
    }
  }

  /** A complete pairing for a free nick, and what it leaves of the rest. */
  lemma RegistersNow(cfg: Config, s: State, id: nat, now: nat, nick: string, user: string)
    requires Inv(cfg, s) && id in s.unreg && Cleared(cfg, s.unreg[id]) && NormNick(nick) !in s.users && !Reclaimed(s, NormNick(nick), now)
    requires s.unreg[id].info.pendingNick == Some(nick) && s.unreg[id].info.pendingUser == Some(user)
    ensures var s', key := MaybeComplete(s, cfg, id, now), NormNick(nick);
      && Gets(s, s', id, nick) && s'.users[key].info.user == user && s'.marks == s.marks && s'.unreg == s.unreg - {id}
      && forall p, n :: s'.log[Sent(p, InUse(n))] == s.log[Sent(p, InUse(n))]
  {
    hide Inv, Complete, NormNick, Lookup;
    WaitingFacts(cfg, s, id);
    CompleteFiles(s, id, nick, user);
  }

  // ---- renames ----

  /** Renames only a registered connection, to a valid nick. */
  ghost predicate Renames(s: State, p: (nat, string)) {
    p.0 in s.where && ValidNick(p.1)
  }

  ghost predicate FirstRenames(s: State, pairs: seq<(nat, string)>, i: nat) {
    i < |pairs| && Renames(s, pairs[i]) && forall j :: 0 <= j < i ==> !Renames(s, pairs[j])
  }

  lemma {:induction false} NoneRenames(cfg: Config, s: State, pairs: seq<(nat, string)>, key: string, now: nat)
    requires Inv(cfg, s) && RenamesAsk(pairs, key)
    requires key in s.users || forall i :: 0 <= i < |pairs| ==> !Renames(s, pairs[i])
    ensures RenameAll(s, pairs, now) == s
    decreases |pairs|
  {
    hide Filed, Mirrored, MarksOk, QuitsOk, WelcomeOk, ApplyRename, NormNick, ValidNick;
    if pairs != [] {
      if Registered(s, pairs[0].0) {
        RecFacts(s, pairs[0].0);
      }
      assert Renames(s, pairs[0]) ==> key in s.users;
      NoneRenames(cfg, s, pairs[1..], key, now);
    }
  }

  lemma {:induction false} RenameAllSplit(s: State, a: seq<(nat, string)>, b: seq<(nat, string)>, now: nat)
    ensures RenameAll(s, a + b, now) == RenameAll(RenameAll(s, a, now), b, now)
    decreases |a|
  {
    hide FinishRename;
    if a == [] {
      assert a + b == b;
    } else {
      assert (a + b)[1..] == a[1..] + b;
      RenameAllSplit(FinishRename(s, a[0].0, a[0].1, now), a[1..], b, now);
    }
  }

  lemma FirstRenamed(cfg: Config, s: State, pairs: seq<(nat, string)>, key: string, now: nat, i: nat)
    requires Inv(cfg, s) && key !in s.users && RenamesAsk(pairs, key) && FirstRenames(s, pairs, i)
    ensures Gets(s, RenameAll(s, pairs, now), pairs[i].0, pairs[i].1)
  {
    hide Filed, Mirrored, MarksOk, QuitsOk, WelcomeOk, ApplyRename, NormNick, ValidNick, RenameAll, Calm;
    var p, a, b := pairs[i], pairs[..i], pairs[i + 1..];
    assert pairs == a + ([p] + b);
    RenameAllSplit(s, a, [p] + b, now);
    RenameAllSplit(s, [p], b, now);
    NoneRenames(cfg, s, a, key, now);
    RecFacts(s, p.0);
    var s1 := FinishRename(s, p.0, p.1, now);
    assert NormNick(p.1) == key;
    RenameOne(s, p, now);
    RenameRec(s, p.0, p.1, now);
    RenameKeeps(cfg, s, p.0, p.1, now);
    RecFacts(s1, p.0);
    NoneRenames(cfg, s1, b, key, now);
  }

  lemma RenameOne(s: State, p: (nat, string), now: nat)
    ensures RenameAll(s, [p], now) == FinishRename(s, p.0, p.1, now)
  {
    hide FinishRename;
    assert [p][1..] == [];
  }

  // ---- one marker ----

  /** The registered connections but one. */
  function Others(users: map<string, Cx>, h: nat): map<string, Cx> {
    map k | k in users && users[k].id != h :: users[k]
  }

  lemma EvictedIs(cfg: Config, s: State, h: nat)
    requires Inv(cfg, s) && h in s.marks && h !in s.unreg
    ensures var s1 := LoseAndEvict(s.(marks := s.marks - {h}, pings := s.pings - {h}), h);
      && Inv(cfg, s1) && s1.users == Others(s.users, h) && s1.unreg == s.unreg && s1.where == s.where - {h}
      && s1.history == s.history && s1.marks == s.marks - {h}
      && forall p, n :: s1.log[Sent(p, InUse(n))] == s.log[Sent(p, InUse(n))]
  {
    hide Filed, Mirrored, MarksOk, QuitsOk, WelcomeOk, LoseAndEvict, Leaves, QuitLines, Removed;
    var s0 := s.(marks := s.marks - {h}, pings := s.pings - {h});
    LosePinged(cfg, s, h, s0);
    LoseIsRemoved(s0, h);
    QuitLinesCount(s0, h);
    RemovedUsers(s0, h, QuitLines(s0, h));
    RemovedFrame(s0, h, QuitLines(s0, h));
  }

  lemma RemovedUsers(s: State, h: nat, lines: multiset<Sent>)
    requires TablesOk(s) && h !in s.unreg
    ensures var s1 := Removed(s, h, lines);
      s1.users == Others(s.users, h) && s1.unreg == s.unreg && s1.where == s.where - {h} && s1.history == s.history
  {
    hide Mirrored, WithoutEverywhere;
  }

  /** Once the holder is gone the nick leads, by a recent rename, to somebody else who is being reclaimed. */
  ghost predicate LeadsToMarked(s: State, h: nat, key: string, now: nat) {
    Reclaimed(s.(users := Others(s.users, h)), key, now)
  }

  /** The first of the renames held back that a live connection other than the holder can still take. */
  ghost predicate FirstToTake(s: State, h: nat, pairs: seq<(nat, string)>, i: nat) {
    && i < |pairs| && pairs[i].0 != h && Renames(s, pairs[i])
    && forall j :: 0 <= j < i ==> pairs[j].0 == h || !Renames(s, pairs[j])
  }

  /** Nobody but the holder has this nick, and everybody held back asks for it. */
  ghost predicate AllAskFor(s: State, h: nat, key: string) {
    && h in s.marks && (key in s.users ==> s.users[key].id == h)
    && PairsAsk(s, s.marks[h].pairings, key) && RenamesAsk(s.marks[h].renames, key)
  }

  /** The nick goes to this connection; the holder is gone, and nobody else moves. */
  ghost predicate PassesTo(s: State, s': State, h: nat, key: string, id: nat) {
    s'.where == (s.where - {h})[id := key] && key in s'.users && s'.users[key].id == id
  }

  ghost predicate PairingTakes(cfg: Config, s: State, s': State, h: nat, key: string, i: nat)
    requires h in s.marks
  {
    var pairs := s.marks[h].pairings;
    && FirstWaiting(cfg, s, pairs, key, i) && PassesTo(s, s', h, key, pairs[i].0)
    && Some(s'.users[key].info.nick) == s.unreg[pairs[i].0].info.pendingNick
    && Some(s'.users[key].info.user) == s.unreg[pairs[i].0].info.pendingUser
    && OthersTold(cfg, s, s', pairs, key, pairs[i].0)
  }

  ghost predicate RenameTakes(s: State, s': State, h: nat, key: string, i: nat)
    requires h in s.marks
  {
    var pairs := s.marks[h].renames;
    FirstToTake(s, h, pairs, i) && PassesTo(s, s', h, key, pairs[i].0) && s'.users[key].info.nick == pairs[i].1
  }

  ghost predicate SomeoneWaits(cfg: Config, s: State, h: nat, key: string, now: nat)
    requires h in s.marks
  {
    !LeadsToMarked(s, h, key, now) && exists j :: 0 <= j < |s.marks[h].pairings| && Waiting(cfg, s, s.marks[h].pairings[j].0, key)
  }

  ghost predicate SomeoneRenames(s: State, h: nat)
    requires h in s.marks
  {
    exists j :: 0 <= j < |s.marks[h].renames| && s.marks[h].renames[j].0 != h && Renames(s, s.marks[h].renames[j])
  }

  /**
   * What becomes of the nick when its holder's marker runs out: the first pairing that waits for it with nothing
   * missing has it, or else the first rename that is still possible, or else nobody.
   */
  ghost predicate HandsOver(cfg: Config, s: State, s': State, h: nat, key: string, now: nat)
    requires h in s.marks
  {
    if SomeoneWaits(cfg, s, h, key, now) then exists i: nat :: PairingTakes(cfg, s, s', h, key, i)
    else if SomeoneRenames(s, h) then exists i: nat :: RenameTakes(s, s', h, key, i)
    else s'.where == s.where - {h} && key !in s'.users
  }

  lemma {:induction false} FirstWaiter(cfg: Config, s: State, pairs: seq<(nat, string)>, key: string,
          j: nat) returns (i: nat)
    requires j < |pairs| && Waiting(cfg, s, pairs[j].0, key)
    ensures FirstWaiting(cfg, s, pairs, key, i)
    decreases j
  {
    hide Waiting;
    if m :| 0 <= m < j && Waiting(cfg, s, pairs[m].0, key) {
      i := FirstWaiter(cfg, s, pairs, key, m);
    } else {
      i := j;
    }
  }

  lemma {:induction false} FirstTaker(s: State, h: nat, pairs: seq<(nat, string)>, j: nat) returns (i: nat)
    requires j < |pairs| && pairs[j].0 != h && Renames(s, pairs[j])
    ensures FirstToTake(s, h, pairs, i)
    decreases j
  {
    hide Renames;
    if m :| 0 <= m < j && pairs[m].0 != h && Renames(s, pairs[m]) {
      i := FirstTaker(s, h, pairs, m);
    } else {
      i := j;
    }
  }

  lemma EvictedSame(cfg: Config, s: State, s1: State, h: nat, key: string, now: nat)
    requires s1.users == Others(s.users, h) && s1.unreg == s.unreg && s1.where == s.where - {h}
    requires s1.history == s.history && s1.marks == s.marks - {h}
    ensures forall id :: Waiting(cfg, s1, id, key) == Waiting(cfg, s, id, key)
    ensures forall p :: Renames(s1, p) <==> p.0 != h && Renames(s, p)
    ensures Reclaimed(s1, key, now) == LeadsToMarked(s, h, key, now)
  {
    hide NormNick, ValidNick;
    ResolveFrame(s.(users := Others(s.users, h)), s1, key, now, 8);
  }

  lemma MarkHandsOver(cfg: Config, s: State, h: nat, key: string, now: nat)
    requires Inv(cfg, s) && AllAskFor(s, h, key) && s.marks.Keys !! s.unreg.Keys
    ensures HandsOver(cfg, s, ResolveMark(s, cfg, h, now), h, key, now)
  {
    hide Inv, LoseAndEvict, CompleteAll, RenameAll, NormNick, ValidNick, Waiting, Renames, Reclaimed, LeadsToMarked,
      OthersTold, PairsAsk, RenamesAsk, Gets;
    var pairs, renames := s.marks[h].pairings, s.marks[h].renames;
    var s1 := LoseAndEvict(s.(marks := s.marks - {h}, pings := s.pings - {h}), h);
    var s2 := CompleteAll(s1, cfg, pairs, now);
    EvictedIs(cfg, s, h);
    EvictedSame(cfg, s, s1, h, key, now);
    AskAfter(s, s1, pairs, key);
    if SomeoneWaits(cfg, s, h, key, now) {
      var j :| 0 <= j < |pairs| && Waiting(cfg, s, pairs[j].0, key);
      var i := FirstWaiter(cfg, s, pairs, key, j);
      WaitingIs(cfg, s, pairs[i].0, key);
      FirstCompletes(cfg, s1, pairs, key, now, i);
      GetsFacts(s1, s2, pairs[i].0, s1.unreg[pairs[i].0].info.pendingNick.value);
      NoneRenames(cfg, s2, renames, key, now);
      ToldAfter(cfg, s, s1, s2, pairs, key, pairs[i].0);
      assert PairingTakes(cfg, s, s2, h, key, i);
    } else {
      NoneComplete(cfg, s1, pairs, key, now);
      IdlesFrame(s1, s2);
      if SomeoneRenames(s, h) {
        var j :| 0 <= j < |renames| && renames[j].0 != h && Renames(s, renames[j]);
        var i := FirstTaker(s, h, renames, j);
        SameRenames(s1, s2);
        FirstRenamed(cfg, s2, renames, key, now, i);
        GetsFacts(s2, RenameAll(s2, renames, now), renames[i].0, renames[i].1);
        AskKey(renames, key, i);
        assert RenameTakes(s, RenameAll(s2, renames, now), h, key, i);
      } else {
        SameRenames(s1, s2);
        NoneRenames(cfg, s2, renames, key, now);
      }
    }
  }

  lemma AskKey(pairs: seq<(nat, string)>, key: string, i: nat)
    requires RenamesAsk(pairs, key) && i < |pairs|
    ensures NormNick(pairs[i].1) == key
  {
  }

  lemma SameRenames(s: State, t: State)
    requires t.where == s.where
    ensures forall p :: Renames(t, p) == Renames(s, p)
  {
  }

  lemma WaitingIs(cfg: Config, s: State, id: nat, key: string)
    requires Waiting(cfg, s, id, key)
    ensures id in s.unreg && s.unreg[id].info.pendingNick.Some? && s.unreg[id].info.pendingUser.Some?
    ensures NormNick(s.unreg[id].info.pendingNick.value) == key
  {
  }

  lemma GetsFacts(s: State, s': State, id: nat, nick: string)
    requires Gets(s, s', id, nick)
    ensures var key := NormNick(nick);
      s'.where == s.where[id := key] && key in s'.users && s'.users[key].id == id && s'.users[key].info.nick == nick
  {
  }

  lemma AskAfter(s: State, s1: State, pairs: seq<(nat, string)>, key: string)
    requires s1.unreg == s.unreg && PairsAsk(s, pairs, key)
    ensures PairsAsk(s1, pairs, key)
  {
    hide NormNick;
  }

  lemma ToldAfter(cfg: Config, s: State, s1: State, s': State, pairs: seq<(nat, string)>, key: string, id: nat)
    requires s1.unreg == s.unreg && OthersTold(cfg, s1, s', pairs, key, id)
    requires forall p, n :: s1.log[Sent(p, InUse(n))] == s.log[Sent(p, InUse(n))]
    ensures OthersTold(cfg, s, s', pairs, key, id)
  {
    hide NormNick;
  }

  /**
   * In every run, when the reclaim timer takes one marker whose holder alone stands in the way of a nick everybody
   * held back asks for, the holder is gone and the nick goes to the first of them who can still take it.
   */
  lemma ReclaimSettles(sid: string, cfg: Config, es: Trace, k: nat, h: nat, key: string)
    requires Feasible(sid, cfg, es) && k < |es| && es[k].1 == ReclaimTick([h]) && AllAskFor(At(sid, cfg, es, k), h, key)
    ensures HandsOver(cfg, At(sid, cfg, es, k), At(sid, cfg, es, k + 1), h, key, es[k].0)
  {
    hide Inv, Step, Moves, Leavers, Enabled, HandsOver, AllAskFor, ResolveMark;
    StepAt(sid, cfg, es, k);
    var s := At(sid, cfg, es, k);
    forall i | i in s.marks ensures i !in s.unreg {
      if i in s.unreg {
        MarkedRegistered(sid, cfg, es, k, i);
        WaitingFacts(cfg, s, i);
      }
    }
    AskedMarked(s, h, key);
    MarkHandsOver(cfg, s, h, key, es[k].0);
    StepTakesOne(s, cfg, es[k].0, h);
  }

  lemma AskedMarked(s: State, h: nat, key: string)
    requires AllAskFor(s, h, key)
    ensures h in s.marks
  {
  }

  lemma StepTakesOne(s: State, cfg: Config, now: nat, h: nat)
    requires h in s.marks
    ensures Step(s, cfg, now, ReclaimTick([h])) == ResolveMark(s, cfg, h, now)
  {
    hide ResolveMark, Command;
    assert [h][1..] == [];
    assert ResolveMarks(ResolveMark(s, cfg, h, now), cfg, [h][1..], now) == ResolveMark(s, cfg, h, now);
  }

  // ---- a nick that leads elsewhere ----

  function User(id: nat, nick: string): Cx {
    Cx(id, nick, true, {}, Gate(false, false, false, false), Info(nick, "u", "h", None, false, None, None, 0, 0))
  }

  /**
   * Connection 1 gave up the nick `a` for `b`, connection 2 took it, and connection 3 waits for it. Both 1 and 2 have
   * fallen silent and been marked, 2 first.
   */
  function Tangled(sid: string, now: nat): State {
    Init(sid).(
      users := map["b" := User(1, "b"), "a" := User(2, "a")], where := map[1 := "b", 2 := "a"],
      unreg := map[3 := Fresh(3, "h", 0).(info := Fresh(3, "h", 0).info.(pendingNick := Some("a"), pendingUser := Some("u")))],
      history := [Hist("a", "b", 1, 0)], pings := map[1 := 0, 2 := 0],
      marks := map[1 := Reclaim(now + 1, [], []), 2 := Reclaim(now, [(3, "a")], [])],
      seen := {1, 2, 3}, log := multiset{Sent(1, Welcome), Sent(2, Welcome)})
  }

  lemma TangledOk(sid: string, cfg: Config, now: nat)
    requires !cfg.challenge
    ensures Inv(cfg, Tangled(sid, now))
  {
    var s := Tangled(sid, now);
    assert forall i :: s.log[Sent(i, Welcome)] == if i == 1 || i == 2 then 1 else 0;
  }

  lemma TangledLeads(sid: string, now: nat)
    requires now <= 120_000
    ensures LeadsToMarked(Tangled(sid, now), 2, "a", now)
  {
    var s := Tangled(sid, now).(users := Others(Tangled(sid, now).users, 2));
    assert s.users == map["b" := User(1, "b")];
    assert LastHop(s.history, "a", now, 1) == Some("b");
  }

  /** Then the eviction of 2 does not give 3 the nick, although nobody holds it any more: it still leads to 1. */
  lemma HeldUpByRename(sid: string, cfg: Config, now: nat)
    requires !cfg.challenge && now <= 120_000
    ensures var s := Tangled(sid, now);
      var s' := Step(s, cfg, now, ReclaimTick([2]));
      && Inv(cfg, s) && Enabled(s, cfg, now, ReclaimTick([2])) && Waiting(cfg, s, 3, "a")
      && "a" !in s'.users && s'.where == map[1 := "b"]
  {
    hide Step, ResolveMark, Inv, LeadsToMarked;
    var s := Tangled(sid, now);
    TangledOk(sid, cfg, now);
    TangledLeads(sid, now);
    assert NormNick("a") == "a";
    assert Elements([2]) == {2} && Expired(s, now) == {2};
    MarkHandsOver(cfg, s, 2, "a", now);
    StepTakesOne(s, cfg, now, 2);
    assert s.where - {2} == map[1 := "b"];
  }

  // ---- several markers ----

  lemma StepTakes(s: State, cfg: Config, now: nat, order: seq<nat>)
    ensures Step(s, cfg, now, ReclaimTick(order)) == ResolveMarks(s, cfg, order, now)
  {
    hide ResolveMarks, Command;
  }

  lemma {:induction false} ResolveSplit(s: State, cfg: Config, a: seq<nat>, b: seq<nat>, now: nat)
    ensures ResolveMarks(s, cfg, a + b, now) == ResolveMarks(ResolveMarks(s, cfg, a, now), cfg, b, now)
    decreases |a|
  {
    hide ResolveMark;
    if a == [] {
      assert a + b == b;
    } else {
      assert (a + b)[1..] == a[1..] + b;
      ResolveSplit(if a[0] in s.marks then ResolveMark(s, cfg, a[0], now) else s, cfg, a[1..], b, now);
    }
  }

  /** A tick that takes several markers takes them in turn, each as if it were alone. */
  lemma TicksInTurn(s: State, cfg: Config, now: nat, a: seq<nat>, b: seq<nat>)
    ensures Step(s, cfg, now, ReclaimTick(a + b)) == Step(Step(s, cfg, now, ReclaimTick(a)), cfg, now, ReclaimTick(b))
  {
    hide Step, ResolveMarks;
    StepTakes(s, cfg, now, a + b);
    StepTakes(s, cfg, now, a);
    StepTakes(Step(s, cfg, now, ReclaimTick(a)), cfg, now, b);
    ResolveSplit(s, cfg, a, b, now);
  }
}
