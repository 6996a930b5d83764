/**
 * The connection, channel and nick-reclaim state machine. Everything runs behind one lock,
 * so each command, timer tick or link event is one function from state to state. Times are
 * in milliseconds; channel timestamps are Unix seconds.
 */
module ServerModel {
  import opened Basics
  import opened Names
  import opened Text
  import Glob
  import N = Network

  // ---- records ----

  /** The delivered lines the results below speak about. */
  datatype Line =
    | Quit(who: nat)
    | Welcome
    | InUse(nick: string)
    | Ping
    | Challenge
    | Renamed(who: nat, nick: string)

  datatype Sent = Sent(to: nat, line: Line)

  datatype Info = Info(
    nick: string, user: string, host: string, account: Option<string>, oper: bool,
    pendingNick: Option<string>, pendingUser: Option<string>, connectedAt: nat, lastRx: nat)

  /** CAP negotiation, the welcome withheld during it, and the registration challenge. */
  datatype Gate = Gate(negotiating: bool, gated: bool, challenged: bool, verified: bool)

  datatype Cx = Cx(
    id: nat, nickKey: string, registered: bool, chans: set<string>, gate: Gate, info: Info)

  datatype Modes = Modes(
    flags: set<char>, limit: nat, key: Option<string>,
    bans: seq<string>, excepts: seq<string>, invex: seq<string>,
    foreign: map<char, Option<string>>, ops: set<nat>, voices: set<nat>)

  const NoModes := Modes({}, 0, None, [], [], [], map[], {}, {})

  datatype Chn = Chn(
    display: string, createdAt: nat, modes: Modes, invites: set<nat>, members: set<nat>)

  datatype Reclaim = Reclaim(
    expiry: nat, pairings: seq<(nat, string)>, renames: seq<(nat, string)>)

  datatype Hist = Hist(oldKey: string, newKey: string, id: nat, at: nat)

  datatype Config = Config(
    silenceSecs: nat, graceSecs: nat, evictionMs: nat, pingAfterMs: nat, regMs: nat, challenge: bool)

  datatype State = State(
    users: map<string, Cx>,      // nick key -> registered connection
    unreg: map<nat, Cx>,         // connection id -> pre-registration record
    where: map<nat, string>,     // auxiliary: the key each registered connection is filed under
    chans: map<string, Chn>,     // folded channel name -> channel
    history: seq<Hist>,
    pings: map<nat, nat>,        // unanswered liveness pings
    marks: map<nat, Reclaim>,    // reclaim markers by contested holder
    net: N.Net,
    seen: set<nat>,              // ids the accept counter has handed out
    log: multiset<Sent>)         // lines handed to reply queues

  function Init(sid: string): State {
    State(map[], map[], map[], map[], [], map[], map[], N.EmptyNet(sid), {}, multiset{})
  }

  const HistoryCap := 512
  const RenameWindow := 120_000
  const MaxChannels := 10
  const MaxUserLen := 10

  function Grace(cfg: Config): nat {
    1000 * if cfg.graceSecs < 1 then 1 else cfg.graceSecs
  }

  // ---- lookups ----

  function Ids(s: State): set<nat> {
    s.unreg.Keys + s.where.Keys
  }

  function Fresh(id: nat, host: string, now: nat): Cx {
    Cx(id, "", false, {}, Gate(false, false, false, false), Info("", "", host, None, false, None, None, now, now))
  }

  const Nobody := Fresh(0, "", 0)

  function RecIn(users: map<string, Cx>, unreg: map<nat, Cx>, where: map<nat, string>, id: nat): Cx {
    if id in unreg then unreg[id]
    else if id in where && where[id] in users then users[where[id]]
    else Nobody
  }

  /** The record of a live connection. */
  function Rec(s: State, id: nat): Cx {
    RecIn(s.users, s.unreg, s.where, id)
  }

  predicate Registered(s: State, id: nat) {
    id in Ids(s) && Rec(s, id).registered
  }

  /** Write a record back to whichever table holds the connection. */
  function Put(s: State, id: nat, cx: Cx): State {
    s.(unreg := if id in s.unreg then s.unreg[id := cx] else s.unreg,
       users := if id !in s.unreg && id in s.where then s.users[s.where[id] := cx] else s.users)
  }

  /** Queue one line, if the connection is still there. */
  function Deliver(s: State, id: nat, line: Line): State {
    s.(log := if id in Ids(s) then s.log + multiset{Sent(id, line)} else s.log)
  }

  /** The newest recent rename away from `key`, scanning backwards from index `i`. */
  function LastHop(h: seq<Hist>, key: string, now: nat, i: nat): Option<string>
    requires i <= |h|
  {
    if i == 0 then None
    else if h[i-1].oldKey == key && Since(now, h[i-1].at) <= RenameWindow then Some(h[i-1].newKey)
    else LastHop(h, key, now, i - 1)
  }

  /** The holder of a nickname, followed through at most `hops` recent renames. */
  function Resolve(s: State, key: string, now: nat, hops: nat): (r: Option<Cx>)
    ensures r.Some? ==> r.value in s.users.Values
    decreases hops
  {
    if key in s.users then Some(s.users[key])
    else if hops == 0 then None
    else
      var hop := LastHop(s.history, key, now, |s.history|);
      if hop.None? then None else Resolve(s, hop.value, now, hops - 1)
  }

  function Lookup(s: State, key: string, now: nat): Option<Cx> {
    Resolve(s, key, now, 8)
  }

  function RemoteMembers(net: N.Net, ck: string): set<string> {
    set u | u in net.users && ck in net.users[u].chans
  }

  ghost predicate Shares(s: State, a: nat, b: nat) {
    exists c :: c in s.chans && a in s.chans[c].members && b in s.chans[c].members
  }

  /** The other connections sharing a channel with `id`: those who witness its departure. */
  function Peers(s: State, id: nat): set<nat> {
    if id !in Ids(s) then {}
    else set c, m | c in Rec(s, id).chans && c in s.chans && m in s.chans[c].members && m != id :: m
  }

  // ---- table operations ----

  function Record(h: seq<Hist>, e: Hist): seq<Hist> {
    var h' := h + [e];
    if |h'| > HistoryCap then h'[|h'|-HistoryCap..] else h'
  }

  predicate CanRegister(s: State, id: nat, nick: string) {
    id in s.unreg && NormNick(nick) !in s.users
  }

  function Register(s: State, id: nat, nick: string, user: string): State {
    if !CanRegister(s, id, nick) then s
    else
      var key := NormNick(nick);
      var cx := s.unreg[id].(nickKey := key, registered := true, info := s.unreg[id].info.(nick := nick, user := user));
      s.(unreg := s.unreg - {id}, users := s.users[key := cx], where := s.where[id := key])
  }

  /** Callers have checked that the new key is free. */
  function ApplyRename(s: State, id: nat, nick: string, now: nat): State {
    if id !in Ids(s) then s
    else
      var oldKey, newKey := Rec(s, id).nickKey, NormNick(nick);
      if oldKey == newKey then s
      else
        var s1 := s.(history := Record(s.history, Hist(oldKey, newKey, id, now)));
        if oldKey !in s.users then s1
        else s1.(users := (s.users - {oldKey})[newKey := s.users[oldKey].(nickKey := newKey, info := s.users[oldKey].info.(nick := nick))],
                     where := s.where[id := newKey])
  }

  function Evict(s: State, id: nat): State {
    if id in s.unreg then s.(unreg := s.unreg - {id})
    else if id in s.where then s.(users := s.users - {s.where[id]}, where := s.where - {id})
    else s
  }

  function WithoutMember(c: Chn, id: nat): Chn {
    c.(members := c.members - {id}, modes := c.modes.(ops := c.modes.ops - {id}, voices := c.modes.voices - {id}))
  }

  function Eject(s: State, id: nat): State {
    s.(chans := map c | c in s.chans :: WithoutMember(s.chans[c], id))
  }

  predicate Dead(s: State, c: string)
    requires c in s.chans
  {
    s.chans[c].members == {} && RemoteMembers(s.net, c) == {}
  }

  function DropEmpty(s: State): State {
    s.(chans := map c | c in s.chans && !Dead(s, c) :: s.chans[c])
  }

  // ---- departures ----

  function QuitLines(s: State, id: nat): multiset<Sent> {
    multiset(set p | p in Peers(s, id) && p in Ids(s) :: Sent(p, Quit(id)))
  }

  /** Announce a departure to the channel peers and remove every trace of the connection. */
  function LoseAndEvict(s: State, id: nat): State {
    Evict(DropEmpty(Eject(s.(log := s.log + QuitLines(s, id)), id)), id)
  }

  function LoseAll(s: State, order: seq<nat>): State
    decreases |order|
  {
    if order == [] then s else LoseAll(LoseAndEvict(s, order[0]), order[1..])
  }

  function HandleQuit(s: State, id: nat): State {
    if Registered(s, id) then LoseAndEvict(s, id) else s
  }

  function CleanupOnEof(s: State, id: nat): State {
    if id !in Ids(s) then s
    else if Rec(s, id).registered then LoseAndEvict(s, id)
    else Evict(DropEmpty(Eject(s, id)), id)
  }

  // ---- registration ----

  function Park(s: State, id: nat, host: string, now: nat): State {
    var s1 := s.(seen := s.seen + {id});
    if id in Ids(s) then s1
    else s1.(unreg := s.unreg[id := Fresh(id, host, now)])
  }

  function SendWelcome(s: State, id: nat): State {
    Deliver(s, id, Welcome)
  }

  predicate Ready(s: State, id: nat) {
    id in Ids(s) && Rec(s, id).info.pendingNick.Some? && Rec(s, id).info.pendingUser.Some? && !Rec(s, id).registered
  }

  /** Register, and welcome at once or on `CAP END`; or refuse when the nick is taken. */
  function Complete(s: State, id: nat, nick: string, user: string): State {
    if !CanRegister(s, id, nick) then Deliver(s, id, InUse(nick))
    else
      var s1 := Register(s, id, nick, user);
      if id in Ids(s1) && Rec(s1, id).gate.negotiating
      then Put(s1, id, Rec(s1, id).(gate := Rec(s1, id).gate.(gated := true)))
      else SendWelcome(s1, id)
  }

  function IssueChallenge(s: State, id: nat): State {
    Put(Deliver(s, id, Challenge), id, Rec(s, id).(gate := Rec(s, id).gate.(challenged := true)))
  }

  /** Both halves of the pairing are in: challenge, hold back, or complete. */
  function MaybeComplete(s: State, cfg: Config, id: nat, now: nat): State {
    if !Ready(s, id) then s
    else
      var u := Rec(s, id);
      var nick, user := u.info.pendingNick.value, u.info.pendingUser.value;
      if cfg.challenge && !u.gate.verified then
        if u.gate.challenged then s else IssueChallenge(s, id)
      else
        var occ := Lookup(s, NormNick(nick), now);
        if occ.Some? && occ.value.id in s.marks then s else Complete(s, id, nick, user)
  }

  predicate LooksStale(s: State, cfg: Config, id: nat, now: nat) {
    id in Ids(s) ==> id in s.pings || Since(now, Rec(s, id).info.lastRx) / 1000 > cfg.silenceSecs
  }

  function BeginReclaim(s: State, cfg: Config, occ: nat, pairings: seq<(nat, string)>, renames: seq<(nat, string)>,
          now: nat): State {
    var mark := if occ in s.marks
      then s.marks[occ].(pairings := s.marks[occ].pairings + pairings, renames := s.marks[occ].renames + renames)
      else Reclaim(now + Grace(cfg), pairings, renames);
    s.(marks := s.marks[occ := mark],
       pings := if occ in s.pings then s.pings else s.pings[occ := now],
       log := if occ in s.pings then s.log else Deliver(s, occ, Ping).log)
  }

  function RenamedLines(s: State, id: nat, nick: string): multiset<Sent> {
    multiset(set p | (p in Peers(s, id) || p == id) && p in Ids(s) :: Sent(p, Renamed(id, nick)))
  }

  function NickRegistered(s: State, cfg: Config, id: nat, nick: string, now: nat): State {
    if NormNick(nick) in s.users then
      var occ := s.users[NormNick(nick)].id;
      if occ != id && LooksStale(s, cfg, occ, now) then BeginReclaim(s, cfg, occ, [], [(id, nick)], now)
      else Deliver(s, id, InUse(nick))
    else
      var s1 := ApplyRename(s, id, nick, now);
      s1.(log := s1.log + RenamedLines(s1, id, nick))
  }

  function NickPairing(s: State, cfg: Config, id: nat, nick: string, now: nat): State {
    var occ := Lookup(s, NormNick(nick), now);
    if occ.Some? && occ.value.id != id && !LooksStale(s, cfg, occ.value.id, now) then Deliver(s, id, InUse(nick))
    else
      var s1 := if occ.Some? && occ.value.id != id then BeginReclaim(s, cfg, occ.value.id, [(id, nick)], [], now) else s;
      var s2 := if id in Ids(s1) then Put(s1, id, Rec(s1, id).(info := Rec(s1, id).info.(pendingNick := Some(nick)))) else s1;
      MaybeComplete(s2, cfg, id, now)
  }

  function HandleNick(s: State, cfg: Config, id: nat, nick: Option<string>, now: nat): State {
    if nick.None? || !ValidNick(nick.value) || IsServiceName(nick.value) then s
    else if Registered(s, id) then NickRegistered(s, cfg, id, nick.value, now)
    else NickPairing(s, cfg, id, nick.value, now)
  }

  /** `user` is absent when the command was malformed. */
  function HandleUser(s: State, cfg: Config, id: nat, user: Option<string>, now: nat): State {
    if Registered(s, id) || user.None? || id !in Ids(s) then s
    else
      var part := if |user.value| > MaxUserLen then user.value[..MaxUserLen] else user.value;
      MaybeComplete(Put(s, id, Rec(s, id).(info := Rec(s, id).info.(pendingUser := Some(part)))), cfg, id, now)
  }

  datatype CapSub = Negotiate | End | Other

  function HandleCap(s: State, id: nat, sub: CapSub): State {
    if id !in Ids(s) then s
    else match sub
      case Negotiate => Put(s, id, Rec(s, id).(gate := Rec(s, id).gate.(negotiating := true)))
      case End =>
        var u := Rec(s, id).(gate := Rec(s, id).gate.(negotiating := false));
        if u.registered && u.gate.gated
        then SendWelcome(Put(s, id, u.(gate := u.gate.(gated := false))), id)
        else Put(s, id, u)
      case Other => s
  }

  // ---- reclaim resolution ----

  function RefuseAll(s: State, held: seq<(nat, string)>): State
    decreases |held|
  {
    if held == [] then s else RefuseAll(Deliver(s, held[0].0, InUse(held[0].1)), held[1..])
  }

  /** Any PONG satisfies the registration challenge and resumes the pairing held back for it. */
  function AnswerChallenge(s: State, cfg: Config, id: nat, now: nat): State {
    if id in Ids(s) && !Rec(s, id).registered && Rec(s, id).gate.challenged && !Rec(s, id).gate.verified
    then MaybeComplete(Put(s, id, Rec(s, id).(gate := Rec(s, id).gate.(verified := true))), cfg, id, now)
    else s
  }

  /** An answered ping ends the reclaim of its addressee's nick: whoever was held back for it is refused. */
  function AnswerPing(s: State, id: nat): State {
    if id !in s.pings then s
    else if id !in s.marks then s.(pings := s.pings - {id})
    else RefuseAll(s.(pings := s.pings - {id}, marks := s.marks - {id}), s.marks[id].pairings + s.marks[id].renames)
  }

  function HandlePong(s: State, cfg: Config, id: nat, now: nat): State {
    AnswerPing(AnswerChallenge(s, cfg, id, now), id)
  }

  function CompleteAll(s: State, cfg: Config, held: seq<(nat, string)>, now: nat): State
    decreases |held|
  {
    if held == [] then s else CompleteAll(MaybeComplete(s, cfg, held[0].0, now), cfg, held[1..], now)
  }

  function FinishRename(s: State, id: nat, nick: string, now: nat): State {
    if !Registered(s, id) || !ValidNick(nick) || NormNick(nick) in s.users then s
    else ApplyRename(s, id, nick, now)
  }

  function RenameAll(s: State, held: seq<(nat, string)>, now: nat): State
    decreases |held|
  {
    if held == [] then s else RenameAll(FinishRename(s, held[0].0, held[0].1, now), held[1..], now)
  }

  function Expired(s: State, now: nat): set<nat> {
    set h | h in s.marks && now >= s.marks[h].expiry
  }

  /** One expired marker: evict the silent holder, then settle everyone who was held back. */
  function ResolveMark(s: State, cfg: Config, holder: nat, now: nat): State
    requires holder in s.marks
  {
    var mark := s.marks[holder];
    var s1 := LoseAndEvict(s.(marks := s.marks - {holder}, pings := s.pings - {holder}), holder);
    RenameAll(CompleteAll(s1, cfg, mark.pairings, now), mark.renames, now)
  }

  function ResolveMarks(s: State, cfg: Config, order: seq<nat>, now: nat): State
    decreases |order|
  {
    if order == [] then s
    else ResolveMarks(if order[0] in s.marks then ResolveMark(s, cfg, order[0], now) else s, cfg, order[1..], now)
  }

  // ---- liveness ----

  function LateUnregistered(s: State, cfg: Config, now: nat): set<nat> {
    set id | id in s.unreg && Since(now, s.unreg[id].info.connectedAt) > cfg.regMs
  }

  function LatePings(s: State, cfg: Config, now: nat): set<nat> {
    set id | id in s.pings && Since(now, s.pings[id]) > cfg.evictionMs
  }

  function ExpirePings(s: State, order: seq<nat>): State
    decreases |order|
  {
    if order == [] then s
    else ExpirePings(LoseAndEvict(s.(pings := s.pings - {order[0]}), order[0]), order[1..])
  }

  function Silent(s: State, cfg: Config, now: nat): set<nat> {
    set k | k in s.users && Since(now, s.users[k].info.lastRx) > cfg.pingAfterMs && s.users[k].id !in s.pings :: s.users[k].id
  }

  function PingSilent(s: State, cfg: Config, now: nat): State {
    var ids := Silent(s, cfg, now);
    s.(pings := map i | i in s.pings.Keys + ids :: if i in s.pings then s.pings[i] else now,
       log := s.log + multiset(set i | i in ids :: Sent(i, Ping)))
  }

  function Liveness(s: State, cfg: Config, unregs: seq<nat>, pings: seq<nat>, now: nat): State {
    PingSilent(ExpirePings(LoseAll(s, unregs), pings), cfg, now)
  }

  // ---- channels ----

  /** A ban mask is matched against the whole identity, or the nick alone. */
  predicate MatchesBan(u: Cx, mask: string) {
    var m := NormNick(mask);
    if '!' in m || '@' in m
    then Glob.Scans(m, u.nickKey + "!" + NormNick(u.info.user) + "@" + NormNick(u.info.host))
    else Glob.Scans(m, u.nickKey)
  }

  predicate MatchesAny(u: Cx, masks: seq<string>) {
    exists i :: 0 <= i < |masks| && MatchesBan(u, masks[i])
  }

  predicate Barred(c: Chn, u: Cx, key: string) {
    || ('i' in c.modes.flags && u.id !in c.invites && !MatchesAny(u, c.modes.invex))
    || ('R' in c.modes.flags && u.info.account.None?)
    || (MatchesAny(u, c.modes.bans) && !MatchesAny(u, c.modes.excepts))
    || (c.modes.key.Some? && NormNick(key) != c.modes.key.value)
  }

  /** Enter both sides of a membership. */
  function Enrol(s: State, id: nat, ck: string, c: Chn): State
  {
    Put(s, id, Rec(s, id).(chans := Rec(s, id).chans + {ck})).(chans := s.chans[ck := c.(members := c.members + {id})])
  }

  /** Whether a registered channel belongs to an account; `founders` is the channel registry. */
  predicate Founds(founders: map<string, string>, ck: string, account: Option<string>) {
    account.Some? && ck in founders && NormNick(founders[ck]) == NormNick(account.value)
  }

  /** The channel as an admitted connection finds it: its invitation used up, its founder an operator again. */
  function Admitting(c: Chn, id: nat, founder: bool): Chn {
    c.(invites := c.invites - {id}, modes := if founder then c.modes.(ops := c.modes.ops + {id}) else c.modes)
  }

  /** A channel created by a join; nobody but the founder is made operator of a registered one. */
  function Created(raw: string, id: nat, clock: nat, op: bool): Chn {
    Chn(raw, clock, NoModes.(ops := if op then {id} else {}), {}, {})
  }

  /** One `JOIN` entry; `clock` is the wall clock in seconds. */
  function JoinOne(s: State, id: nat, raw: string, key: string, founders: map<string, string>, clock: nat): State {
    if !ValidChannel(raw) || id !in Ids(s) then s
    else
      var ck, u := NormNick(raw), Rec(s, id);
      var founder := Founds(founders, ck, u.info.account);
      if ck in s.chans then
        var c := s.chans[ck];
        if Barred(c, u, key) || id in c.members || |u.chans| >= MaxChannels then s
        else Enrol(s, id, ck, Admitting(c, id, founder))
      else if |u.chans| >= MaxChannels then s
      else Enrol(s, id, ck, Created(raw, id, clock, ck !in founders || founder))
  }

  function JoinAll(s: State, id: nat, entries: seq<(string, string)>, founders: map<string, string>, clock: nat): State
    decreases |entries|
  {
    if entries == [] then s
    else JoinAll(JoinOne(s, id, entries[0].0, entries[0].1, founders, clock), id, entries[1..], founders, clock)
  }

  function NonEmpty(parts: seq<string>): seq<string> {
    if parts == [] then [] else (if parts[0] == "" then [] else [parts[0]]) + NonEmpty(parts[1..])
  }

  /** The names of a comma-separated list. */
  function ChannelNames(list: string): seq<string> {
    NonEmpty(Split(list, ','))
  }

  /** The key at a position of a comma-separated list, if there is one. */
  function KeyAt(keys: Option<string>, i: nat): string {
    if keys.Some? && i < |Split(keys.value, ',')| then Split(keys.value, ',')[i] else ""
  }

  /** Each named channel with the key at its position. */
  function JoinEntries(list: string, keys: Option<string>): (r: seq<(string, string)>)
    ensures |r| == |ChannelNames(list)| && forall i :: 0 <= i < |r| ==> r[i] == (ChannelNames(list)[i], KeyAt(keys, i))
  {
    var names := ChannelNames(list);
    seq(|names|, i requires 0 <= i < |names| => (names[i], KeyAt(keys, i)))
  }

  /** Leave both sides of a membership. */
  function Withdraw(s: State, id: nat, ck: string): State
    requires ck in s.chans
  {
    Put(s, id, Rec(s, id).(chans := Rec(s, id).chans - {ck})).(chans := s.chans[ck := WithoutMember(s.chans[ck], id)])
  }

  function PartOne(s: State, id: nat, raw: string): State {
    var ck := NormNick(raw);
    if id !in Ids(s) || ck !in s.chans || id !in s.chans[ck].members then s else Withdraw(s, id, ck)
  }

  function PartAll(s: State, id: nat, names: seq<string>): State
    decreases |names|
  {
    if names == [] then s else PartAll(PartOne(s, id, names[0]), id, names[1..])
  }

  function HandlePart(s: State, id: nat, names: seq<string>): State {
    DropEmpty(PartAll(s, id, names))
  }

  function HandleKick(s: State, id: nat, raw: string, target: string, now: nat): State {
    var ck := NormNick(raw);
    if ck !in s.chans || id !in s.chans[ck].members then s
    else
      var t := Lookup(s, NormNick(target), now);
      if t.None? || t.value.id == 0 || t.value.id !in s.chans[ck].members
         || (t.value.id != id && id !in s.chans[ck].modes.ops)
      then s
      else DropEmpty(Withdraw(s, t.value.id, ck))
  }

  /** A channel arriving over a link: the older timestamp wins and the loser drops its modes. */
  function Adopt(chans: map<string, Chn>, chan: string, ts: nat): map<string, Chn> {
    var ck := NormNick(chan);
    if ck !in chans then chans[ck := Chn(chan, ts, NoModes, {}, {})]
    else if chans[ck].createdAt > ts then chans[ck := chans[ck].(createdAt := ts, modes := NoModes)]
    else chans
  }

  function EnterRemote(n: N.Net, ck: string, members: seq<string>): N.Net
    decreases |members|
  {
    if members == [] then n
    else EnterRemote(
      if members[0] in n.users then N.SetChans(n, members[0], n.users[members[0]].chans + {ck}) else n,
      ck, members[1..])
  }

  function ChannelJoin(s: State, chan: string, ts: nat, members: seq<string>): State {
    s.(net := EnterRemote(s.net, NormNick(chan), members), chans := Adopt(s.chans, chan, ts))
  }

  // ---- events ----

  datatype Event =
    | Accepted(id: nat, host: string)
    | NickCmd(id: nat, nick: Option<string>)
    | UserCmd(id: nat, user: Option<string>)
    | CapCmd(id: nat, sub: CapSub)
    | PongCmd(id: nat)
    | OtherCmd(id: nat)                                        // refreshes liveness only
    | ProfileCmd(id: nat, account: Option<string>, host: string, oper: bool)
    | JoinCmd(id: nat, list: Option<string>, keys: Option<string>, founders: map<string, string>, clock: nat)
    | PartCmd(id: nat, list: Option<string>)
    | KickCmd(id: nat, chan: string, target: string)
    | ChannelEdit(ck: string, modes: Modes, invites: set<nat>) // MODE, INVITE and a founder's login
    | RemoteMode(chan: string, ts: nat, modes: Modes)          // FMODE, with what it makes of the modes
    | Sweep                                                    // the end of MODE
    | QuitCmd(id: nat)
    | KillCmd(id: nat, target: string)
    | GhostCmd(id: nat, target: string, authorized: bool)
    | Purge(order: seq<nat>)                                   // pattern KILL and KLINE
    | Eof(id: nat)
    | ReclaimTick(order: seq<nat>)
    | LivenessTick(unregs: seq<nat>, pings: seq<nat>)
    | ChannelJoined(chan: string, ts: nat, members: seq<string>)
    | NetChanged(e: N.NetEvent)

  function Edit(chans: map<string, Chn>, ck: string, modes: Modes, invites: set<nat>): map<string, Chn> {
    if ck in chans then chans[ck := chans[ck].(modes := modes, invites := invites)] else chans
  }

  /** A mode change from a server whose channel is younger than ours is ignored, unless ours has no age. */
  predicate Heeds(ours: nat, ts: nat) {
    ts <= ours || ours == 0
  }

  function RemoteEdit(chans: map<string, Chn>, chan: string, ts: nat, modes: Modes): map<string, Chn> {
    var ck := NormNick(chan);
    if ValidChannel(chan) && ck in chans && Heeds(chans[ck].createdAt, ts) then chans[ck := chans[ck].(modes := modes)] else chans
  }

  function Touch(s: State, id: nat, now: nat): State {
    if id in Ids(s) then Put(s, id, Rec(s, id).(info := Rec(s, id).info.(lastRx := now))) else s
  }

  function Target(s: State, id: nat, target: string, now: nat): Option<nat> {
    var t := Lookup(s, NormNick(target), now);
    if t.Some? then Some(t.value.id) else None
  }

  /** A command from a connection, past the flood and prefix checks. */
  function Command(s: State, cfg: Config, now: nat, e: Event): State {
    match e
    case NickCmd(id, nick) => HandleNick(s, cfg, id, nick, now)
    case UserCmd(id, user) => HandleUser(s, cfg, id, user, now)
    case CapCmd(id, sub) => HandleCap(s, id, sub)
    case PongCmd(id) => HandlePong(s, cfg, id, now)
    case ProfileCmd(id, account, host, oper) =>
      if id in Ids(s) then Put(s, id, Rec(s, id).(info := Rec(s, id).info.(account := account, host := host, oper := oper))) else s
    case JoinCmd(id, list, keys, founders, clock) =>
      if Registered(s, id) && list.Some? then JoinAll(s, id, JoinEntries(list.value, keys), founders, clock) else s
    case PartCmd(id, list) => if Registered(s, id) && list.Some? then HandlePart(s, id, ChannelNames(list.value)) else s
    case KickCmd(id, chan, target) => if Registered(s, id) then HandleKick(s, id, chan, target, now) else s
    case QuitCmd(id) => HandleQuit(s, id)
    case KillCmd(id, target) =>
      if Registered(s, id) && Rec(s, id).info.oper && Target(s, id, target, now).Some?
      then LoseAndEvict(s, Target(s, id, target, now).value) else s
    case GhostCmd(id, target, authorized) =>
      if Registered(s, id) && authorized && Target(s, id, target, now).Some? && Target(s, id, target, now).value != id
      then LoseAndEvict(s, Target(s, id, target, now).value) else s
    case _ => s
  }

  predicate IsCommand(e: Event) {
    e.NickCmd? || e.UserCmd? || e.CapCmd? || e.PongCmd? || e.OtherCmd? || e.ProfileCmd? || e.JoinCmd?
    || e.PartCmd? || e.KickCmd? || e.QuitCmd? || e.KillCmd? || e.GhostCmd?
  }

  function Step(s: State, cfg: Config, now: nat, e: Event): State {
    if IsCommand(e) then Command(Touch(s, e.id, now), cfg, now, e)
    else match e
      case Accepted(id, host) => Park(s, id, host, now)
      case ChannelEdit(ck, modes, invites) => s.(chans := Edit(s.chans, ck, modes, invites))
      case RemoteMode(chan, ts, modes) => s.(chans := RemoteEdit(s.chans, chan, ts, modes))
      case Sweep => DropEmpty(s)
      case Purge(order) => LoseAll(s, order)
      case Eof(id) => CleanupOnEof(s, id)
      case ReclaimTick(order) => ResolveMarks(s, cfg, order, now)
      case LivenessTick(unregs, pings) => Liveness(s, cfg, unregs, pings, now)
      case ChannelJoined(chan, ts, members) => ChannelJoin(s, chan, ts, members)
      case NetChanged(ne) => s.(net := N.NetStep(s.net, ne))
      case _ => s
  }

  /** Ids come from a counter starting at one; timers walk their whole table in some order. */
  ghost predicate Enabled(s: State, cfg: Config, now: nat, e: Event) {
    match e
    case Accepted(id, _) => id > 0 && id !in s.seen
    case ReclaimTick(order) => NoRepeats(order) && Elements(order) == Expired(s, now)
    case LivenessTick(unregs, pings) =>
      && NoRepeats(unregs) && Elements(unregs) == LateUnregistered(s, cfg, now)
      && NoRepeats(pings) && Elements(pings) == LatePings(s, cfg, now)
    case _ => true
  }

  ghost function Run(sid: string, cfg: Config, es: seq<(nat, Event)>): State {
    if es == [] then Init(sid)
    else Step(Run(sid, cfg, es[..|es|-1]), cfg, es[|es|-1].0, es[|es|-1].1)
  }

  ghost predicate Feasible(sid: string, cfg: Config, es: seq<(nat, Event)>) {
    forall i :: 0 <= i < |es| ==> Enabled(Run(sid, cfg, es[..i]), cfg, es[i].0, es[i].1)
  }
}
