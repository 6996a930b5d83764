/** The wire half of server linking: one inbound line to events, and the lines that introduce local state. */
module Link {
  import opened Basics
  import opened Text
  import opened Names
  import opened Proto
  import opened Network

  datatype Phase = Capab | Bursting | Linked | Dead

  datatype LinkConfig = LinkConfig(sid: string, name: string, desc: string, sendPassword: string, recvPassword: string)

  datatype Session = Session(
    phase: Phase, peerSid: Option<string>, peerName: Option<string>,
    outbound: bool, sentServer: bool, sentBurst: bool, out: seq<string>)

  datatype LinkEvent =
    | PeerRegistered(sid: string, name: string, desc: string)
    | ServerIntroduced(sid: string, name: string, desc: string, via: string)
    | UserIntroduced(user: RemoteUser)
    | UserQuit(uuid: string, reason: string)
    | NickChanged(uuid: string, nick: string)
    | ChannelJoin(chan: string, ts: nat, modes: string, members: seq<(string, string)>)
    | RemoteJoin(chan: string, uuid: string)
    | RemotePart(chan: string, uuid: string, reason: string)
    | Message(from: string, target: string, text: string, notice: bool)
    | ModeChange(target: string, ts: nat, terms: seq<string>)
    | TopicChanged(chan: string, ts: nat, setter: string, topic: string)
    | Away(uuid: string, awayReason: Option<string>)
    | BurstComplete
    | ServerSplit(sid: string, reason: string)
    | Failed(reason: string)

  function Opened(outbound: bool): Session {
    Session(Capab, None, None, outbound, false, false, [])
  }

  // ---- helpers over parameters ----

  function Param(p: seq<string>, i: nat): string {
    if i < |p| then p[i] else ""
  }

  function LastParam(p: seq<string>): string {
    if p == [] then "" else p[|p| - 1]
  }

  function Stamp(s: string): nat {
    var n := ParseNumber(s, U64);
    if n.Some? then n.value else 0
  }

  /** The first parameter that reads as a server id. */
  function FirstSid(p: seq<string>): string {
    if p == [] then "" else if ValidSid(p[0]) then p[0] else FirstSid(p[1..])
  }

  // ---- what is sent ----

  function ServerLine(cfg: LinkConfig): string {
    "SERVER " + cfg.name + " " + cfg.sendPassword + " 0 " + cfg.sid + " :" + cfg.desc
  }

  function Send(s: Session, line: string): Session {
    s.(out := s.out + [line])
  }

  function SendServer(cfg: LinkConfig, s: Session): Session {
    if s.sentServer then s else Send(s.(sentServer := true), ServerLine(cfg))
  }

  /** A local user as the line that introduces them. */
  function UidLine(sid: string, uuid: string, nickTs: nat, nick: string, realHost: string, displayHost: string,
                   ident: string, ip: string, signonTs: nat, modes: string, realname: string): string {
    Join([":" + sid, "UID", uuid, Decimal(nickTs), nick, realHost, displayHost, ident, ip, Decimal(signonTs), modes], ' ')
      + " :" + realname
  }

  function MemberEntries(members: seq<(string, string)>): (r: seq<string>)
    ensures |r| == |members| && forall i :: 0 <= i < |r| ==> r[i] == members[i].0 + "," + members[i].1
  {
    seq(|members|, i requires 0 <= i < |members| => members[i].0 + "," + members[i].1)
  }

  /** A channel as the line that introduces it, with parameters for the modes that take them. */
  function FjoinLine(sid: string, chan: string, ts: nat, modes: string, modeParams: seq<string>,
                     members: seq<(string, string)>): string {
    var list := Join(MemberEntries(members), ' ');
    var params := if modeParams == [] then "" else " " + Join(modeParams, ' ');
    Join([":" + sid, "FJOIN", chan, Decimal(ts), modes], ' ') + params + " :" + list
  }

  // ---- what is received ----

  function ParseMember(entry: string): Option<(string, string)> {
    var i := IndexOf(entry, ',');
    if i == |entry| then None
    else
      var uuid := Text.Split(entry[i + 1..], ':')[0];
      if ValidUuid(uuid) then Some((entry[..i], uuid)) else None
  }

  function ParseEntries(entries: seq<string>): seq<(string, string)> {
    if entries == [] then []
    else
      var m := if entries[0] == "" then None else ParseMember(entries[0]);
      (if m.Some? then [m.value] else []) + ParseEntries(entries[1..])
  }

  function ParseMembers(list: string): seq<(string, string)> {
    ParseEntries(Text.Split(list, ' '))
  }

  function OnServer(cfg: LinkConfig, s: Session, p: seq<string>, source: string): (Session, seq<LinkEvent>) {
    if source != "" && s.peerSid.Some? then
      var sid := FirstSid(if p == [] then [] else p[1..]);
      (s, if sid == "" then [] else [ServerIntroduced(sid, Param(p, 0), LastParam(p), source)])
    else
      var sid := if ValidSid(Param(p, 3)) then Param(p, 3) else if ValidSid(Param(p, 2)) then Param(p, 2) else "";
      if Param(p, 1) != cfg.recvPassword then
        (Send(s.(phase := Dead), "ERROR :Link password mismatch"), [Failed("link password mismatch")])
      else if !ValidSid(sid) then
        (Send(s.(phase := Dead), "ERROR :Invalid SID"), [Failed("invalid SID \"\"")])
      else
        var s' := s.(peerSid := Some(sid), peerName := Some(Param(p, 0)), phase := Bursting);
        (if s.outbound then s' else SendServer(cfg, s'), [PeerRegistered(sid, Param(p, 0), LastParam(p))])
  }

  function OnUid(p: seq<string>, source: string): seq<LinkEvent> {
    if |p| < 10 || !ValidUuid(p[0]) then []
    else
      [UserIntroduced(RemoteUser(
         p[0], if source == "" then p[0][..3] else source, p[2], NormNick(p[2]), p[5], p[4], p[3],
         LastParam(p), Stamp(p[1]), p[8], {}, None, false))]
  }

  function OnFjoin(p: seq<string>): seq<LinkEvent> {
    if |p| < 4 then [] else [ChannelJoin(p[0], Stamp(p[1]), p[2], ParseMembers(LastParam(p)))]
  }

  function OnFtopic(p: seq<string>, source: string): seq<LinkEvent> {
    if |p| < 4 then []
    else [TopicChanged(p[0], Stamp(p[2]), if |p| > 4 then p[3] else source, LastParam(p))]
  }

  function PongLine(cfg: LinkConfig, p: seq<string>, source: string): string {
    var from := if |p| > 0 then p[0] else source;
    var to := if |p| > 1 then p[1] else cfg.sid;
    ":" + to + " PONG " + to + " " + from
  }

  /** Commands that only report something. */
  function Report(name: string, p: seq<string>, source: string): seq<LinkEvent> {
    if name == "UID" then OnUid(p, source)
    else if name == "QUIT" then [UserQuit(source, Param(p, 0))]
    else if name == "NICK" then (if p != [] && source != "" then [NickChanged(source, p[0])] else [])
    else if name == "FJOIN" then OnFjoin(p)
    else if name == "IJOIN" then (if p != [] && source != "" then [RemoteJoin(p[0], source)] else [])
    else if name == "PART" then [RemotePart(Param(p, 0), source, Param(p, 1))]
    else if name == "PRIVMSG" || name == "NOTICE" then
      (if |p| < 2 || source == "" then [] else [Message(source, p[0], p[1], name == "NOTICE")])
    else if name == "FMODE" then (if |p| < 3 then [] else [ModeChange(p[0], Stamp(p[1]), p[2..])])
    else if name == "FTOPIC" then OnFtopic(p, source)
    else if name == "AWAY" then [Away(source, if p != [] && p[0] != "" then Some(p[0]) else None)]
    else if name == "SQUIT" then [LinkEvent.ServerSplit(Param(p, 0), Param(p, 1))]
    else []
  }

  function Dispatch(cfg: LinkConfig, s: Session, name: string, p: seq<string>, source: string): (Session, seq<LinkEvent>) {
    if name == "CAPAB" then
      (if p != [] && Upper(p[0]) == "START" && !s.outbound && !s.sentServer then SendServer(cfg, s) else s, [])
    else if name == "SERVER" then OnServer(cfg, s, p, source)
    else if name == "ENDBURST" then (if s.phase == Bursting then s.(phase := Linked) else s, [BurstComplete])
    else if name == "PING" then (Send(s, PongLine(cfg, p, source)), [])
    else (s, Report(name, p, source))
  }

  /** One inbound line: the session after it, and what it means for server state. */
  function Handle(cfg: LinkConfig, s: Session, raw: string): (Session, seq<LinkEvent>) {
    if s.phase == Dead then (s, [])
    else if "ERROR" <= raw then
      var i := IndexOf(raw, ':');
      (s.(phase := Dead), [Failed(if i < |raw| then raw[i + 1..] else "")])
    else
      var cmd := Parse(raw);
      if cmd.None? then (s, [])
      else Dispatch(cfg, s, cmd.value.name, cmd.value.params, if cmd.value.prefix.Some? then cmd.value.prefix.value else "")
  }

  // ---- rendering and parsing undo each other ----

  lemma {:induction false} JoinSpaced(first: string, rest: seq<string>, trailing: string)
    ensures Join([first] + rest, ' ') + " :" + trailing == first + Spaced(rest, trailing)
    decreases |rest|
  {
    if rest == [] {
      assert [first] + rest == [first];
    } else {
      var more := [rest[0]] + rest[1..];
      assert rest == more && ([first] + rest)[1..] == more;
      JoinSpaced(rest[0], rest[1..], trailing);
      assert first + " " + (Join(more, ' ') + " :" + trailing) == first + " " + Join(more, ' ') + " :" + trailing;
    }
  }

  /** A line of words behind a prefix, read back. */
  lemma ParseWords(sid: string, name: string, middles: seq<string>, trailing: string)
    requires Solid(sid) && UpperName(name) && Middles(middles) && |middles| < MaxParams
    requires Acceptable(Join([":" + sid, name] + middles, ' ') + " :" + trailing)
    ensures Parse(Join([":" + sid, name] + middles, ' ') + " :" + trailing) ==
      Some(Command(Some(sid), name, middles + [trailing], []))
  {
    hide Parse, Acceptable, Solid, Middles, UpperName;
    var line := Join([":" + sid, name] + middles, ' ') + " :" + trailing;
    assert [":" + sid, name] + middles == [":" + sid] + ([name] + middles);
    JoinSpaced(":" + sid, [name] + middles, trailing);
    assert ([name] + middles)[1..] == middles;
    assert line == ":" + sid + (" " + name + Spaced(middles, trailing));
    assert line == ":" + sid + " " + name + Spaced(middles, trailing);
    ParsePrinted(sid, name, middles, trailing);
  }

  lemma DecimalMiddle(n: nat)
    ensures Middle(Decimal(n))
  {
    var s := Decimal(n);
    assert Digit(s[0]);
    assert forall i :: 0 <= i < |s| ==> Digit(s[i]);
  }

  lemma UuidMiddle(uuid: string)
    requires ValidUuid(uuid)
    ensures Middle(uuid) && ' ' !in uuid && ':' !in uuid
  {
    assert uuid == uuid[..3] + uuid[3..];
    forall i | 0 <= i < |uuid| ensures UidChar(uuid[i]) {
      if i < 3 {
        assert uuid[i] == uuid[..3][i];
      } else {
        assert uuid[i] == uuid[3..][i - 3];
      }
    }
    assert UidChar(uuid[0]);
  }

  lemma StampDecimal(n: nat)
    requires n < U64
    ensures Stamp(Decimal(n)) == n
  {
    ParseDecimal(n, U64);
  }

  /** A user, as a UID line carries them. */
  datatype UidFields = UidFields(
    sid: string, uuid: string, nickTs: nat, nick: string, realHost: string, displayHost: string,
    ident: string, ip: string, signonTs: nat, modes: string, realname: string)

  function UidOf(u: UidFields): string {
    UidLine(u.sid, u.uuid, u.nickTs, u.nick, u.realHost, u.displayHost, u.ident, u.ip, u.signonTs, u.modes, u.realname)
  }

  predicate UidSendable(u: UidFields) {
    && u.sid != "" && Solid(u.sid) && ValidUuid(u.uuid) && u.nickTs < U64 && u.signonTs < U64
    && Middle(u.nick) && Middle(u.realHost) && Middle(u.displayHost) && Middle(u.ident) && Middle(u.ip) && Middle(u.modes)
    && Acceptable(UidOf(u))
  }

  function Introduced(u: UidFields): RemoteUser {
    RemoteUser(u.uuid, u.sid, u.nick, NormNick(u.nick), u.ident, u.displayHost, u.realHost, u.realname, u.nickTs, u.modes,
               {}, None, false)
  }

  /** A UID line fed to a live session is one event carrying the same user. */
  lemma UidRoundTrip(cfg: LinkConfig, s: Session, u: UidFields)
    requires s.phase != Dead && UidSendable(u)
    ensures Handle(cfg, s, UidOf(u)) == (s, [UserIntroduced(Introduced(u))])
  {
    hide Parse, Acceptable, Solid, Decimal, ValidUuid, Stamp, NormNick;
    var middles := [u.uuid, Decimal(u.nickTs), u.nick, u.realHost, u.displayHost, u.ident, u.ip, Decimal(u.signonTs), u.modes];
    DecimalMiddle(u.nickTs);
    DecimalMiddle(u.signonTs);
    UuidMiddle(u.uuid);
    StampDecimal(u.nickTs);
    UidWords(u, middles);
    ParseWords(u.sid, "UID", middles, u.realname);
    StartsWithColon(u.sid, ["UID"] + middles, u.realname);
  }

  lemma UidWords(u: UidFields, middles: seq<string>)
    requires middles == [u.uuid, Decimal(u.nickTs), u.nick, u.realHost, u.displayHost, u.ident, u.ip, Decimal(u.signonTs), u.modes]
    ensures UidOf(u) == Join([":" + u.sid, "UID"] + middles, ' ') + " :" + u.realname
    ensures [":" + u.sid] + (["UID"] + middles) == [":" + u.sid, "UID"] + middles
  {
    hide Join, Decimal;
    assert [":" + u.sid, "UID"] + middles ==
      [":" + u.sid, "UID", u.uuid, Decimal(u.nickTs), u.nick, u.realHost, u.displayHost, u.ident, u.ip, Decimal(u.signonTs), u.modes];
  }

  lemma StartsWithColon(sid: string, rest: seq<string>, trailing: string)
    ensures !("ERROR" <= Join([":" + sid] + rest, ' ') + " :" + trailing)
  {
    JoinSpaced(":" + sid, rest, trailing);
    var line := ":" + sid + Spaced(rest, trailing);
    assert line[0] == ':' && "ERROR"[0] == 'E';
  }

  // ---- channels ----

  ghost predicate MembersSendable(members: seq<(string, string)>) {
    forall i :: 0 <= i < |members| ==> ' ' !in members[i].0 && ',' !in members[i].0 && ValidUuid(members[i].1)
  }

  lemma MemberRoundTrip(prefixes: string, uuid: string)
    requires ',' !in prefixes && ValidUuid(uuid)
    ensures ParseMember(prefixes + "," + uuid) == Some((prefixes, uuid))
  {
    hide ValidUuid;
    var e := prefixes + "," + uuid;
    IndexOfAt(prefixes, ',', uuid);
    assert e[..|prefixes|] == prefixes && e[|prefixes| + 1..] == uuid;
    UuidMiddle(uuid);
    SplitJoin([uuid], ':');
  }

  lemma {:induction false} EntriesRoundTrip(members: seq<(string, string)>)
    requires MembersSendable(members)
    ensures ParseEntries(MemberEntries(members)) == members
    decreases |members|
  {
    hide ParseMember, ValidUuid;
    if members != [] {
      var m := members[0];
      MemberRoundTrip(m.0, m.1);
      EntriesRoundTrip(members[1..]);
      assert MemberEntries(members)[1..] == MemberEntries(members[1..]);
      assert members == [m] + members[1..];
    }
  }

  lemma MembersRoundTrip(members: seq<(string, string)>)
    requires MembersSendable(members)
    ensures ParseMembers(Join(MemberEntries(members), ' ')) == members
  {
    hide ParseMember, ValidUuid;
    var entries := MemberEntries(members);
    if members == [] {
      assert Text.Split("", ' ') == [""] && [""][1..] == [];
    } else {
      forall i | 0 <= i < |entries| ensures ' ' !in entries[i] {
        UuidMiddle(members[i].1);
      }
      SplitJoin(entries, ' ');
      EntriesRoundTrip(members);
    }
  }

  datatype FjoinFields = FjoinFields(
    sid: string, chan: string, ts: nat, modes: string, modeParams: seq<string>, members: seq<(string, string)>)

  function FjoinOf(f: FjoinFields): string {
    FjoinLine(f.sid, f.chan, f.ts, f.modes, f.modeParams, f.members)
  }

  ghost predicate FjoinSendable(f: FjoinFields) {
    && f.sid != "" && Solid(f.sid) && f.ts < U64 && Middle(f.chan) && Middle(f.modes) && Middles(f.modeParams)
    && |f.modeParams| + 4 <= MaxParams && MembersSendable(f.members) && Acceptable(FjoinOf(f))
  }

  lemma {:induction false} JoinAppend(a: seq<string>, b: seq<string>)
    requires |a| > 0
    ensures Join(a + b, ' ') == Join(a, ' ') + if b == [] then "" else " " + Join(b, ' ')
    decreases |a|
  {
    if b == [] {
      assert a + b == a && Join(a, ' ') + "" == Join(a, ' ');
    } else if |a| == 1 {
      assert (a + b)[1..] == b && a[0] + " " + Join(b, ' ') == a[0] + (" " + Join(b, ' '));
    } else {
      assert (a + b)[1..] == a[1..] + b;
      JoinAppend(a[1..], b);
      var tail := " " + Join(b, ' ');
      assert a[0] + " " + (Join(a[1..], ' ') + tail) == a[0] + " " + Join(a[1..], ' ') + tail;
    }
  }

  lemma FjoinWords(f: FjoinFields)
    ensures FjoinOf(f) ==
      Join([":" + f.sid, "FJOIN"] + ([f.chan, Decimal(f.ts), f.modes] + f.modeParams), ' ') + " :" + Join(MemberEntries(f.members), ' ')
  {
    hide Join, Decimal, MemberEntries;
    var head := [":" + f.sid, "FJOIN", f.chan, Decimal(f.ts), f.modes];
    JoinAppend(head, f.modeParams);
    assert [":" + f.sid, "FJOIN"] + ([f.chan, Decimal(f.ts), f.modes] + f.modeParams) == head + f.modeParams;
  }

  /** An FJOIN line fed to a live session is one event with the same channel, timestamp and whole member list. */
  lemma FjoinRoundTrip(cfg: LinkConfig, s: Session, f: FjoinFields)
    requires s.phase != Dead && FjoinSendable(f)
    ensures Handle(cfg, s, FjoinOf(f)) == (s, [ChannelJoin(f.chan, f.ts, f.modes, f.members)])
  {
    hide Parse, Acceptable, Solid, Decimal, Stamp, Join, MemberEntries, MembersSendable, ParseMembers;
    var middles := [f.chan, Decimal(f.ts), f.modes] + f.modeParams;
    var list := Join(MemberEntries(f.members), ' ');
    DecimalMiddle(f.ts);
    StampDecimal(f.ts);
    FjoinWords(f);
    ParseWords(f.sid, "FJOIN", middles, list);
    assert [":" + f.sid] + (["FJOIN"] + middles) == [":" + f.sid, "FJOIN"] + middles;
    StartsWithColon(f.sid, ["FJOIN"] + middles, list);
    MembersRoundTrip(f.members);
  }

  // ---- what happens to a user, relayed ----

  /** What this server tells its links about one of its users. */
  datatype Relay =
    | Quits(reason: string)
    | Renames(nick: string, ts: nat)
    | Joins(chan: string, membid: nat)
    | Parts(chan: string, reason: string)
    | Says(target: string, text: string, notice: bool)
    | SetsModes(chan: string, ts: nat, terms: seq<string>)
    | SetsTopic(chan: string, created: nat, ts: nat, setter: string, topic: string)

  function RelayName(r: Relay): string {
    match r
    case Quits(_) => "QUIT"
    case Renames(_, _) => "NICK"
    case Joins(_, _) => "IJOIN"
    case Parts(_, _) => "PART"
    case Says(_, _, notice) => if notice then "NOTICE" else "PRIVMSG"
    case SetsModes(_, _, _) => "FMODE"
    case SetsTopic(_, _, _, _, _) => "FTOPIC"
  }

  function RelayTail(r: Relay): string {
    match r
    case Quits(reason) => " :" + reason
    case Renames(nick, ts) => " " + nick + " " + Decimal(ts)
    case Joins(chan, membid) => " " + chan + " " + Decimal(membid)
    case Parts(chan, reason) => " " + chan + " :" + reason
    case Says(target, text, _) => " " + target + " :" + text
    case SetsModes(chan, ts, terms) => " " + chan + " " + Decimal(ts) + Worded(terms)
    case SetsTopic(chan, created, ts, setter, topic) =>
      " " + chan + " " + Decimal(created) + " " + Decimal(ts) + " " + setter + " :" + topic
  }

  function RelayLine(uuid: string, r: Relay): string {
    ":" + uuid + " " + RelayName(r) + RelayTail(r)
  }

  /** What the other side is to learn from it. */
  function RelayEvent(uuid: string, r: Relay): LinkEvent {
    match r
    case Quits(reason) => UserQuit(uuid, reason)
    case Renames(nick, _) => NickChanged(uuid, nick)
    case Joins(chan, _) => RemoteJoin(chan, uuid)
    case Parts(chan, reason) => RemotePart(chan, uuid, reason)
    case Says(target, text, notice) => Message(uuid, target, text, notice)
    case SetsModes(chan, ts, terms) => ModeChange(chan, ts, terms)
    case SetsTopic(chan, _, ts, setter, topic) => TopicChanged(chan, ts, setter, topic)
  }

  ghost predicate RelaySendable(uuid: string, r: Relay) {
    && ValidUuid(uuid) && Acceptable(RelayLine(uuid, r))
    && match r
       case Quits(_) => true
       case Renames(nick, _) => Middle(nick)
       case Joins(chan, _) => Middle(chan)
       case Parts(chan, _) => Middle(chan)
       case Says(target, _, _) => Middle(target)
       case SetsModes(chan, ts, terms) => Middle(chan) && ts < U64 && Middles(terms) && 1 <= |terms| <= MaxParams - 2
       case SetsTopic(chan, _, ts, setter, _) => Middle(chan) && ts < U64 && Middle(setter)
  }

  function RelayParams(r: Relay): seq<string> {
    match r
    case Quits(reason) => [reason]
    case Renames(nick, ts) => [nick, Decimal(ts)]
    case Joins(chan, membid) => [chan, Decimal(membid)]
    case Parts(chan, reason) => [chan, reason]
    case Says(target, text, _) => [target, text]
    case SetsModes(chan, ts, terms) => [chan, Decimal(ts)] + terms
    case SetsTopic(chan, created, ts, setter, topic) => [chan, Decimal(created), Decimal(ts), setter, topic]
  }

  lemma TwoWorded(a: string, b: string)
    ensures Worded([a, b]) == " " + a + " " + b
  {
    assert [a, b][1..] == [b] && [b][1..] == [];
    assert Worded([b]) == " " + b + "";
  }

  lemma RelayTailParams(uuid: string, r: Relay)
    requires RelaySendable(uuid, r)
    ensures Params(RelayTail(r)) == RelayParams(r) && RelayTail(r)[0] == ' '
  {
    hide Params, Decimal, Acceptable, ValidUuid, Middle;
    match r {
      case Quits(reason) =>
        OneSpaced([], reason);
        assert "" + " :" + reason == " :" + reason && [] + [reason] == [reason];
      case Renames(nick, ts) =>
        DecimalMiddle(ts);
        TwoWorded(nick, Decimal(ts));
        ParamsWorded([nick, Decimal(ts)]);
      case Joins(chan, membid) =>
        DecimalMiddle(membid);
        TwoWorded(chan, Decimal(membid));
        ParamsWorded([chan, Decimal(membid)]);
      case Parts(chan, reason) => OneSpaced([chan], reason);
      case Says(target, text, _) => OneSpaced([target], text);
      case SetsModes(chan, ts, terms) => ModesWorded(chan, ts, terms);
      case SetsTopic(chan, created, ts, setter, topic) => TopicSpaced(chan, created, ts, setter, topic);
    }
  }

  lemma OneSpaced(middles: seq<string>, trailing: string)
    requires Middles(middles) && |middles| <= 1
    ensures Params((if middles == [] then "" else " " + middles[0]) + " :" + trailing) == middles + [trailing]
  {
    hide Params;
    ParamsSpaced(middles, trailing);
    if middles == [] {
      assert "" + " :" + trailing == Spaced(middles, trailing);
    } else {
      assert middles[1..] == [] && " " + middles[0] + " :" + trailing == " " + middles[0] + (" :" + trailing);
    }
    assert [] + [trailing] == [trailing];
  }

  lemma ModesWorded(chan: string, ts: nat, terms: seq<string>)
    requires Middle(chan) && Middles(terms)
    ensures Params(" " + chan + " " + Decimal(ts) + Worded(terms)) == [chan, Decimal(ts)] + terms
  {
    hide Params, Decimal;
    DecimalMiddle(ts);
    var words := [chan, Decimal(ts)] + terms;
    assert words[1..] == [Decimal(ts)] + terms && words[1..][1..] == terms;
    ParamsWorded(words);
    assert Worded(words) == " " + chan + (" " + Decimal(ts) + Worded(terms));
    assert " " + chan + (" " + Decimal(ts) + Worded(terms)) == " " + chan + " " + Decimal(ts) + Worded(terms);
  }

  lemma TopicSpaced(chan: string, created: nat, ts: nat, setter: string, topic: string)
    requires Middle(chan) && Middle(setter)
    ensures Params(" " + chan + " " + Decimal(created) + " " + Decimal(ts) + " " + setter + " :" + topic)
         == [chan, Decimal(created), Decimal(ts), setter, topic]
  {
    hide Params, Decimal;
    DecimalMiddle(created);
    DecimalMiddle(ts);
    var c, t := Decimal(created), Decimal(ts);
    var m := [chan, c, t, setter];
    ParamsSpaced(m, topic);
    assert m[1..] == [c, t, setter] && m[1..][1..] == [t, setter] && m[1..][1..][1..] == [setter] && m[1..][1..][1..][1..] == [];
    assert Spaced([setter], topic) == " " + setter + " :" + topic;
    assert Spaced([t, setter], topic) == " " + t + (" " + setter + " :" + topic);
    assert Spaced([c, t, setter], topic) == " " + c + (" " + t + (" " + setter + " :" + topic));
    assert " " + chan + (" " + c + (" " + t + (" " + setter + " :" + topic))) == " " + chan + " " + c + " " + t + " " + setter + " :" + topic;
    assert m + [topic] == [chan, c, t, setter, topic];
  }

  lemma RelayReported(uuid: string, r: Relay)
    requires RelaySendable(uuid, r)
    ensures Report(RelayName(r), RelayParams(r), uuid) == [RelayEvent(uuid, r)]
  {
    hide Acceptable, Decimal, Stamp, ValidUuid, RelayTail, Middles;
    UuidMiddle(uuid);
    if r.SetsModes? || r.SetsTopic? {
      StampDecimal(r.ts);
      if r.SetsModes? {
        assert RelayParams(r)[2..] == r.terms;
      }
    }
  }

  /** What is relayed of a user, fed to a live session, is one event that says the same of that user. */
  lemma RelayRoundTrip(cfg: LinkConfig, s: Session, uuid: string, r: Relay)
    requires s.phase != Dead && RelaySendable(uuid, r)
    ensures Handle(cfg, s, RelayLine(uuid, r)) == (s, [RelayEvent(uuid, r)])
  {
    hide Parse, Acceptable, Decimal, Params, ValidUuid, RelayTail, Middles, Report, RelayEvent, Solid, Upper;
    UuidMiddle(uuid);
    RelayTailParams(uuid, r);
    RelayFits(uuid, r);
    ParseTail(Some(uuid), RelayName(r), RelayTail(r), RelayParams(r));
    RelayReported(uuid, r);
    var line := RelayLine(uuid, r);
    assert line[0] == ':' && "ERROR"[0] == 'E';
  }

  lemma RelayFits(uuid: string, r: Relay)
    requires RelaySendable(uuid, r)
    ensures |RelayParams(r)| <= MaxParams
  {
  }

  // ---- keepalive ----

  /** Our own PING to a peer. */
  function PingLine(ours: string, theirs: string): string {
    ":" + ours + " PING" + Worded([ours, theirs])
  }

  /** The peer answers it from the SID we asked about, to the one we asked from. */
  lemma PingAnswered(cfg: LinkConfig, s: Session, ours: string, theirs: string)
    requires s.phase != Dead && ValidSid(ours) && ValidSid(theirs)
    ensures Handle(cfg, s, PingLine(ours, theirs)) == (s.(out := s.out + [":" + theirs + " PONG " + theirs + " " + ours]), [])
  {
    hide Parse, Acceptable, Params, Report, OnServer, Upper;
    var words := [ours, theirs];
    assert Middle(ours) && Middle(theirs);
    ParamsWorded(words);
    TwoWorded(ours, theirs);
    var line := PingLine(ours, theirs);
    assert line == ":" + ours + " " + "PING" + Worded(words);
    PingFits(line, ours, theirs);
    ParseTail(Some(ours), "PING", Worded(words), words);
    assert line[0] == ':' && "ERROR"[0] == 'E';
  }

  lemma PingFits(line: string, ours: string, theirs: string)
    requires line == ":" + ours + " " + "PING" + (" " + ours + " " + theirs) && ValidSid(ours) && ValidSid(theirs)
    ensures Acceptable(line)
  {
    BytesAtMost(line);
    assert |line| == 17;
  }

  // ---- a whole burst ----

  function Prefixed(sid: string, name: string, tail: string): string {
    ":" + sid + " " + name + tail
  }

  /** The state dump, with users and channels already rendered. */
  function BurstLines(cfg: LinkConfig, now: nat, users: seq<string>, channels: seq<string>): seq<string> {
    [Prefixed(cfg.sid, "BURST", " " + Decimal(now)), Prefixed(cfg.sid, "SINFO", " version :chonkline-beta " + cfg.name + " :")]
    + users + channels + [Prefixed(cfg.sid, "ENDBURST", "")]
  }

  function SendBurst(cfg: LinkConfig, s: Session, now: nat, users: seq<string>, channels: seq<string>): Session {
    if s.sentBurst then s else s.(sentBurst := true, out := s.out + BurstLines(cfg, now, users, channels))
  }

  function HandleAll(cfg: LinkConfig, s: Session, lines: seq<string>): (Session, seq<LinkEvent>)
    decreases |lines|
  {
    if lines == [] then (s, [])
    else
      var (s1, first) := Handle(cfg, s, lines[0]);
      var (s2, rest) := HandleAll(cfg, s1, lines[1..]);
      (s2, first + rest)
  }

  lemma {:induction false} HandleConcat(cfg: LinkConfig, s: Session, a: seq<string>, b: seq<string>)
    ensures var (s1, first) := HandleAll(cfg, s, a);
      var (s2, rest) := HandleAll(cfg, s1, b);
      HandleAll(cfg, s, a + b) == (s2, first + rest)
    decreases |a|
  {
    hide Handle;
    if a == [] {
      assert a + b == b && [] + HandleAll(cfg, s, b).1 == HandleAll(cfg, s, b).1;
    } else {
      var (s1, first) := Handle(cfg, s, a[0]);
      HandleConcat(cfg, s1, a[1..], b);
      assert (a + b)[1..] == a[1..] + b;
      var mid := HandleAll(cfg, s1, a[1..]);
      assert first + (mid.1 + HandleAll(cfg, mid.0, b).1) == first + mid.1 + HandleAll(cfg, mid.0, b).1;
    }
  }

  function UidLines(users: seq<UidFields>): (r: seq<string>)
    ensures |r| == |users| && forall i :: 0 <= i < |r| ==> r[i] == UidOf(users[i])
  {
    seq(|users|, i requires 0 <= i < |users| => UidOf(users[i]))
  }

  function FjoinLines(chans: seq<FjoinFields>): (r: seq<string>)
    ensures |r| == |chans| && forall i :: 0 <= i < |r| ==> r[i] == FjoinOf(chans[i])
  {
    seq(|chans|, i requires 0 <= i < |chans| => FjoinOf(chans[i]))
  }

  function UserEvents(users: seq<UidFields>): (r: seq<LinkEvent>)
    ensures |r| == |users| && forall i :: 0 <= i < |r| ==> r[i] == UserIntroduced(Introduced(users[i]))
  {
    seq(|users|, i requires 0 <= i < |users| => UserIntroduced(Introduced(users[i])))
  }

  function ChannelEvents(chans: seq<FjoinFields>): (r: seq<LinkEvent>)
    ensures |r| == |chans| && forall i :: 0 <= i < |r| ==> r[i] == ChannelJoin(chans[i].chan, chans[i].ts, chans[i].modes, chans[i].members)
  {
    seq(|chans|, i requires 0 <= i < |chans| => ChannelJoin(chans[i].chan, chans[i].ts, chans[i].modes, chans[i].members))
  }

  lemma {:induction false} UsersBurst(cfg: LinkConfig, s: Session, users: seq<UidFields>)
    requires s.phase != Dead && forall i :: 0 <= i < |users| ==> UidSendable(users[i])
    ensures HandleAll(cfg, s, UidLines(users)) == (s, UserEvents(users))
    decreases |users|
  {
    hide Handle, UidSendable, UidOf, Introduced;
    if users != [] {
      UidRoundTrip(cfg, s, users[0]);
      UsersBurst(cfg, s, users[1..]);
      assert UidLines(users)[1..] == UidLines(users[1..]);
      assert UserEvents(users) == [UserIntroduced(Introduced(users[0]))] + UserEvents(users[1..]);
    }
  }

  lemma {:induction false} ChannelsBurst(cfg: LinkConfig, s: Session, chans: seq<FjoinFields>)
    requires s.phase != Dead && forall i :: 0 <= i < |chans| ==> FjoinSendable(chans[i])
    ensures HandleAll(cfg, s, FjoinLines(chans)) == (s, ChannelEvents(chans))
    decreases |chans|
  {
    hide Handle, FjoinSendable, FjoinOf;
    if chans != [] {
      FjoinRoundTrip(cfg, s, chans[0]);
      ChannelsBurst(cfg, s, chans[1..]);
      assert FjoinLines(chans)[1..] == FjoinLines(chans[1..]);
      assert ChannelEvents(chans) == [ChannelJoin(chans[0].chan, chans[0].ts, chans[0].modes, chans[0].members)] + ChannelEvents(chans[1..]);
    }
  }

  lemma SidSolid(sid: string)
    requires ValidSid(sid)
    ensures Solid(sid) && Acceptable(Prefixed(sid, "ENDBURST", ""))
  {
    var line := Prefixed(sid, "ENDBURST", "");
    BytesAtMost(line);
  }

  /** The opening lines say nothing to the receiver. */
  lemma OpeningQuiet(cfg: LinkConfig, s: Session, sid: string, name: string, tail: string)
    requires Solid(sid) && name in {"BURST", "SINFO"} && tail != "" && tail[0] == ' '
    ensures Handle(cfg, s, Prefixed(sid, name, tail)) == (s, [])
  {
    hide Parse, Acceptable, Solid, Upper;
    ParseName(sid, name, tail);
    assert Prefixed(sid, name, tail)[0] == ':' && "ERROR"[0] == 'E';
  }

  /** The last one completes the burst. */
  lemma ClosingCompletes(cfg: LinkConfig, s: Session, sid: string)
    requires s.phase == Bursting && ValidSid(sid)
    ensures Handle(cfg, s, Prefixed(sid, "ENDBURST", "")) == (s.(phase := Linked), [BurstComplete])
  {
    hide Parse, Acceptable, Solid, ValidSid;
    SidSolid(sid);
    var line := Prefixed(sid, "ENDBURST", "");
    assert line == ":" + sid + " " + "ENDBURST";
    ParseName(sid, "ENDBURST", "");
    assert line[0] == ':' && "ERROR"[0] == 'E';
  }

  /**
   * A burst fed to a session whose peer has registered reports exactly the users and channels it
   * was rendered from, in order, and leaves the link live.
   */
  lemma BurstRoundTrip(cfg: LinkConfig, s: Session, peer: LinkConfig, now: nat, users: seq<UidFields>,
          chans: seq<FjoinFields>)
    requires s.phase == Bursting && ValidSid(peer.sid)
    requires forall i :: 0 <= i < |users| ==> UidSendable(users[i])
    requires forall i :: 0 <= i < |chans| ==> FjoinSendable(chans[i])
    ensures HandleAll(cfg, s, BurstLines(peer, now, UidLines(users), FjoinLines(chans))) ==
      (s.(phase := Linked), UserEvents(users) + ChannelEvents(chans) + [BurstComplete])
  {
    hide Handle, ValidSid, UidSendable, FjoinSendable, UidLines, FjoinLines, UserEvents, ChannelEvents, Prefixed,
      Decimal, HandleAll;
    var a := Prefixed(peer.sid, "BURST", " " + Decimal(now));
    var b := Prefixed(peer.sid, "SINFO", " version :chonkline-beta " + peer.name + " :");
    var z := Prefixed(peer.sid, "ENDBURST", "");
    SidSolid(peer.sid);
    OpeningQuiet(cfg, s, peer.sid, "BURST", " " + Decimal(now));
    OpeningQuiet(cfg, s, peer.sid, "SINFO", " version :chonkline-beta " + peer.name + " :");
    ClosingCompletes(cfg, s, peer.sid);
    HandleTwo(cfg, s, a, b);
    HandleOne(cfg, s, z);
    UsersBurst(cfg, s, users);
    ChannelsBurst(cfg, s, chans);
    var u, c := UidLines(users), FjoinLines(chans);
    HandleConcat(cfg, s, [a, b], u);
    HandleConcat(cfg, s, [a, b] + u, c);
    HandleConcat(cfg, s, [a, b] + u + c, [z]);
    assert [] + UserEvents(users) == UserEvents(users);
  }

  lemma HandleOne(cfg: LinkConfig, s: Session, a: string)
    ensures HandleAll(cfg, s, [a]) == Handle(cfg, s, a)
  {
    hide Handle;
    var (s1, first) := Handle(cfg, s, a);
    assert [a][1..] == [] && first + [] == first;
  }

  lemma HandleTwo(cfg: LinkConfig, s: Session, a: string, b: string)
    requires Handle(cfg, s, a) == (s, []) && Handle(cfg, s, b) == (s, [])
    ensures HandleAll(cfg, s, [a, b]) == (s, [])
  {
    hide Handle, HandleAll;
    HandleOne(cfg, s, a);
    HandleOne(cfg, s, b);
    HandleConcat(cfg, s, [a], [b]);
    var none: seq<LinkEvent> := [];
    assert [a] + [b] == [a, b] && none + none == none;
  }
}
