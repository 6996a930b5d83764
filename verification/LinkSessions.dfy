/** A link session over every run of inbound lines, and the object that keeps it. */
module LinkSessions {
  import opened Basics
  import opened Text
  import opened Proto
  import opened Network
  import opened Link

  // ---- every run of a session ----

  /** A refused link stays refused and says nothing more. */
  lemma {:induction false} DeadIsFinal(cfg: LinkConfig, s: Session, lines: seq<string>)
    requires s.phase == Dead
    ensures HandleAll(cfg, s, lines) == (s, [])
    decreases |lines|
  {
    if lines != [] {
      DeadIsFinal(cfg, s, lines[1..]);
      var none: seq<LinkEvent> := [];
      assert none + none == none;
    }
  }

  predicate Hello(line: string) {
    "SERVER " <= line
  }

  function Hellos(out: seq<string>): nat {
    if out == [] then 0 else Hellos(out[..|out| - 1]) + if Hello(out[|out| - 1]) then 1 else 0
  }

  /** Our own introduction has been queued once if we say so, and never otherwise. */
  ghost predicate HelloOk(s: Session) {
    Hellos(s.out) == if s.sentServer then 1 else 0
  }

  lemma SendKeeps(s: Session, line: string)
    ensures Hellos(Send(s, line).out) == Hellos(s.out) + if Hello(line) then 1 else 0
  {
    var out := Send(s, line).out;
    assert out[..|out| - 1] == s.out;
  }

  lemma SendServerKeeps(cfg: LinkConfig, s: Session)
    requires HelloOk(s)
    ensures HelloOk(SendServer(cfg, s))
  {
    if !s.sentServer {
      SendKeeps(s.(sentServer := true), ServerLine(cfg));
      HelloPrefix(cfg);
    }
  }

  lemma HelloPrefix(cfg: LinkConfig)
    ensures Hello(ServerLine(cfg))
  {
    var tail := cfg.name + " " + cfg.sendPassword + " 0 " + cfg.sid + " :" + cfg.desc;
    assert ServerLine(cfg) == "SERVER " + tail;
  }

  lemma HandleKeeps(cfg: LinkConfig, s: Session, raw: string)
    requires HelloOk(s)
    ensures HelloOk(Handle(cfg, s, raw).0)
  {
    hide Parse, Hellos, Report, Send, SendServer;
    var cmd := Parse(raw);
    if s.phase != Dead && !("ERROR" <= raw) && cmd.Some? {
      var c := cmd.value;
      var source := if c.prefix.Some? then c.prefix.value else "";
      DispatchKeeps(cfg, s, c.name, c.params, source);
    }
  }

  lemma DispatchKeeps(cfg: LinkConfig, s: Session, name: string, p: seq<string>, source: string)
    requires HelloOk(s)
    ensures HelloOk(Dispatch(cfg, s, name, p, source).0)
  {
    hide Hellos, Report, SendServer, OnServer, Upper;
    if name == "CAPAB" {
      SendServerKeeps(cfg, s);
    } else if name == "SERVER" {
      OnServerKeeps(cfg, s, p, source);
    } else if name == "PING" {
      var line := PongLine(cfg, p, source);
      assert line[0] == ':' && "SERVER "[0] == 'S';
      SendKeeps(s, line);
    }
  }

  lemma OnServerKeeps(cfg: LinkConfig, s: Session, p: seq<string>, source: string)
    requires HelloOk(s)
    ensures HelloOk(OnServer(cfg, s, p, source).0)
  {
    hide Hellos, SendServer, ValidSid;
    var refused := s.(phase := Dead);
    var mismatch, invalid := "ERROR :Link password mismatch", "ERROR :Invalid SID";
    assert mismatch[0] == 'E' && invalid[0] == 'E' && "SERVER "[0] == 'S';
    SendKeeps(refused, mismatch);
    SendKeeps(refused, invalid);
    var sid := if ValidSid(Param(p, 3)) then Param(p, 3) else if ValidSid(Param(p, 2)) then Param(p, 2) else "";
    SendServerKeeps(cfg, s.(peerSid := Some(sid), peerName := Some(Param(p, 0)), phase := Bursting));
  }

  function Begin(cfg: LinkConfig, s: Session): Session {
    var greeted := s.(out := s.out + CapabLines);
    if s.outbound then SendServer(cfg, greeted) else greeted
  }

  const Capabilities: string :=
    "NICKMAX=30 CHANMAX=50 MAXMODES=20 IDENTMAX=10 MAXQUIT=255 MAXTOPIC=390 MAXKICK=255 MAXREAL=128 MAXAWAY=200 MAXHOST=64 MAXLINE=512"

  const CapabLines: seq<string> := ["CAPAB START 1205", "CAPAB CAPABILITIES :" + Capabilities, "CAPAB END"]

  lemma {:induction false} NoHellos(out: seq<string>)
    requires forall i :: 0 <= i < |out| ==> !Hello(out[i])
    ensures Hellos(out) == 0
    decreases |out|
  {
    if out != [] {
      NoHellos(out[..|out| - 1]);
    }
  }

  lemma BeginOk(cfg: LinkConfig, outbound: bool)
    ensures HelloOk(Begin(cfg, Opened(outbound)))
  {
    hide SendServer;
    var c: seq<string> := ["CAPAB START 1205", "CAPAB CAPABILITIES :" + Capabilities, "CAPAB END"];
    assert c == CapabLines;
    assert c[0][0] == 'C' && c[1][0] == 'C' && c[2][0] == 'C' && "SERVER "[0] == 'S';
    NoHellos(c);
    assert [] + c == c;
    SendServerKeeps(cfg, Opened(outbound).(out := c));
  }

  lemma {:induction false} RunKeeps(cfg: LinkConfig, s: Session, lines: seq<string>)
    requires HelloOk(s)
    ensures HelloOk(HandleAll(cfg, s, lines).0)
    decreases |lines|
  {
    hide Handle, HelloOk;
    if lines != [] {
      HandleKeeps(cfg, s, lines[0]);
      RunKeeps(cfg, Handle(cfg, s, lines[0]).0, lines[1..]);
    }
  }

  /** Whatever the peer sends, our introduction goes out at most once. */
  lemma IntroducedAtMostOnce(cfg: LinkConfig, outbound: bool, lines: seq<string>)
    ensures Hellos(HandleAll(cfg, Begin(cfg, Opened(outbound)), lines).0.out) <= 1
  {
    hide Begin, HandleAll;
    BeginOk(cfg, outbound);
    RunKeeps(cfg, Begin(cfg, Opened(outbound)), lines);
  }

  /** A handshake line carrying the password we expect. */
  predicate Authenticates(cfg: LinkConfig, raw: string) {
    var cmd := Parse(raw);
    cmd.Some? && cmd.value.name == "SERVER" && Param(cmd.value.params, 1) == cfg.recvPassword
  }

  predicate Trusted(s: Session) {
    s.peerSid.Some? || s.phase == Bursting || s.phase == Linked
  }

  lemma TrustedBy(cfg: LinkConfig, s: Session, name: string, p: seq<string>, source: string)
    requires !Trusted(s) && Trusted(Dispatch(cfg, s, name, p, source).0)
    ensures name == "SERVER" && Param(p, 1) == cfg.recvPassword
  {
    hide Report, Upper, ValidSid, PongLine, ServerLine;
  }

  lemma TrustGained(cfg: LinkConfig, s: Session, raw: string)
    requires !Trusted(s) && Trusted(Handle(cfg, s, raw).0)
    ensures Authenticates(cfg, raw)
  {
    hide Parse, Dispatch;
    assert s.phase != Dead && !("ERROR" <= raw) && Parse(raw).Some?;
    var cmd := Parse(raw).value;
    TrustedBy(cfg, s, cmd.name, cmd.params, if cmd.prefix.Some? then cmd.prefix.value else "");
  }

  /** No link is trusted, let alone live, unless some line gave the right password. */
  lemma {:induction false} TrustedOnlyAuthenticated(cfg: LinkConfig, s: Session, lines: seq<string>)
    requires !Trusted(s) && Trusted(HandleAll(cfg, s, lines).0)
    ensures exists i :: 0 <= i < |lines| && Authenticates(cfg, lines[i])
    decreases |lines|
  {
    hide Handle, Trusted, Authenticates;
    assert lines != [];
    var s1 := Handle(cfg, s, lines[0]).0;
    if Trusted(s1) {
      TrustGained(cfg, s, lines[0]);
    } else {
      TrustedOnlyAuthenticated(cfg, s1, lines[1..]);
      var i :| 0 <= i < |lines[1..]| && Authenticates(cfg, lines[1..][i]);
      assert Authenticates(cfg, lines[i + 1]);
    }
  }

  // ---- the handshake ----

  /** The name, password, SID and description can stand in a SERVER line. */
  ghost predicate Introducible(peer: LinkConfig) {
    Middle(peer.name) && Middle(peer.sendPassword) && ValidSid(peer.sid) && Acceptable(ServerLine(peer))
  }

  lemma ServerLineParses(peer: LinkConfig)
    requires Introducible(peer)
    ensures Parse(ServerLine(peer)) == Some(Command(None, "SERVER", [peer.name, peer.sendPassword, "0", peer.sid, peer.desc], []))
    ensures !("ERROR" <= ServerLine(peer))
  {
    hide Parse, Acceptable, Params, ValidSid;
    var m := [peer.name, peer.sendPassword, "0", peer.sid];
    SidMiddle(peer.sid);
    assert Middle("0");
    ParamsSpaced(m, peer.desc);
    var tail := Spaced(m, peer.desc);
    ServerTail(peer);
    assert m + [peer.desc] == [peer.name, peer.sendPassword, "0", peer.sid, peer.desc];
    assert "" + "SERVER" + tail == ServerLine(peer);
    ParseTail(None, "SERVER", tail, m + [peer.desc]);
    assert ServerLine(peer)[0] == 'S' && "ERROR"[0] == 'E';
  }

  lemma SidMiddle(sid: string)
    requires ValidSid(sid)
    ensures Middle(sid)
  {
  }

  lemma ServerTail(peer: LinkConfig)
    ensures ServerLine(peer) == "SERVER" + Spaced([peer.name, peer.sendPassword, "0", peer.sid], peer.desc)
    ensures Spaced([peer.name, peer.sendPassword, "0", peer.sid], peer.desc)[0] == ' '
  {
    var m := [peer.name, peer.sendPassword, "0", peer.sid];
    assert m[1..] == [peer.sendPassword, "0", peer.sid] && m[1..][1..] == ["0", peer.sid];
    assert m[1..][1..][1..] == [peer.sid] && m[1..][1..][1..][1..] == [];
    assert Spaced([peer.sid], peer.desc) == " " + peer.sid + " :" + peer.desc;
    assert Spaced(["0", peer.sid], peer.desc) == " 0" + (" " + peer.sid + " :" + peer.desc);
    assert Spaced(m[1..], peer.desc) == " " + peer.sendPassword + (" 0" + (" " + peer.sid + " :" + peer.desc));
    assert Spaced(m, peer.desc) == " " + peer.name + (" " + peer.sendPassword + (" 0" + (" " + peer.sid + " :" + peer.desc)));
    assert ServerLine(peer) ==
      "SERVER" + (" " + peer.name + (" " + peer.sendPassword + (" 0" + (" " + peer.sid + " :" + peer.desc))));
  }

  /** The session once a peer has introduced itself with the right password. */
  function Registered(cfg: LinkConfig, s: Session, peer: LinkConfig): Session {
    var s' := s.(peerSid := Some(peer.sid), peerName := Some(peer.name), phase := Bursting);
    if s.outbound then s' else SendServer(cfg, s')
  }

  /** A peer that introduces itself is registered if and only if it gives the password we expect; otherwise the link is dead. */
  lemma IntroductionDecides(cfg: LinkConfig, s: Session, peer: LinkConfig)
    requires s.phase != Dead && Introducible(peer)
    ensures Handle(cfg, s, ServerLine(peer)) ==
      if peer.sendPassword == cfg.recvPassword then (Registered(cfg, s, peer), [PeerRegistered(peer.sid, peer.name, peer.desc)])
      else (s.(phase := Dead, out := s.out + ["ERROR :Link password mismatch"]), [Failed("link password mismatch")])
  {
    hide Parse, Acceptable, ValidSid, Middle, ServerLine, Report, Upper, FirstSid;
    ServerLineParses(peer);
  }

  lemma CapabHandled(cfg: LinkConfig, s: Session, tail: string)
    requires s.phase != Dead && tail != "" && tail[0] == ' '
    ensures var r := Handle(cfg, s, "CAPAB" + tail); r == (s, []) || (!s.outbound && r == (SendServer(cfg, s), []))
  {
    hide Parse, Acceptable, SendServer, Report, OnServer;
    ParseBareName("CAPAB", tail);
    assert ("CAPAB" + tail)[0] == 'C' && "ERROR"[0] == 'E';
  }

  lemma CapabIs()
    ensures CapabLines == ["CAPAB" + " START 1205", "CAPAB" + (" CAPABILITIES :" + Capabilities), "CAPAB" + " END"]
  {
    hide Capabilities;
    assert "CAPAB CAPABILITIES :" + Capabilities == "CAPAB" + (" CAPABILITIES :" + Capabilities);
    var c: seq<string> := ["CAPAB START 1205", "CAPAB CAPABILITIES :" + Capabilities, "CAPAB END"];
    assert c == CapabLines;
    assert c[0] == "CAPAB" + " START 1205" && c[2] == "CAPAB" + " END";
  }

  /** The greeting says nothing, and at most draws our introduction. */
  lemma GreetingHandled(cfg: LinkConfig, s: Session)
    requires s.phase != Dead
    ensures var (s', events) := HandleAll(cfg, s, CapabLines);
      events == [] && (s' == s || (!s.outbound && s' == SendServer(cfg, s)))
  {
    hide Handle, SendServer, HandleAll, CapabLines, Capabilities;
    CapabIs();
    var a, b, c := "CAPAB" + " START 1205", "CAPAB" + (" CAPABILITIES :" + Capabilities), "CAPAB" + " END";
    CapabHandled(cfg, s, " START 1205");
    var s1 := Handle(cfg, s, a).0;
    SendTwice(cfg, s);
    CapabHandled(cfg, s1, " CAPABILITIES :" + Capabilities);
    var s2 := Handle(cfg, s1, b).0;
    CapabHandled(cfg, s2, " END");
    HandleOne(cfg, s, a);
    HandleOne(cfg, s1, b);
    HandleOne(cfg, s2, c);
    HandleConcat(cfg, s, [a], [b]);
    HandleConcat(cfg, s, [a] + [b], [c]);
    assert [a] + [b] + [c] == [a, b, c];
    var none: seq<LinkEvent> := [];
    assert none + none == none;
  }

  lemma SendTwice(cfg: LinkConfig, s: Session)
    ensures SendServer(cfg, SendServer(cfg, s)) == SendServer(cfg, s)
    ensures SendServer(cfg, s).phase == s.phase && SendServer(cfg, s).outbound == s.outbound
  {
  }

  lemma PeerHandled(cfg: LinkConfig, s: Session, peer: LinkConfig)
    requires s.phase != Dead && Introducible(peer) && peer.sendPassword == cfg.recvPassword
    ensures HandleAll(cfg, s, CapabLines + [ServerLine(peer)]) == (Registered(cfg, s, peer), [PeerRegistered(peer.sid, peer.name, peer.desc)])
  {
    hide Handle, HandleAll, CapabLines, ServerLine, Introducible;
    GreetingHandled(cfg, s);
    var s1 := HandleAll(cfg, s, CapabLines).0;
    SendTwice(cfg, s);
    HandleOne(cfg, s1, ServerLine(peer));
    IntroductionDecides(cfg, s1, peer);
    HandleConcat(cfg, s, CapabLines, [ServerLine(peer)]);
    var none: seq<LinkEvent> := [];
    assert none + [PeerRegistered(peer.sid, peer.name, peer.desc)] == [PeerRegistered(peer.sid, peer.name, peer.desc)];
  }

  /**
   * Two servers that expect each other's passwords, one of which opens the link: each, fed exactly what the other has
   * queued, registers the other, and once each has been fed the other's state dump both are live and know each
   * other's users and channels.
   */
  lemma LinkEstablished(x: LinkConfig, y: LinkConfig, now: nat, xUsers: seq<UidFields>, xChans: seq<FjoinFields>,
                        yUsers: seq<UidFields>, yChans: seq<FjoinFields>)
    requires Introducible(x) && Introducible(y) && x.sendPassword == y.recvPassword && y.sendPassword == x.recvPassword
    requires (forall i :: 0 <= i < |xUsers| ==> UidSendable(xUsers[i])) && (forall i :: 0 <= i < |yUsers| ==> UidSendable(yUsers[i]))
    requires (forall i :: 0 <= i < |xChans| ==> FjoinSendable(xChans[i])) && (forall i :: 0 <= i < |yChans| ==> FjoinSendable(yChans[i]))
    ensures var caller, callee := Begin(x, Opened(true)), Begin(y, Opened(false));
      var (y1, toY) := HandleAll(y, callee, caller.out);
      var (x1, toX) := HandleAll(x, caller, y1.out);
      && toY == [PeerRegistered(x.sid, x.name, x.desc)] && toX == [PeerRegistered(y.sid, y.name, y.desc)]
      && x1.out == caller.out && y1.peerSid == Some(x.sid) && x1.peerSid == Some(y.sid)
      && HandleAll(y, y1, BurstLines(x, now, UidLines(xUsers), FjoinLines(xChans)))
         == (y1.(phase := Linked), UserEvents(xUsers) + ChannelEvents(xChans) + [BurstComplete])
      && HandleAll(x, x1, BurstLines(y, now, UidLines(yUsers), FjoinLines(yChans)))
         == (x1.(phase := Linked), UserEvents(yUsers) + ChannelEvents(yChans) + [BurstComplete])
  {
    hide HandleAll, CapabLines, ServerLine, UidSendable, FjoinSendable, UidLines, FjoinLines, UserEvents,
      ChannelEvents, BurstLines, Acceptable, Middle, ValidSid;
    var caller, callee := Begin(x, Opened(true)), Begin(y, Opened(false));
    assert [] + CapabLines == CapabLines;
    PeerHandled(y, callee, x);
    var y1 := Registered(y, callee, x);
    PeerHandled(x, caller, y);
    BurstRoundTrip(y, y1, x, now, xUsers, xChans);
    BurstRoundTrip(x, Registered(x, caller, y), y, now, yUsers, yChans);
  }

  // ---- the session as it is kept ----

  method ReadMembers(list: string) returns (members: seq<(string, string)>)
    ensures members == ParseMembers(list)
  {
    hide ParseMember;
    var entries := Text.Split(list, ' ');
    members := [];
    var i := 0;
    assert entries[0..] == entries;
    while i < |entries|
      invariant 0 <= i <= |entries|
      invariant members + ParseEntries(entries[i..]) == ParseMembers(list)
    {
      assert entries[i..][1..] == entries[i + 1..];
      var rest := ParseEntries(entries[i + 1..]);
      if entries[i] != "" {
        var m := ParseMember(entries[i]);
        if m.Some? {
          assert members + ([m.value] + rest) == members + [m.value] + rest;
          members := members + [m.value];
        } else {
          assert [] + rest == rest;
        }
      } else {
        assert [] + rest == rest;
      }
      i := i + 1;
    }
  }

  class LinkSession {
    const cfg: LinkConfig
    const outbound: bool
    var phase: Phase
    var peerSid: Option<string>
    var peerName: Option<string>
    var sentServer: bool
    var sentBurst: bool
    var out: seq<string>

    ghost function View(): Session
      reads this
    {
      Session(phase, peerSid, peerName, outbound, sentServer, sentBurst, out)
    }

    constructor (cfg: LinkConfig, outbound: bool)
      ensures View() == Opened(outbound) && this.cfg == cfg
    {
      this.cfg, this.outbound := cfg, outbound;
      phase, peerSid, peerName, sentServer, sentBurst, out := Capab, None, None, false, false, [];
    }

    method SendServerLine()
      modifies this
      ensures View() == SendServer(cfg, old(View()))
    {
      if sentServer {
        return;
      }
      sentServer := true;
      out := out + [ServerLine(cfg)];
    }

    method Greet()
      modifies this
      ensures View() == Begin(cfg, old(View()))
    {
      out := out + CapabLines;
      if outbound {
        SendServerLine();
      }
    }

    method Burst(now: nat, users: seq<string>, channels: seq<string>)
      modifies this
      ensures View() == SendBurst(cfg, old(View()), now, users, channels)
    {
      hide BurstLines;
      if sentBurst {
        return;
      }
      sentBurst := true;
      out := out + BurstLines(cfg, now, users, channels);
    }

    method OnServerLine(p: seq<string>, source: string) returns (events: seq<LinkEvent>)
      modifies this
      ensures (View(), events) == OnServer(cfg, old(View()), p, source)
    {
      hide ValidSid;
      if source != "" && peerSid.Some? {
        var sid := FirstSid(if p == [] then [] else p[1..]);
        if sid == "" {
          return [];
        }
        return [ServerIntroduced(sid, Param(p, 0), LastParam(p), source)];
      }
      var sid := if ValidSid(Param(p, 3)) then Param(p, 3) else if ValidSid(Param(p, 2)) then Param(p, 2) else "";
      if Param(p, 1) != cfg.recvPassword {
        phase := Dead;
        out := out + ["ERROR :Link password mismatch"];
        return [Failed("link password mismatch")];
      }
      if !ValidSid(sid) {
        phase := Dead;
        out := out + ["ERROR :Invalid SID"];
        return [Failed("invalid SID \"\"")];
      }
      peerSid, peerName, phase := Some(sid), Some(Param(p, 0)), Bursting;
      if !outbound {
        SendServerLine();
      }
      return [PeerRegistered(sid, Param(p, 0), LastParam(p))];
    }

    method HandleLine(raw: string) returns (events: seq<LinkEvent>)
      modifies this
      ensures (View(), events) == Handle(cfg, old(View()), raw)
    {
      hide Parse, Report, OnServer, SendServer;
      if phase == Dead {
        return [];
      }
      if "ERROR" <= raw {
        phase := Dead;
        var i := IndexOf(raw, ':');
        return [Failed(if i < |raw| then raw[i + 1..] else "")];
      }
      var cmd := Parse(raw);
      if cmd.None? {
        return [];
      }
      var name, p := cmd.value.name, cmd.value.params;
      var source := if cmd.value.prefix.Some? then cmd.value.prefix.value else "";
      if name == "CAPAB" {
        if p != [] && Upper(p[0]) == "START" && !outbound && !sentServer {
          SendServerLine();
        }
        return [];
      } else if name == "SERVER" {
        events := OnServerLine(p, source);
      } else if name == "ENDBURST" {
        if phase == Bursting {
          phase := Linked;
        }
        return [BurstComplete];
      } else if name == "PING" {
        out := out + [PongLine(cfg, p, source)];
        return [];
      } else {
        return Report(name, p, source);
      }
    }
  }
}
