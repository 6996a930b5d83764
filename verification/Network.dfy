/** The rest of the spanning tree: other servers, the users they own, and minted identities. */
module Network {
  import opened Basics

  datatype RemoteServer = RemoteServer(
    sid: string, name: string, desc: string, hop: nat, via: string, bursting: bool)

  datatype RemoteUser = RemoteUser(
    uuid: string, sid: string, nick: string, nickKey: string, user: string, host: string,
    realHost: string, realname: string, ts: nat, modes: string, chans: set<string>,
    away: Option<string>, oper: bool)

  datatype Net = Net(
    sid: string,
    servers: map<string, RemoteServer>,
    users: map<string, RemoteUser>,
    nickIndex: map<string, string>,
    localUuids: map<nat, string>,
    nextUid: nat)

  // ---- identifier grammar ----

  predicate UidChar(c: char) {
    'A' <= c <= 'Z' || '0' <= c <= '9'
  }

  predicate ValidSid(s: string) {
    |s| == 3 && '0' <= s[0] <= '9' && UidChar(s[1]) && UidChar(s[2])
  }

  predicate ValidUid(s: string) {
    |s| == 6 && forall i :: 0 <= i < 6 ==> UidChar(s[i])
  }

  predicate ValidUuid(s: string) {
    |s| == 9 && ValidSid(s[..3]) && ValidUid(s[3..])
  }

  // ---- minting ----

  const UidAlphabet: string := "ABCDEFGHIJKLMNOPQRSTUVWXYZ0123456789"

  /** How many distinct UIDs there are: 36^6. */
  const UidSpace: nat := 2176782336

  function Pow36(n: nat): (r: nat)
    ensures r > 0
  {
    if n == 0 then 1 else 36 * Pow36(n - 1)
  }

  /** The `len` low base-36 digits of `n`, most significant first. */
  function UidDigits(n: nat, len: nat): (r: string)
    ensures |r| == len
  {
    if len == 0 then "" else UidDigits(n / 36, len - 1) + [UidAlphabet[n % 36]]
  }

  lemma AlphabetInjective(a: nat, b: nat)
    requires a < 36 && b < 36
    ensures UidAlphabet[a] == UidAlphabet[b] <==> a == b
    ensures UidChar(UidAlphabet[a])
  {
    assert forall i :: 0 <= i < 26 ==> UidAlphabet[i] == ('A' as int + i) as char;
    assert forall i :: 26 <= i < 36 ==> UidAlphabet[i] == ('0' as int + i - 26) as char;
  }

  lemma {:induction false} UidDigitsWellFormed(n: nat, len: nat)
    ensures forall i :: 0 <= i < len ==> UidChar(UidDigits(n, len)[i])
    decreases len
  {
    if len > 0 {
      UidDigitsWellFormed(n / 36, len - 1);
      AlphabetInjective(n % 36, 0);
    }
  }

  lemma ModSplit(a: nat, p: nat)
    requires p > 0
    ensures a % (36 * p) == 36 * ((a / 36) % p) + a % 36
  {
    var q, r := a / 36, a % 36;
    var u, v := q / p, q % p;
    assert q == u * p + v;
    assert a == u * (36 * p) + (36 * v + r);
    DivUnique(a, 36 * p, u, 36 * v + r);
  }

  /** Two mint counters give the same UID exactly when they agree modulo the number of UIDs. */
  lemma {:induction false} UidDigitsEqual(a: nat, b: nat, len: nat)
    ensures UidDigits(a, len) == UidDigits(b, len) <==> a % Pow36(len) == b % Pow36(len)
    decreases len
  {
    if len == 0 {
      assert a % 1 == 0 && b % 1 == 0;
    } else {
      UidDigitsEqual(a / 36, b / 36, len - 1);
      AlphabetInjective(a % 36, b % 36);
      var p := Pow36(len - 1);
      ModSplit(a, p);
      ModSplit(b, p);
      var x, y := UidDigits(a, len), UidDigits(b, len);
      assert x[..len-1] == UidDigits(a / 36, len - 1) && y[..len-1] == UidDigits(b / 36, len - 1);
      assert x[len-1] == UidAlphabet[a % 36] && y[len-1] == UidAlphabet[b % 36];
    }
  }

  /** The six slots a UID is written into. */
  const UidSlots: string := "AAAAAA"

  /** The UID minted when the counter stands at `n`. */
  function Uid(n: nat): string {
    UidDigits(n, |UidSlots|)
  }

  lemma UidWellFormed(sid: string, n: nat)
    requires ValidSid(sid)
    ensures ValidUuid(sid + Uid(n))
  {
    UidDigitsWellFormed(n, |UidSlots|);
    assert (sid + Uid(n))[..3] == sid && (sid + Uid(n))[3..] == Uid(n);
  }

  /** The first 36^6 UIDs are pairwise distinct, and after that they repeat in order. */
  lemma UidsDistinct(a: nat, b: nat)
    ensures Uid(a) == Uid(b) <==> a % UidSpace == b % UidSpace
  {
    UidDigitsEqual(a, b, 6);
    assert Pow36(6) == UidSpace;
  }

  lemma EarlyUidsDistinct(a: nat, b: nat)
    requires a < b < UidSpace
    ensures Uid(a) != Uid(b)
  {
    UidsDistinct(a, b);
  }

  function MintLocal(n: Net, id: nat): Net {
    if id in n.localUuids then n
    else n.(localUuids := n.localUuids[id := n.sid + Uid(n.nextUid)], nextUid := (n.nextUid + 1) % U64)
  }

  function EmptyNet(sid: string): Net {
    Net(sid, map[], map[], map[], map[], 0)
  }

  /** A session's worth of requests for local identities, in order. */
  function MintAll(sid: string, ids: seq<nat>): Net {
    if ids == [] then EmptyNet(sid) else MintLocal(MintAll(sid, ids[..|ids|-1]), ids[|ids|-1])
  }

  ghost predicate Minted(n: Net, id: nat, j: nat)
    requires id in n.localUuids
  {
    j < n.nextUid && n.localUuids[id] == n.sid + Uid(j)
  }

  ghost predicate LocalIdentities(n: Net) {
    (forall id :: id in n.localUuids ==> exists j: nat :: Minted(n, id, j))
    && forall a, b :: a in n.localUuids && b in n.localUuids && n.localUuids[a] == n.localUuids[b] ==> a == b
  }

  lemma SuffixEqual(s: string, a: string, b: string)
    ensures s + a == s + b <==> a == b
  {
    assert (s + a)[|s|..] == a && (s + b)[|s|..] == b;
  }

  lemma NextUidIsNew(n: Net, id: nat)
    requires LocalIdentities(n) && n.nextUid < UidSpace && id in n.localUuids
    ensures n.localUuids[id] != n.sid + Uid(n.nextUid)
  {
    var j: nat :| Minted(n, id, j);
    EarlyUidsDistinct(j, n.nextUid);
    SuffixEqual(n.sid, Uid(j), Uid(n.nextUid));
  }

  lemma MintKeepsIdentities(n: Net, id: nat)
    requires LocalIdentities(n) && n.nextUid < UidSpace
    ensures LocalIdentities(MintLocal(n, id))
  {
    var n' := MintLocal(n, id);
    if id !in n.localUuids {
      assert Minted(n', id, n.nextUid);
      forall k | k in n.localUuids
        ensures n'.localUuids[k] != n'.localUuids[id]
        ensures exists j: nat :: Minted(n', k, j)
      {
        NextUidIsNew(n, k);
        var j: nat :| Minted(n, k, j);
        assert Minted(n', k, j);
      }
    }
  }

  /**
   * Over any run that asks for at most 36^6 identities no two connections share a UUID,
   * and with a well-formed SID every UUID is well formed.
   */
  lemma {:induction false} MintedIdentitiesDistinct(sid: string, ids: seq<nat>)
    requires |ids| <= UidSpace
    ensures LocalIdentities(MintAll(sid, ids))
    ensures MintAll(sid, ids).sid == sid && MintAll(sid, ids).nextUid <= |ids|
    ensures forall id :: id in MintAll(sid, ids).localUuids <==> id in ids
    ensures ValidSid(sid) ==> AllUuidsValid(MintAll(sid, ids))
    decreases |ids|
  {
    hide LocalIdentities, Uid, ValidSid, AllUuidsValid, UidSpace;
    if ids == [] {
      NothingMinted(sid);
    } else {
      var k := |ids| - 1;
      var n := MintAll(sid, ids[..k]);
      MintedIdentitiesDistinct(sid, ids[..k]);
      MintKeepsIdentities(n, ids[k]);
      assert ids == ids[..k] + [ids[k]];
      if ValidSid(sid) {
        MintKeepsValid(n, ids[k]);
      }
    }
  }

  ghost predicate AllUuidsValid(n: Net) {
    forall id :: id in n.localUuids ==> ValidUuid(n.localUuids[id])
  }

  lemma NothingMinted(sid: string)
    ensures LocalIdentities(EmptyNet(sid)) && AllUuidsValid(EmptyNet(sid))
  {
  }

  lemma MintKeepsValid(n: Net, id: nat)
    requires AllUuidsValid(n) && ValidSid(n.sid)
    ensures AllUuidsValid(MintLocal(n, id))
  {
    hide ValidUuid, ValidSid, Uid;
    UidWellFormed(n.sid, n.nextUid);
  }

  // ---- the nick index ----

  /** Every index entry names a live user carrying exactly that key. */
  ghost predicate IndexOk(n: Net) {
    forall k :: k in n.nickIndex ==> n.nickIndex[k] in n.users && n.users[n.nickIndex[k]].nickKey == k
  }

  /** Records are filed under their own identifiers. */
  ghost predicate Keyed(n: Net) {
    && (forall k :: k in n.servers ==> n.servers[k].sid == k)
    && (forall k :: k in n.users ==> n.users[k].uuid == k)
  }

  function AddServer(n: Net, s: RemoteServer): Net {
    n.(servers := n.servers[s.sid := s])
  }

  function AddUser(n: Net, u: RemoteUser): Net {
    n.(nickIndex := n.nickIndex[u.nickKey := u.uuid], users := n.users[u.uuid := u])
  }

  /** The index entry of a user, when it still points at that user. */
  predicate OwnsKey(n: Net, uuid: string)
    requires uuid in n.users
  {
    n.users[uuid].nickKey in n.nickIndex && n.nickIndex[n.users[uuid].nickKey] == uuid
  }

  function DropKey(n: Net, uuid: string): map<string, string>
    requires uuid in n.users
  {
    if OwnsKey(n, uuid) then n.nickIndex - {n.users[uuid].nickKey} else n.nickIndex
  }

  function RemoveUser(n: Net, uuid: string): Net {
    if uuid !in n.users then n
    else n.(users := n.users - {uuid}, nickIndex := DropKey(n, uuid))
  }

  function RenameUser(n: Net, uuid: string, nick: string, key: string): Net {
    if uuid !in n.users then n
    else n.(users := n.users[uuid := n.users[uuid].(nick := nick, nickKey := key)],
            nickIndex := DropKey(n, uuid)[key := uuid])
  }

  function SetChans(n: Net, uuid: string, chans: set<string>): Net {
    if uuid !in n.users then n else n.(users := n.users[uuid := n.users[uuid].(chans := chans)])
  }

  /**
   * Introducing a user leaves the index sound exactly when it does not re-introduce a known
   * UUID under another nickname while the old nickname still points at it.
   */
  lemma AddUserKeepsIndexIff(n: Net, u: RemoteUser)
    requires IndexOk(n)
    ensures IndexOk(AddUser(n, u)) <==>
      !(u.uuid in n.users && n.users[u.uuid].nickKey != u.nickKey && OwnsKey(n, u.uuid))
  {
    var n' := AddUser(n, u);
    if u.uuid in n.users && n.users[u.uuid].nickKey != u.nickKey && OwnsKey(n, u.uuid) {
      var k := n.users[u.uuid].nickKey;
      assert k in n'.nickIndex && n'.nickIndex[k] == u.uuid && n'.users[u.uuid].nickKey != k;
    }
  }

  /** The shortest way to a stale entry: the same user again, under another key. */
  lemma ReintroductionLeavesStale(sid: string, u: RemoteUser, key: string)
    requires key != u.nickKey
    ensures !IndexOk(AddUser(AddUser(EmptyNet(sid), u), u.(nickKey := key)))
  {
    var n := AddUser(EmptyNet(sid), u);
    AddUserKeepsIndexIff(EmptyNet(sid), u);
    AddUserKeepsIndexIff(n, u.(nickKey := key));
  }

  // ---- splits ----

  /** Nothing outside `t` is reached through a member of `t`. */
  ghost predicate ClosedUnderVia(servers: map<string, RemoteServer>, t: set<string>) {
    forall k :: k in servers && servers[k].via in t ==> k in t
  }

  function Frontier(servers: map<string, RemoteServer>, t: set<string>): set<string> {
    set k | k in servers && servers[k].via in t && k !in t
  }

  function Subtree(servers: map<string, RemoteServer>, t: set<string>): set<string>
    decreases |servers.Keys - t|
  {
    var f := Frontier(servers, t);
    if f == {} then t
    else
      FrontierShrinks(servers, t);
      Subtree(servers, t + f)
  }

  lemma FrontierShrinks(servers: map<string, RemoteServer>, t: set<string>)
    requires Frontier(servers, t) != {}
    ensures |servers.Keys - (t + Frontier(servers, t))| < |servers.Keys - t|
  {
    var f := Frontier(servers, t);
    assert servers.Keys - (t + f) == (servers.Keys - t) - f;
    assert f <= servers.Keys - t;
    assert |(servers.Keys - t) - f| == |servers.Keys - t| - |f|;
  }

  /** `Subtree` is the least set holding the start and closed under "reached via". */
  lemma {:induction false} SubtreeIsLeast(servers: map<string, RemoteServer>, t: set<string>)
    ensures t <= Subtree(servers, t) && ClosedUnderVia(servers, Subtree(servers, t))
    ensures forall c: set<string> :: t <= c && ClosedUnderVia(servers, c) ==> Subtree(servers, t) <= c
    decreases |servers.Keys - t|
  {
    var f := Frontier(servers, t);
    if f == {} {
      assert forall k :: k in servers && servers[k].via in t && k !in t ==> k in f;
    } else {
      FrontierShrinks(servers, t);
      SubtreeIsLeast(servers, t + f);
      forall c: set<string> | t <= c && ClosedUnderVia(servers, c) ensures Subtree(servers, t) <= c {
        assert t + f <= c;
      }
    }
  }

  function Lost(n: Net, sid: string): set<string> {
    set u | u in n.users && n.users[u].sid in Subtree(n.servers, {sid})
  }

  function Without(n: Net, uuids: set<string>): Net {
    n.(users := n.users - uuids,
       nickIndex := map k | k in n.nickIndex && n.nickIndex[k] !in uuids :: n.nickIndex[k])
  }

  /** What a split leaves: the servers outside the subtree, their users, and those users' nicknames. */
  function Split(n: Net, sid: string): Net {
    Without(n, Lost(n, sid)).(servers := n.servers - Subtree(n.servers, {sid}))
  }

  /** Behind the split: in every set of servers that holds the SID and whatever is reached through a member. */
  ghost predicate Behind(n: Net, sid: string, server: string) {
    forall c: set<string> :: sid in c && ClosedUnderVia(n.servers, c) ==> server in c
  }

  /** A split takes exactly the servers behind it and their users; everybody else stays, under the same nick. */
  lemma SplitTakesBehind(n: Net, sid: string)
    ensures forall k :: k in Split(n, sid).servers <==> k in n.servers && !Behind(n, sid, k)
    ensures forall u :: u in Split(n, sid).users <==> u in n.users && !Behind(n, sid, n.users[u].sid)
    ensures forall u :: u in Split(n, sid).users ==> Split(n, sid).users[u] == n.users[u]
    ensures forall k :: k in n.nickIndex && n.nickIndex[k] in Split(n, sid).users ==>
      k in Split(n, sid).nickIndex && Split(n, sid).nickIndex[k] == n.nickIndex[k]
  {
    hide Subtree, ClosedUnderVia;
    var t := Subtree(n.servers, {sid});
    SubtreeIsLeast(n.servers, {sid});
    forall x ensures x in t <==> Behind(n, sid, x) {
      if x in t {
        forall c: set<string> | sid in c && ClosedUnderVia(n.servers, c) ensures x in c {
          assert {sid} <= c;
        }
      }
    }
  }

  lemma RemoveUserIsWithout(n: Net, gone: set<string>, uuid: string)
    requires IndexOk(n) && uuid in n.users && uuid !in gone
    ensures RemoveUser(Without(n, gone), uuid) == Without(n, gone + {uuid})
  {
    var a, b := Without(n, gone), Without(n, gone + {uuid});
    assert a.users - {uuid} == b.users;
    assert a.users[uuid] == n.users[uuid];
    assert DropKey(a, uuid) == b.nickIndex;
  }

  // ---- runs ----

  datatype NetEvent =
    | ServerAdded(s: RemoteServer)
    | UserAdded(u: RemoteUser)
    | UserRenamed(uuid: string, nick: string, key: string)
    | UserRemoved(uuid: string)
    | ChansSet(uuid: string, chans: set<string>)
    | ServerSplit(sid: string)

  function NetStep(n: Net, e: NetEvent): Net {
    match e
    case ServerAdded(s) => AddServer(n, s)
    case UserAdded(u) => AddUser(n, u)
    case UserRenamed(uuid, nick, key) => RenameUser(n, uuid, nick, key)
    case UserRemoved(uuid) => RemoveUser(n, uuid)
    case ChansSet(uuid, chans) => SetChans(n, uuid, chans)
    case ServerSplit(sid) => Split(n, sid)
  }

  function NetRun(n: Net, es: seq<NetEvent>): Net
    decreases |es|
  {
    if es == [] then n else NetStep(NetRun(n, es[..|es|-1]), es[|es|-1])
  }

  /** No event of the run introduces a UUID that is in use when it arrives. */
  ghost predicate FreshAdds(n: Net, es: seq<NetEvent>) {
    forall i :: 0 <= i < |es| && es[i].UserAdded? ==> es[i].u.uuid !in NetRun(n, es[..i]).users
  }

  /** In every state of every such run the index is sound and every record is filed under itself. */
  lemma {:induction false} IndexHoldsOverRuns(n: Net, es: seq<NetEvent>)
    requires Keyed(n) && IndexOk(n) && FreshAdds(n, es)
    ensures Keyed(NetRun(n, es)) && IndexOk(NetRun(n, es))
    decreases |es|
  {
    if es != [] {
      var k := |es| - 1;
      FreshPrefix(n, es, k);
      IndexHoldsOverRuns(n, es[..k]);
      var m := NetRun(n, es[..k]);
      match es[k]
      case UserAdded(u) => AddUserKeepsIndexIff(m, u);
      case _ =>
    }
  }

  /** The event gives a user this key: a new user who has it, or a known one who takes it. */
  ghost predicate Takes(n: Net, e: NetEvent, key: string, uuid: string) {
    || (e.UserAdded? && e.u.uuid == uuid && e.u.nickKey == key)
    || (e.UserRenamed? && e.uuid == uuid && e.key == key && uuid in n.users)
  }

  lemma TakenLeads(n: Net, e: NetEvent, key: string, uuid: string)
    requires Takes(n, e, key, uuid)
    ensures var n' := NetStep(n, e);
      key in n'.nickIndex && n'.nickIndex[key] == uuid && uuid in n'.users && n'.users[uuid].nickKey == key
  {
  }

  /** An entry stays for as long as nobody else takes the key and its user is there and has it. */
  lemma EntryStays(n: Net, e: NetEvent, key: string, uuid: string)
    requires Keyed(n) && IndexOk(n) && key in n.nickIndex && n.nickIndex[key] == uuid
    requires forall other :: other != uuid ==> !Takes(n, e, key, other)
    requires var n' := NetStep(n, e); uuid in n'.users && n'.users[uuid].nickKey == key
    ensures var n' := NetStep(n, e); key in n'.nickIndex && n'.nickIndex[key] == uuid
  {
    hide Subtree;
    if e.UserAdded? {
      assert Takes(n, e, e.u.nickKey, e.u.uuid);
    } else if e.UserRenamed? && e.uuid in n.users {
      assert Takes(n, e, e.key, e.uuid);
    }
  }

  lemma NextRun(n: Net, es: seq<NetEvent>, k: nat)
    requires k < |es|
    ensures NetRun(n, es[..k + 1]) == NetStep(NetRun(n, es[..k]), es[k])
  {
    hide NetStep;
    assert es[..k + 1][..k] == es[..k] && es[..k + 1][k] == es[k];
  }

  /**
   * In every such run a key leads to the last user to take it, by being introduced or renamed, for as long as that
   * user is there and has it.
   */
  lemma {:induction false} LastTakerFound(n: Net, es: seq<NetEvent>, i: nat, b: nat, key: string, uuid: string)
    requires Keyed(n) && IndexOk(n) && FreshAdds(n, es) && i < b <= |es| && Takes(NetRun(n, es[..i]), es[i], key, uuid)
    requires forall j, other :: i < j < b && other != uuid ==> !Takes(NetRun(n, es[..j]), es[j], key, other)
    requires forall j :: i < j <= b ==> uuid in NetRun(n, es[..j]).users && NetRun(n, es[..j]).users[uuid].nickKey == key
    ensures key in NetRun(n, es[..b]).nickIndex && NetRun(n, es[..b]).nickIndex[key] == uuid
    decreases b
  {
    hide NetStep, Takes, Keyed, IndexOk, NetRun, FreshAdds;
    var k := b - 1;
    NextRun(n, es, k);
    if i == k {
      TakenLeads(NetRun(n, es[..k]), es[k], key, uuid);
    } else {
      LastTakerFound(n, es, i, k, key, uuid);
      FreshPrefix(n, es, k);
      IndexHoldsOverRuns(n, es[..k]);
      EntryStays(NetRun(n, es[..k]), es[k], key, uuid);
    }
  }

  lemma FreshPrefix(n: Net, es: seq<NetEvent>, k: nat)
    requires FreshAdds(n, es) && k <= |es|
    ensures FreshAdds(n, es[..k])
  {
    hide NetRun;
    forall i | 0 <= i < k && es[..k][i].UserAdded? ensures es[..k][i].u.uuid !in NetRun(n, es[..k][..i]).users {
      assert es[..k][..i] == es[..i];
    }
  }

  // ---- the network table itself ----

  class Table {
    var sid: string
    var servers: map<string, RemoteServer>
    var users: map<string, RemoteUser>
    var nickIndex: map<string, string>
    var localUuids: map<nat, string>
    var nextUid: nat

    ghost function View(): Net
      reads this
    {
      Net(sid, servers, users, nickIndex, localUuids, nextUid)
    }

    constructor (sid: string)
      ensures View() == EmptyNet(sid)
    {
      this.sid := sid;
      servers, users, nickIndex, localUuids, nextUid := map[], map[], map[], map[], 0;
    }

    method NextUid() returns (uid: string)
      modifies this`nextUid
      ensures uid == Uid(old(nextUid)) && nextUid == (old(nextUid) + 1) % U64
    {
      var n := nextUid;
      nextUid := (nextUid + 1) % U64;
      uid := UidSlots;
      var slot := |uid|;
      while slot > 0
        invariant 0 <= slot <= |uid| == |UidSlots|
        invariant UidDigits(n, slot) + uid[slot..] == Uid(old(nextUid))
      {
        slot := slot - 1;
        assert UidDigits(n, slot + 1) == UidDigits(n / 36, slot) + [UidAlphabet[n % 36]];
        ghost var before := uid[slot+1..];
        uid := uid[slot := UidAlphabet[n % 36]];
        assert uid[slot..] == [UidAlphabet[n % 36]] + before;
        n := n / 36;
      }
      assert uid[0..] == uid;
    }

    method UuidForLocal(id: nat) returns (uuid: string)
      modifies this
      ensures View() == MintLocal(old(View()), id)
      ensures id in localUuids && uuid == localUuids[id]
    {
      if id in localUuids {
        return localUuids[id];
      }
      var uid := NextUid();
      uuid := sid + uid;
      localUuids := localUuids[id := uuid];
    }

    /** Once identities are distinct this inverts `UuidForLocal`, whatever order the map is walked in. */
    method LocalUuidOwner(uuid: string) returns (owner: Option<nat>)
      ensures owner.Some? ==> owner.value in localUuids && localUuids[owner.value] == uuid
      ensures owner.None? ==> uuid !in localUuids.Values
      ensures LocalIdentities(View()) ==>
        forall id :: id in localUuids && localUuids[id] == uuid ==> owner == Some(id)
    {
      var todo := localUuids.Keys;
      while todo != {}
        invariant todo <= localUuids.Keys
        invariant forall id :: id in localUuids && id !in todo ==> localUuids[id] != uuid
      {
        var id :| id in todo;
        if localUuids[id] == uuid {
          return Some(id);
        }
        todo := todo - {id};
      }
      owner := None;
    }

    method Introduce(u: RemoteUser)
      modifies this
      ensures View() == AddUser(old(View()), u)
    {
      nickIndex := nickIndex[u.nickKey := u.uuid];
      users := users[u.uuid := u];
    }

    method Remove(uuid: string) returns (gone: Option<RemoteUser>)
      modifies this
      ensures View() == RemoveUser(old(View()), uuid)
      ensures gone == if uuid in old(users) then Some(old(users)[uuid]) else None
    {
      if uuid !in users {
        return None;
      }
      var u := users[uuid];
      // A collision may already have handed the nickname to somebody else.
      if u.nickKey in nickIndex && nickIndex[u.nickKey] == uuid {
        nickIndex := nickIndex - {u.nickKey};
      }
      users := users - {uuid};
      gone := Some(u);
    }

    method Rename(uuid: string, nick: string, key: string) returns (known: bool)
      modifies this
      ensures View() == RenameUser(old(View()), uuid, nick, key)
      ensures known == (uuid in old(users))
    {
      if uuid !in users {
        return false;
      }
      var oldKey := users[uuid].nickKey;
      if oldKey in nickIndex && nickIndex[oldKey] == uuid {
        nickIndex := nickIndex - {oldKey};
      }
      users := users[uuid := users[uuid].(nick := nick, nickKey := key)];
      nickIndex := nickIndex[key := uuid];
      known := true;
    }

    /** The servers reached through the given ones and not yet among them, in map order. */
    method ReachedVia(gone: seq<string>) returns (next: seq<string>)
      requires Keyed(View())
      ensures Elements(next) == Frontier(servers, Elements(gone))
    {
      next := [];
      var todo := servers.Keys;
      while todo != {}
        invariant todo <= servers.Keys
        invariant Elements(next) == Frontier(servers, Elements(gone)) - todo
      {
        var k :| k in todo;
        todo := todo - {k};
        if servers[k].via in gone && servers[k].sid !in gone {
          assert Elements(next + [servers[k].sid]) == Elements(next) + {k};
          next := next + [servers[k].sid];
        }
      }
    }

    /** Everything reached, however indirectly, through `sid`; self and cyclic links included. */
    method Behind(sid: string) returns (gone: seq<string>)
      requires Keyed(View())
      ensures Elements(gone) == Subtree(servers, {sid})
    {
      gone := [sid];
      assert Elements(gone) == {sid};
      var next := ReachedVia(gone);
      while next != []
        invariant Elements(next) == Frontier(servers, Elements(gone))
        invariant Subtree(servers, Elements(gone)) == Subtree(servers, {sid})
        decreases |servers.Keys - Elements(gone)|
      {
        assert next[0] in Elements(next);
        FrontierShrinks(servers, Elements(gone));
        assert Elements(gone + next) == Elements(gone) + Elements(next);
        gone := gone + next;
        next := ReachedVia(gone);
      }
      assert Elements(next) == {};
    }

    method UsersOf(gone: seq<string>) returns (lost: seq<string>)
      requires Keyed(View())
      ensures NoRepeats(lost)
      ensures Elements(lost) == set u | u in users && users[u].sid in gone
    {
      lost := [];
      ghost var all := set u | u in users && users[u].sid in gone;
      var todo := users.Keys;
      while todo != {}
        invariant todo <= users.Keys && NoRepeats(lost)
        invariant Elements(lost) == all - todo
      {
        var k :| k in todo;
        todo := todo - {k};
        if users[k].sid in gone {
          assert k !in Elements(lost) && users[k].uuid == k;
          assert Elements(lost + [k]) == Elements(lost) + {k};
          lost := lost + [users[k].uuid];
        }
      }
    }

    /** The UUIDs of the users behind `sid`, in map order, removing the servers themselves. */
    method CollectSubtreeUsers(sid: string) returns (lost: seq<string>)
      requires Keyed(View())
      modifies this`servers
      ensures servers == old(servers) - Subtree(old(servers), {sid})
      ensures NoRepeats(lost) && Elements(lost) == Lost(old(View()), sid)
    {
      var gone := Behind(sid);
      lost := UsersOf(gone);
      assert forall x :: x in gone <==> x in Elements(gone);
      var i := 0;
      while i < |gone|
        invariant 0 <= i <= |gone|
        invariant servers == old(servers) - Elements(gone[..i])
      {
        assert Elements(gone[..i+1]) == Elements(gone[..i]) + {gone[i]};
        servers := servers - {gone[i]};
        i := i + 1;
      }
      assert gone[..i] == gone;
    }

    /** Removes exactly the least closed set of servers behind `sid` and exactly their users. */
    method SplitServer(sid: string) returns (lost: seq<string>)
      requires Keyed(View()) && IndexOk(View())
      modifies this
      ensures View() == Split(old(View()), sid)
      ensures NoRepeats(lost) && Elements(lost) == Lost(old(View()), sid)
    {
      lost := CollectSubtreeUsers(sid);
      label cut:
      ghost var n := View();
      assert Without(n, {}) == n;
      var i := 0;
      while i < |lost|
        invariant 0 <= i <= |lost|
        invariant View() == Without(n, Elements(lost[..i]))
      {
        assert Elements(lost[..i+1]) == Elements(lost[..i]) + {lost[i]};
        assert lost[i] in Elements(lost) && lost[i] !in lost[..i];
        RemoveUserIsWithout(n, Elements(lost[..i]), lost[i]);
        var _ := Remove(lost[i]);
        i := i + 1;
      }
      assert lost[..i] == lost;
    }

    /** As `SplitServer`, keeping the records so that each departure can be announced. */
    method SplitServerDetailed(sid: string) returns (lost: seq<RemoteUser>)
      requires Keyed(View()) && IndexOk(View())
      modifies this
      ensures View() == Split(old(View()), sid)
      ensures NoRepeats(lost)
      ensures Elements(lost) == set u | u in Lost(old(View()), sid) :: old(users)[u]
    {
      var uuids := CollectSubtreeUsers(sid);
      ghost var n := View();
      assert Without(n, {}) == n;
      lost := [];
      var i := 0;
      while i < |uuids|
        invariant 0 <= i <= |uuids| && |lost| == i
        invariant View() == Without(n, Elements(uuids[..i]))
        invariant forall j :: 0 <= j < i ==> uuids[j] in n.users && lost[j] == n.users[uuids[j]]
      {
        assert Elements(uuids[..i+1]) == Elements(uuids[..i]) + {uuids[i]};
        assert uuids[i] in Elements(uuids) && uuids[i] !in uuids[..i];
        RemoveUserIsWithout(n, Elements(uuids[..i]), uuids[i]);
        var gone := Remove(uuids[i]);
        if gone.Some? {
          lost := lost + [gone.value];
        }
        i := i + 1;
      }
      assert uuids[..i] == uuids;
      forall u | u in Elements(uuids) ensures n.users[u] in lost {
        var j :| 0 <= j < |uuids| && uuids[j] == u;
        assert lost[j] == n.users[u];
      }
      forall r | r in lost ensures exists u :: u in Elements(uuids) && r == n.users[u] {
        var j :| 0 <= j < |lost| && lost[j] == r;
        assert uuids[j] in Elements(uuids);
      }
    }
  }
}
