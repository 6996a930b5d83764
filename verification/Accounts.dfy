/** The services account store: accounts by folded name, and certificates back to their account. */
module Accounts {
  import opened Basics
  import opened Names
  import opened Base64
  import opened AccountFile

  const Iterations: nat := 100_000
  const MaxCerts: nat := 8

  datatype Store = Store(accounts: map<string, Account>, byCert: map<string, string>)

  datatype Outcome =
    | Done | Enrolled | Already
    | InvalidName | Reserved | Taken | PasswordRequired | NotRegistered
    | BadFingerprint | BelongsToAnother | LimitReached | NoSuchCert | SaveFailed

  const Empty := Store(map[], map[])

  // ---- operations ----

  /** Register a new account; `salt` and `hash` stand for the fresh salt and the derived key. */
  function Register(s: Store, name: string, pass: string, salt: seq<Octet>, hash: seq<Octet>): (Store, Outcome) {
    var key := NormNick(name);
    if key == "" then (s, InvalidName)
    else if IsServiceName(key) then (s, Reserved)
    else if key in s.accounts then (s, Taken)
    else if pass == "" then (s, PasswordRequired)
    else (s.(accounts := s.accounts[key := Account(name, salt, hash, Iterations, [])]), Done)
  }

  function SetPassword(s: Store, name: string, pass: string, salt: seq<Octet>, hash: seq<Octet>): (Store, Outcome) {
    var key := NormNick(name);
    if pass == "" then (s, PasswordRequired)
    else if key !in s.accounts then (s, NotRegistered)
    else (s.(accounts := s.accounts[key := s.accounts[key].(salt := salt, hash := hash, iters := Iterations)]), Done)
  }

  /** The list without any occurrence of `x`. */
  function Dropped(list: seq<string>, x: string): seq<string> {
    if list == [] then [] else (if list[0] == x then [] else [list[0]]) + Dropped(list[1..], x)
  }

  /** The position of the first `x`, or the length. */
  function Position(list: seq<string>, x: string): (i: nat)
    ensures i <= |list| && x !in list[..i] && (i < |list| ==> list[i] == x)
    ensures i == |list| <==> x !in list
  {
    if list == [] || list[0] == x then 0
    else
      var i := Position(list[1..], x);
      assert list[..i + 1] == [list[0]] + list[1..][..i];
      assert list == [list[0]] + list[1..];
      i + 1
  }

  function WithCerts(s: Store, key: string, certs: seq<string>, byCert: map<string, string>): Store
    requires key in s.accounts
  {
    Store(s.accounts[key := s.accounts[key].(certs := certs)], byCert)
  }

  /** Enrol a fingerprint; a save that fails is rolled back step by step. */
  function AddCert(s: Store, name: string, raw: string, saved: bool): (Store, Outcome) {
    var key := NormNick(name);
    var fp := Normalize(raw);
    if fp.None? then (s, BadFingerprint)
    else if key !in s.accounts then (s, NotRegistered)
    else if fp.value in s.byCert then (s, if s.byCert[fp.value] == key then Already else BelongsToAnother)
    else if |s.accounts[key].certs| >= MaxCerts then (s, LimitReached)
    else
      var pushed := s.accounts[key].certs + [fp.value];
      var s' := WithCerts(s, key, pushed, s.byCert[fp.value := key]);
      if saved then (s', Enrolled)
      else (WithCerts(s', key, Dropped(pushed, fp.value), s'.byCert - {fp.value}), SaveFailed)
  }

  /** Remove a fingerprint; a save that fails puts it back where it was. */
  function RemoveCert(s: Store, name: string, raw: string, saved: bool): (Store, Outcome) {
    var key := NormNick(name);
    var fp := Normalize(raw);
    if fp.None? then (s, BadFingerprint)
    else if key !in s.accounts then (s, NotRegistered)
    else
      var certs := s.accounts[key].certs;
      var pos := Position(certs, fp.value);
      if pos == |certs| then (s, NoSuchCert)
      else
        var rest := certs[..pos] + certs[pos + 1..];
        var s' := WithCerts(s, key, rest, s.byCert - {fp.value});
        if saved then (s', Done)
        else (WithCerts(s', key, rest[..pos] + [fp.value] + rest[pos..], s'.byCert[fp.value := key]), SaveFailed)
  }

  // ---- loading ----

  /** Prints of `certs` not bound yet, now bound to `key`: the first binding wins. */
  function Retain(certs: seq<string>, byCert: map<string, string>, key: string): (seq<string>, map<string, string>) {
    if certs == [] then ([], byCert)
    else if certs[0] in byCert then Retain(certs[1..], byCert, key)
    else
      var (kept, index) := Retain(certs[1..], byCert[certs[0] := key], key);
      ([certs[0]] + kept, index)
  }

  function Bind(s: Store, a: Account): Store {
    var key := NormNick(a.name);
    var (kept, index) := Retain(a.certs, s.byCert, key);
    Store(s.accounts[key := a.(certs := kept)], index)
  }

  function BindAll(s: Store, accounts: seq<Account>): Store
    decreases |accounts|
  {
    if accounts == [] then s else BindAll(Bind(s, accounts[0]), accounts[1..])
  }

  function Load(text: string): Store {
    BindAll(Empty, ReadFile(text))
  }

  /** The accounts in the order the save happened to visit them. */
  function InOrder(accounts: map<string, Account>, order: seq<string>): (r: seq<Account>)
    requires forall k :: k in order ==> k in accounts
    ensures |r| == |order| && forall i :: 0 <= i < |r| ==> r[i] == accounts[order[i]]
  {
    if order == [] then [] else [accounts[order[0]]] + InOrder(accounts, order[1..])
  }

  ghost predicate Enumerates(order: seq<string>, keys: set<string>) {
    NoRepeats(order) && forall k :: k in order <==> k in keys
  }

  // ---- the invariant ----

  ghost predicate AccountsOk(accounts: map<string, Account>) {
    forall k :: k in accounts ==>
      WellFormed(accounts[k]) && NormNick(accounts[k].name) == k && |accounts[k].certs| <= MaxCerts
  }

  /** The index holds exactly the enrolled fingerprints, each under the account that lists it. */
  ghost predicate Inverse(accounts: map<string, Account>, byCert: map<string, string>) {
    && (forall fp {:trigger byCert[fp]} :: fp in byCert ==> byCert[fp] in accounts && fp in accounts[byCert[fp]].certs)
    && (forall k, fp {:trigger fp in accounts[k].certs} :: k in accounts && fp in accounts[k].certs ==> fp in byCert && byCert[fp] == k)
  }

  ghost predicate StoreOk(s: Store) {
    AccountsOk(s.accounts) && Inverse(s.accounts, s.byCert)
  }

  lemma PutOk(accounts: map<string, Account>, k: string, a: Account)
    requires AccountsOk(accounts) && WellFormed(a) && NormNick(a.name) == k && |a.certs| <= MaxCerts
    ensures AccountsOk(accounts[k := a])
  {
    hide WellFormed, NormNick;
  }

  /** Credentials other than certificates do not concern the index. */
  lemma SameCertsInverse(accounts: map<string, Account>, byCert: map<string, string>, k: string, a: Account)
    requires Inverse(accounts, byCert) && a.certs == if k in accounts then accounts[k].certs else []
    ensures Inverse(accounts[k := a], byCert)
  {
  }

  lemma AddedInverse(accounts: map<string, Account>, byCert: map<string, string>, k: string, a: Account, fp: string)
    requires Inverse(accounts, byCert) && k in accounts && fp !in byCert && a.certs == accounts[k].certs + [fp]
    ensures Inverse(accounts[k := a], byCert[fp := k])
  {
    var accounts', byCert' := accounts[k := a], byCert[fp := k];
    forall f | f in byCert' ensures byCert'[f] in accounts' && f in accounts'[byCert'[f]].certs {
      if f != fp {
        assert byCert[f] in accounts && f in accounts[byCert[f]].certs;
      } else {
        assert a.certs[|a.certs| - 1] == fp;
      }
    }
  }

  lemma RemovedInverse(accounts: map<string, Account>, byCert: map<string, string>, k: string, a: Account, pos: nat)
    requires Inverse(accounts, byCert) && k in accounts && pos < |accounts[k].certs| && NoRepeats(accounts[k].certs)
    requires a.certs == accounts[k].certs[..pos] + accounts[k].certs[pos + 1..]
    ensures Inverse(accounts[k := a], byCert - {accounts[k].certs[pos]})
  {
    var certs := accounts[k].certs;
    var fp := certs[pos];
    var accounts', byCert' := accounts[k := a], byCert - {fp};
    AllButOne(certs, pos);
    assert fp in certs && byCert[fp] == k;
    forall f | f in byCert' ensures byCert'[f] in accounts' && f in accounts'[byCert'[f]].certs {
      assert byCert[f] in accounts && f in accounts[byCert[f]].certs;
    }
  }

  lemma AllButOne(list: seq<string>, pos: nat)
    requires NoRepeats(list) && pos < |list|
    ensures var rest := list[..pos] + list[pos + 1..];
      NoRepeats(rest) && forall x :: x in rest <==> x in list && x != list[pos]
  {
    var rest := list[..pos] + list[pos + 1..];
    forall x ensures x in rest <==> x in list && x != list[pos] {
      if x in rest {
        var i :| 0 <= i < |rest| && rest[i] == x;
        assert x == list[if i < pos then i else i + 1];
      }
      if x in list && x != list[pos] {
        var i :| 0 <= i < |list| && list[i] == x;
        assert x == rest[if i < pos then i else i - 1];
      }
    }
    assert forall i :: 0 <= i < |rest| ==> rest[i] == list[if i < pos then i else i + 1];
  }

  lemma RegisterKeeps(s: Store, name: string, pass: string, salt: seq<Octet>, hash: seq<Octet>)
    requires StoreOk(s) && salt != [] && hash != []
    ensures StoreOk(Register(s, name, pass, salt, hash).0)
  {
    hide NormNick, IsServiceName, AccountsOk, Inverse;
    var key := NormNick(name);
    var a := Account(name, salt, hash, Iterations, []);
    if Register(s, name, pass, salt, hash).1 == Done {
      PutOk(s.accounts, key, a);
      SameCertsInverse(s.accounts, s.byCert, key, a);
    }
  }

  lemma SetPasswordKeeps(s: Store, name: string, pass: string, salt: seq<Octet>, hash: seq<Octet>)
    requires StoreOk(s) && salt != [] && hash != []
    ensures var s' := SetPassword(s, name, pass, salt, hash).0;
      && StoreOk(s') && s'.byCert == s.byCert && s'.accounts.Keys == s.accounts.Keys
      && forall k :: k in s.accounts ==> s'.accounts[k].certs == s.accounts[k].certs && s'.accounts[k].name == s.accounts[k].name
  {
    hide NormNick, Inverse;
    var key := NormNick(name);
    if SetPassword(s, name, pass, salt, hash).1 == Done {
      var a := s.accounts[key].(salt := salt, hash := hash, iters := Iterations);
      assert WellFormed(s.accounts[key]);
      PutOk(s.accounts, key, a);
      SameCertsInverse(s.accounts, s.byCert, key, a);
    }
  }

  lemma {:induction false} DroppedPushed(list: seq<string>, x: string)
    requires x !in list
    ensures Dropped(list + [x], x) == list
    decreases |list|
  {
    if list == [] {
      assert list + [x] == [x] && [x][1..] == [];
    } else {
      assert (list + [x])[1..] == list[1..] + [x];
      DroppedPushed(list[1..], x);
      assert list == [list[0]] + list[1..];
    }
  }

  lemma RolledBack(s: Store, key: string, certs: seq<string>, byCert: map<string, string>)
    requires key in s.accounts
    ensures var s' := WithCerts(s, key, certs, byCert);
      s'.byCert == byCert && key in s'.accounts && WithCerts(s', key, s.accounts[key].certs, s.byCert) == s
  {
    var s' := WithCerts(s, key, certs, byCert);
    assert WithCerts(s', key, s.accounts[key].certs, s.byCert).accounts == s.accounts;
  }

  /** A failed save leaves both maps exactly as they were. */
  lemma FailedAddRestores(s: Store, name: string, raw: string)
    requires StoreOk(s)
    ensures AddCert(s, name, raw, false).0 == s
  {
    hide NormNick, Normalize, WellFormed;
    var key, fp := NormNick(name), Normalize(raw);
    if AddCert(s, name, raw, false).1 == SaveFailed {
      var certs := s.accounts[key].certs;
      assert fp.value !in certs;
      DroppedPushed(certs, fp.value);
      assert s.byCert[fp.value := key] - {fp.value} == s.byCert;
      RolledBack(s, key, certs + [fp.value], s.byCert[fp.value := key]);
    }
  }

  lemma PutBack(certs: seq<string>, pos: nat)
    requires pos < |certs|
    ensures var rest := certs[..pos] + certs[pos + 1..]; rest[..pos] + [certs[pos]] + rest[pos..] == certs
  {
  }

  lemma IndexedUnder(s: Store, key: string, fp: string)
    requires Inverse(s.accounts, s.byCert) && key in s.accounts && fp in s.accounts[key].certs
    ensures (s.byCert - {fp})[fp := key] == s.byCert
  {
    assert s.byCert[fp] == key;
  }

  lemma FailedRemoveRestores(s: Store, name: string, raw: string)
    requires StoreOk(s)
    ensures RemoveCert(s, name, raw, false).0 == s
  {
    hide NormNick, Normalize, AccountsOk, Inverse, WithCerts;
    var key, fp := NormNick(name), Normalize(raw);
    if RemoveCert(s, name, raw, false).1 == SaveFailed {
      var certs := s.accounts[key].certs;
      var pos := Position(certs, fp.value);
      PutBack(certs, pos);
      IndexedUnder(s, key, fp.value);
      RolledBack(s, key, certs[..pos] + certs[pos + 1..], s.byCert - {fp.value});
    }
  }

  lemma AddCertKeeps(s: Store, name: string, raw: string, saved: bool)
    requires StoreOk(s)
    ensures StoreOk(AddCert(s, name, raw, saved).0)
  {
    hide NormNick, Normalize, Fingerprint, AccountsOk, Inverse;
    if !saved {
      FailedAddRestores(s, name, raw);
    } else if AddCert(s, name, raw, saved).1 == Enrolled {
      var key, fp := NormNick(name), Normalize(raw).value;
      var was := s.accounts[key];
      var a := was.(certs := was.certs + [fp]);
      Enrollable(s, key, fp);
      PutOk(s.accounts, key, a);
      AddedInverse(s.accounts, s.byCert, key, a, fp);
    }
  }

  lemma Enrollable(s: Store, key: string, fp: string)
    requires StoreOk(s) && key in s.accounts && Fingerprint(fp) && fp !in s.byCert
    ensures NormNick(s.accounts[key].name) == key
    ensures var was := s.accounts[key]; WellFormed(was.(certs := was.certs + [fp]))
  {
    hide Fingerprint;
    var was := s.accounts[key];
    assert WellFormed(was) && fp !in was.certs;
  }

  lemma RemoveCertKeeps(s: Store, name: string, raw: string, saved: bool)
    requires StoreOk(s)
    ensures StoreOk(RemoveCert(s, name, raw, saved).0)
  {
    hide NormNick, Normalize, Fingerprint, AccountsOk, Inverse;
    if !saved {
      FailedRemoveRestores(s, name, raw);
    } else if RemoveCert(s, name, raw, saved).1 == Done {
      var key, fp := NormNick(name), Normalize(raw).value;
      var was := s.accounts[key];
      var pos := Position(was.certs, fp);
      var a := was.(certs := was.certs[..pos] + was.certs[pos + 1..]);
      Removable(s, key, pos);
      PutOk(s.accounts, key, a);
      RemovedInverse(s.accounts, s.byCert, key, a, pos);
    }
  }

  lemma Removable(s: Store, key: string, pos: nat)
    requires StoreOk(s) && key in s.accounts && pos < |s.accounts[key].certs|
    ensures NormNick(s.accounts[key].name) == key && NoRepeats(s.accounts[key].certs)
    ensures var was := s.accounts[key];
      var rest := was.certs[..pos] + was.certs[pos + 1..];
      WellFormed(was.(certs := rest)) && |rest| <= MaxCerts
  {
    hide Fingerprint;
    var was := s.accounts[key];
    assert WellFormed(was);
    AllButOne(was.certs, pos);
    var rest := was.certs[..pos] + was.certs[pos + 1..];
    assert forall i :: 0 <= i < |rest| ==> rest[i] in rest;
  }

  // ---- writing and loading back ----

  /** The certificates, each bound to `key`. */
  ghost function Bound(certs: seq<string>, key: string): map<string, string> {
    map c | c in certs :: key
  }

  lemma BoundNext(certs: seq<string>, byCert: map<string, string>, key: string)
    requires certs != []
    ensures byCert[certs[0] := key] + Bound(certs[1..], key) == byCert + Bound(certs, key)
  {
    assert certs == [certs[0]] + certs[1..];
  }

  /** Every certificate kept and indexed, when none was bound before. */
  lemma {:induction false} RetainAll(certs: seq<string>, byCert: map<string, string>, key: string)
    requires NoRepeats(certs) && forall i :: 0 <= i < |certs| ==> certs[i] !in byCert
    ensures Retain(certs, byCert, key) == (certs, byCert + Bound(certs, key))
    decreases |certs|
  {
    hide Bound;
    if certs == [] {
      BoundNone(byCert, key);
    } else {
      RetainAll(certs[1..], byCert[certs[0] := key], key);
      BoundNext(certs, byCert, key);
      assert certs == [certs[0]] + certs[1..];
    }
  }

  lemma BoundNone(byCert: map<string, string>, key: string)
    ensures byCert + Bound([], key) == byCert
  {
  }

  /** The store as far as the accounts in `keys` go. */
  ghost function Part(s: Store, keys: set<string>): Store {
    Store(map k | k in s.accounts && k in keys :: s.accounts[k],
          map fp | fp in s.byCert && s.byCert[fp] in keys :: s.byCert[fp])
  }

  lemma BindNext(s: Store, keys: set<string>, key: string)
    requires StoreOk(s) && key in s.accounts && key !in keys
    ensures Bind(Part(s, keys), s.accounts[key]) == Part(s, keys + {key})
  {
    hide NormNick, Fingerprint, Retain;
    var a, part := s.accounts[key], Part(s, keys);
    assert WellFormed(a) && NormNick(a.name) == key;
    forall i | 0 <= i < |a.certs| ensures a.certs[i] !in part.byCert {
      assert a.certs[i] in a.certs;
    }
    RetainAll(a.certs, part.byCert, key);
    assert a.(certs := a.certs) == a;
    assert part.accounts[key := a] == Part(s, keys + {key}).accounts;
    IndexNext(s, keys, key);
  }

  lemma IndexNext(s: Store, keys: set<string>, key: string)
    requires Inverse(s.accounts, s.byCert) && key in s.accounts
    ensures Part(s, keys).byCert + Bound(s.accounts[key].certs, key) == Part(s, keys + {key}).byCert
  {
    var was, now := Part(s, keys).byCert + Bound(s.accounts[key].certs, key), Part(s, keys + {key}).byCert;
    forall fp ensures fp in was <==> fp in now {
      if fp in now && s.byCert[fp] == key {
        assert fp in s.accounts[key].certs;
      }
      if fp in s.accounts[key].certs {
        assert s.byCert[fp] == key;
      }
    }
    forall fp | fp in was ensures was[fp] == now[fp] {
      if fp in s.accounts[key].certs {
        assert s.byCert[fp] == key;
      }
    }
  }

  lemma {:induction false} BindRest(s: Store, keys: set<string>, order: seq<string>)
    requires StoreOk(s) && NoRepeats(order) && forall k :: k in s.accounts <==> k in keys || k in order
    requires forall k :: k in order ==> k !in keys
    ensures BindAll(Part(s, keys), InOrder(s.accounts, order)) == s
    decreases |order|
  {
    hide AccountsOk, Bind;
    if order == [] {
      WholePart(s, keys);
    } else {
      var k := order[0];
      BindNext(s, keys, k);
      assert order == [k] + order[1..];
      BindRest(s, keys + {k}, order[1..]);
      assert InOrder(s.accounts, order)[1..] == InOrder(s.accounts, order[1..]);
    }
  }

  lemma WholePart(s: Store, keys: set<string>)
    requires Inverse(s.accounts, s.byCert) && forall k :: k in s.accounts ==> k in keys
    ensures Part(s, keys) == s
  {
    assert Part(s, keys).accounts == s.accounts;
    assert Part(s, keys).byCert == s.byCert;
  }

  ghost predicate PlainNames(s: Store) {
    forall k :: k in s.accounts ==> PlainName(s.accounts[k].name)
  }

  /** What a save writes, whatever order it visits the accounts in, loads as the same accounts and index. */
  lemma SavedLoads(s: Store, order: seq<string>)
    requires StoreOk(s) && PlainNames(s) && Enumerates(order, s.accounts.Keys)
    ensures Load(RenderFile(InOrder(s.accounts, order))) == s
  {
    hide Inverse, RenderFile, ReadFile, BindAll, WellFormed;
    var list := InOrder(s.accounts, order);
    forall i | 0 <= i < |list| ensures WellFormed(list[i]) && PlainName(list[i].name) {
      assert order[i] in order;
    }
    FileRoundTrip(list);
    assert Part(s, {}) == Empty;
    BindRest(s, {}, order);
  }

  // ---- loading a file nobody vouches for ----

  lemma {:induction false} RetainFacts(certs: seq<string>, byCert: map<string, string>, key: string)
    ensures var (kept, index) := Retain(certs, byCert, key);
      && (forall fp :: fp in kept ==> fp !in byCert && fp in index && index[fp] == key)
      && (forall fp :: fp in byCert ==> fp in index && index[fp] == byCert[fp])
      && (forall fp :: fp in index <==> fp in byCert || fp in certs)
      && (forall fp :: fp in kept ==> fp in certs) && (forall fp :: fp in index ==> fp in byCert || fp in kept)
      && (kept == [] <==> forall fp :: fp in certs ==> fp in byCert)
    decreases |certs|
  {
    if certs != [] {
      assert certs == [certs[0]] + certs[1..] && certs[0] in certs;
      if certs[0] in byCert {
        RetainFacts(certs[1..], byCert, key);
      } else {
        RetainFacts(certs[1..], byCert[certs[0] := key], key);
      }
    }
  }

  /** Every listed certificate is indexed under the account that lists it. */
  ghost predicate Indexed(s: Store) {
    forall k, fp {:trigger fp in s.accounts[k].certs} :: k in s.accounts && fp in s.accounts[k].certs ==> fp in s.byCert && s.byCert[fp] == k
  }

  /** Filing an account replaces one that lists no certificates, if any. */
  predicate Harmless(s: Store, a: Account) {
    var key := NormNick(a.name);
    key in s.accounts ==> s.accounts[key].certs == []
  }

  lemma BindInverseIff(s: Store, a: Account)
    requires Indexed(s)
    ensures Indexed(Bind(s, a))
    ensures var s' := Bind(s, a);
      Inverse(s'.accounts, s'.byCert) <==> Inverse(s.accounts, s.byCert) && Harmless(s, a)
  {
    hide Retain, NormNick;
    var key, s' := NormNick(a.name), Bind(s, a);
    RetainFacts(a.certs, s.byCert, key);
    assert key in s.accounts && |s.accounts[key].certs| > 0 ==> s.accounts[key].certs[0] in s.accounts[key].certs;
    if Inverse(s'.accounts, s'.byCert) {
      forall fp | fp in s.byCert ensures s.byCert[fp] in s.accounts && fp in s.accounts[s.byCert[fp]].certs && s.byCert[fp] != key {
        assert s'.byCert[fp] == s.byCert[fp] && fp in s'.accounts[s'.byCert[fp]].certs;
      }
    }
    if Inverse(s.accounts, s.byCert) && Harmless(s, a) {
      forall fp | fp in s'.byCert ensures s'.byCert[fp] in s'.accounts && fp in s'.accounts[s'.byCert[fp]].certs {
        if fp in s.byCert {
          assert fp in s.accounts[s.byCert[fp]].certs;
        }
      }
    }
  }

  /** The certificate is on one of the first `n` lines. */
  ghost predicate OnEarlier(list: seq<Account>, n: nat, fp: string) {
    exists m :: 0 <= m < n <= |list| && fp in list[m].certs
  }

  /** Line `i` brings no certificate of its own: each is on an earlier line. */
  ghost predicate BringsNone(list: seq<Account>, i: nat)
    requires i < |list|
  {
    forall fp :: fp in list[i].certs ==> OnEarlier(list, i, fp)
  }

  predicate SameAccount(list: seq<Account>, i: nat, j: nat)
    requires i < |list| && j < |list|
  {
    NormNick(list[i].name) == NormNick(list[j].name)
  }

  /** Of several lines for one account, all but the last bring no certificate of their own. */
  ghost predicate NoneReplaced(list: seq<Account>) {
    forall i, j :: 0 <= i < j < |list| && SameAccount(list, i, j) ==> BringsNone(list, i)
  }

  /** The last of the first `n` lines for a folded name. */
  function LastLine(list: seq<Account>, n: nat, key: string): Option<nat>
    requires n <= |list|
  {
    if n == 0 then None else if NormNick(list[n - 1].name) == key then Some(n - 1) else LastLine(list, n - 1, key)
  }

  lemma {:induction false} LastLineIs(list: seq<Account>, n: nat, key: string)
    requires n <= |list|
    ensures var r := LastLine(list, n, key);
      && (r.Some? ==> r.value < n && NormNick(list[r.value].name) == key)
      && (forall i :: 0 <= i < n && NormNick(list[i].name) == key ==> r.Some? && i <= r.value)
    decreases n
  {
    hide NormNick;
    if n > 0 {
      LastLineIs(list, n - 1, key);
    }
  }

  lemma {:induction false} BindSnoc(s: Store, list: seq<Account>, a: Account)
    ensures BindAll(s, list + [a]) == Bind(BindAll(s, list), a)
    decreases |list|
  {
    hide Bind;
    if list == [] {
      assert list + [a] == [a] && [a][1..] == [];
      assert BindAll(s, [a]) == BindAll(Bind(s, a), []);
    } else {
      assert (list + [a])[1..] == list[1..] + [a];
      BindSnoc(Bind(s, list[0]), list[1..], a);
    }
  }

  /** The store after the first `n` lines. */
  ghost function Read(list: seq<Account>, n: nat): Store
    requires n <= |list|
  {
    BindAll(Empty, list[..n])
  }

  lemma ReadNext(list: seq<Account>, n: nat)
    requires n < |list|
    ensures Read(list, n + 1) == Bind(Read(list, n), list[n])
  {
    hide BindAll, Bind;
    assert list[..n + 1] == list[..n] + [list[n]];
    BindSnoc(Empty, list[..n], list[n]);
  }

  /** An account has the certificates of its last line that were new on it, and the index all there have been. */
  lemma {:induction false} ReadFacts(list: seq<Account>, n: nat, key: string)
    requires n <= |list|
    ensures var s, last := Read(list, n), LastLine(list, n, key);
      && (forall fp :: fp in s.byCert <==> OnEarlier(list, n, fp))
      && (key in s.accounts <==> last.Some?) && (last.Some? ==> last.value < n)
      && (last.Some? ==> (s.accounts[key].certs == [] <==> BringsNone(list, last.value)))
    decreases n
  {
    hide NormNick, Retain, Read;
    if n == 0 {
      ReadNone(list);
    } else {
      ReadFacts(list, n - 1, key);
      ReadNext(list, n - 1);
      RetainFacts(list[n - 1].certs, Read(list, n - 1).byCert, NormNick(list[n - 1].name));
      forall fp ensures OnEarlier(list, n, fp) <==> OnEarlier(list, n - 1, fp) || fp in list[n - 1].certs {
        if OnEarlier(list, n - 1, fp) {
          var m :| 0 <= m < n - 1 && fp in list[m].certs;
          assert 0 <= m < n && fp in list[m].certs;
        }
      }
    }
  }

  lemma ReadNone(list: seq<Account>)
    ensures Read(list, 0) == Empty
  {
    assert list[..0] == [];
  }

  /** Where the lines so far replaced nothing, the next does neither exactly when all earlier lines of its account bring none. */
  lemma HarmlessIff(list: seq<Account>, n: nat)
    requires n < |list| && forall i, j :: 0 <= i < j < n && SameAccount(list, i, j) ==> BringsNone(list, i)
    ensures Harmless(Read(list, n), list[n]) <==> forall i :: 0 <= i < n && SameAccount(list, i, n) ==> BringsNone(list, i)
  {
    hide NormNick, Read, BringsNone;
    var key := NormNick(list[n].name);
    ReadFacts(list, n, key);
    LastLineIs(list, n, key);
    var last := LastLine(list, n, key);
    if last.Some? && BringsNone(list, last.value) {
      forall i | 0 <= i < n && SameAccount(list, i, n) ensures BringsNone(list, i) {
        assert i < last.value ==> SameAccount(list, i, last.value);
      }
    }
    if last.Some? {
      assert SameAccount(list, last.value, n);
    }
  }

  lemma {:induction false} ReadInverseIff(list: seq<Account>, n: nat)
    requires n <= |list|
    ensures Indexed(Read(list, n))
    ensures Inverse(Read(list, n).accounts, Read(list, n).byCert) <==>
      forall i, j :: 0 <= i < j < n && SameAccount(list, i, j) ==> BringsNone(list, i)
    decreases n
  {
    hide Indexed, Inverse, Harmless, Bind, Read, BringsNone, SameAccount;
    if n == 0 {
      ReadNone(list);
      EmptyInverse();
    } else {
      ReadInverseIff(list, n - 1);
      ReadNext(list, n - 1);
      BindInverseIff(Read(list, n - 1), list[n - 1]);
      if forall i, j :: 0 <= i < j < n - 1 && SameAccount(list, i, j) ==> BringsNone(list, i) {
        HarmlessIff(list, n - 1);
      }
    }
  }

  lemma EmptyInverse()
    ensures Indexed(Empty) && Inverse(Empty.accounts, Empty.byCert)
  {
  }

  /**
   * Whatever the file holds, the loaded index is exact if and only if of several lines for one account all
   * but the last bring no certificate that is not on an earlier line.
   */
  lemma LoadIndexIff(text: string)
    ensures var s := Load(text); Inverse(s.accounts, s.byCert) <==> NoneReplaced(ReadFile(text))
  {
    hide ReadFile, BindAll, Inverse, BringsNone;
    var list := ReadFile(text);
    assert list[..|list|] == list;
    ReadInverseIff(list, |list|);
  }

  /** Two lines for one account, the first with a certificate: the index keeps an entry nobody lists. */
  lemma ReplacedCertLingers(first: Account, second: Account)
    requires NormNick(first.name) == NormNick(second.name) && |first.certs| > 0
    ensures var s := BindAll(Empty, [first, second]); !Inverse(s.accounts, s.byCert)
  {
    hide NormNick, Inverse, BindAll;
    var list := [first, second];
    assert list[..|list|] == list;
    ReadInverseIff(list, |list|);
    assert SameAccount(list, 0, 1) && first.certs[0] in first.certs && !OnEarlier(list, 0, first.certs[0]);
  }

  // ---- runs ----

  /** How a save went: written, visiting the accounts in some order, or failed with the old file kept. */
  datatype Save = Wrote(order: seq<string>) | Failed

  datatype Op =
    | RegisterOp(name: string, pass: string, salt: seq<Octet>, hash: seq<Octet>)
    | SetPasswordOp(name: string, pass: string, salt: seq<Octet>, hash: seq<Octet>)
    | AddCertOp(name: string, raw: string)
    | RemoveCertOp(name: string, raw: string)

  /** An operation with the way its save went, or a restart, which keeps only the file. */
  datatype Event = Change(op: Op, save: Save) | Restart

  datatype System = System(store: Store, disk: string)

  const Start := System(Empty, "")

  function Apply(s: Store, op: Op, saved: bool): (Store, Outcome) {
    match op
    case RegisterOp(name, pass, salt, hash) => Register(s, name, pass, salt, hash)
    case SetPasswordOp(name, pass, salt, hash) => SetPassword(s, name, pass, salt, hash)
    case AddCertOp(name, raw) => AddCert(s, name, raw, saved)
    case RemoveCertOp(name, raw) => RemoveCert(s, name, raw, saved)
  }

  /** Fresh salts and derived keys are never empty; a written file covers every account. */
  ghost predicate Possible(s: Store, e: Event) {
    e.Change? ==>
      && (e.op.RegisterOp? || e.op.SetPasswordOp? ==> e.op.salt != [] && e.op.hash != [])
      && (e.save.Wrote? ==> Enumerates(e.save.order, Apply(s, e.op, true).0.accounts.Keys))
  }

  /** Whether the operation got as far as writing the file. */
  predicate Writes(s: Store, e: Event) {
    e.Change? && e.save.Wrote? && Apply(s, e.op, true).1 in {Done, Enrolled}
  }

  ghost function Next(y: System, e: Event): System
    requires Possible(y.store, e)
  {
    if e.Restart? then System(Load(y.disk), y.disk)
    else
      var s' := Apply(y.store, e.op, e.save.Wrote?).0;
      System(s', if Writes(y.store, e) then RenderFile(InOrder(s'.accounts, e.save.order)) else y.disk)
  }

  ghost predicate Possibles(y: System, events: seq<Event>)
    decreases |events|
  {
    events == [] || (Possible(y.store, events[0]) && Possibles(Next(y, events[0]), events[1..]))
  }

  ghost function Run(y: System, events: seq<Event>): System
    requires Possibles(y, events)
    decreases |events|
  {
    if events == [] then y else Run(Next(y, events[0]), events[1..])
  }

  lemma ApplyKeeps(s: Store, e: Event)
    requires StoreOk(s) && Possible(s, e) && e.Change?
    ensures StoreOk(Apply(s, e.op, e.save.Wrote?).0)
  {
    hide StoreOk, Register, SetPassword, AddCert, RemoveCert;
    match e.op {
      case RegisterOp(name, pass, salt, hash) => RegisterKeeps(s, name, pass, salt, hash);
      case SetPasswordOp(name, pass, salt, hash) => SetPasswordKeeps(s, name, pass, salt, hash);
      case AddCertOp(name, raw) => AddCertKeeps(s, name, raw, e.save.Wrote?);
      case RemoveCertOp(name, raw) => RemoveCertKeeps(s, name, raw, e.save.Wrote?);
    }
  }

  /** An event registers no name with the file's separators in it. */
  ghost predicate PlainOp(e: Event) {
    e.Change? && e.op.RegisterOp? ==> PlainName(e.op.name)
  }

  /** All names ever registered are free of the file's separators. */
  ghost predicate PlainOps(events: seq<Event>) {
    forall i :: 0 <= i < |events| ==> PlainOp(events[i])
  }

  /** Either the server never restarts, or the file can be trusted to hold what was written. */
  ghost predicate Sound(events: seq<Event>) {
    PlainOps(events) || forall i :: 0 <= i < |events| ==> !events[i].Restart?
  }

  lemma ApplyPlain(s: Store, e: Event)
    requires PlainNames(s) && Possible(s, e) && PlainOp(e) && e.Change?
    ensures PlainNames(Apply(s, e.op, e.save.Wrote?).0)
  {
    hide NormNick, Normalize, PlainName, IsServiceName;
  }

  /** The store is in order and, where names are plain, so is what a restart would find. */
  ghost predicate SystemOk(y: System, plain: bool) {
    StoreOk(y.store) && (plain ==> PlainNames(y.store) && StoreOk(Load(y.disk)) && PlainNames(Load(y.disk)))
  }

  lemma StartOk(plain: bool)
    ensures SystemOk(Start, plain) && Load("") == Empty
  {
    assert Load("") == Empty;
  }

  lemma NextKeeps(y: System, e: Event, plain: bool)
    requires SystemOk(y, plain) && Possible(y.store, e) && (if plain then PlainOp(e) else !e.Restart?)
    ensures SystemOk(Next(y, e), plain)
    ensures plain && Writes(y.store, e) ==> Load(Next(y, e).disk) == Next(y, e).store
  {
    hide StoreOk, PlainNames, Load, RenderFile, Apply, PlainOp;
    if e.Change? {
      ApplyKeeps(y.store, e);
      if plain {
        ApplyPlain(y.store, e);
        if Writes(y.store, e) {
          WrittenOrder(y.store, e);
          SavedLoads(Next(y, e).store, e.save.order);
        }
      }
    }
  }

  lemma WrittenOrder(s: Store, e: Event)
    requires Possible(s, e) && Writes(s, e)
    ensures Enumerates(e.save.order, Apply(s, e.op, e.save.Wrote?).0.accounts.Keys)
  {
    hide Apply, Enumerates;
  }

  lemma {:induction false} RunKeeps(y: System, events: seq<Event>, plain: bool)
    requires SystemOk(y, plain) && Possibles(y, events)
    requires if plain then PlainOps(events) else forall i :: 0 <= i < |events| ==> !events[i].Restart?
    ensures SystemOk(Run(y, events), plain)
    decreases |events|
  {
    hide SystemOk, Next, PlainOp, Possible;
    if events != [] {
      assert plain ==> PlainOp(events[0]);
      NextKeeps(y, events[0], plain);
      RunKeeps(Next(y, events[0]), events[1..], plain);
    }
  }

  lemma SoundKeeps(events: seq<Event>)
    requires Possibles(Start, events) && Sound(events)
    ensures SystemOk(Run(Start, events), PlainOps(events))
  {
    hide SystemOk, Run, Possibles, PlainOp;
    StartOk(PlainOps(events));
    RunKeeps(Start, events, PlainOps(events));
  }

  /** In every reachable store, restarts included, the index is the exact inverse of the certificate lists. */
  lemma IndexIsInverse(events: seq<Event>)
    requires Possibles(Start, events) && Sound(events)
    ensures var s := Run(Start, events).store; Inverse(s.accounts, s.byCert) && AccountsOk(s.accounts)
  {
    hide Run, Possibles, PlainOps, Inverse, AccountsOk, Sound;
    SoundKeeps(events);
  }

  /** The store at the last write. */
  ghost function LastWritten(y: System, written: Store, events: seq<Event>): Store
    requires Possibles(y, events)
    decreases |events|
  {
    if events == [] then written
    else
      var y' := Next(y, events[0]);
      LastWritten(y', if Writes(y.store, events[0]) then y'.store else written, events[1..])
  }

  lemma {:induction false} DiskFollows(y: System, written: Store, events: seq<Event>)
    requires SystemOk(y, true) && Possibles(y, events) && PlainOps(events) && Load(y.disk) == written
    ensures Load(Run(y, events).disk) == LastWritten(y, written, events)
    decreases |events|
  {
    hide SystemOk, Load, RenderFile, Apply, PlainOp, Possible;
    if events != [] {
      var e := events[0];
      assert PlainOp(e);
      NextKeeps(y, e, true);
      DiskFollows(Next(y, e), if Writes(y.store, e) then Next(y, e).store else written, events[1..]);
    }
  }

  /** After every run, earlier restarts included, a restart finds exactly the store as of the last successful save. */
  lemma RestartFindsLastSaved(events: seq<Event>)
    requires Possibles(Start, events) && PlainOps(events)
    ensures Load(Run(Start, events).disk) == LastWritten(Start, Empty, events)
  {
    hide SystemOk, Load, PlainOp;
    StartOk(true);
    DiskFollows(Start, Empty, events);
  }

  /** A certificate change is either on disk or undone, in every reachable state. */
  lemma CertChangesDurable(events: seq<Event>, e: Event)
    requires Possibles(Start, events) && PlainOps(events)
    requires var y := Run(Start, events); Possible(y.store, e) && e.Change? && (e.op.AddCertOp? || e.op.RemoveCertOp?)
    ensures var y := Run(Start, events); var y' := Next(y, e);
      y' == y || Load(y'.disk) == y'.store
  {
    hide StoreOk, PlainNames, Load, RenderFile, Apply, Run, Possibles, Possible;
    var y := Run(Start, events);
    StartOk(true);
    RunKeeps(Start, events, true);
    NextKeeps(y, e, true);
    if !Writes(y.store, e) {
      NotWritten(y.store, e);
    }
  }

  lemma NotWritten(s: Store, e: Event)
    requires StoreOk(s) && e.Change? && (e.op.AddCertOp? || e.op.RemoveCertOp?) && !Writes(s, e)
    ensures Apply(s, e.op, e.save.Wrote?).0 == s
  {
    hide StoreOk, NormNick, Normalize;
    if e.save.Failed? {
      if e.op.AddCertOp? {
        FailedAddRestores(s, e.op.name, e.op.raw);
      } else {
        FailedRemoveRestores(s, e.op.name, e.op.raw);
      }
    }
  }

  // ---- what the credentials are for ----

  /** Key derivation: password, salt, rounds, length. */
  type Derivation = (string, seq<Octet>, nat, nat) -> seq<Octet>

  predicate Verify(s: Store, name: string, pass: string, kdf: Derivation) {
    var key := NormNick(name);
    key in s.accounts && kdf(pass, s.accounts[key].salt, s.accounts[key].iters, |s.accounts[key].hash|) == s.accounts[key].hash
  }

  function AccountForCert(s: Store, raw: string): Option<string> {
    var fp := Normalize(raw);
    if fp.None? || fp.value !in s.byCert || s.byCert[fp.value] !in s.accounts then None
    else Some(s.accounts[s.byCert[fp.value]].name)
  }

  /** A fingerprint identifies an account exactly when that account lists it, and then no other does. */
  lemma CertNamesItsAccount(events: seq<Event>, raw: string, name: string)
    requires Possibles(Start, events) && Sound(events)
    ensures var s := Run(Start, events).store;
      AccountForCert(s, raw) == Some(name) <==>
      && Normalize(raw).Some? && NormNick(name) in s.accounts && s.accounts[NormNick(name)].name == name
      && Normalize(raw).value in s.accounts[NormNick(name)].certs
  {
    hide Normalize, NormNick, WellFormed, Run, Possibles, Sound;
    IndexIsInverse(events);
  }

  /** The keys really are derived from the passwords given. */
  ghost predicate Derived(e: Event, kdf: Derivation) {
    e.Change? && (e.op.RegisterOp? || e.op.SetPasswordOp?) ==> e.op.hash == kdf(e.op.pass, e.op.salt, Iterations, |e.op.hash|)
  }

  /** The passwords after an operation: the one it gave, if it was accepted. */
  ghost function Learned(s: Store, known: map<string, string>, e: Event): map<string, string> {
    if e.Change? && (e.op.RegisterOp? || e.op.SetPasswordOp?) && Apply(s, e.op, true).1 == Done
    then known[NormNick(e.op.name) := e.op.pass] else known
  }

  /** The password last accepted for each account; a restart goes back to those of the last save. */
  ghost function Passwords(y: System, known: map<string, string>, saved: map<string, string>,
          events: seq<Event>): map<string, string>
    requires Possibles(y, events)
    decreases |events|
  {
    if events == [] then known
    else
      var e := events[0];
      var learned := if e.Restart? then saved else Learned(y.store, known, e);
      Passwords(Next(y, e), learned, if Writes(y.store, e) then learned else saved, events[1..])
  }

  ghost predicate Known(s: Store, known: map<string, string>, kdf: Derivation) {
    && known.Keys == s.accounts.Keys
    && forall k :: k in s.accounts ==>
         kdf(known[k], s.accounts[k].salt, s.accounts[k].iters, |s.accounts[k].hash|) == s.accounts[k].hash
  }

  lemma ApplyKnown(s: Store, known: map<string, string>, e: Event, kdf: Derivation)
    requires StoreOk(s) && Known(s, known, kdf) && e.Change? && Derived(e, kdf)
    ensures Known(Apply(s, e.op, e.save.Wrote?).0, Learned(s, known, e), kdf)
  {
    hide NormNick, Normalize, IsServiceName, StoreOk;
    if e.op.AddCertOp? {
      if e.save.Failed? {
        FailedAddRestores(s, e.op.name, e.op.raw);
      }
    } else if e.op.RemoveCertOp? {
      if e.save.Failed? {
        FailedRemoveRestores(s, e.op.name, e.op.raw);
      }
    }
  }

  lemma {:induction false} RunKnown(y: System, known: map<string, string>, saved: map<string, string>,
          events: seq<Event>, plain: bool, kdf: Derivation)
    requires SystemOk(y, plain) && Known(y.store, known, kdf) && (plain ==> Known(Load(y.disk), saved, kdf)) && Possibles(y, events)
    requires if plain then PlainOps(events) else forall i :: 0 <= i < |events| ==> !events[i].Restart?
    requires forall i :: 0 <= i < |events| ==> Derived(events[i], kdf)
    ensures Known(Run(y, events).store, Passwords(y, known, saved, events), kdf)
    decreases |events|
  {
    hide StoreOk, PlainNames, Known, Apply, Derived, Load, Learned, PlainOp, RenderFile, Possible;
    if events != [] {
      var e := events[0];
      assert Derived(e, kdf) && (plain ==> PlainOp(e));
      NextKeeps(y, e, plain);
      if e.Change? {
        ApplyKnown(y.store, known, e, kdf);
      }
      var learned := if e.Restart? then saved else Learned(y.store, known, e);
      RunKnown(Next(y, e), learned, if Writes(y.store, e) then learned else saved, events[1..], plain, kdf);
    }
  }

  /**
   * After every run, under any folding of its name, an account answers to the password last accepted for it,
   * or after a restart to the one last saved.
   */
  lemma PasswordsVerify(events: seq<Event>, name: string, kdf: Derivation)
    requires Possibles(Start, events) && Sound(events) && forall i :: 0 <= i < |events| ==> Derived(events[i], kdf)
    requires NormNick(name) in Run(Start, events).store.accounts
    ensures NormNick(name) in Passwords(Start, map[], map[], events)
    ensures Verify(Run(Start, events).store, name, Passwords(Start, map[], map[], events)[NormNick(name)], kdf)
  {
    hide Run, Possibles, Passwords, NormNick, Derived, SystemOk, PlainOp;
    StartOk(PlainOps(events));
    RunKnown(Start, map[], map[], events, PlainOps(events), kdf);
  }
}
