/** Who may have which credentials: what each request to the account store brings about, and what it leaves alone. */
module Credentials {
  import opened Names
  import opened Base64
  import opened AccountFile
  import opened Accounts

  // ---- registering ----

  /** A name services keep for themselves. */
  predicate ServiceName(name: string) {
    SameName(name, "nickserv") || SameName(name, "chanserv")
  }

  lemma ServiceKey(name: string)
    ensures IsServiceName(NormNick(name)) <==> ServiceName(name)
    ensures NormNick(name) == "" <==> name == ""
  {
    NormNickIdempotent(name);
    KeysEqualIffSameName(name, "nickserv");
    KeysEqualIffSameName(name, "chanserv");
    assert NormNick("nickserv") == "nickserv" && NormNick("chanserv") == "chanserv";
  }

  /** What asking to register a name deserves, from the accounts there are. */
  function Deserved(accounts: map<string, Account>, name: string, pass: string): Outcome {
    if name == "" then InvalidName
    else if ServiceName(name) then Reserved
    else if exists k :: k in accounts && SameName(accounts[k].name, name) then Taken
    else if pass == "" then PasswordRequired
    else Done
  }

  lemma TakenIff(accounts: map<string, Account>, name: string)
    requires AccountsOk(accounts)
    ensures NormNick(name) in accounts <==> exists k :: k in accounts && SameName(accounts[k].name, name)
  {
    hide WellFormed, NormNick, SameName;
    var key := NormNick(name);
    if key in accounts {
      KeysEqualIffSameName(accounts[key].name, name);
    }
    forall k | k in accounts && SameName(accounts[k].name, name) ensures key in accounts {
      KeysEqualIffSameName(accounts[k].name, name);
    }
  }

  /** The accounts after a registration: one more if it succeeds, with nothing enrolled, and otherwise the same. */
  function Enlarged(s: Store, name: string, salt: seq<Octet>, hash: seq<Octet>, outcome: Outcome): Store {
    if outcome == Done then s.(accounts := s.accounts[NormNick(name) := Account(name, salt, hash, 100_000, [])]) else s
  }

  lemma RegisterDeserved(s: Store, name: string, pass: string, salt: seq<Octet>, hash: seq<Octet>)
    requires AccountsOk(s.accounts)
    ensures Register(s, name, pass, salt, hash).1 == Deserved(s.accounts, name, pass)
    ensures Register(s, name, pass, salt, hash).0 == Enlarged(s, name, salt, hash, Deserved(s.accounts, name, pass))
  {
    hide NormNick, IsServiceName, ServiceName, AccountsOk, SameName;
    ServiceKey(name);
    TakenIff(s.accounts, name);
  }

  /**
   * In every reachable state a name can be registered exactly when it is not empty, not a service's and not the name
   * of an account under any folding, and the password is not empty. Then exactly that account is added; otherwise
   * neither the store nor the file changes.
   */
  lemma RegistrationDecided(events: seq<Event>, e: Event)
    requires Possibles(Start, events) && Sound(events) && Possible(Run(Start, events).store, e) && e.Change? && e.op.RegisterOp?
    ensures var y := Run(Start, events);
      var y', outcome := Next(y, e), Apply(y.store, e.op, e.save.Wrote?).1;
      && outcome == Deserved(y.store.accounts, e.op.name, e.op.pass)
      && y'.store == Enlarged(y.store, e.op.name, e.op.salt, e.op.hash, outcome)
      && (outcome != Done ==> y' == y)
  {
    hide Run, Possibles, Sound, Possible, Deserved, Enlarged, Register, AccountsOk, Inverse, RenderFile;
    IndexIsInverse(events);
    var s := Run(Start, events).store;
    RegisterDeserved(s, e.op.name, e.op.pass, e.op.salt, e.op.hash);
    NotDoneSame(s, e.op.name, e.op.salt, e.op.hash, Deserved(s.accounts, e.op.name, e.op.pass));
    OutcomeOf(s.accounts, e.op.name, e.op.pass);
  }

  lemma NotDoneSame(s: Store, name: string, salt: seq<Octet>, hash: seq<Octet>, outcome: Outcome)
    ensures outcome != Done ==> Enlarged(s, name, salt, hash, outcome) == s
  {
  }

  lemma OutcomeOf(accounts: map<string, Account>, name: string, pass: string)
    ensures Deserved(accounts, name, pass) != Enrolled
  {
  }

  // ---- what stays ----

  /** Name, salt, hash and rounds. */
  predicate SameCredentials(a: Account, b: Account) {
    a.name == b.name && a.salt == b.salt && a.hash == b.hash && a.iters == b.iters
  }

  /** The operation replaces the password of the account with this key. */
  predicate Rotates(e: Event, key: string) {
    e.Change? && e.op.SetPasswordOp? && NormNick(e.op.name) == key && e.op.pass != ""
  }

  /** The operation is about the certificates of the account with this key. */
  predicate Enrols(e: Event, key: string) {
    e.Change? && (e.op.AddCertOp? || e.op.RemoveCertOp?) && NormNick(e.op.name) == key
  }

  lemma ApplyLeaves(s: Store, e: Event, key: string)
    requires e.Change?
    ensures var s' := Apply(s, e.op, e.save.Wrote?).0;
      && (key in s.accounts ==>
           && key in s'.accounts && s'.accounts[key].name == s.accounts[key].name
           && (Rotates(e, key) || SameCredentials(s'.accounts[key], s.accounts[key]))
           && (Enrols(e, key) || s'.accounts[key].certs == s.accounts[key].certs))
      && (key !in s.accounts && key in s'.accounts ==> e.op.RegisterOp? && NormNick(e.op.name) == key)
  {
    hide NormNick, Normalize, IsServiceName;
  }

  /**
   * Over every run, whatever is asked, an account that is there stays, keeps its name, keeps salt, hash and rounds
   * unless its own password is being set, and keeps its certificates unless its own are being changed; and an account
   * comes only by being registered. Only a restart may do otherwise.
   */
  lemma CredentialsKept(events: seq<Event>, e: Event, key: string)
    requires Possibles(Start, events) && Possible(Run(Start, events).store, e) && e.Change?
    ensures var s, s' := Run(Start, events).store, Next(Run(Start, events), e).store;
      && (key in s.accounts ==>
           && key in s'.accounts && s'.accounts[key].name == s.accounts[key].name
           && (Rotates(e, key) || SameCredentials(s'.accounts[key], s.accounts[key]))
           && (Enrols(e, key) || s'.accounts[key].certs == s.accounts[key].certs))
      && (key !in s.accounts && key in s'.accounts ==> e.op.RegisterOp? && NormNick(e.op.name) == key)
  {
    hide Run, Possibles, Possible, Apply, Rotates, Enrols, SameCredentials, RenderFile;
    ApplyLeaves(Run(Start, events).store, e, key);
  }

  /** A password is set exactly when there is one and the account exists; then only its salt, hash and rounds change. */
  lemma PasswordDecided(s: Store, name: string, pass: string, salt: seq<Octet>, hash: seq<Octet>)
    requires AccountsOk(s.accounts)
    ensures var (s', outcome), key := SetPassword(s, name, pass, salt, hash), NormNick(name);
      && outcome == (if pass == "" then PasswordRequired
                     else if exists k :: k in s.accounts && SameName(s.accounts[k].name, name) then Done else NotRegistered)
      && (outcome != Done ==> s' == s)
      && (outcome == Done ==>
           && s'.byCert == s.byCert && s'.accounts.Keys == s.accounts.Keys && key in s.accounts
           && (forall k :: k in s.accounts && k != key ==> s'.accounts[k] == s.accounts[k])
           && s'.accounts[key].salt == salt && s'.accounts[key].hash == hash && s'.accounts[key].iters == 100_000)
  {
    hide NormNick, AccountsOk, SameName;
    TakenIff(s.accounts, name);
  }

  // ---- certificates ----

  /** Some account other than this one lists the fingerprint. */
  ghost predicate ListedElsewhere(accounts: map<string, Account>, key: string, fp: string) {
    exists k :: k in accounts && k != key && fp in accounts[k].certs
  }

  lemma IndexSays(s: Store, key: string, fp: string)
    requires Inverse(s.accounts, s.byCert) && key in s.accounts
    ensures fp in s.byCert && s.byCert[fp] == key <==> fp in s.accounts[key].certs
    ensures fp in s.byCert && s.byCert[fp] != key <==> ListedElsewhere(s.accounts, key, fp)
  {
    if fp in s.byCert && s.byCert[fp] != key {
      assert s.byCert[fp] in s.accounts && fp in s.accounts[s.byCert[fp]].certs;
    }
    if ListedElsewhere(s.accounts, key, fp) {
      var k :| k in s.accounts && k != key && fp in s.accounts[k].certs;
      assert s.byCert[fp] == k;
    }
  }

  /**
   * In every sound store a fingerprint is enrolled exactly when it is one, the account exists, no account lists it
   * and fewer than eight are enrolled, and the save succeeds. It then comes last in that account's list and nothing
   * else changes; in every other case nothing changes at all.
   */
  lemma EnrolmentDecided(s: Store, name: string, raw: string, saved: bool)
    requires StoreOk(s)
    ensures var (s', outcome), key, fp := AddCert(s, name, raw, saved), NormNick(name), Normalize(raw);
      && outcome == (if fp.None? then BadFingerprint
                     else if key !in s.accounts then NotRegistered
                     else if fp.value in s.accounts[key].certs then Already
                     else if ListedElsewhere(s.accounts, key, fp.value) then BelongsToAnother
                     else if |s.accounts[key].certs| >= 8 then LimitReached
                     else if saved then Enrolled else SaveFailed)
      && (outcome != Enrolled ==> s' == s)
      && (outcome == Enrolled ==>
           && s'.accounts == s.accounts[key := s.accounts[key].(certs := s.accounts[key].certs + [fp.value])]
           && s'.byCert == s.byCert[fp.value := key])
  {
    hide NormNick, Normalize, AccountsOk, Inverse;
    var key, fp := NormNick(name), Normalize(raw);
    if key in s.accounts && fp.Some? {
      IndexSays(s, key, fp.value);
    }
    if !saved {
      FailedAddRestores(s, name, raw);
    }
  }

  /** The list without one of its members, the others in their order. */
  ghost predicate OneFewer(certs: seq<string>, certs': seq<string>, fp: string) {
    exists i :: 0 <= i < |certs| && certs[i] == fp && certs' == certs[..i] + certs[i + 1..]
  }

  /** Likewise one is removed exactly when the account lists it and the save succeeds, and nothing else changes. */
  lemma RemovalDecided(s: Store, name: string, raw: string, saved: bool)
    requires StoreOk(s)
    ensures var (s', outcome), key, fp := RemoveCert(s, name, raw, saved), NormNick(name), Normalize(raw);
      && outcome == (if fp.None? then BadFingerprint
                     else if key !in s.accounts then NotRegistered
                     else if fp.value !in s.accounts[key].certs then NoSuchCert
                     else if saved then Done else SaveFailed)
      && (outcome != Done ==> s' == s)
      && (outcome == Done ==>
           && s'.byCert == s.byCert - {fp.value} && s'.accounts.Keys == s.accounts.Keys
           && (forall k :: k in s.accounts && k != key ==> s'.accounts[k] == s.accounts[k])
           && s'.accounts[key] == s.accounts[key].(certs := s'.accounts[key].certs)
           && OneFewer(s.accounts[key].certs, s'.accounts[key].certs, fp.value))
  {
    hide NormNick, Normalize, AccountsOk, Inverse;
    if !saved {
      FailedRemoveRestores(s, name, raw);
    }
  }

  // ---- passwords ----

  /**
   * After every run an account answers to exactly those passwords from which its own salt derives the same key as
   * from the one last accepted, or after a restart last saved.
   */
  lemma OnlyItsPassword(events: seq<Event>, name: string, pass: string, kdf: Derivation)
    requires Possibles(Start, events) && Sound(events) && forall i :: 0 <= i < |events| ==> Derived(events[i], kdf)
    requires NormNick(name) in Run(Start, events).store.accounts
    ensures NormNick(name) in Passwords(Start, map[], map[], events)
    ensures var s, last := Run(Start, events).store, Passwords(Start, map[], map[], events)[NormNick(name)];
      var a := s.accounts[NormNick(name)];
      Verify(s, name, pass, kdf) <==> kdf(pass, a.salt, a.iters, |a.hash|) == kdf(last, a.salt, a.iters, |a.hash|)
  {
    hide Run, Possibles, Passwords, NormNick, Derived, Sound;
    PasswordsVerify(events, name, kdf);
  }
}
