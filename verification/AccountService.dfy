/** The account store as it is kept in memory: two maps changed in place, and the file behind them. */
module AccountService {
  import opened Text
  import opened Names
  import opened Base64
  import opened AccountFile
  import opened Accounts

  /** Fill the certificate list from a comma-separated field. */
  method ReadCerts(field: string) returns (certs: seq<string>)
    ensures certs == ParseCerts(Split(field, ','), [])
  {
    var parts := Split(field, ',');
    certs := [];
    var i := 0;
    assert parts[0..] == parts;
    while i < |parts|
      invariant 0 <= i <= |parts|
      invariant ParseCerts(parts[i..], certs) == ParseCerts(parts, [])
    {
      assert parts[i..][1..] == parts[i + 1..];
      var fp := Normalize(parts[i]);
      if fp.Some? && fp.value !in certs {
        certs := certs + [fp.value];
      }
      i := i + 1;
    }
  }

  class AccountStore {
    var accounts: map<string, Account>
    var byCert: map<string, string>
    var disk: string

    ghost function View(): System
      reads this
    {
      System(Store(accounts, byCert), disk)
    }

    constructor (text: string)
      ensures View() == System(Load(text), text)
    {
      accounts, byCert, disk := map[], map[], text;
      new;
      var list := ReadFile(text);
      var i := 0;
      assert list[0..] == list;
      while i < |list|
        invariant 0 <= i <= |list| && disk == text
        invariant BindAll(Store(accounts, byCert), list[i..]) == Load(text)
      {
        assert list[i..][1..] == list[i + 1..];
        Insert(list[i]);
        i := i + 1;
      }
    }

    /** Keep the prints nobody holds yet, then file the account. */
    method Insert(a: Account)
      modifies this
      ensures Store(accounts, byCert) == Bind(old(Store(accounts, byCert)), a) && disk == old(disk)
    {
      var key := NormNick(a.name);
      var kept: seq<string> := [];
      var i := 0;
      ghost var all := Retain(a.certs, byCert, key);
      assert a.certs[0..] == a.certs && [] + all.0 == all.0;
      while i < |a.certs|
        invariant 0 <= i <= |a.certs| && accounts == old(accounts) && disk == old(disk)
        invariant var rest := Retain(a.certs[i..], byCert, key); kept + rest.0 == all.0 && rest.1 == all.1
      {
        var fp := a.certs[i];
        assert a.certs[i..][1..] == a.certs[i + 1..];
        if fp !in byCert {
          ghost var rest := Retain(a.certs[i + 1..], byCert[fp := key], key);
          assert kept + ([fp] + rest.0) == kept + [fp] + rest.0;
          byCert := byCert[fp := key];
          kept := kept + [fp];
        }
        i := i + 1;
      }
      assert kept + [] == kept;
      accounts := accounts[key := a.(certs := kept)];
    }

    /** Write the whole file in the order given, or fail and leave the old one. */
    method Write(save: Save) returns (ok: bool)
      requires save.Wrote? ==> forall k :: k in save.order ==> k in accounts
      modifies this`disk
      ensures ok == save.Wrote?
      ensures disk == if ok then RenderFile(InOrder(accounts, save.order)) else old(disk)
    {
      hide RenderLine;
      if save.Failed? {
        return false;
      }
      var body := "";
      var i := 0;
      var order := save.order;
      assert order[0..] == order;
      ghost var whole := RenderFile(InOrder(accounts, order));
      assert body + whole == whole;
      while i < |order|
        invariant 0 <= i <= |order| && disk == old(disk)
        invariant body + RenderFile(InOrder(accounts, order[i..])) == whole
      {
        var rest := order[i + 1..];
        var line := RenderLine(accounts[order[i]]) + "\n";
        assert order[i..][0] == order[i] && order[i..][1..] == rest;
        assert InOrder(accounts, order[i..])[1..] == InOrder(accounts, rest);
        assert body + (line + RenderFile(InOrder(accounts, rest))) == body + line + RenderFile(InOrder(accounts, rest));
        body := body + line;
        i := i + 1;
      }
      assert body + "" == body;
      disk := body;
      return true;
    }

    method Register(name: string, pass: string, salt: seq<Octet>, hash: seq<Octet>, save: Save) returns (r: Outcome)
      requires Possible(View().store, Change(RegisterOp(name, pass, salt, hash), save))
      modifies this
      ensures View() == Next(old(View()), Change(RegisterOp(name, pass, salt, hash), save))
      ensures r == Accounts.Register(old(View()).store, name, pass, salt, hash).1
    {
      hide NormNick, RenderFile;
      var key := NormNick(name);
      if key == "" {
        return InvalidName;
      }
      if IsServiceName(key) {
        return Reserved;
      }
      if key in accounts {
        return Taken;
      }
      if pass == "" {
        return PasswordRequired;
      }
      accounts := accounts[key := Account(name, salt, hash, Iterations, [])];
      var _ := Write(save);
      return Done;
    }

    method SetPassword(name: string, pass: string, salt: seq<Octet>, hash: seq<Octet>, save: Save) returns (r: Outcome)
      requires Possible(View().store, Change(SetPasswordOp(name, pass, salt, hash), save))
      modifies this
      ensures View() == Next(old(View()), Change(SetPasswordOp(name, pass, salt, hash), save))
      ensures r == Accounts.SetPassword(old(View()).store, name, pass, salt, hash).1
    {
      hide NormNick, RenderFile;
      var key := NormNick(name);
      if pass == "" {
        return PasswordRequired;
      }
      if key !in accounts {
        return NotRegistered;
      }
      accounts := accounts[key := accounts[key].(salt := salt, hash := hash, iters := Iterations)];
      var _ := Write(save);
      return Done;
    }

    method AddCert(name: string, raw: string, save: Save) returns (r: Outcome)
      requires Possible(View().store, Change(AddCertOp(name, raw), save))
      modifies this
      ensures View() == Next(old(View()), Change(AddCertOp(name, raw), save))
      ensures r == Accounts.AddCert(old(View()).store, name, raw, save.Wrote?).1
    {
      hide NormNick, Normalize, RenderFile;
      var key := NormNick(name);
      var fp := Normalize(raw);
      if fp.None? {
        return BadFingerprint;
      }
      if key !in accounts {
        return NotRegistered;
      }
      if fp.value in byCert {
        return if byCert[fp.value] == key then Already else BelongsToAnother;
      }
      if |accounts[key].certs| >= MaxCerts {
        return LimitReached;
      }
      accounts := accounts[key := accounts[key].(certs := accounts[key].certs + [fp.value])];
      byCert := byCert[fp.value := key];
      var saved := Write(save);
      if !saved {
        accounts := accounts[key := accounts[key].(certs := Dropped(accounts[key].certs, fp.value))];
        byCert := byCert - {fp.value};
        return SaveFailed;
      }
      return Enrolled;
    }

    method RemoveCert(name: string, raw: string, save: Save) returns (r: Outcome)
      requires Possible(View().store, Change(RemoveCertOp(name, raw), save))
      modifies this
      ensures View() == Next(old(View()), Change(RemoveCertOp(name, raw), save))
      ensures r == Accounts.RemoveCert(old(View()).store, name, raw, save.Wrote?).1
    {
      hide NormNick, Normalize, RenderFile;
      var key := NormNick(name);
      var fp := Normalize(raw);
      if fp.None? {
        return BadFingerprint;
      }
      if key !in accounts {
        return NotRegistered;
      }
      var certs := accounts[key].certs;
      var pos := Position(certs, fp.value);
      if pos == |certs| {
        return NoSuchCert;
      }
      accounts := accounts[key := accounts[key].(certs := certs[..pos] + certs[pos + 1..])];
      byCert := byCert - {fp.value};
      var saved := Write(save);
      if !saved {
        var rest := accounts[key].certs;
        accounts := accounts[key := accounts[key].(certs := rest[..pos] + [fp.value] + rest[pos..])];
        byCert := byCert[fp.value := key];
        return SaveFailed;
      }
      return Done;
    }
  }
}
