/**
 The passphrase generation ledger (client/libclient/passphrase_mgr.go and
 client/libclient/skm_mgr.go). Every passphrase change or key rotation appends one
 wrapping key (SKMWK) to a list that the server stores encrypted, reachable by the
 passphrase of that generation or by a per-user key (PUK). Device keys sealed under
 an old wrapping key stay openable because the list only grows.
 */
module Passphrases {
  import opened Common
  import opened SeedChains

  /** A wrapping key, and a one-time session key; both random. */
  datatype Skmwk = Skmwk(id: nat)
  datatype SessionKey = SessionKey(id: nat)

  /** The key pair stretched from a passphrase. The generation is not part of it. */
  datatype PassphraseKey = PassphraseKey(raw: nat, salt: nat, version: nat)

  datatype Stretched = Stretched(key: PassphraseKey, gen: nat)

  /** e_i, f_i and g_i: the list under a session key, the session key under the passphrase and under a PUK. */
  datatype ListBox = ListBox(key: SessionKey, user: nat, list: seq<Skmwk>)
  datatype PassphraseBox = PassphraseBox(key: PassphraseKey, gen: nat, session: SessionKey)
  datatype PukBox = PukBox(key: BoxKey, pukGen: nat, gen: nat, session: SessionKey, passphrase: PassphraseKey)

  datatype Row = Row(gen: nat, verifyKey: PassphraseKey, list: ListBox, pass: PassphraseBox, puk: Option<PukBox>)

  datatype Unlocked = Unlocked(list: seq<Skmwk>, salt: nat, gen: nat, key: PassphraseKey)

  /** A device key sealed under the wrapping key of one generation. */
  datatype Bundle = Bundle(gen: nat, key: Skmwk, secret: nat)

  datatype Nonce = Nonce(skmwk: Skmwk, session: SessionKey)

  // ---------------------------------------------------------------- the server

  /** What the server keeps for one user. */
  datatype Account = Account(rows: seq<Row>, salt: Option<nat>)

  /** What becomes of it when a row is posted. */
  function Posted(a: Account, row: Row, newSalt: Option<nat>): (a': Account) {
    if row.gen == |a.rows| + 1 && (row.gen == 1 <==> newSalt.Some?)
    then Account(a.rows + [row], if newSalt.Some? then newSalt else a.salt)
    else a
  }

  /** `UpdatePassphrase`: generation 1 only when there is none, otherwise exactly the next one. */
  class PassphraseServer {
    const user: nat
    var rows: seq<Row>
    var salt: Option<nat>

    constructor (user: nat)
      ensures this.user == user && rows == [] && salt == None
    {
      this.user, rows, salt := user, [], None;
    }

    method Update(row: Row, newSalt: Option<nat>) returns (ok: bool)
      modifies this
      ensures ok <==> row.gen == |old(rows)| + 1 && (row.gen == 1 <==> newSalt.Some?)
      ensures Account(rows, salt) == Posted(old(Account(rows, salt)), row, newSalt)
      ensures rows == if ok then old(rows) + [row] else old(rows)
      ensures salt == if ok && newSalt.Some? then newSalt else old(salt)
    {
      if row.gen == 0 { return false; }
      if (row.gen == 1) != newSalt.Some? { return false; }
      if row.gen == 1 {
        if |rows| != 0 { return false; }
      } else {
        if |rows| == 0 || row.gen != |rows| + 1 { return false; }
      }
      rows := rows + [row];
      if newSalt.Some? { salt := newSalt; }
      return true;
    }
  }

  // ------------------------------------------------------------------ sealing

  /** `encryptWithPassphrasePublicKey`: the list gets one more key, and the new row opens both ways. */
  function MakeRow(user: nat, list: seq<Skmwk>, key: PassphraseKey, gen: nat, puk: Option<SharedKey>, n: Nonce)
    : (r: Row)
  {
    Row(gen, key, ListBox(n.session, user, list + [n.skmwk]), PassphraseBox(key, gen, n.session),
        if puk.None? then None else Some(PukBox(BoxKeyOf(puk.value.seed), puk.value.gen, gen, n.session, key)))
  }

  /** A row as that function makes it. */
  ghost predicate RowOk(user: nat, r: Row) {
    && r.pass == PassphraseBox(r.verifyKey, r.gen, r.list.key) && r.list.user == user
    && (r.puk.Some? ==>
          r.puk.value.gen == r.gen && r.puk.value.session == r.list.key && r.puk.value.passphrase == r.verifyKey)
  }

  /** The wrapping keys so far. */
  function Ledger(rows: seq<Row>): (l: seq<Skmwk>) {
    if rows == [] then [] else rows[|rows| - 1].list.list
  }

  /** Row g holds the first g wrapping keys; no earlier key ever changes. */
  ghost predicate LedgerOk(user: nat, salt: Option<nat>, rows: seq<Row>) {
    && (rows != [] ==> salt.Some?)
    && (forall i :: 0 <= i < |rows| ==>
          rows[i].gen == i + 1 && RowOk(user, rows[i]) && rows[i].verifyKey.salt == salt.value)
    && (forall i :: 0 <= i < |rows| ==> |rows[i].list.list| == i + 1 && rows[i].list.list <= Ledger(rows))
  }

  /** Opens the newest row with a PUK: `GetUnlockedSKMWK`. */
  function UnlockWith(user: nat, salt: nat, rows: seq<Row>, puks: seq<SharedKey>): (u: Option<Unlocked>) {
    if rows == [] then None
    else
      var row := rows[|rows| - 1];
      if row.puk.None? then None
      else
        var g := row.puk.value;
        if !(1 <= g.pukGen <= |puks|) || puks[g.pukGen - 1].gen != g.pukGen then None
        else if g.key != BoxKeyOf(puks[g.pukGen - 1].seed) then None
        else if g.gen != row.gen || g.gen < 1 then None
        else if row.list.key != g.session || row.list.user != user || |row.list.list| != row.gen then None
        else Some(Unlocked(row.list.list, salt, row.gen, g.passphrase))
  }

  /** Opens the newest row with a passphrase: the server's challenge and `Login`. */
  function LoginWith(user: nat, rows: seq<Row>, key: PassphraseKey): (u: Option<(seq<Skmwk>, nat)>) {
    if rows == [] then None
    else
      var row := rows[|rows| - 1];
      if row.verifyKey != key || row.pass.key != key then None
      else if row.pass.gen != row.gen || row.list.key != row.pass.session then None
      else if row.list.user != user || row.list.list == [] then None
      else Some((row.list.list, row.gen))
  }

  // ------------------------------------------------------------------ the manager

  class PassphraseManager {
    const user: nat
    var skmwkList: seq<Skmwk>
    var sp: Option<Stretched>
    var pi: Option<nat>          // the generation last learned by PUK

    constructor (user: nat)
      ensures this.user == user && skmwkList == [] && sp == None && pi == None
    {
      this.user, skmwkList, sp, pi := user, [], None, None;
    }

    /** The list held is a beginning of the ledger, and the passphrase known is not newer than the list. */
    ghost predicate Valid(srv: PassphraseServer)
      reads this, srv
    {
      && user == srv.user && LedgerOk(user, srv.salt, srv.rows)
      && skmwkList <= Ledger(srv.rows)
      && (sp.Some? ==> sp.value.gen <= |skmwkList| && srv.salt == Some(sp.value.key.salt))
    }

    method Logout(srv: PassphraseServer)
      requires Valid(srv)
      modifies this`skmwkList, this`sp
      ensures Valid(srv) && skmwkList == [] && sp == None
    {
      skmwkList, sp := [], None;
    }

    /** The key of one generation, by index. */
    method GetSkmwk(g: nat) returns (k: Option<Skmwk>)
      ensures k.Some? <==> 1 <= g <= |skmwkList|
      ensures k.Some? ==> k.value == skmwkList[g - 1]
    {
      if |skmwkList| == 0 || g == 0 || g - 1 >= |skmwkList| { return None; }
      return Some(skmwkList[g - 1]);
    }

    method SetPassphrase(srv: PassphraseServer, raw: nat, version: nat, salt: nat, puk: Option<SharedKey>, n: Nonce)
      returns (ok: bool)
      requires Valid(srv)
      modifies this`skmwkList, this`sp, srv
      ensures Valid(srv) && old(srv.rows) <= srv.rows
      ensures ok <==> old(sp).None? && old(skmwkList) == [] && old(srv.rows) == []
      ensures ok ==>
                && srv.rows == [MakeRow(user, [], PassphraseKey(raw, salt, version), 1, puk, n)]
                && skmwkList == Ledger(srv.rows)
      ensures !ok ==> srv.rows == old(srv.rows) && skmwkList == old(skmwkList) && sp == old(sp)
    {
      if sp.Some? || |skmwkList| > 0 { return false; }
      var newSp := Stretched(PassphraseKey(raw, salt, version), 1);
      var row := MakeRow(user, [], newSp.key, newSp.gen, puk, n);
      var taken := srv.Update(row, Some(salt));
      if !taken { return false; }
      FirstLedger(user, newSp.key, puk, n);
      sp, skmwkList := Some(newSp), row.list.list;
      return true;
    }

    /** `refreshSKWKList`: adopts the server's list; the stretched passphrase is left as it was. */
    method Refresh(srv: PassphraseServer, puks: seq<SharedKey>) returns (u: Option<Unlocked>)
      requires Valid(srv)
      modifies this`skmwkList, this`pi
      ensures Valid(srv)
      ensures u.Some? <==> srv.rows != [] && UnlockWith(user, srv.salt.value, srv.rows, puks).Some?
      ensures u.Some? ==>
                u.value == Unlocked(Ledger(srv.rows), srv.salt.value, |srv.rows|, srv.rows[|srv.rows| - 1].verifyKey)
      ensures u.Some? ==> skmwkList == Ledger(srv.rows) && |skmwkList| == |srv.rows|
      ensures u.None? ==> skmwkList == old(skmwkList) && pi == old(pi)
    {
      if |srv.rows| == 0 { return None; }
      u := UnlockWith(user, srv.salt.value, srv.rows, puks);
      if u.Some? { skmwkList, pi := u.value.list, Some(u.value.gen); }
    }

    /** `changePassphraseWithLock`: one generation above `last`, which the server must agree with. */
    method ChangeFrom(srv: PassphraseServer, raw: nat, version: nat, salt: nat, last: nat, puk: Option<SharedKey>,
                      n: Nonce) returns (ok: bool)
      requires Valid(srv) && last <= |skmwkList| && srv.salt == Some(salt)
      modifies this`skmwkList, this`sp, srv
      ensures Valid(srv) && old(srv.rows) <= srv.rows
      ensures ok <==> old(skmwkList) != [] && last == |old(srv.rows)|
      ensures ok ==>
                var row := MakeRow(user, Ledger(old(srv.rows)), PassphraseKey(raw, salt, version), last + 1, puk, n);
                srv.rows == old(srv.rows) + [row]
      ensures ok ==> skmwkList == Ledger(srv.rows) == Ledger(old(srv.rows)) + [n.skmwk]
      ensures !ok ==> srv.rows == old(srv.rows) && skmwkList == old(skmwkList) && sp == old(sp)
      ensures srv.salt == old(srv.salt)
    {
      if |skmwkList| == 0 { return false; }
      var newSp := Stretched(PassphraseKey(raw, salt, version), last + 1);
      var row := MakeRow(user, skmwkList, newSp.key, newSp.gen, puk, n);
      if last == 0 {
        // a first generation would need a salt to come with it
        var refused := srv.Update(row, None);
        return false;
      }
      ghost var before := srv.rows;
      var taken := srv.Update(row, None);
      if !taken { return false; }
      assert skmwkList == Ledger(before);
      OneMoreRow(user, srv.salt, before, row);
      sp, skmwkList := Some(newSp), row.list.list;
      return true;
    }

    method ChangePassphrase(srv: PassphraseServer, raw: nat, version: nat, puk: Option<SharedKey>, n: Nonce)
      returns (ok: bool)
      requires Valid(srv)
      modifies this`skmwkList, this`sp, srv
      ensures Valid(srv) && old(srv.rows) <= srv.rows
      ensures ok <==> old(sp).Some? && old(skmwkList) != [] && old(sp).value.gen == |old(srv.rows)|
      ensures !ok ==> srv.rows == old(srv.rows) && skmwkList == old(skmwkList) && sp == old(sp)
      ensures ok ==> |srv.rows| == |old(srv.rows)| + 1 && skmwkList == Ledger(srv.rows)
    {
      if sp.None? { return false; }
      ok := ChangeFrom(srv, raw, version, sp.value.key.salt, sp.value.gen, puk, n);
    }

    method ChangePassphraseWithPUK(srv: PassphraseServer, raw: nat, version: nat, puks: seq<SharedKey>, n: Nonce)
      returns (ok: bool)
      requires Valid(srv)
      modifies this, srv
      ensures Valid(srv) && old(srv.rows) <= srv.rows
      ensures ok <==> old(srv.rows) != [] && UnlockWith(user, old(srv.salt).value, old(srv.rows), puks).Some?
      ensures ok ==> |srv.rows| == |old(srv.rows)| + 1 && skmwkList == Ledger(srv.rows)
      ensures !ok ==> srv.rows == old(srv.rows)
    {
      var u := Refresh(srv, puks);
      if u.None? { return false; }
      ok := ChangeFrom(srv, raw, version, u.value.salt, u.value.gen, Some(puks[|puks| - 1]), n);
    }

    /** `RotateWithPUK`: makes the next row under the same passphrase key; the caller posts it later. */
    method RotateWithPUK(srv: PassphraseServer, puks: seq<SharedKey>, n: Nonce) returns (row: Option<Row>)
      requires Valid(srv)
      modifies this`skmwkList, this`pi
      ensures Valid(srv)
      ensures row.Some? <==> srv.rows != [] && UnlockWith(user, srv.salt.value, srv.rows, puks).Some?
      ensures row.Some? ==>
                && puks != []
                && row.value == MakeRow(user, Ledger(srv.rows), srv.rows[|srv.rows| - 1].verifyKey, |srv.rows| + 1,
                                        Some(puks[|puks| - 1]), n)
      // the manager itself stays one key behind the row it made
      ensures row.Some? ==> skmwkList == Ledger(srv.rows) && |skmwkList| + 1 == row.value.gen
    {
      var u := Refresh(srv, puks);
      if u.None? { return None; }
      return Some(MakeRow(user, u.value.list, u.value.key, u.value.gen + 1, Some(puks[|puks| - 1]), n));
    }

    method Login(srv: PassphraseServer, raw: nat, version: nat) returns (ok: bool)
      requires Valid(srv)
      modifies this`skmwkList, this`sp
      ensures Valid(srv)
      ensures ok <==>
                srv.rows != [] && srv.rows[|srv.rows| - 1].verifyKey == PassphraseKey(raw, srv.salt.value, version)
      ensures ok ==> skmwkList == Ledger(srv.rows) && |skmwkList| == |srv.rows|
                     && sp == Some(Stretched(PassphraseKey(raw, srv.salt.value, version), |srv.rows|))
      ensures !ok ==> skmwkList == old(skmwkList) && sp == old(sp)
    {
      if |srv.rows| == 0 { return false; }
      var key := PassphraseKey(raw, srv.salt.value, version);
      var res := LoginWith(user, srv.rows, key);
      if res.None? { return false; }
      skmwkList, sp := res.value.0, Some(Stretched(key, res.value.1));
      return true;
    }

    /** `EncryptWithPassphrase`: seals under the newest wrapping key held. */
    method SealBundle(srv: PassphraseServer, secret: nat) returns (b: Option<Bundle>)
      requires Valid(srv)
      ensures b.Some? <==> skmwkList != [] && (sp.Some? || pi.Some?)
      ensures b.Some? ==> SealedIn(srv.rows, b.value) && b.value.gen == |skmwkList| && b.value.secret == secret
    {
      if |skmwkList| == 0 || (sp.None? && pi.None?) { return None; }
      b := Some(Bundle(|skmwkList|, skmwkList[|skmwkList| - 1], secret));
    }

    /** `decryptInner`: opens a bundle with the wrapping key of its generation. */
    method OpenBundle(srv: PassphraseServer, b: Bundle) returns (secret: Option<nat>)
      requires Valid(srv)
      ensures SealedIn(srv.rows, b) && b.gen <= |skmwkList| ==> secret == Some(b.secret)
      ensures secret.Some? ==> 1 <= b.gen <= |skmwkList| && skmwkList[b.gen - 1] == b.key && secret.value == b.secret
    {
      var k := GetSkmwk(b.gen);
      if k.None? || k.value != b.key { return None; }
      return Some(b.secret);
    }
  }

  /** The bundle was sealed under the ledger's key of its generation. */
  ghost predicate SealedIn(rows: seq<Row>, b: Bundle) {
    1 <= b.gen <= |Ledger(rows)| && Ledger(rows)[b.gen - 1] == b.key
  }

  lemma FirstLedger(user: nat, key: PassphraseKey, puk: Option<SharedKey>, n: Nonce)
    ensures var rows := [MakeRow(user, [], key, 1, puk, n)]; LedgerOk(user, Some(key.salt), rows) && |Ledger(rows)| == 1
  {
  }

  /** A row one generation on, made from the whole ledger, extends the ledger. */
  lemma OneMoreRow(user: nat, salt: Option<nat>, rows: seq<Row>, row: Row)
    requires LedgerOk(user, salt, rows) && rows != [] && row.gen == |rows| + 1 && RowOk(user, row)
    requires row.verifyKey.salt == salt.value && |row.list.list| == row.gen && Ledger(rows) <= row.list.list
    ensures LedgerOk(user, salt, rows + [row]) && Ledger(rows + [row]) == row.list.list
  {
    assert (rows + [row])[|rows|] == row;
  }

  // --------------------------------------------------------------- over whole runs

  /**
   Rows are only ever appended, so a later ledger starts with every earlier one: no
   wrapping key changes, and lists that other managers hold stay valid.
   */
  lemma LaterLedgerKeepsKeys(user: nat, salt: Option<nat>, salt': Option<nat>, rows: seq<Row>, rows': seq<Row>)
    requires LedgerOk(user, salt, rows) && LedgerOk(user, salt', rows') && rows <= rows'
    ensures Ledger(rows) <= Ledger(rows') && |Ledger(rows)| == |rows|
  {
    if rows != [] {
      assert rows'[|rows| - 1] == rows[|rows| - 1];
      assert rows'[|rows| - 1].list.list <= Ledger(rows');
    }
  }

  /** Logging in works with the newest row's passphrase and no other. */
  lemma LoginIff(user: nat, salt: Option<nat>, rows: seq<Row>, key: PassphraseKey)
    requires LedgerOk(user, salt, rows)
    ensures LoginWith(user, rows, key).Some? <==> rows != [] && rows[|rows| - 1].verifyKey == key
    ensures LoginWith(user, rows, key).Some? ==> LoginWith(user, rows, key).value == (Ledger(rows), |rows|)
  {
    if rows != [] { assert RowOk(user, rows[|rows| - 1]); }
  }

  /** The row was boxed for one of these PUKs. */
  predicate BoxedUnder(row: Row, puks: seq<SharedKey>) {
    && row.puk.Some? && 1 <= row.puk.value.pukGen <= |puks|
    && row.puk.value.key == BoxKeyOf(puks[row.puk.value.pukGen - 1].seed)
  }

  /** Unlocking works with any PUK history that reaches the generation the newest row was boxed for. */
  lemma UnlockIff(user: nat, salt: Option<nat>, rows: seq<Row>, puks: seq<SharedKey>)
    requires LedgerOk(user, salt, rows) && rows != []
    requires forall i :: 0 <= i < |puks| ==> puks[i].gen == i + 1
    ensures UnlockWith(user, salt.value, rows, puks).Some? <==> BoxedUnder(rows[|rows| - 1], puks)
    ensures UnlockWith(user, salt.value, rows, puks).Some? ==>
              UnlockWith(user, salt.value, rows, puks).value.list == Ledger(rows)
  {
    assert RowOk(user, rows[|rows| - 1]);
  }

  /** A bundle sealed at any time opens in every later state, for whoever logs in with the passphrase of that state. */
  lemma OldBundleOpensByPassphrase(
    user: nat, salt: Option<nat>, salt': Option<nat>, rows: seq<Row>, rows': seq<Row>, b: Bundle, key: PassphraseKey)
    requires LedgerOk(user, salt, rows) && LedgerOk(user, salt', rows') && rows <= rows' && SealedIn(rows, b)
    requires rows' != [] && key == rows'[|rows'| - 1].verifyKey
    ensures var list := LoginWith(user, rows', key);
            list.Some? && b.gen <= |list.value.0| && list.value.0[b.gen - 1] == b.key
  {
    LaterLedgerKeepsKeys(user, salt, salt', rows, rows');
    LoginIff(user, salt', rows', key);
  }

  /** And for whoever holds the PUKs up to the one the newest row was boxed for. */
  lemma OldBundleOpensByPuk(
    user: nat, salt: Option<nat>, salt': Option<nat>, rows: seq<Row>, rows': seq<Row>, b: Bundle, puks: seq<SharedKey>)
    requires LedgerOk(user, salt, rows) && LedgerOk(user, salt', rows') && rows <= rows' && SealedIn(rows, b)
    requires rows' != [] && BoxedUnder(rows'[|rows'| - 1], puks) && forall i :: 0 <= i < |puks| ==> puks[i].gen == i + 1
    ensures var u := UnlockWith(user, salt'.value, rows', puks);
            u.Some? && b.gen <= |u.value.list| && u.value.list[b.gen - 1] == b.key
  {
    LaterLedgerKeepsKeys(user, salt, salt', rows, rows');
    UnlockIff(user, salt', rows', puks);
  }

  /** A rotation's row is taken, adds one wrapping key, and the same passphrase still logs in. */
  lemma RotationKeepsPassphrase(user: nat, salt: Option<nat>, rows: seq<Row>, puk: SharedKey, n: Nonce,
                                key: PassphraseKey)
    requires LedgerOk(user, salt, rows) && rows != []
    ensures var rows' := rows + [MakeRow(user, Ledger(rows), rows[|rows| - 1].verifyKey, |rows| + 1, Some(puk), n)];
            && LedgerOk(user, salt, rows') && Ledger(rows') == Ledger(rows) + [n.skmwk]
            && (LoginWith(user, rows', key).Some? <==> LoginWith(user, rows, key).Some?)
  {
    var row := MakeRow(user, Ledger(rows), rows[|rows| - 1].verifyKey, |rows| + 1, Some(puk), n);
    OneMoreRow(user, salt, rows, row);
    LoginIff(user, salt, rows, key);
    LoginIff(user, salt, rows + [row], key);
  }

  // ------------------------------------------------------- managers that race

  /**
   One post by one of the user's managers. A manager works from the account as it saw
   it earlier, and others may have posted since. It may have refreshed its list of
   wrapping keys, at time `listed`, after stretching the passphrase at time `seen`.
   */
  datatype Event =
    | SetFirst(raw: nat, version: nat, salt: nat, puk: Option<SharedKey>, nonce: Nonce)
    | Change(seen: nat, listed: nat, raw: nat, version: nat, puk: Option<SharedKey>, nonce: Nonce)
    | Rotation(seen: nat, newest: SharedKey, nonce: Nonce)

  /** A change stretches a new passphrase under the account's salt; a rotation keeps the key it found. */
  ghost function NewKey(view: Account, e: Event): (k: PassphraseKey)
    requires view.rows != [] && view.salt.Some? && !e.SetFirst?
  {
    if e.Change? then PassphraseKey(e.raw, view.salt.value, e.version) else view.rows[|view.rows| - 1].verifyKey
  }

  /** The row made from one view of the generation and one, no older, of the list. */
  ghost predicate FromViews(user: nat, view: Account, list: Account, e: Event, row: Row) {
    && view.rows != [] && view.salt.Some? && !e.SetFirst?
    && row == MakeRow(user, Ledger(list.rows), NewKey(view, e), |view.rows| + 1,
                      if e.Change? then e.puk else Some(e.newest), e.nonce)
  }

  ghost predicate Posts(user: nat, us: seq<Account>, i: nat, e: Event, row: Row, salt: Option<nat>)
    requires i < |us|
  {
    match e
    case SetFirst(raw, version, s, puk, n) =>
      salt == Some(s) && row == MakeRow(user, [], PassphraseKey(raw, s, version), 1, puk, n)
    case Change(seen, listed, _, _, _, _) =>
      salt == None && seen <= listed <= i && FromViews(user, us[seen], us[listed], e, row)
    case Rotation(seen, _, _) => salt == None && seen <= i && FromViews(user, us[seen], us[seen], e, row)
  }

  ghost predicate Step(user: nat, us: seq<Account>, i: nat, e: Event)
    requires i + 1 < |us|
  {
    exists row, salt :: Posts(user, us, i, e, row, salt) && us[i + 1] == Posted(us[i], row, salt)
  }

  ghost predicate Run(user: nat, us: seq<Account>, es: seq<Event>) {
    && |us| == |es| + 1 && us[0] == Account([], None)
    && forall i {:trigger es[i]} :: 0 <= i < |es| ==> Step(user, us, i, es[i])
  }

  /** Nothing is ever taken back: rows stay, and once there are rows so does the salt. */
  lemma {:induction false} RowsOnlyGrow(user: nat, us: seq<Account>, es: seq<Event>, i: nat, n: nat)
    requires Run(user, us, es) && i <= n < |us|
    ensures us[i].rows <= us[n].rows && (us[i].rows != [] ==> us[i].salt == us[n].salt)
  {
    if i < n {
      RowsOnlyGrow(user, us, es, i, n - 1);
      var e := es[n - 1];
      var row, salt :| Posts(user, us, n - 1, e, row, salt) && us[n] == Posted(us[n - 1], row, salt);
    }
  }

  /** A post is taken exactly when nobody else has posted since the generation was seen. */
  lemma TakenIffViewIsCurrent(
    user: nat, us: seq<Account>, es: seq<Event>, n: nat, seen: nat, listed: nat, e: Event, row: Row)
    requires Run(user, us, es) && seen <= listed <= n < |us| && FromViews(user, us[seen], us[listed], e, row)
    ensures Posted(us[n], row, None) != us[n] <==> us[seen].rows == us[n].rows
    ensures us[seen].rows == us[n].rows ==>
              us[seen] == us[listed] == us[n] && Posted(us[n], row, None) == Account(us[n].rows + [row], us[n].salt)
  {
    RowsOnlyGrow(user, us, es, seen, listed);
    RowsOnlyGrow(user, us, es, listed, n);
  }

  ghost predicate AccountOk(user: nat, a: Account) {
    LedgerOk(user, a.salt, a.rows) && |Ledger(a.rows)| == |a.rows|
  }

  lemma RowFromCurrentView(user: nat, a: Account, e: Event, row: Row)
    requires AccountOk(user, a) && FromViews(user, a, a, e, row)
    ensures AccountOk(user, Account(a.rows + [row], a.salt))
  {
    OneMoreRow(user, a.salt, a.rows, row);
  }

  lemma FirstRowIsOk(user: nat, a: Account, key: PassphraseKey, puk: Option<SharedKey>, n: Nonce)
    requires AccountOk(user, a)
    ensures AccountOk(user, Posted(a, MakeRow(user, [], key, 1, puk, n), Some(key.salt)))
  {
  }

  lemma StepKeepsLedger(user: nat, us: seq<Account>, es: seq<Event>, n: nat, row: Row, salt: Option<nat>)
    requires Run(user, us, es) && n < |es| && AccountOk(user, us[n]) && Posts(user, us, n, es[n], row, salt)
    ensures AccountOk(user, Posted(us[n], row, salt))
  {
    var e := es[n];
    if e.SetFirst? {
      FirstRowIsOk(user, us[n], row.verifyKey, e.puk, e.nonce);
    } else {
      TakenIffViewIsCurrent(user, us, es, n, e.seen, if e.Change? then e.listed else e.seen, e, row);
      if us[e.seen].rows == us[n].rows { RowFromCurrentView(user, us[n], e, row); }
    }
  }

  /** In every run, however the managers' posts interleave, the ledger stays in order. */
  lemma {:induction false} RunKeepsLedger(user: nat, us: seq<Account>, es: seq<Event>, n: nat)
    requires Run(user, us, es) && n < |us|
    ensures LedgerOk(user, us[n].salt, us[n].rows) && |Ledger(us[n].rows)| == |us[n].rows|
  {
    if n > 0 {
      RunKeepsLedger(user, us, es, n - 1);
      var row, salt :| Posts(user, us, n - 1, es[n - 1], row, salt) && us[n] == Posted(us[n - 1], row, salt);
      StepKeepsLedger(user, us, es, n - 1, row, salt);
    }
  }

  /** A bundle sealed at any time of a run opens at every later time, by passphrase and by PUK. */
  lemma SealedBundleStaysOpenable(user: nat, us: seq<Account>, es: seq<Event>, i: nat, n: nat, b: Bundle,
                                  key: PassphraseKey, puks: seq<SharedKey>)
    requires Run(user, us, es) && i <= n < |us| && SealedIn(us[i].rows, b)
    requires forall j :: 0 <= j < |puks| ==> puks[j].gen == j + 1
    ensures us[n].rows != [] && us[n].salt.Some?
    ensures var last := us[n].rows[|us[n].rows| - 1];
            && (key == last.verifyKey ==>
                  var u := LoginWith(user, us[n].rows, key);
                  u.Some? && b.gen <= |u.value.0| && u.value.0[b.gen - 1] == b.key)
            && (BoxedUnder(last, puks) ==>
                  var u := UnlockWith(user, us[n].salt.value, us[n].rows, puks);
                  u.Some? && b.gen <= |u.value.list| && u.value.list[b.gen - 1] == b.key)
  {
    RowsOnlyGrow(user, us, es, i, n);
    RunKeepsLedger(user, us, es, i);
    RunKeepsLedger(user, us, es, n);
    var last := us[n].rows[|us[n].rows| - 1];
    if key == last.verifyKey {
      OldBundleOpensByPassphrase(user, us[i].salt, us[n].salt, us[i].rows, us[n].rows, b, key);
    }
    if BoxedUnder(last, puks) {
      OldBundleOpensByPuk(user, us[i].salt, us[n].salt, us[i].rows, us[n].rows, b, puks);
    }
  }
}
