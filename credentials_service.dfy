/**
 * Exchange API credentials per organisation (src/services/exchange/CredentialsService.ts):
 * the `exchange_credentials` table, with a unique index on (organisation, exchange),
 * is a sequence of rows; secrets are stored through `Encryption`, and the exchange's
 * own validation call is an answer passed in.
 */
module Credentials {
  import opened Wrappers
  import opened Encryption

  const NotFound: string := "Credentials not found"

  /** `ExchangeCredentialsInput`. */
  datatype Input = Input(exchange: string, apiKey: string, apiSecret: string,
                         passphrase: Option<string>, isTestnet: Option<bool>)

  /** One row of the table (ids and timestamps are not modelled). */
  datatype Row = Row(organizationId: string, exchange: string, apiKeyEncrypted: string,
                     apiSecretEncrypted: string, passphraseEncrypted: Option<string>, isTestnet: bool)

  /** `ExchangeCredentialsDecrypted`. */
  datatype Decrypted = Decrypted(exchange: string, apiKey: string, apiSecret: string,
                                 passphrase: Option<string>, isTestnet: bool)

  /** The random salt and iv drawn by one `encrypt` call. */
  datatype Draw = Draw(salt: seq<byte>, iv: seq<byte>)

  predicate WellSized(d: Draw) {
    |d.salt| == SaltLength && |d.iv| == IvLength
  }

  /** What `storeCredentials` draws: a salt and an iv for each of three `encrypt` calls. */
  predicate ThreeDraws(draws: seq<Draw>) {
    |draws| == 3 && WellSized(draws[0]) && WellSized(draws[1]) && WellSized(draws[2])
  }

  predicate HasKey(r: Row, org: string, exchange: string) {
    r.organizationId == org && r.exchange == exchange
  }

  /** The unique index: no two rows share an (organisation, exchange) pair. */
  predicate Unique(rows: seq<Row>) {
    forall i, j :: 0 <= i < j < |rows| ==>
      !HasKey(rows[j], rows[i].organizationId, rows[i].exchange)
  }

  /** `select … where organization_id = org and exchange = ex limit 1`. */
  function Find(rows: seq<Row>, org: string, exchange: string): (r: Option<Row>)
    ensures r.None? <==> forall i :: 0 <= i < |rows| ==> !HasKey(rows[i], org, exchange)
    ensures r.Some? ==> r.value in rows && HasKey(r.value, org, exchange)
  {
    if rows == [] then None
    else if HasKey(rows[0], org, exchange) then Some(rows[0])
    else Find(rows[1..], org, exchange)
  }

  /** `update … set … where organization_id = org and exchange = ex`. */
  function UpdateWhere(rows: seq<Row>, org: string, exchange: string, updated: Row): (r: seq<Row>)
    requires HasKey(updated, org, exchange)
    ensures |r| == |rows|
    ensures forall i :: 0 <= i < |rows| ==>
      r[i] == (if HasKey(rows[i], org, exchange) then updated else rows[i])
  {
    if rows == [] then []
    else [if HasKey(rows[0], org, exchange) then updated else rows[0]] + UpdateWhere(rows[1..], org, exchange, updated)
  }

  /** `delete … where organization_id = org and exchange = ex`. */
  function DeleteWhere(rows: seq<Row>, org: string, exchange: string): (r: seq<Row>)
    ensures forall x :: x in r <==> x in rows && !HasKey(x, org, exchange)
    ensures |r| <= |rows|
  {
    if rows == [] then []
    else (if HasKey(rows[0], org, exchange) then [] else [rows[0]]) + DeleteWhere(rows[1..], org, exchange)
  }

  /** `credentials.passphrase ? … : null`: an empty passphrase is not kept. */
  function StoredPassphrase(p: Option<string>): (r: Option<string>)
    ensures r.Some? <==> p.Some? && p.value != ""
    ensures r.Some? ==> r == p
  {
    if p.Some? && p.value != "" then p else None
  }

  /** The three `encrypt` calls of `storeCredentials`, in order; the passphrase is
      encrypted only when it is truthy. */
  function Seal(input: Input, env: Option<string>, p: Primitives, draws: seq<Draw>): (r: Result<(string, string, Option<string>)>)
    requires ThreeDraws(draws)
    ensures WellBehaved(p) ==> (r.Ok? <==> Key(env, p).Ok?)
    ensures r.Ok? ==> (r.value.2.Some? <==> StoredPassphrase(input.passphrase).Some?)
  {
    var key := Encrypt(env, p, draws[0].salt, draws[0].iv, input.apiKey);
    if key.Err? then Err(key.error)
    else
      // every call reads the same key, so the later calls succeed once the first has
      var secret := Encrypt(env, p, draws[1].salt, draws[1].iv, input.apiSecret).value;
      if StoredPassphrase(input.passphrase).None? then Ok((key.value, secret, None))
      else
        var phrase := Encrypt(env, p, draws[2].salt, draws[2].iv, input.passphrase.value).value;
        Ok((key.value, secret, Some(phrase)))
  }

  /** `getCredentials` on the table: `None` when there is no row; the passphrase
      is decrypted only when one is stored. */
  function Open(rows: seq<Row>, org: string, exchange: string, env: Option<string>, p: Primitives): (r: Result<Option<Decrypted>>)
    ensures Find(rows, org, exchange).None? ==> r == Ok(None)
    ensures r.Ok? && r.value.Some? ==>
      var row := Find(rows, org, exchange).value;
      r.value.value.exchange == row.exchange && r.value.value.isTestnet == row.isTestnet
      && (r.value.value.passphrase.Some? <==> row.passphraseEncrypted.Some? && row.passphraseEncrypted.value != "")
  {
    match Find(rows, org, exchange)
    case None => Ok(None)
    case Some(row) =>
      var apiKey := Decrypt(env, p, row.apiKeyEncrypted);
      if apiKey.Err? then Err(apiKey.error)
      else
        var apiSecret := Decrypt(env, p, row.apiSecretEncrypted);
        if apiSecret.Err? then Err(apiSecret.error)
        else if row.passphraseEncrypted.None? || row.passphraseEncrypted.value == "" then
          Ok(Some(Decrypted(row.exchange, apiKey.value, apiSecret.value, None, row.isTestnet)))
        else
          var phrase := Decrypt(env, p, row.passphraseEncrypted.value);
          if phrase.Err? then Err(phrase.error)
          else Ok(Some(Decrypted(row.exchange, apiKey.value, apiSecret.value, Some(phrase.value), row.isTestnet)))
  }

  predicate Lists(row: Row, org: string, e: string, t: bool) {
    row.organizationId == org && row.exchange == e && row.isTestnet == t
  }

  /** `listCredentials(org)`: exchange and testnet flag of each of the organisation's rows. */
  function Listed(rows: seq<Row>, org: string): (r: seq<(string, bool)>)
    ensures forall e, t :: (e, t) in r <==> exists i :: 0 <= i < |rows| && Lists(rows[i], org, e, t)
  {
    if rows == [] then []
    else
      var rest := Listed(rows[1..], org);
      assert forall i :: 0 < i < |rows| ==> rows[i] == rows[1..][i - 1];
      (if rows[0].organizationId == org then [(rows[0].exchange, rows[0].isTestnet)] else []) + rest
  }

  /** `validateCredentials`: an empty key or secret is refused before the exchange is
      asked; `answer` is the exchange's verdict, `None` when the call throws. */
  function Validate(input: Input, answer: Option<bool>): (r: (bool, bool))
    ensures r.1 <==> input.apiKey != "" && input.apiSecret != ""
    ensures r.0 ==> r.1 && answer == Some(true)
    ensures r.1 && answer == Some(true) ==> r.0
  {
    if input.apiKey == "" || input.apiSecret == "" then (false, false)
    else (answer.GetOr(false), true)
  }

  class CredentialsService {
    var rows: seq<Row>
    var organizations: set<string>

    constructor()
      ensures rows == [] && organizations == {}
    {
      rows := [];
      organizations := {};
    }

    /** `storeCredentials`: the organisation is ensured first; the secrets are
        encrypted; then the existing row is updated, or a new one inserted. */
    method StoreCredentials(org: string, exchange: string, input: Input,
                            env: Option<string>, p: Primitives, draws: seq<Draw>) returns (r: Outcome)
      requires Unique(rows)
      requires ThreeDraws(draws)
      modifies this
      ensures Unique(rows)
      ensures organizations == old(organizations) + {org}
      ensures r.Fail? <==> Seal(input, env, p, draws).Err?
      ensures r.Fail? ==> rows == old(rows)
      ensures r.Pass? ==>
        var sealed := Seal(input, env, p, draws).value;
        Find(rows, org, exchange) == Some(Row(org, exchange, sealed.0, sealed.1, sealed.2, input.isTestnet.GetOr(false)))
      ensures r.Pass? ==> forall o, e :: (o, e) != (org, exchange) ==> Find(rows, o, e) == Find(old(rows), o, e)
      ensures r.Pass? ==> |rows| == |old(rows)| + (if Find(old(rows), org, exchange).Some? then 0 else 1)
    {
      organizations := organizations + {org};
      var sealed := Seal(input, env, p, draws);
      if sealed.Err? {
        return Fail(sealed.error);
      }
      var (apiKeyEncrypted, apiSecretEncrypted, passphraseEncrypted) := sealed.value;
      var updated := Row(org, exchange, apiKeyEncrypted, apiSecretEncrypted, passphraseEncrypted, input.isTestnet.GetOr(false));
      var existing := Find(rows, org, exchange);
      if existing.Some? {
        UpdateKeepsRows(rows, org, exchange, updated);
        rows := UpdateWhere(rows, org, exchange, updated);
      } else {
        InsertKeepsRows(rows, updated);
        rows := rows + [updated];
      }
      r := Pass;
    }

    /** `getCredentials`. */
    function GetCredentials(org: string, exchange: string, env: Option<string>, p: Primitives): (r: Result<Option<Decrypted>>)
      reads this
      ensures (forall i :: 0 <= i < |rows| ==> !HasKey(rows[i], org, exchange)) ==> r == Ok(None)
    {
      Open(rows, org, exchange, env, p)
    }

    /** `deleteCredentials`: refused when there is no such row; otherwise the
        organisation's row for that exchange goes and nothing else. */
    method DeleteCredentials(org: string, exchange: string) returns (r: Outcome)
      requires Unique(rows)
      modifies this`rows
      ensures Unique(rows)
      ensures r.Fail? <==> Find(old(rows), org, exchange).None?
      ensures r.Fail? ==> r == Fail(NotFound) && rows == old(rows)
      ensures Find(rows, org, exchange).None?
      ensures forall o, e :: (o, e) != (org, exchange) ==> Find(rows, o, e) == Find(old(rows), o, e)
    {
      if Find(rows, org, exchange).None? {
        return Fail(NotFound);
      }
      DeleteKeepsRows(rows, org, exchange);
      rows := DeleteWhere(rows, org, exchange);
      r := Pass;
    }

    /** `listCredentials`. */
    function ListCredentials(org: string): (r: seq<(string, bool)>)
      reads this
      ensures forall e, t :: (e, t) in r <==> exists i :: 0 <= i < |rows| && Lists(rows[i], org, e, t)
    {
      Listed(rows, org)
    }
  }

  /** Under the unique index, a lookup finds the row with that key wherever it is. */
  lemma {:induction false} FindUnique(rows: seq<Row>, k: nat)
    requires Unique(rows) && k < |rows|
    ensures Find(rows, rows[k].organizationId, rows[k].exchange) == Some(rows[k])
  {
    if k > 0 {
      assert !HasKey(rows[k], rows[0].organizationId, rows[0].exchange);
      assert rows[1..][k - 1] == rows[k];
      FindUnique(rows[1..], k - 1);
    }
  }

  /** Lookups under other keys see an update as if nothing had happened, and the key
      updated finds the updated row. */
  lemma UpdateKeepsRows(rows: seq<Row>, org: string, exchange: string, updated: Row)
    requires Unique(rows) && HasKey(updated, org, exchange) && Find(rows, org, exchange).Some?
    ensures Unique(UpdateWhere(rows, org, exchange, updated))
    ensures Find(UpdateWhere(rows, org, exchange, updated), org, exchange) == Some(updated)
    ensures forall o, e :: (o, e) != (org, exchange) ==>
      Find(UpdateWhere(rows, org, exchange, updated), o, e) == Find(rows, o, e)
  {
    var r := UpdateWhere(rows, org, exchange, updated);
    UpdateKeepsUnique(rows, org, exchange, updated);
    forall o, e | (o, e) != (org, exchange)
      ensures Find(r, o, e) == Find(rows, o, e)
    {
      FindPointwise(rows, r, o, e);
    }
    var k :| 0 <= k < |rows| && HasKey(rows[k], org, exchange);
    assert r[k] == updated;
    FindUnique(r, k);
  }

  /** An update replaces rows by rows of the same key, so the index stays unique. */
  lemma UpdateKeepsUnique(rows: seq<Row>, org: string, exchange: string, updated: Row)
    requires Unique(rows) && HasKey(updated, org, exchange)
    ensures Unique(UpdateWhere(rows, org, exchange, updated))
  {
    var r := UpdateWhere(rows, org, exchange, updated);
    forall i, j | 0 <= i < j < |r|
      ensures !HasKey(r[j], r[i].organizationId, r[i].exchange)
    {
      assert HasKey(r[i], rows[i].organizationId, rows[i].exchange);
      assert HasKey(r[j], rows[j].organizationId, rows[j].exchange);
      assert !HasKey(rows[j], rows[i].organizationId, rows[i].exchange);
    }
  }

  /** Two tables of one length that hold rows with key (o, e) at the same places, and
      the same rows there, look alike to a lookup of (o, e). */
  lemma {:induction false} FindPointwise(a: seq<Row>, b: seq<Row>, o: string, e: string)
    requires |a| == |b|
    requires forall i :: 0 <= i < |a| ==> (HasKey(a[i], o, e) <==> HasKey(b[i], o, e))
    requires forall i :: 0 <= i < |a| && HasKey(a[i], o, e) ==> a[i] == b[i]
    ensures Find(a, o, e) == Find(b, o, e)
  {
    if a != [] {
      FindPointwise(a[1..], b[1..], o, e);
    }
  }

  lemma InsertKeepsRows(rows: seq<Row>, updated: Row)
    requires Unique(rows) && Find(rows, updated.organizationId, updated.exchange).None?
    ensures Unique(rows + [updated])
    ensures Find(rows + [updated], updated.organizationId, updated.exchange) == Some(updated)
    ensures forall o, e :: (o, e) != (updated.organizationId, updated.exchange) ==>
      Find(rows + [updated], o, e) == Find(rows, o, e)
  {
    FindUnique(rows + [updated], |rows|);
    forall o, e | (o, e) != (updated.organizationId, updated.exchange)
      ensures Find(rows + [updated], o, e) == Find(rows, o, e)
    {
      FindAppendOther(rows, updated, o, e);
    }
  }

  lemma {:induction false} FindAppendOther(rows: seq<Row>, x: Row, o: string, e: string)
    requires !HasKey(x, o, e)
    ensures Find(rows + [x], o, e) == Find(rows, o, e)
  {
    if rows != [] {
      assert (rows + [x])[1..] == rows[1..] + [x];
      FindAppendOther(rows[1..], x, o, e);
    }
  }

  lemma DeleteKeepsRows(rows: seq<Row>, org: string, exchange: string)
    requires Unique(rows)
    ensures Unique(DeleteWhere(rows, org, exchange))
    ensures Find(DeleteWhere(rows, org, exchange), org, exchange).None?
    ensures forall o, e :: (o, e) != (org, exchange) ==>
      Find(DeleteWhere(rows, org, exchange), o, e) == Find(rows, o, e)
  {
    DeleteSub(rows, org, exchange);
    forall o, e | (o, e) != (org, exchange)
      ensures Find(DeleteWhere(rows, org, exchange), o, e) == Find(rows, o, e)
    {
      DeleteOther(rows, org, exchange, o, e);
    }
  }

  lemma {:induction false} DeleteSub(rows: seq<Row>, org: string, exchange: string)
    requires Unique(rows)
    ensures Unique(DeleteWhere(rows, org, exchange))
  {
    if rows != [] {
      DeleteSub(rows[1..], org, exchange);
      var rest := DeleteWhere(rows[1..], org, exchange);
      forall x | x in rest ensures !HasKey(x, rows[0].organizationId, rows[0].exchange) {
        var j :| 0 <= j < |rows[1..]| && rows[1..][j] == x;
        assert rows[j + 1] == x;
      }
    }
  }

  lemma {:induction false} DeleteOther(rows: seq<Row>, org: string, exchange: string, o: string, e: string)
    requires (o, e) != (org, exchange)
    ensures Find(DeleteWhere(rows, org, exchange), o, e) == Find(rows, o, e)
  {
    if rows != [] {
      DeleteOther(rows[1..], org, exchange, o, e);
      var rest := DeleteWhere(rows[1..], org, exchange);
      if !HasKey(rows[0], org, exchange) {
        assert DeleteWhere(rows, org, exchange) == [rows[0]] + rest;
        assert ([rows[0]] + rest)[1..] == rest;
      } else {
        assert DeleteWhere(rows, org, exchange) == rest;
      }
    }
  }

  /** `get` after a successful `store` gives back what was stored: the key, the
      secret, the passphrase unless it was empty, and the testnet flag (false when
      not given), whether the row was inserted or updated. */
  lemma StoreThenGet(rows: seq<Row>, org: string, exchange: string, input: Input,
                     env: Option<string>, p: Primitives, draws: seq<Draw>, after: seq<Row>)
    requires WellBehaved(p) && Key(env, p).Ok?
    requires ThreeDraws(draws)
    requires Seal(input, env, p, draws).Ok?
    requires var s := Seal(input, env, p, draws).value;
      Find(after, org, exchange) == Some(Row(org, exchange, s.0, s.1, s.2, input.isTestnet.GetOr(false)))
    ensures Open(after, org, exchange, env, p) ==
      Ok(Some(Decrypted(exchange, input.apiKey, input.apiSecret,
                        StoredPassphrase(input.passphrase), input.isTestnet.GetOr(false))))
  {
    DecryptEncrypt(env, p, draws[0].salt, draws[0].iv, input.apiKey);
    DecryptEncrypt(env, p, draws[1].salt, draws[1].iv, input.apiSecret);
    if StoredPassphrase(input.passphrase).Some? {
      DecryptEncrypt(env, p, draws[2].salt, draws[2].iv, input.passphrase.value);
      var s := Seal(input, env, p, draws).value;
      assert s.2.value != "" by {
        assert |s.2.value| == 2 * (SaltLength + IvLength + |p.utf8Encode(input.passphrase.value)| + TagLength);
      }
    }
  }
}
