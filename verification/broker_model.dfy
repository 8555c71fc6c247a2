/**
 * The broker credential schema: which credential fields each broker type
 * requires, the schema validator that checks them, the pre-save type guards,
 * and what saving a record does to the broker collection.
 */
module BrokerModel {
  import opened Wrappers
  import opened Models
  import opened Runtime

  const BrokerNames: seq<string> := ["fyers", "angelone", "zerodha", "other"]

  /** The credential fields the validator requires of each broker type; none for an unlisted type. */
  function RequiredFields(brokerName: string): (r: Option<seq<string>>)
    ensures brokerName == "fyers" ==> r == Some(["fy_id", "access_token", "refresh_token", "client_id", "secret_key"])
    ensures brokerName == "angelone" ==> r == Some(["api_key", "api_token", "app_id"])
    ensures brokerName == "zerodha" ==> r == Some(["api_key", "api_secret", "access_token", "user_id"])
    ensures r.Some? <==> brokerName in ["fyers", "angelone", "zerodha"]
  {
    if brokerName == "fyers" then Some(["fy_id", "access_token", "refresh_token", "client_id", "secret_key"])
    else if brokerName == "angelone" then Some(["api_key", "api_token", "app_id"])
    else if brokerName == "zerodha" then Some(["api_key", "api_secret", "access_token", "user_id"])
    else None
  }

  /** A credential field holding a non-empty string. */
  predicate Filled(credentials: map<string, string>, field: string) {
    field in credentials && credentials[field] != ""
  }

  /** The schema validator of `credentials`. */
  predicate CredentialsValid(brokerName: string, credentials: map<string, string>) {
    if brokerName == "other" then true
    else match RequiredFields(brokerName)
      case None => false
      case Some(fields) => forall i :: 0 <= i < |fields| ==> Filled(credentials, fields[i])
  }

  /**
   * The credentials validator for the broker name it reads from `this`:
   * `None` when that name is undefined, which is neither `other` nor a name
   * with a rule set, so the validator refuses.
   */
  predicate ValidatorFor(brokerName: Option<string>, credentials: map<string, string>) {
    match brokerName
    case None => false
    case Some(name) => CredentialsValid(name, credentials)
  }

  /** `isFyersCredentials`, `isAngelOneCredentials`, `isZerodhaCredentials`: key presence only. */
  predicate IsFyersCredentials(c: map<string, string>) {
    "fy_id" in c && "access_token" in c && "refresh_token" in c && "client_id" in c && "secret_key" in c
  }

  predicate IsAngelOneCredentials(c: map<string, string>) {
    "api_key" in c && "api_token" in c && "app_id" in c
  }

  predicate IsZerodhaCredentials(c: map<string, string>) {
    "api_key" in c && "api_secret" in c && "access_token" in c && "user_id" in c
  }

  /** The pre-save hook: the error it raises for a record of a listed type whose guard fails. */
  function PreSaveCheck(brokerName: string, credentials: map<string, string>): (r: Option<string>)
    ensures r.Some? ==> brokerName in ["fyers", "angelone", "zerodha"]
  {
    if brokerName == "fyers" then
      (if IsFyersCredentials(credentials) then None else Some("Invalid Fyers credentials format"))
    else if brokerName == "angelone" then
      (if IsAngelOneCredentials(credentials) then None else Some("Invalid Angel One credentials format"))
    else if brokerName == "zerodha" then
      (if IsZerodhaCredentials(credentials) then None else Some("Invalid Zerodha credentials format"))
    else None
  }

  /** The message Mongoose gives a document that fails schema validation. */
  const ValidationFailed: string := "BrokerCredentials validation failed"

  /**
   * Whether `save()` accepts a record: schema validation (the broker-name enum,
   * a required issue date, the credentials validator) runs first, then the
   * pre-save hook.
   */
  function SaveCheck(doc: BrokerDoc): (r: Option<string>)
    ensures r.None? ==> doc.brokerName in BrokerNames && doc.tokenIssuedAt.Some?
    ensures r.None? ==> CredentialsValid(doc.brokerName, doc.credentials)
  {
    if doc.brokerName !in BrokerNames || doc.tokenIssuedAt.None? || !CredentialsValid(doc.brokerName, doc.credentials)
    then Some(ValidationFailed)
    else PreSaveCheck(doc.brokerName, doc.credentials)
  }

  /** Records of type `other` pass the validator whatever their credentials. */
  lemma OtherAlwaysValid(c: map<string, string>)
    ensures CredentialsValid("other", c)
  {
  }

  /** A broker name without a rule set (and not `other`) is always rejected by the validator. */
  lemma UnlistedNameRejected(name: string, c: map<string, string>)
    requires name !in BrokerNames
    ensures !CredentialsValid(name, c)
  {
  }

  /** The validator is stronger than the pre-save guard: credentials it accepts always pass the hook. */
  lemma ValidatorImpliesGuard(name: string, c: map<string, string>)
    requires CredentialsValid(name, c)
    ensures PreSaveCheck(name, c) == None
  {
    if name == "fyers" {
      var f := RequiredFields(name).value;
      assert Filled(c, f[0]) && Filled(c, f[1]) && Filled(c, f[2]) && Filled(c, f[3]) && Filled(c, f[4]);
    } else if name == "angelone" {
      var f := RequiredFields(name).value;
      assert Filled(c, f[0]) && Filled(c, f[1]) && Filled(c, f[2]);
    } else if name == "zerodha" {
      var f := RequiredFields(name).value;
      assert Filled(c, f[0]) && Filled(c, f[1]) && Filled(c, f[2]) && Filled(c, f[3]);
    }
  }

  /** The guards check presence only: a Fyers record with every key present but empty passes the hook and fails the validator. */
  lemma GuardAdmitsEmptyFields()
    ensures var c := map["fy_id" := "", "access_token" := "", "refresh_token" := "", "client_id" := "", "secret_key" := ""];
      PreSaveCheck("fyers", c) == None && !CredentialsValid("fyers", c)
  {
    var c := map["fy_id" := "", "access_token" := "", "refresh_token" := "", "client_id" := "", "secret_key" := ""];
    assert !Filled(c, RequiredFields("fyers").value[0]);
  }

  /** Any record the hook refuses has already been refused by the validator, so the hook's messages never surface. */
  lemma PreSaveMessagesUnreachable(doc: BrokerDoc)
    ensures SaveCheck(doc) == None || SaveCheck(doc) == Some(ValidationFailed)
  {
    if SaveCheck(doc) != Some(ValidationFailed) {
      ValidatorImpliesGuard(doc.brokerName, doc.credentials);
    }
  }

  /** `is_active` defaults to true: a record built without it is active. */
  function NewBrokerDoc(id: Id, brokerName: string, credentials: map<string, string>, tokenIssuedAt: Option<int>): (r: BrokerDoc)
    ensures r.isActive
    ensures r.id == id && r.brokerName == brokerName && r.credentials == credentials && r.tokenIssuedAt == tokenIssuedAt
  {
    BrokerDoc(id, brokerName, true, credentials, tokenIssuedAt)
  }

  // ---------------------------------------------------------------------------
  // The collection

  /** No two records share an id. */
  predicate UniqueIds(brokers: seq<BrokerDoc>) {
    forall i, j :: 0 <= i < j < |brokers| ==> brokers[i].id != brokers[j].id
  }

  /** The collection after a record is written: it replaces the record with its id, or is appended. */
  function Upsert(brokers: seq<BrokerDoc>, doc: BrokerDoc): (r: seq<BrokerDoc>)
    ensures |r| == |brokers| + (if FindBroker(brokers, doc.id).None? then 1 else 0)
    decreases |brokers|
  {
    if brokers == [] then [doc]
    else if brokers[0].id == doc.id then [doc] + brokers[1..]
    else [brokers[0]] + Upsert(brokers[1..], doc)
  }

  /** After a write the record is found under its id, every other record is unchanged, and ids stay unique. */
  lemma UpsertSpec(brokers: seq<BrokerDoc>, doc: BrokerDoc, other: Id)
    requires UniqueIds(brokers)
    ensures UniqueIds(Upsert(brokers, doc))
    ensures FindBroker(Upsert(brokers, doc), doc.id) == Some(doc)
    ensures other != doc.id ==> FindBroker(Upsert(brokers, doc), other) == FindBroker(brokers, other)
  {
    UpsertKeepsUnique(brokers, doc);
    UpsertFinds(brokers, doc, other);
  }

  /** A write keeps the ids unique. */
  lemma {:induction false} UpsertKeepsUnique(brokers: seq<BrokerDoc>, doc: BrokerDoc)
    requires UniqueIds(brokers)
    ensures UniqueIds(Upsert(brokers, doc))
    decreases |brokers|
  {
    var r := Upsert(brokers, doc);
    if brokers != [] && brokers[0].id != doc.id {
      var rest := brokers[1..];
      UpsertKeepsUnique(rest, doc);
      assert r[1..] == Upsert(rest, doc);
      forall i | 0 < i < |r| ensures r[i].id != brokers[0].id {
        var x := r[i];
        assert x in Upsert(rest, doc);
        if x.id != doc.id {
          UpsertMembers(rest, doc, x);
          var k :| 0 <= k < |rest| && rest[k] == x;
          assert brokers[k + 1] == x;
        }
      }
    } else if brokers != [] {
      assert r[1..] == brokers[1..];
      forall i | 0 < i < |r| ensures r[i].id != doc.id {
        assert r[i] == brokers[i];
      }
    }
  }

  /** After a write the lookup by the record's id gives the record, and a lookup by any other id is unchanged. */
  lemma {:induction false} UpsertFinds(brokers: seq<BrokerDoc>, doc: BrokerDoc, other: Id)
    ensures FindBroker(Upsert(brokers, doc), doc.id) == Some(doc)
    ensures other != doc.id ==> FindBroker(Upsert(brokers, doc), other) == FindBroker(brokers, other)
    decreases |brokers|
  {
    var r := Upsert(brokers, doc);
    if brokers != [] && brokers[0].id != doc.id {
      UpsertFinds(brokers[1..], doc, other);
      assert r[1..] == Upsert(brokers[1..], doc);
    } else if brokers != [] {
      assert r[1..] == brokers[1..];
    }
  }

  /** A record in the written collection is the new one or was there before. */
  lemma {:induction false} UpsertMembers(brokers: seq<BrokerDoc>, doc: BrokerDoc, x: BrokerDoc)
    requires x in Upsert(brokers, doc)
    ensures x == doc || exists k :: 0 <= k < |brokers| && brokers[k] == x
    decreases |brokers|
  {
    if brokers != [] && brokers[0].id != doc.id && x != brokers[0] {
      assert x in Upsert(brokers[1..], doc);
      UpsertMembers(brokers[1..], doc, x);
      if x != doc {
        var k :| 0 <= k < |brokers[1..]| && brokers[1..][k] == x;
        assert brokers[k + 1] == x;
      }
    } else if brokers != [] && brokers[0].id == doc.id && x != doc {
      var r := Upsert(brokers, doc);
      var i :| 0 <= i < |r| && r[i] == x;
      assert brokers[i] == x;
    }
  }

  /** `doc.save()`: writes the record when validation and the hook accept it, and reports the error otherwise. */
  method Save(backend: Backend, doc: BrokerDoc) returns (err: Option<string>)
    modifies backend`brokers
    ensures err == SaveCheck(doc)
    ensures backend.brokers == if err.None? then Upsert(old(backend.brokers), doc) else old(backend.brokers)
  {
    err := SaveCheck(doc);
    if err.None? {
      backend.brokers := Upsert(backend.brokers, doc);
    }
  }
}
