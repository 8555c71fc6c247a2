/**
 * The broker endpoints: adding a broker record from a client id and secret,
 * updating a record's name and credentials, and listing the Fyers records.
 */
module BrokersController {
  import opened Wrappers
  import opened Models
  import opened Runtime
  import opened BrokerModel
  import Seqs

  /** A reply: its status code, and the records it carries when it lists or returns some. */
  datatype BrokerReply = BrokerReply(status: int, message: string, brokers: seq<BrokerDoc>)

  const MissingFields: string := "Missing required fields"
  const DuplicateClient: string := "Broker with this client ID already exists"
  const InternalError: string := "Internal server error"
  const BrokerAdded: string := "Broker added successfully"
  const BrokerNotFound: string := "Broker not found"
  const BrokerUpdated: string := "Broker updated successfully"
  const NoFyersBrokers: string := "No Fyers brokers found."
  const FyersFetched: string := "Fyers brokers fetched successfully"

  /** A body field that JavaScript treats as present: given and not empty. */
  predicate Given(field: Option<string>) {
    field.Some? && field.value != ""
  }

  /** `findOne({ "credentials.client_id": clientId })`. */
  function FindByClientId(brokers: seq<BrokerDoc>, clientId: string): (r: Option<BrokerDoc>)
    ensures r.Some? ==> r.value in brokers && "client_id" in r.value.credentials && r.value.credentials["client_id"] == clientId
    ensures r.None? <==> forall i :: 0 <= i < |brokers| ==>
      !("client_id" in brokers[i].credentials && brokers[i].credentials["client_id"] == clientId)
  {
    Seqs.Find(brokers, (b: BrokerDoc) => "client_id" in b.credentials && b.credentials["client_id"] == clientId)
  }

  /** The record `addBroker` builds: active, with only the client id and secret, and no issue date. */
  function AddedRecord(newId: Id, name: string, clientId: string, secretKey: string): (r: BrokerDoc)
    ensures r.isActive && r.brokerName == name && r.tokenIssuedAt.None?
    ensures r.credentials == map["client_id" := clientId, "secret_key" := secretKey]
  {
    NewBrokerDoc(newId, name, map["client_id" := clientId, "secret_key" := secretKey], None)
  }

  /** `addBroker`: 400 for a missing field, 409 for a known client id, then the save. */
  method AddBroker(backend: Backend, name: Option<string>, clientId: Option<string>, secretKey: Option<string>, newId: Id)
    returns (reply: BrokerReply)
    modifies backend`brokers
    ensures !Given(name) || !Given(clientId) || !Given(secretKey) ==>
      reply == BrokerReply(400, MissingFields, []) && backend.brokers == old(backend.brokers)
    ensures Given(name) && Given(clientId) && Given(secretKey) && FindByClientId(old(backend.brokers), clientId.value).Some? ==>
      reply == BrokerReply(409, DuplicateClient, []) && backend.brokers == old(backend.brokers)
    ensures Given(name) && Given(clientId) && Given(secretKey) && FindByClientId(old(backend.brokers), clientId.value).None? ==>
      var doc := AddedRecord(newId, name.value, clientId.value, secretKey.value);
      && (SaveCheck(doc).Some? ==> reply == BrokerReply(500, InternalError, []) && backend.brokers == old(backend.brokers))
      && (SaveCheck(doc).None? ==> reply == BrokerReply(201, BrokerAdded, [doc]) && backend.brokers == Upsert(old(backend.brokers), doc))
  {
    if !Given(name) || !Given(clientId) || !Given(secretKey) {
      return BrokerReply(400, MissingFields, []);
    }
    if FindByClientId(backend.brokers, clientId.value).Some? {
      return BrokerReply(409, DuplicateClient, []);
    }
    var doc := AddedRecord(newId, name.value, clientId.value, secretKey.value);
    var err := Save(backend, doc);
    if err.Some? {
      return BrokerReply(500, InternalError, []);
    }
    return BrokerReply(201, BrokerAdded, [doc]);
  }

  /**
   * The schema requires an issue date, which `addBroker` never sets, so every
   * record it builds is refused: the endpoint never answers 201.
   */
  lemma AddedRecordAlwaysRefused(newId: Id, name: string, clientId: string, secretKey: string)
    ensures SaveCheck(AddedRecord(newId, name, clientId, secretKey)) == Some(ValidationFailed)
  {
  }

  /** Even with an issue date, a Fyers record built from a client id and secret alone fails the credentials validator. */
  lemma AddedFyersRecordLacksTokens(newId: Id, clientId: string, secretKey: string, issued: int)
    ensures !CredentialsValid("fyers", AddedRecord(newId, "fyers", clientId, secretKey).credentials)
  {
    var c := AddedRecord(newId, "fyers", clientId, secretKey).credentials;
    assert !Filled(c, RequiredFields("fyers").value[0]);
  }

  /** The credentials `updateBroker` writes: only the fields given non-empty. */
  function CredentialsUpdate(clientId: Option<string>, secretKey: Option<string>): (r: map<string, string>)
    ensures "client_id" in r <==> Given(clientId)
    ensures "secret_key" in r <==> Given(secretKey)
    ensures r.Keys <= {"client_id", "secret_key"}
    ensures Given(clientId) ==> r["client_id"] == clientId.value
    ensures Given(secretKey) ==> r["secret_key"] == secretKey.value
  {
    var m: map<string, string> := map[];
    var m1 := if Given(clientId) then m["client_id" := clientId.value] else m;
    if Given(secretKey) then m1["secret_key" := secretKey.value] else m1
  }

  /** The record after `findByIdAndUpdate`: an absent name leaves the name as it was; the credentials are replaced whole. */
  function UpdatedRecord(b: BrokerDoc, name: Option<string>, clientId: Option<string>, secretKey: Option<string>): (r: BrokerDoc)
    ensures r.id == b.id && r.isActive == b.isActive && r.tokenIssuedAt == b.tokenIssuedAt
    ensures r.brokerName == (if name.Some? then name.value else b.brokerName)
    ensures r.credentials == CredentialsUpdate(clientId, secretKey)
  {
    b.(brokerName := if name.Some? then name.value else b.brokerName, credentials := CredentialsUpdate(clientId, secretKey))
  }

  /**
   * The credentials validator as `findByIdAndUpdate` runs it under
   * `runValidators`: `this` is the query, not the record, so the broker name
   * it reads is undefined. An undefined name is not `other` and has no rule
   * set, so the validator refuses, and Mongoose reports a validation error.
   */
  function UpdateValidation(credentials: map<string, string>): (r: Option<string>)
    ensures r.None? <==> ValidatorFor(QueryBrokerName, credentials)
  {
    if ValidatorFor(QueryBrokerName, credentials) then None else Some(ValidationFailed)
  }

  /** What `this.broker_name` reads in an update validator: nothing. */
  const QueryBrokerName: Option<string> := None

  /** Whatever credentials an update sets, and whatever record it targets, the update validator refuses them. */
  lemma UpdateAlwaysRefused(b: BrokerDoc, name: Option<string>, clientId: Option<string>, secretKey: Option<string>)
    ensures UpdateValidation(UpdatedRecord(b, name, clientId, secretKey).credentials) == Some(ValidationFailed)
  {
  }

  /**
   * `updateBroker`: 500 for an id that is not an ObjectId, 404 for an unknown
   * one; for a record on file the update always puts `credentials`, whose
   * validator refuses it (`UpdateAlwaysRefused`), so the catch answers 500 and
   * nothing is written.
   */
  method UpdateBroker(backend: Backend, id: string, name: Option<string>, clientId: Option<string>, secretKey: Option<string>)
    returns (reply: BrokerReply)
    ensures !IsObjectIdText(id) ==> reply == BrokerReply(500, InternalError, [])
    ensures IsObjectIdText(id) && FindBroker(backend.brokers, ObjectIdOf(id)).None? ==>
      reply == BrokerReply(404, BrokerNotFound, [])
    ensures IsObjectIdText(id) && FindBroker(backend.brokers, ObjectIdOf(id)).Some? ==>
      && UpdateValidation(UpdatedRecord(FindBroker(backend.brokers, ObjectIdOf(id)).value, name, clientId, secretKey).credentials).Some?
      && reply == BrokerReply(500, InternalError, [])
  {
    if !IsObjectIdText(id) {
      return BrokerReply(500, InternalError, []);
    }
    var existing := FindBroker(backend.brokers, ObjectIdOf(id));
    if existing.None? {
      return BrokerReply(404, BrokerNotFound, []);
    }
    var refused := UpdateValidation(UpdatedRecord(existing.value, name, clientId, secretKey).credentials);
    UpdateAlwaysRefused(existing.value, name, clientId, secretKey);
    assert refused.Some?;
    return BrokerReply(500, InternalError, []);
  }

  /** `find({ broker_name: "fyers" })`. */
  function FyersRecords(brokers: seq<BrokerDoc>): (r: seq<BrokerDoc>)
    ensures Seqs.IsSubsequence(r, brokers)
    ensures forall i :: 0 <= i < |r| ==> r[i].brokerName == "fyers"
    ensures forall i :: 0 <= i < |brokers| && brokers[i].brokerName == "fyers" ==> brokers[i] in r
    ensures forall b :: multiset(r)[b] == if b.brokerName == "fyers" then multiset(brokers)[b] else 0
  {
    Seqs.FilterIsSubsequence(brokers, (b: BrokerDoc) => b.brokerName == "fyers");
    Seqs.FilterCounts(brokers, (b: BrokerDoc) => b.brokerName == "fyers");
    Seqs.Filter(brokers, (b: BrokerDoc) => b.brokerName == "fyers")
  }

  /** `viewAllFyersBrokers`: the Fyers records in collection order, or 404 when there are none. */
  function ViewAllFyersBrokers(brokers: seq<BrokerDoc>): (r: BrokerReply)
    ensures r.status == 404 <==> forall i :: 0 <= i < |brokers| ==> brokers[i].brokerName != "fyers"
    ensures r.status == 200 || r.status == 404
    ensures r.status == 200 ==> r.brokers == FyersRecords(brokers) && r.brokers != []
  {
    var found := FyersRecords(brokers);
    if found == [] then BrokerReply(404, NoFyersBrokers, []) else BrokerReply(200, FyersFetched, found)
  }
}
