/**
 * The Fyers login flow: `fyersLogin` redirects to the brokerage's consent
 * page for a stored broker record, and `fyersCallback` exchanges the code it
 * gets back for tokens, reads the account's `fy_id`, and writes the tokens
 * into the record with that `fy_id`, or into a new record.
 */
module FyersAuthController {
  import opened Wrappers
  import opened Models
  import opened JsValues
  import opened Runtime
  import opened BrokerModel
  import Seqs
  import Text

  const AuthCodeUrl: string := "https://api-t1.fyers.in/api/v3/generate-authcode"
  const HomeUrl: string := "http://localhost:3000"
  const BrokerNotFound: string := "Broker not found"
  const MissingBrokerId: string := "Error: Missing broker_id"
  const InternalError: string := "Internal Server Error"
  const MissingCodeOrState: string := "Missing auth_code or state"
  const MissingStateBrokerId: string := "Missing broker_id in state"
  const AuthFailed: string := "Failed to complete authentication"

  /** The reply of a handler; `NoReply` when an exception escapes it and the request is left unanswered. */
  datatype AuthReply = Redirect(url: string) | Status(code: int, body: string) | NoReply

  /** `getBrokerCredentials`: the record with this id; a lookup by a non-ObjectId throws. */
  function GetBrokerCredentials(brokers: seq<BrokerDoc>, brokerId: JsValue): (r: Result<BrokerDoc>)
    ensures r.Ok? <==> IsObjectIdValue(brokerId) && FindBroker(brokers, ObjectIdOf(brokerId.s)).Some?
    ensures r.Ok? ==> r.value == FindBroker(brokers, ObjectIdOf(brokerId.s)).value
  {
    if !IsObjectIdValue(brokerId) then Err(CastFailed)
    else match FindBroker(brokers, ObjectIdOf(brokerId.s))
      case None => Err(BrokerNotFound)
      case Some(b) => Ok(b)
  }

  /** A credential as a template literal prints it: `undefined` when the record lacks it. */
  function TemplateField(credentials: map<string, string>, field: string): string {
    if field in credentials then credentials[field] else "undefined"
  }

  /** `JSON.stringify({ broker_id })` for a string id. */
  function StateText(brokerId: string): string {
    "{\"broker_id\":" + Text.JsonQuote(brokerId) + "}"
  }

  const StatePrefix: string := "{\"broker_id\":\""

  /** Reads the broker id back out of a state written by `StateText`. */
  function DecodeState(t: string): Option<string> {
    if |t| >= |StatePrefix| + 2 && t[..|StatePrefix|] == StatePrefix && t[|t| - 2..] == "\"}" then
      Text.Unescape(t[|StatePrefix|..|t| - 2])
    else None
  }

  /** The state the login sends out carries the broker id, and it reads back unchanged. */
  lemma StateRoundTrip(brokerId: string)
    ensures DecodeState(StateText(brokerId)) == Some(brokerId)
  {
    var t := StateText(brokerId);
    var e := Text.Escape(brokerId);
    assert t == StatePrefix + e + "\"}";
    assert t[..|StatePrefix|] == StatePrefix;
    assert t[|t| - 2..] == "\"}";
    assert t[|StatePrefix|..|t| - 2] == e;
    Text.EscapeRoundTrip(brokerId);
  }

  /**
   * `fyersLogin`: 400 without a broker id, 500 when the record cannot be
   * loaded, and otherwise a redirect to the consent page carrying the
   * record's client id, the redirect URL and the encoded state.
   */
  function FyersLogin(brokers: seq<BrokerDoc>, brokerId: JsValue, redirectUrl: string, encode: string -> string): (r: AuthReply)
    ensures !Truthy(brokerId) ==> r == Status(400, MissingBrokerId)
    ensures r.Redirect? <==> Truthy(brokerId) && GetBrokerCredentials(brokers, brokerId).Ok?
    ensures r.Redirect? ==>
      r.url == AuthCodeUrl + "?client_id=" + TemplateField(GetBrokerCredentials(brokers, brokerId).value.credentials, "client_id")
               + "&redirect_uri=" + redirectUrl + "&response_type=code&state=" + encode(StateText(brokerId.s))
    ensures Truthy(brokerId) && !r.Redirect? ==> r == Status(500, InternalError)
  {
    if !Truthy(brokerId) then Status(400, MissingBrokerId)
    else match GetBrokerCredentials(brokers, brokerId)
      case Err(_) => Status(500, InternalError)
      case Ok(b) =>
        var state := encode(StateText(brokerId.s));
        Redirect(AuthCodeUrl + "?client_id=" + TemplateField(b.credentials, "client_id")
                 + "&redirect_uri=" + redirectUrl + "&response_type=code&state=" + state)
  }

  /** The token endpoint's answer. */
  datatype TokenReply = TokenReply(accessToken: Option<string>, refreshToken: Option<string>)

  /**
   * The brokerage as the callback sees it: the token exchange for a record
   * and an authorisation code, and the profile's `fy_id` for a client id and
   * access token. `Err` is a failed request.
   */
  datatype AuthServices = AuthServices(
    exchange: (BrokerDoc, JsValue) -> Result<TokenReply>,
    profile: (string, string) -> Result<Option<string>>)

  function Lookup(credentials: map<string, string>, field: string): Option<string> {
    if field in credentials then Some(credentials[field]) else None
  }

  /** The object `{ fy_id, access_token, refresh_token, client_id, secret_key }`; undefined values are not stored. */
  function NewCredentials(fyId: string, accessToken: string, refreshToken: Option<string>,
                          clientId: Option<string>, secretKey: Option<string>): (r: map<string, string>)
    ensures "fy_id" in r && "access_token" in r && r["fy_id"] == fyId && r["access_token"] == accessToken
    ensures r.Keys == {"fy_id", "access_token"} + (if refreshToken.Some? then {"refresh_token"} else {})
      + (if clientId.Some? then {"client_id"} else {}) + (if secretKey.Some? then {"secret_key"} else {})
    ensures refreshToken.Some? ==> r["refresh_token"] == refreshToken.value
    ensures clientId.Some? ==> r["client_id"] == clientId.value
    ensures secretKey.Some? ==> r["secret_key"] == secretKey.value
  {
    var m := map["fy_id" := fyId, "access_token" := accessToken];
    var m1 := if refreshToken.Some? then m["refresh_token" := refreshToken.value] else m;
    var m2 := if clientId.Some? then m1["client_id" := clientId.value] else m1;
    if secretKey.Some? then m2["secret_key" := secretKey.value] else m2
  }

  /** `findOne({ "credentials.fy_id": fyId })`: the first record whose credentials carry this `fy_id`. */
  function FindByFyId(brokers: seq<BrokerDoc>, fyId: string): (r: Option<BrokerDoc>)
    ensures r.Some? ==> r.value in brokers && Lookup(r.value.credentials, "fy_id") == Some(fyId)
    ensures r.None? <==> forall i :: 0 <= i < |brokers| ==> Lookup(brokers[i].credentials, "fy_id") != Some(fyId)
  {
    Seqs.Find(brokers, (b: BrokerDoc) => Lookup(b.credentials, "fy_id") == Some(fyId))
  }

  /** The record the callback writes: the matching one with new credentials and issue time, or a new active Fyers record. */
  function CallbackRecord(brokers: seq<BrokerDoc>, fyId: string, credentials: map<string, string>, now: int, newId: Id): (r: BrokerDoc)
    ensures r.credentials == credentials && r.tokenIssuedAt == Some(now)
    ensures FindByFyId(brokers, fyId).Some? ==>
      var b := FindByFyId(brokers, fyId).value;
      r.id == b.id && r.brokerName == b.brokerName && r.isActive == b.isActive
    ensures FindByFyId(brokers, fyId).None? ==> r == BrokerDoc(newId, "fyers", true, credentials, Some(now))
  {
    match FindByFyId(brokers, fyId)
    case Some(b) => b.(credentials := credentials, tokenIssuedAt := Some(now))
    case None => NewBrokerDoc(newId, "fyers", credentials, Some(now))
  }

  /** Where the callback gets to before saving: a reply it stops with, or the record it is about to save. */
  datatype Progress = Halted(reply: AuthReply) | Write(doc: BrokerDoc)

  /** The callback up to the write: guards, token exchange, profile, and the record to save. */
  function CallbackSteps(brokers: seq<BrokerDoc>, authCode: JsValue, state: JsValue, parseState: string -> Option<JsValue>,
                         services: AuthServices, now: int, newId: Id): Progress
  {
    if !Truthy(authCode) || !Truthy(state) || !state.Str? then Halted(Status(400, MissingCodeOrState))
    else match parseState(state.s)
      case None => Halted(NoReply)
      case Some(brokerId) =>
        if !Truthy(brokerId) then Halted(Status(400, MissingStateBrokerId))
        else match GetBrokerCredentials(brokers, brokerId)
          case Err(_) => Halted(Status(500, AuthFailed))
          case Ok(record) =>
            var clientId := Lookup(record.credentials, "client_id");
            var secretKey := Lookup(record.credentials, "secret_key");
            match services.exchange(record, authCode)
            case Err(_) => Halted(Status(500, AuthFailed))
            case Ok(tokens) =>
              if tokens.accessToken.None? || tokens.accessToken.value == "" then Halted(Status(500, AuthFailed))
              else match services.profile(TemplateField(record.credentials, "client_id"), tokens.accessToken.value)
                case Err(_) => Halted(Status(500, AuthFailed))
                case Ok(fyId) =>
                  if fyId.None? || fyId.value == "" then Halted(Status(500, AuthFailed))
                  else
                    var credentials := NewCredentials(fyId.value, tokens.accessToken.value, tokens.refreshToken, clientId, secretKey);
                    Write(CallbackRecord(brokers, fyId.value, credentials, now, newId))
  }

  /** `fyersCallback`: the reply and the broker collection afterwards. */
  function Callback(brokers: seq<BrokerDoc>, authCode: JsValue, state: JsValue, parseState: string -> Option<JsValue>,
                    services: AuthServices, now: int, newId: Id): (r: (AuthReply, seq<BrokerDoc>))
    ensures r.0 != Redirect(HomeUrl) ==> r.1 == brokers
    ensures !Truthy(authCode) || !Truthy(state) || !state.Str? ==> r == (Status(400, MissingCodeOrState), brokers)
    ensures r.0 == Redirect(HomeUrl) <==>
      CallbackSteps(brokers, authCode, state, parseState, services, now, newId).Write?
      && SaveCheck(CallbackSteps(brokers, authCode, state, parseState, services, now, newId).doc).None?
    ensures r.0 == Redirect(HomeUrl) ==>
      r.1 == Upsert(brokers, CallbackSteps(brokers, authCode, state, parseState, services, now, newId).doc)
  {
    match CallbackSteps(brokers, authCode, state, parseState, services, now, newId)
    case Halted(reply) => (reply, brokers)
    case Write(doc) =>
      if SaveCheck(doc).Some? then (Status(500, AuthFailed), brokers)
      else (Redirect(HomeUrl), Upsert(brokers, doc))
  }

  /** `fyersCallback` against the store. */
  method FyersCallback(backend: Backend, authCode: JsValue, state: JsValue, parseState: string -> Option<JsValue>,
                       services: AuthServices, now: int, newId: Id) returns (reply: AuthReply)
    modifies backend`brokers
    ensures (reply, backend.brokers) == Callback(old(backend.brokers), authCode, state, parseState, services, now, newId)
  {
    var steps := CallbackSteps(backend.brokers, authCode, state, parseState, services, now, newId);
    if steps.Halted? {
      return steps.reply;
    }
    var err := Save(backend, steps.doc);
    if err.Some? {
      return Status(500, AuthFailed);
    }
    return Redirect(HomeUrl);
  }

  // ---------------------------------------------------------------------------
  // Properties

  /** The tokens and profile a callback got as far as: the access token and the `fy_id` it is about to write. */
  predicate ReachedWrite(brokers: seq<BrokerDoc>, authCode: JsValue, state: JsValue, parseState: string -> Option<JsValue>,
                         services: AuthServices, now: int, newId: Id) {
    CallbackSteps(brokers, authCode, state, parseState, services, now, newId).Write?
  }

  /** A record the callback writes always holds a non-empty access token and `fy_id`, issued now. */
  lemma WrittenRecordHasTokens(brokers: seq<BrokerDoc>, authCode: JsValue, state: JsValue, parseState: string -> Option<JsValue>,
                               services: AuthServices, now: int, newId: Id)
    requires ReachedWrite(brokers, authCode, state, parseState, services, now, newId)
    ensures var doc := CallbackSteps(brokers, authCode, state, parseState, services, now, newId).doc;
      Filled(doc.credentials, "access_token") && Filled(doc.credentials, "fy_id") && doc.tokenIssuedAt == Some(now)
  {
  }

  /** A record that is found is in the collection under its own id when ids are unique. */
  lemma FoundIsFindable(brokers: seq<BrokerDoc>, b: BrokerDoc)
    requires UniqueIds(brokers) && b in brokers
    ensures FindBroker(brokers, b.id) == Some(b)
  {
    var k :| 0 <= k < |brokers| && brokers[k] == b;
    var f := FindBroker(brokers, b.id);
    var j :| 0 <= j < |brokers| && brokers[j] == f.value;
  }

  /** The record a callback writes is the callback record for the `fy_id` it carries. */
  lemma WrittenRecord(brokers: seq<BrokerDoc>, authCode: JsValue, state: JsValue, parseState: string -> Option<JsValue>,
                      services: AuthServices, now: int, newId: Id)
    requires ReachedWrite(brokers, authCode, state, parseState, services, now, newId)
    ensures var doc := CallbackSteps(brokers, authCode, state, parseState, services, now, newId).doc;
      "fy_id" in doc.credentials && doc == CallbackRecord(brokers, doc.credentials["fy_id"], doc.credentials, now, newId)
  {
  }

  /** Writing a record under the id of one on file replaces that one and leaves the rest. */
  lemma RewriteInPlace(brokers: seq<BrokerDoc>, b: BrokerDoc, doc: BrokerDoc)
    requires UniqueIds(brokers) && b in brokers && doc.id == b.id
    ensures |Upsert(brokers, doc)| == |brokers|
    ensures FindBroker(Upsert(brokers, doc), b.id) == Some(doc)
    ensures forall id :: id != b.id ==> FindBroker(Upsert(brokers, doc), id) == FindBroker(brokers, id)
  {
    FoundIsFindable(brokers, b);
    forall id | true
      ensures FindBroker(Upsert(brokers, doc), doc.id) == Some(doc)
      ensures id != doc.id ==> FindBroker(Upsert(brokers, doc), id) == FindBroker(brokers, id)
    {
      UpsertFinds(brokers, doc, id);
    }
  }

  /**
   * A successful callback for an `fy_id` already on file rewrites that
   * record in place: same id, name and activity flag, new credentials and
   * issue time, and the collection does not grow.
   */
  lemma ExistingAccountUpdated(brokers: seq<BrokerDoc>, authCode: JsValue, state: JsValue, parseState: string -> Option<JsValue>,
                               services: AuthServices, now: int, newId: Id)
    requires UniqueIds(brokers)
    requires Callback(brokers, authCode, state, parseState, services, now, newId).0 == Redirect(HomeUrl)
    requires FindByFyId(brokers, Lookup(CallbackSteps(brokers, authCode, state, parseState, services, now, newId).doc.credentials, "fy_id").value).Some?
    ensures var doc := CallbackSteps(brokers, authCode, state, parseState, services, now, newId).doc;
      var after := Callback(brokers, authCode, state, parseState, services, now, newId).1;
      var b := FindByFyId(brokers, doc.credentials["fy_id"]).value;
      && |after| == |brokers|
      && FindBroker(after, b.id) == Some(b.(credentials := doc.credentials, tokenIssuedAt := Some(now)))
      && (forall id :: id != b.id ==> FindBroker(after, id) == FindBroker(brokers, id))
  {
    var doc := CallbackSteps(brokers, authCode, state, parseState, services, now, newId).doc;
    WrittenRecord(brokers, authCode, state, parseState, services, now, newId);
    var b := FindByFyId(brokers, doc.credentials["fy_id"]).value;
    assert doc == b.(credentials := doc.credentials, tokenIssuedAt := Some(now));
    RewriteInPlace(brokers, b, doc);
  }

  /**
   * A successful callback for an unknown `fy_id` adds exactly one record:
   * active, named `fyers`, with the new credentials, which the schema
   * validator accepts.
   */
  lemma NewAccountInserted(brokers: seq<BrokerDoc>, authCode: JsValue, state: JsValue, parseState: string -> Option<JsValue>,
                           services: AuthServices, now: int, newId: Id)
    requires UniqueIds(brokers) && FindBroker(brokers, newId).None?
    requires Callback(brokers, authCode, state, parseState, services, now, newId).0 == Redirect(HomeUrl)
    requires FindByFyId(brokers, Lookup(CallbackSteps(brokers, authCode, state, parseState, services, now, newId).doc.credentials, "fy_id").value).None?
    ensures var doc := CallbackSteps(brokers, authCode, state, parseState, services, now, newId).doc;
      var after := Callback(brokers, authCode, state, parseState, services, now, newId).1;
      && |after| == |brokers| + 1
      && FindBroker(after, newId) == Some(doc)
      && doc.brokerName == "fyers" && doc.isActive && CredentialsValid("fyers", doc.credentials)
  {
    var doc := CallbackSteps(brokers, authCode, state, parseState, services, now, newId).doc;
    UpsertSpec(brokers, doc, newId);
  }
}
