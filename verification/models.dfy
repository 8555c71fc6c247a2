/**
 * The stored documents of the backend (strategies, instruments, broker
 * credential records), the two string enumerations the schemas validate
 * against, and MongoDB object ids.
 */
module Models {
  import opened Wrappers
  import Text

  // ---------------------------------------------------------------------------
  // Object ids

  /** A document id: the 24 lower-case hexadecimal digits of a MongoDB ObjectId. */
  type Id = string

  predicate IsHexChar(c: char) { Text.IsDigit(c) || 'a' <= c <= 'f' || 'A' <= c <= 'F' }

  /** `ObjectId.isValid` on a string, restricted to the 24-digit hexadecimal form. */
  predicate IsObjectIdText(s: string) {
    |s| == 24 && forall i :: 0 <= i < |s| ==> IsHexChar(s[i])
  }

  /** The id `new ObjectId(s)` denotes: its hexadecimal digits in lower case. */
  function ObjectIdOf(s: string): (r: Id)
    requires IsObjectIdText(s)
    ensures IsObjectIdText(r) && |r| == 24
    ensures forall i :: 0 <= i < 24 ==> !Text.IsUpper(r[i])
  {
    Text.ToLower(s)
  }

  /** An id already in canonical form is its own ObjectId, so `_id.toString()` round-trips. */
  lemma ObjectIdOfCanonical(s: string)
    requires IsObjectIdText(s)
    ensures ObjectIdOf(ObjectIdOf(s)) == ObjectIdOf(s)
  {
    Text.ToLowerIdempotent(s);
  }

  // ---------------------------------------------------------------------------
  // Enumerations

  /** `StrategyStatus`: the values the strategy schema's `status` field admits. */
  datatype StrategyStatus = Running | Stopped

  function StatusName(s: StrategyStatus): string {
    match s
    case Running => "running"
    case Stopped => "stopped"
  }

  /** `Object.values(StrategyStatus).includes(t)`, giving the member it names. */
  function ParseStatus(t: string): (r: Option<StrategyStatus>)
    ensures r.Some? <==> t == "running" || t == "stopped"
  {
    if t == "running" then Some(Running) else if t == "stopped" then Some(Stopped) else None
  }

  /** Status names and statuses are in one-to-one correspondence. */
  lemma StatusNameRoundTrip(s: StrategyStatus, t: string)
    ensures ParseStatus(StatusName(s)) == Some(s)
    ensures ParseStatus(t) == Some(s) ==> t == StatusName(s)
  {
  }

  /** `BrokersAvailable`: the one broker a strategy may name. */
  const FyersName: string := "fyers"

  predicate IsAvailableBroker(t: string) { t == FyersName }

  // ---------------------------------------------------------------------------
  // Documents

  /** A stored strategy; `rollOverOn` is a date in milliseconds or null. */
  datatype Strategy = Strategy(
    id: Id,
    name: string,
    description: string,
    symbol: Id,
    status: StrategyStatus,
    rollOverOn: Option<int>,
    broker: string)

  /**
   * A stored instrument. `underlying` and `exchange` are absent when the feed
   * had no underlying symbol or an exchange code outside the known three.
   */
  datatype Instrument = Instrument(
    id: Id,
    fyersSymbol: string,
    underlying: Option<string>,
    expiry: int,
    instrumentType: string,
    exToken: string,
    exchange: Option<string>,
    exSymName: string)

  /** A stored broker credential record. */
  datatype BrokerDoc = BrokerDoc(
    id: Id,
    brokerName: string,
    isActive: bool,
    credentials: map<string, string>,
    tokenIssuedAt: Option<int>)

  /** A JavaScript `a || b` on an optional string: the fallback replaces absent and empty values. */
  function OrElse(o: Option<string>, fallback: string): (r: string)
    ensures r == fallback || (o == Some(r) && r != "")
    ensures o.Some? && o.value != "" ==> r == o.value
  {
    if o.Some? && o.value != "" then o.value else fallback
  }

  /** The error a query raises when given an id that is not an ObjectId. */
  const CastFailed: string := "Cast to ObjectId failed"

  /** The error `new ObjectId(s)` raises for a string that is not an ObjectId. */
  const BsonInvalidId: string := "input must be a 24 character hex string, 12 byte Uint8Array, or an integer"
}
