/**
 * Resolving the brokerage adapter for a strategy: strategy, then the broker
 * record the strategy names, then an adapter built from that record's
 * credentials. Every failure, thrown or not, ends in "no adapter".
 */
module BrokerResolution {
  import opened Wrappers
  import opened Models
  import opened Fyers
  import opened Runtime

  /** A credential field, or the empty string when the record lacks it. */
  function Credential(credentials: map<string, string>, field: string): string {
    if field in credentials then credentials[field] else ""
  }

  /** `Model.findById(id)` on a string: an id that is not an ObjectId makes the query throw. */
  function FindStrategy(strategies: map<Id, Strategy>, id: string): (r: Result<Option<Strategy>>)
    ensures r.Err? <==> !IsObjectIdText(id)
    ensures r.Err? ==> r.error == CastFailed
    ensures r.Ok? ==> (r.value.Some? <==> ObjectIdOf(id) in strategies)
    ensures r.Ok? && r.value.Some? ==> r.value.value == strategies[ObjectIdOf(id)]
  {
    if !IsObjectIdText(id) then Err(CastFailed)
    else if ObjectIdOf(id) in strategies then Ok(Some(strategies[ObjectIdOf(id)]))
    else Ok(None)
  }

  /** `getBrokerInstance`: never throws; `None` stands for its `null`. */
  function GetBrokerInstance(strategies: map<Id, Strategy>, brokers: seq<BrokerDoc>, strategyId: string): (r: Option<FyersBroker>)
    ensures r.Some? <==>
      IsObjectIdText(strategyId) && ObjectIdOf(strategyId) in strategies
      && var s := strategies[ObjectIdOf(strategyId)];
         IsObjectIdText(s.broker) && FindBroker(brokers, ObjectIdOf(s.broker)).Some?
         && var b := FindBroker(brokers, ObjectIdOf(s.broker)).value;
            b.brokerName == "fyers"
            && Credential(b.credentials, "client_id") != "" && Credential(b.credentials, "access_token") != ""
    ensures r.Some? ==>
      var b := FindBroker(brokers, ObjectIdOf(strategies[ObjectIdOf(strategyId)].broker)).value;
      r.value.appId == b.credentials["client_id"] && r.value.accessToken == b.credentials["access_token"]
  {
    match FindStrategy(strategies, strategyId)
    case Err(_) => None
    case Ok(None) => None
    case Ok(Some(s)) =>
      if !IsObjectIdText(s.broker) then None
      else match FindBroker(brokers, ObjectIdOf(s.broker))
        case None => None
        case Some(b) =>
          if b.brokerName != "fyers" then None
          else match NewFyersBroker(Credential(b.credentials, "client_id"), Credential(b.credentials, "access_token"))
            case Err(_) => None
            case Ok(adapter) => Some(adapter)
  }

  /** The record with every record's activity flag replaced. */
  function WithActivity(brokers: seq<BrokerDoc>, active: bool): (r: seq<BrokerDoc>)
    ensures |r| == |brokers|
    ensures forall i :: 0 <= i < |r| ==> r[i] == brokers[i].(isActive := active)
  {
    seq(|brokers|, i requires 0 <= i < |brokers| => brokers[i].(isActive := active))
  }

  /** `is_active` is never consulted: deactivating every record changes no resolution. */
  lemma ActivityIgnored(strategies: map<Id, Strategy>, brokers: seq<BrokerDoc>, strategyId: string)
    ensures GetBrokerInstance(strategies, WithActivity(brokers, false), strategyId) == GetBrokerInstance(strategies, brokers, strategyId)
  {
    if IsObjectIdText(strategyId) && ObjectIdOf(strategyId) in strategies {
      var s := strategies[ObjectIdOf(strategyId)];
      if IsObjectIdText(s.broker) {
        var id := ObjectIdOf(s.broker);
        var deactivated := WithActivity(brokers, false);
        FindBrokerIgnoresActivity(brokers, id);
      }
    }
  }

  lemma {:induction false} FindBrokerIgnoresActivity(brokers: seq<BrokerDoc>, id: Id)
    ensures FindBroker(WithActivity(brokers, false), id).Some? <==> FindBroker(brokers, id).Some?
    ensures FindBroker(brokers, id).Some? ==>
      FindBroker(WithActivity(brokers, false), id).value == FindBroker(brokers, id).value.(isActive := false)
    decreases |brokers|
  {
    if brokers != [] {
      assert WithActivity(brokers, false)[1..] == WithActivity(brokers[1..], false);
      FindBrokerIgnoresActivity(brokers[1..], id);
    }
  }

  /**
   * A strategy's `broker` field holds the enumeration value `fyers`, which is
   * not an ObjectId, so the broker lookup throws and no adapter is ever built
   * for a strategy stored that way.
   */
  lemma EnumBrokerNeverResolves(strategies: map<Id, Strategy>, brokers: seq<BrokerDoc>, strategyId: string)
    requires IsObjectIdText(strategyId) && ObjectIdOf(strategyId) in strategies
    requires IsAvailableBroker(strategies[ObjectIdOf(strategyId)].broker)
    ensures GetBrokerInstance(strategies, brokers, strategyId) == None
  {
  }
}
