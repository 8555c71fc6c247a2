/**
 * The browser's broker store: the broker records last loaded, a loading
 * flag and an error text. Each action replaces a field.
 */
module BrokerStore {
  import opened Wrappers
  import Seqs

  /** A broker record as the browser receives it. */
  datatype ClientBroker = ClientBroker(id: string, brokerName: string, isActive: bool,
                                       credentials: map<string, string>, createdAt: string, updatedAt: string)

  /** The argument of `updateBroker`: the fields to overwrite. */
  datatype BrokerPatch = BrokerPatch(id: Option<string>, brokerName: Option<string>, isActive: Option<bool>,
                                     credentials: Option<map<string, string>>, createdAt: Option<string>,
                                     updatedAt: Option<string>)

  /** A given field overrides the old value. */
  function Pick<T>(given: Option<T>, current: T): T {
    if given.Some? then given.value else current
  }

  /** `{ ...broker, ...patch }`. */
  function Merge(b: ClientBroker, patch: BrokerPatch): ClientBroker {
    ClientBroker(Pick(patch.id, b.id), Pick(patch.brokerName, b.brokerName), Pick(patch.isActive, b.isActive),
                 Pick(patch.credentials, b.credentials), Pick(patch.createdAt, b.createdAt),
                 Pick(patch.updatedAt, b.updatedAt))
  }

  /** The list after `updateBroker(id, patch)`. */
  function Updated(brokers: seq<ClientBroker>, id: string, patch: BrokerPatch): seq<ClientBroker> {
    Seqs.Map(brokers, (b: ClientBroker) => if b.id == id then Merge(b, patch) else b)
  }

  /** The active records, in list order. */
  function Active(brokers: seq<ClientBroker>): (r: seq<ClientBroker>)
    ensures forall b :: b in r <==> b in brokers && b.isActive
    ensures Seqs.IsSubsequence(r, brokers)
    ensures forall b :: multiset(r)[b] == if b.isActive then multiset(brokers)[b] else 0
  {
    Seqs.FilterIsSubsequence(brokers, (b: ClientBroker) => b.isActive);
    Seqs.FilterCounts(brokers, (b: ClientBroker) => b.isActive);
    Seqs.Filter(brokers, (b: ClientBroker) => b.isActive)
  }

  class Store {
    var brokers: seq<ClientBroker>
    var loading: bool
    var error: Option<string>

    /** The initial state: no records, not loading, no error. */
    constructor()
      ensures brokers == [] && !loading && error == None
    {
      brokers := [];
      loading := false;
      error := None;
    }

    /** `setBrokers`: the list is replaced. */
    method SetBrokers(list: seq<ClientBroker>)
      modifies this`brokers
      ensures brokers == list
    {
      brokers := list;
    }

    /** `setLoading`. */
    method SetLoading(flag: bool)
      modifies this`loading
      ensures loading == flag
    {
      loading := flag;
    }

    /** `setError`. */
    method SetError(message: Option<string>)
      modifies this`error
      ensures error == message
    {
      error := message;
    }

    /** `addBroker`. */
    method AddBroker(broker: ClientBroker)
      modifies this`brokers
      ensures brokers == old(brokers) + [broker]
    {
      brokers := brokers + [broker];
    }

    /** `updateBroker`. */
    method UpdateBroker(id: string, patch: BrokerPatch)
      modifies this`brokers
      ensures brokers == Updated(old(brokers), id, patch)
    {
      brokers := Updated(brokers, id, patch);
    }

    /** `getActiveBrokers`: the active records of the current list. */
    function GetActiveBrokers(): (r: seq<ClientBroker>)
      reads this
      ensures forall b :: b in r <==> b in brokers && b.isActive
      ensures Seqs.IsSubsequence(r, brokers)
      ensures forall b :: multiset(r)[b] == if b.isActive then multiset(brokers)[b] else 0
    {
      Active(brokers)
    }
  }

  /** An update keeps the length, rewrites the records with that id and leaves every other record as it was. */
  lemma UpdateTouchesOnlyMatches(brokers: seq<ClientBroker>, id: string, patch: BrokerPatch, i: nat)
    requires i < |brokers|
    ensures |Updated(brokers, id, patch)| == |brokers|
    ensures brokers[i].id != id ==> Updated(brokers, id, patch)[i] == brokers[i]
    ensures brokers[i].id == id ==>
      var b := Updated(brokers, id, patch)[i];
      && (patch.isActive.Some? ==> b.isActive == patch.isActive.value)
      && (patch.isActive.None? ==> b.isActive == brokers[i].isActive)
      && (patch.credentials.Some? ==> b.credentials == patch.credentials.value)
      && (patch.credentials.None? ==> b.credentials == brokers[i].credentials)
  {
  }

  /** Appending a record adds it to the active list exactly when it is active. */
  lemma ActiveAfterAdd(brokers: seq<ClientBroker>, broker: ClientBroker)
    ensures Active(brokers + [broker]) == Active(brokers) + (if broker.isActive then [broker] else [])
  {
    Seqs.FilterAppend(brokers, [broker], (b: ClientBroker) => b.isActive);
  }

  /** An update that does not touch the active flag leaves the number of active records as it was. */
  lemma {:induction false} ActiveCountKeptByUpdate(brokers: seq<ClientBroker>, id: string, patch: BrokerPatch)
    requires patch.isActive.None?
    ensures |Active(Updated(brokers, id, patch))| == |Active(brokers)|
    decreases |brokers|
  {
    if brokers != [] {
      var n := |brokers| - 1;
      assert brokers == brokers[..n] + [brokers[n]];
      var u := Updated(brokers, id, patch);
      assert u == Updated(brokers[..n], id, patch) + [u[n]];
      ActiveCountKeptByUpdate(brokers[..n], id, patch);
      ActiveAfterAdd(brokers[..n], brokers[n]);
      ActiveAfterAdd(Updated(brokers[..n], id, patch), u[n]);
    }
  }
}
