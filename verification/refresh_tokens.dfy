/**
 * The daily access-token refresh job. It loads the active broker records,
 * and for each active Fyers record either marks it inactive because its
 * refresh token is fourteen days old or more, or asks the brokerage for a
 * new access token and marks it inactive when that fails. A failing save
 * ends the whole run; the outer handler swallows the error.
 */
module RefreshTokens {
  import opened Wrappers
  import opened Models
  import opened Runtime
  import opened BrokerModel
  import Seqs

  /** Fourteen days in milliseconds. */
  const TokenLifetime: int := 14 * 24 * 60 * 60 * 1000

  /** A record without an issue date counts as issued now. */
  function IssuedAt(b: BrokerDoc, now: int): int {
    b.tokenIssuedAt.GetOr(now)
  }

  /** At least fourteen whole days have passed since the refresh token was issued. */
  predicate Expired(b: BrokerDoc, now: int) {
    now - IssuedAt(b, now) >= TokenLifetime
  }

  /** The records the run visits: the active ones, in collection order. */
  function ActiveOnly(brokers: seq<BrokerDoc>): (r: seq<BrokerDoc>)
    ensures Seqs.IsSubsequence(r, brokers)
    ensures forall i :: 0 <= i < |r| ==> r[i].isActive
    ensures forall i :: 0 <= i < |brokers| && brokers[i].isActive ==> brokers[i] in r
    ensures forall b :: multiset(r)[b] == if b.isActive then multiset(brokers)[b] else 0
  {
    Seqs.FilterIsSubsequence(brokers, (b: BrokerDoc) => b.isActive);
    Seqs.FilterCounts(brokers, (b: BrokerDoc) => b.isActive);
    Seqs.Filter(brokers, (b: BrokerDoc) => b.isActive)
  }

  /**
   * The run marks a visited record inactive: an active Fyers record whose
   * token has expired, or whose refresh `refreshed` says failed.
   */
  predicate Deactivates(b: BrokerDoc, now: int, refreshed: Id -> bool) {
    b.brokerName == "fyers" && b.isActive && (Expired(b, now) || !refreshed(b.id))
  }

  /**
   * The collection after visiting `pending` in order, and the error of the
   * save that ended the run early, if one did.
   */
  function RefreshFrom(brokers: seq<BrokerDoc>, pending: seq<BrokerDoc>, now: int, refreshed: Id -> bool): (seq<BrokerDoc>, Option<string>)
    decreases |pending|
  {
    if pending == [] then (brokers, None)
    else if !Deactivates(pending[0], now, refreshed) then RefreshFrom(brokers, pending[1..], now, refreshed)
    else
      var doc := pending[0].(isActive := false);
      match SaveCheck(doc)
      case Some(e) => (brokers, Some(e))
      case None => RefreshFrom(Upsert(brokers, doc), pending[1..], now, refreshed)
  }

  /** One visit: a record not due is passed over; a due one is saved inactive, or its save error ends the run. */
  lemma RefreshFromStep(brokers: seq<BrokerDoc>, pending: seq<BrokerDoc>, now: int, refreshed: Id -> bool)
    requires pending != []
    ensures !Deactivates(pending[0], now, refreshed) ==>
      RefreshFrom(brokers, pending, now, refreshed) == RefreshFrom(brokers, pending[1..], now, refreshed)
    ensures Deactivates(pending[0], now, refreshed) && SaveCheck(pending[0].(isActive := false)).Some? ==>
      RefreshFrom(brokers, pending, now, refreshed) == (brokers, SaveCheck(pending[0].(isActive := false)))
    ensures Deactivates(pending[0], now, refreshed) && SaveCheck(pending[0].(isActive := false)).None? ==>
      RefreshFrom(brokers, pending, now, refreshed) == RefreshFrom(Upsert(brokers, pending[0].(isActive := false)), pending[1..], now, refreshed)
  {
  }

  /** `refreshAccessToken`: one run of the job, at time `now`. */
  method RefreshAccessTokens(backend: Backend, now: int, refreshed: Id -> bool) returns (aborted: Option<string>)
    modifies backend`brokers
    ensures (backend.brokers, aborted) == RefreshFrom(old(backend.brokers), ActiveOnly(old(backend.brokers)), now, refreshed)
  {
    var loaded := ActiveOnly(backend.brokers);
    aborted := None;
    var i := 0;
    while i < |loaded|
      invariant 0 <= i <= |loaded|
      invariant RefreshFrom(old(backend.brokers), loaded, now, refreshed) == RefreshFrom(backend.brokers, loaded[i..], now, refreshed)
    {
      var b := loaded[i];
      assert loaded[i..][1..] == loaded[i + 1..];
      RefreshFromStep(backend.brokers, loaded[i..], now, refreshed);
      if b.brokerName != "fyers" || !b.isActive {
        i := i + 1;
        continue;
      }
      if Expired(b, now) {
        var err := Save(backend, b.(isActive := false));
        if err.Some? {
          aborted := err;
          return;
        }
        i := i + 1;
        continue;
      }
      if !refreshed(b.id) {
        var err := Save(backend, b.(isActive := false));
        if err.Some? {
          aborted := err;
          return;
        }
      }
      i := i + 1;
    }
  }

  /**
   * What a run leaves behind: ids stay unique, no record that was there
   * disappears, a record active afterwards is exactly as it was before, and a
   * record no due visit names is untouched.
   */
  lemma {:induction false} RefreshFromEffect(brokers: seq<BrokerDoc>, pending: seq<BrokerDoc>, now: int, refreshed: Id -> bool, id: Id)
    requires UniqueIds(brokers)
    ensures var after := RefreshFrom(brokers, pending, now, refreshed).0;
      && UniqueIds(after)
      && (FindBroker(brokers, id).Some? ==> FindBroker(after, id).Some?)
      && (FindBroker(after, id).Some? && FindBroker(after, id).value.isActive ==> FindBroker(after, id) == FindBroker(brokers, id))
      && ((forall k :: 0 <= k < |pending| && Deactivates(pending[k], now, refreshed) ==> pending[k].id != id) ==>
          FindBroker(after, id) == FindBroker(brokers, id))
    decreases |pending|
  {
    if pending != [] {
      if !Deactivates(pending[0], now, refreshed) {
        RefreshFromEffect(brokers, pending[1..], now, refreshed, id);
        assert forall k :: 0 <= k < |pending[1..]| ==> pending[1..][k] == pending[k + 1];
      } else {
        var doc := pending[0].(isActive := false);
        if SaveCheck(doc).None? {
          var mid := Upsert(brokers, doc);
          UpsertSpec(brokers, doc, id);
          RefreshFromEffect(mid, pending[1..], now, refreshed, id);
          assert forall k :: 0 <= k < |pending[1..]| ==> pending[1..][k] == pending[k + 1];
        }
      }
    }
  }

  /** The run never makes a record active. */
  lemma NeverActivates(brokers: seq<BrokerDoc>, now: int, refreshed: Id -> bool, id: Id)
    requires UniqueIds(brokers)
    ensures var after := RefreshFrom(brokers, ActiveOnly(brokers), now, refreshed).0;
      FindBroker(after, id).Some? && FindBroker(after, id).value.isActive ==> FindBroker(after, id) == FindBroker(brokers, id)
  {
    RefreshFromEffect(brokers, ActiveOnly(brokers), now, refreshed, id);
  }

  /** A run that was not cut short leaves every due record present and inactive. */
  lemma {:induction false} DueRecordsDeactivated(brokers: seq<BrokerDoc>, pending: seq<BrokerDoc>, now: int, refreshed: Id -> bool, k: nat)
    requires UniqueIds(brokers)
    requires k < |pending| && Deactivates(pending[k], now, refreshed)
    requires RefreshFrom(brokers, pending, now, refreshed).1 == None
    ensures var found := FindBroker(RefreshFrom(brokers, pending, now, refreshed).0, pending[k].id);
      found.Some? && !found.value.isActive
    decreases |pending|
  {
    var id := pending[k].id;
    if !Deactivates(pending[0], now, refreshed) {
      DueRecordsDeactivated(brokers, pending[1..], now, refreshed, k - 1);
    } else {
      var doc := pending[0].(isActive := false);
      var mid := Upsert(brokers, doc);
      UpsertSpec(brokers, doc, id);
      if k == 0 {
        RefreshFromEffect(mid, pending[1..], now, refreshed, id);
      } else {
        DueRecordsDeactivated(mid, pending[1..], now, refreshed, k - 1);
      }
    }
  }

  /** A record with no issue date is never treated as expired. */
  lemma MissingIssueDateNeverExpires(b: BrokerDoc, now: int)
    requires b.tokenIssuedAt.None?
    ensures !Expired(b, now)
  {
  }

  /**
   * Every token refresh fails (the adapter factory the job calls does not
   * exist), so a completed run leaves every Fyers record it visited inactive.
   */
  lemma AllFyersDeactivatedWhenRefreshFails(brokers: seq<BrokerDoc>, now: int, k: nat)
    requires UniqueIds(brokers)
    requires k < |brokers| && brokers[k].isActive && brokers[k].brokerName == "fyers"
    requires RefreshFrom(brokers, ActiveOnly(brokers), now, _ => false).1 == None
    ensures var found := FindBroker(RefreshFrom(brokers, ActiveOnly(brokers), now, _ => false).0, brokers[k].id);
      found.Some? && !found.value.isActive
  {
    var pending := ActiveOnly(brokers);
    var j :| 0 <= j < |pending| && pending[j] == brokers[k];
    DueRecordsDeactivated(brokers, pending, now, _ => false, j);
  }
}
