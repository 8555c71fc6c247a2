/**
 * The instrument endpoints: every instrument grouped by underlying and then by
 * exchange, and the list of Fyers broker records.
 */
module InstrumentsController {
  import opened Wrappers
  import opened Models
  import Seqs
  import BrokersController

  /** The grouping: underlying, then exchange, then the instruments of that pair in collection order. */
  type Grouping = map<string, map<string, seq<Instrument>>>

  const OtherKey: string := "Other"

  /** `instrument.underlying || "Other"`. */
  function UnderlyingKey(i: Instrument): string {
    OrElse(i.underlying, OtherKey)
  }

  /** `instrument.exchange || "Other"`. */
  function ExchangeKey(i: Instrument): string {
    OrElse(i.exchange, OtherKey)
  }

  /** The instruments of one bucket, as an order-preserving filter of the collection. */
  function Bucket(instruments: seq<Instrument>, u: string, x: string): (r: seq<Instrument>)
    ensures forall k :: 0 <= k < |r| ==> UnderlyingKey(r[k]) == u && ExchangeKey(r[k]) == x
    ensures Seqs.IsSubsequence(r, instruments)
  {
    Seqs.FilterIsSubsequence(instruments, (i: Instrument) => UnderlyingKey(i) == u && ExchangeKey(i) == x);
    Seqs.Filter(instruments, (i: Instrument) => UnderlyingKey(i) == u && ExchangeKey(i) == x)
  }

  /** The accumulator after one more instrument: its bucket is created if needed and the instrument pushed on it. */
  function Push(acc: Grouping, i: Instrument): (r: Grouping)
    ensures UnderlyingKey(i) in r && ExchangeKey(i) in r[UnderlyingKey(i)]
  {
    var u := UnderlyingKey(i);
    var x := ExchangeKey(i);
    var inner := if u in acc then acc[u] else map[];
    var bucket := if x in inner then inner[x] else [];
    acc[u := inner[x := bucket + [i]]]
  }

  /** The `reduce` over the collection, in order. */
  function Group(instruments: seq<Instrument>): Grouping
    decreases |instruments|
  {
    if instruments == [] then map[]
    else Push(Group(instruments[..|instruments| - 1]), instruments[|instruments| - 1])
  }

  /** One push adds its instrument to the end of its own bucket and changes no other bucket. */
  lemma PushBuckets(acc: Grouping, i: Instrument, u: string, x: string)
    ensures var r := Push(acc, i);
      (u in r && x in r[u]) <==> (u in acc && x in acc[u]) || (u == UnderlyingKey(i) && x == ExchangeKey(i))
    ensures var r := Push(acc, i);
      u in r && x in r[u] ==>
        r[u][x] == (if u in acc && x in acc[u] then acc[u][x] else [])
                   + (if u == UnderlyingKey(i) && x == ExchangeKey(i) then [i] else [])
  {
  }

  /**
   * The grouping has a bucket exactly for the pairs that some instrument has,
   * and each bucket holds exactly the instruments of its pair, in collection order.
   */
  lemma {:induction false} GroupSpec(instruments: seq<Instrument>, u: string, x: string)
    ensures var g := Group(instruments);
      (u in g && x in g[u]) <==> Bucket(instruments, u, x) != []
    ensures var g := Group(instruments);
      u in g && x in g[u] ==> g[u][x] == Bucket(instruments, u, x)
    decreases |instruments|
  {
    if instruments != [] {
      var n := |instruments| - 1;
      GroupSpec(instruments[..n], u, x);
      assert Group(instruments) == Push(Group(instruments[..n]), instruments[n]);
      PushBuckets(Group(instruments[..n]), instruments[n], u, x);
      BucketSnoc(instruments, n, u, x);
      assert instruments[..n + 1] == instruments;
    }
  }

  /** The bucket of a longer prefix: one more instrument at the end when it has the pair. */
  lemma BucketSnoc(instruments: seq<Instrument>, n: nat, u: string, x: string)
    requires n < |instruments|
    ensures Bucket(instruments[..n + 1], u, x) == Bucket(instruments[..n], u, x)
      + (if UnderlyingKey(instruments[n]) == u && ExchangeKey(instruments[n]) == x then [instruments[n]] else [])
  {
    Seqs.FilterSnoc(instruments, n, (i: Instrument) => UnderlyingKey(i) == u && ExchangeKey(i) == x);
  }

  /** An underlying appears only with at least one exchange under it. */
  lemma {:induction false} NoEmptyGroups(instruments: seq<Instrument>, u: string)
    requires u in Group(instruments)
    ensures Group(instruments)[u] != map[]
    decreases |instruments|
  {
    var n := |instruments| - 1;
    if UnderlyingKey(instruments[n]) != u {
      NoEmptyGroups(instruments[..n], u);
      var x :| x in Group(instruments[..n])[u];
      assert x in Group(instruments)[u];
    }
  }

  /** An instrument is in the bucket of its own pair. */
  lemma InOwnBucket(instruments: seq<Instrument>, k: nat)
    requires k < |instruments|
    ensures var i := instruments[k];
      i in Bucket(instruments, UnderlyingKey(i), ExchangeKey(i))
  {
  }

  /** An instrument in a bucket has that bucket's pair. */
  lemma BucketHasOwnPair(instruments: seq<Instrument>, i: Instrument, u: string, x: string)
    requires i in Bucket(instruments, u, x)
    ensures u == UnderlyingKey(i) && x == ExchangeKey(i)
  {
    var b := Bucket(instruments, u, x);
    var j :| 0 <= j < |b| && b[j] == i;
  }

  /** Every instrument is in the bucket of its own pair, and in no other bucket. */
  lemma EveryInstrumentGrouped(instruments: seq<Instrument>, k: nat, u: string, x: string)
    requires k < |instruments|
    ensures var g := Group(instruments);
      UnderlyingKey(instruments[k]) in g && ExchangeKey(instruments[k]) in g[UnderlyingKey(instruments[k])]
      && instruments[k] in g[UnderlyingKey(instruments[k])][ExchangeKey(instruments[k])]
    ensures var g := Group(instruments);
      u in g && x in g[u] && instruments[k] in g[u][x] ==>
        u == UnderlyingKey(instruments[k]) && x == ExchangeKey(instruments[k])
  {
    var i := instruments[k];
    var g := Group(instruments);
    InOwnBucket(instruments, k);
    GroupSpec(instruments, UnderlyingKey(i), ExchangeKey(i));
    if u in g && x in g[u] && i in g[u][x] {
      GroupSpec(instruments, u, x);
      BucketHasOwnPair(instruments, i, u, x);
    }
  }

  /** An instrument without an underlying or an exchange is filed under `Other`. */
  lemma MissingKeysAreOther(i: Instrument)
    ensures i.underlying.None? || i.underlying == Some("") ==> UnderlyingKey(i) == OtherKey
    ensures i.exchange.None? || i.exchange == Some("") ==> ExchangeKey(i) == OtherKey
  {
  }

  /** The `reduce` callback: creates the underlying's map and the exchange's list when missing, then pushes the instrument. */
  method PushInstrument(acc: Grouping, i: Instrument) returns (grouped: Grouping)
    ensures grouped == Push(acc, i)
  {
    var u := UnderlyingKey(i);
    var x := ExchangeKey(i);
    ghost var inner := if u in acc then acc[u] else map[];
    ghost var bucket := if x in inner then inner[x] else [];
    grouped := acc;
    if u !in grouped {
      grouped := grouped[u := map[]];
    }
    assert grouped == acc[u := inner];
    if x !in grouped[u] {
      grouped := grouped[u := grouped[u][x := []]];
    } else {
      assert inner[x := bucket] == inner;
    }
    assert grouped == acc[u := inner[x := bucket]];
    grouped := grouped[u := grouped[u][x := grouped[u][x] + [i]]];
    assert inner[x := bucket][x := bucket + [i]] == inner[x := bucket + [i]];
  }

  /** `viewAllInstruments`: the grouping, built by pushing each instrument onto its bucket. */
  method ViewAllInstruments(instruments: seq<Instrument>) returns (grouped: Grouping)
    ensures grouped == Group(instruments)
    ensures forall u, x :: u in grouped && x in grouped[u] ==> grouped[u][x] == Bucket(instruments, u, x)
  {
    grouped := map[];
    var k := 0;
    while k < |instruments|
      invariant 0 <= k <= |instruments|
      invariant grouped == Group(instruments[..k])
    {
      grouped := PushInstrument(grouped, instruments[k]);
      assert instruments[..k + 1][..k] == instruments[..k];
      k := k + 1;
    }
    assert instruments[..k] == instruments;
    forall u, x | u in grouped && x in grouped[u] ensures grouped[u][x] == Bucket(instruments, u, x) {
      GroupSpec(instruments, u, x);
    }
  }

  /** `getFyersBrokers`: the same query and replies as the broker listing. */
  function GetFyersBrokers(brokers: seq<BrokerDoc>): (r: BrokersController.BrokerReply)
    ensures r.status == 404 <==> forall i :: 0 <= i < |brokers| ==> brokers[i].brokerName != FyersName
    ensures r.status == 200 ==> Seqs.IsSubsequence(r.brokers, brokers)
    ensures r.status == 200 ==> forall i :: 0 <= i < |r.brokers| ==> r.brokers[i].brokerName == FyersName
    ensures r.status == 200 ==> forall i :: 0 <= i < |brokers| && brokers[i].brokerName == FyersName ==> brokers[i] in r.brokers
  {
    BrokersController.ViewAllFyersBrokers(brokers)
  }
}
