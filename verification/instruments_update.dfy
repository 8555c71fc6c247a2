/**
 * The daily instrument update: delete the instruments that expired before
 * today, then read five Fyers symbol-master feeds in turn and upsert every
 * futures contract they list, keyed by its exchange token.
 *
 * The collection is seen here as a map from exchange token (a unique field)
 * to document. Fetching a feed is a parameter (`None` when the request
 * fails), as is the id the database gives a document it inserts.
 */
module InstrumentsUpdate {
  import opened Wrappers
  import opened Models
  import Text

  /** The five feeds, in the order they are read. */
  const FeedUrls: seq<string> := [
    "https://public.fyers.in/sym_details/NSE_CD_sym_master.json",
    "https://public.fyers.in/sym_details/NSE_FO_sym_master.json",
    "https://public.fyers.in/sym_details/NSE_COM_sym_master.json",
    "https://public.fyers.in/sym_details/BSE_FO_sym_master.json",
    "https://public.fyers.in/sym_details/MCX_COM_sym_master.json"]

  /** `exchangeMap`: the exchange codes the feeds use. */
  const ExchangeCodes: map<int, string> := map[10 := "NSE", 11 := "MCX", 12 := "BSE"]

  /** The instrument type a newly inserted document defaults to. */
  const FutureType: string := "future"

  /** The largest distance from the epoch, in milliseconds, that a JavaScript date can hold. */
  const MaxDateMs: int := 8_640_000_000_000_000

  /** One listing of a feed: its ticker (the key it is listed under) and the fields the job reads. */
  datatype FeedEntry = FeedEntry(ticker: string, exToken: int, exSymName: string, exchange: int,
                                 underSym: Option<string>, expiryDate: string)

  /** `isFuture`: the ticker ends in `FUT`. */
  predicate IsFuture(ticker: string) {
    |ticker| >= 3 && ticker[|ticker| - 3..] == "FUT"
  }

  /** `exchangeMap[code]`: a name for the three known codes, nothing for any other. */
  function ExchangeName(code: int): (r: Option<string>)
    ensures code == 10 ==> r == Some("NSE")
    ensures code == 11 ==> r == Some("MCX")
    ensures code == 12 ==> r == Some("BSE")
    ensures r.Some? <==> code in {10, 11, 12}
  {
    if code in ExchangeCodes then Some(ExchangeCodes[code]) else None
  }

  // ---------------------------------------------------------------------------
  // Expiry dates

  /** The longest run of decimal digits at the start of `s`. */
  function LeadingDigits(s: string): (r: string)
    ensures |r| <= |s| && r == s[..|r|] && Text.AllDigits(r)
    ensures |r| < |s| ==> !Text.IsDigit(s[|r|])
  {
    if s != [] && Text.IsDigit(s[0]) then [s[0]] + LeadingDigits(s[1..]) else []
  }

  /**
   * `parseInt(s)`: leading white space and one sign are skipped and the
   * decimal digits that follow are read, ignoring whatever comes after them;
   * `None` (NaN) when there are none.
   */
  function ParseIntPrefix(s: string): (r: Option<int>)
  {
    var t := Text.TrimStart(s);
    var body := if t != [] && (t[0] == '-' || t[0] == '+') then t[1..] else t;
    var digits := LeadingDigits(body);
    if digits == [] then None
    else if t[0] == '-' then Some(-(Text.DigitsValue(digits) as int))
    else Some(Text.DigitsValue(digits))
  }

  /** `convertEpochToIST`: seconds to milliseconds; `None` when the result is not a valid date. */
  function ConvertEpoch(epoch: string): (r: Option<int>)
    ensures r.Some? ==> ParseIntPrefix(epoch).Some? && r.value == ParseIntPrefix(epoch).value * 1000
    ensures r.Some? ==> -MaxDateMs <= r.value <= MaxDateMs
    ensures r.Some? <==> ParseIntPrefix(epoch).Some? && -MaxDateMs <= ParseIntPrefix(epoch).value * 1000 <= MaxDateMs
  {
    match ParseIntPrefix(epoch)
    case None => None
    case Some(secs) => if -MaxDateMs <= secs * 1000 <= MaxDateMs then Some(secs * 1000) else None
  }

  lemma {:induction false} LeadingDigitsOfDigits(s: string)
    requires Text.AllDigits(s)
    ensures LeadingDigits(s) == s
    decreases |s|
  {
    if s != [] {
      LeadingDigitsOfDigits(s[1..]);
    }
  }

  /** `parseInt` reads back the decimal text of any integer. */
  lemma ParseIntPrefixOfDecimal(n: int)
    ensures ParseIntPrefix(Text.IntToString(n)) == Some(n)
  {
    var s := Text.IntToString(n);
    var m: nat := if n < 0 then -n else n;
    var d := Text.NatToString(m);
    assert Text.IsDigit(d[0]);
    if n < 0 {
      assert s[0] == '-' && s[1..] == d;
    } else {
      assert s == d;
    }
    assert !Text.IsSpace(s[0]);
    assert Text.TrimStart(s) == s;
    LeadingDigitsOfDigits(d);
    Text.NatToStringRoundTrip(m);
  }

  /** The decimal text of a number of seconds converts to that many thousands of milliseconds. */
  lemma EpochRoundTrip(secs: int)
    requires -MaxDateMs <= secs * 1000 <= MaxDateMs
    ensures ConvertEpoch(Text.IntToString(secs)) == Some(secs * 1000)
  {
    ParseIntPrefixOfDecimal(secs);
  }

  /** The leading digits of `12ab` are `12`, which denote twelve. */
  lemma TwelveThenLetters()
    ensures LeadingDigits("12ab") == "12" && Text.DigitsValue("12") == 12
  {
    assert LeadingDigits("ab") == [];
    assert LeadingDigits("2ab") == "2";
    assert "12"[..1] == "1";
    assert "1"[..0] == [];
    assert Text.DigitsValue("1") == 1;
  }

  lemma ParseTwelveThenLetters()
    ensures ParseIntPrefix("12ab") == Some(12)
  {
    var t := "12ab";
    assert t[0] == '1' && !Text.IsSpace(t[0]) && t[0] != '-' && t[0] != '+';
    assert Text.TrimStart(t) == t;
    TwelveThenLetters();
  }

  lemma ParseLettersOnly()
    ensures ParseIntPrefix("ab") == None
  {
    var t := "ab";
    assert t[0] == 'a' && !Text.IsSpace(t[0]) && t[0] != '-' && t[0] != '+' && !Text.IsDigit(t[0]);
    assert Text.TrimStart(t) == t;
    assert LeadingDigits(t) == [];
  }

  /** Text after the digits is ignored, and text without a leading digit is no number at all. */
  lemma ParseIntExamples()
    ensures ParseIntPrefix("12ab") == Some(12)
    ensures ParseIntPrefix("ab") == None
  {
    ParseTwelveThenLetters();
    ParseLettersOnly();
  }

  // ---------------------------------------------------------------------------
  // One listing

  /** The exchange token as the store keys it: `exToken.toString()`. */
  function TokenOf(e: FeedEntry): string {
    Text.IntToString(e.exToken)
  }

  /**
   * `findOneAndUpdate` on an existing document: the ticker, expiry and name are
   * replaced; an absent underlying or an unknown exchange code leaves the
   * stored value, because an undefined field is dropped from the update.
   */
  function Refresh(d: Instrument, e: FeedEntry, expiry: int): (r: Instrument)
    ensures r.id == d.id && r.exToken == d.exToken && r.instrumentType == d.instrumentType
    ensures r.fyersSymbol == e.ticker && r.expiry == expiry && r.exSymName == e.exSymName
    ensures r.underlying == (if e.underSym.Some? then e.underSym else d.underlying)
    ensures r.exchange == (if ExchangeName(e.exchange).Some? then ExchangeName(e.exchange) else d.exchange)
  {
    d.(fyersSymbol := e.ticker,
       underlying := if e.underSym.Some? then e.underSym else d.underlying,
       expiry := expiry,
       exchange := if ExchangeName(e.exchange).Some? then ExchangeName(e.exchange) else d.exchange,
       exSymName := e.exSymName)
  }

  /** The document an upsert inserts: the listing's fields and the default type. */
  function Inserted(id: Id, e: FeedEntry, expiry: int): (r: Instrument)
    ensures r.id == id && r.exToken == TokenOf(e) && r.instrumentType == FutureType
    ensures r.fyersSymbol == e.ticker && r.expiry == expiry && r.exSymName == e.exSymName
    ensures r.underlying == e.underSym && r.exchange == ExchangeName(e.exchange)
  {
    Instrument(id, e.ticker, e.underSym, expiry, FutureType, TokenOf(e), ExchangeName(e.exchange), e.exSymName)
  }

  /** Another document already holds the ticker: the unique index on the Fyers symbol refuses the write. */
  predicate TickerTaken(docs: map<string, Instrument>, e: FeedEntry) {
    exists k :: k in docs && k != TokenOf(e) && docs[k].fyersSymbol == e.ticker
  }

  /**
   * The upsert of one futures listing: the new collection and whether it
   * succeeded. It fails, changing nothing, when the expiry is no date or the
   * ticker belongs to another document.
   */
  function Upsert(docs: map<string, Instrument>, e: FeedEntry, newId: string -> Id): (r: (map<string, Instrument>, bool))
    ensures !r.1 ==> r.0 == docs
    ensures r.1 <==> ConvertEpoch(e.expiryDate).Some? && !TickerTaken(docs, e)
    ensures r.1 ==> TokenOf(e) in r.0 && r.0 == docs[TokenOf(e) := r.0[TokenOf(e)]]
    ensures r.1 ==>
      (r.0[TokenOf(e)] ==
         if TokenOf(e) in docs then Refresh(docs[TokenOf(e)], e, ConvertEpoch(e.expiryDate).value)
         else Inserted(newId(TokenOf(e)), e, ConvertEpoch(e.expiryDate).value))
  {
    match ConvertEpoch(e.expiryDate)
    case None => (docs, false)
    case Some(expiry) =>
      if TickerTaken(docs, e) then (docs, false)
      else
        var tok := TokenOf(e);
        var d := if tok in docs then Refresh(docs[tok], e, expiry) else Inserted(newId(tok), e, expiry);
        (docs[tok := d], true)
  }

  /** A document the listing has just written is left as it is by writing the listing again. */
  predicate Settled(d: Instrument, e: FeedEntry) {
    ConvertEpoch(e.expiryDate).Some? && Refresh(d, e, ConvertEpoch(e.expiryDate).value) == d
  }

  /** Writing a listing over the document it has just written changes nothing. */
  lemma RefreshSettled(d: Instrument, id: Id, e: FeedEntry, expiry: int)
    ensures Refresh(Refresh(d, e, expiry), e, expiry) == Refresh(d, e, expiry)
    ensures Refresh(Inserted(id, e, expiry), e, expiry) == Inserted(id, e, expiry)
  {
  }

  /** Upserting a listing twice is the same as upserting it once. */
  lemma UpsertIdempotent(docs: map<string, Instrument>, e: FeedEntry, newId: string -> Id)
    ensures Upsert(Upsert(docs, e, newId).0, e, newId) == Upsert(docs, e, newId)
  {
    var r := Upsert(docs, e, newId);
    var m1 := r.0;
    if r.1 {
      var tok := TokenOf(e);
      var expiry := ConvertEpoch(e.expiryDate).value;
      assert !TickerTaken(m1, e) by {
        forall k | k in m1 && k != tok ensures m1[k].fyersSymbol != e.ticker {
          assert m1[k] == docs[k];
        }
      }
      RefreshSettled(if tok in docs then docs[tok] else m1[tok], newId(tok), e, expiry);
      assert Refresh(m1[tok], e, expiry) == m1[tok];
      assert Upsert(m1, e, newId) == (m1[tok := m1[tok]], true);
      assert m1[tok := m1[tok]] == m1;
    }
  }

  /** What a successful upsert writes is settled. */
  lemma UpsertSettles(docs: map<string, Instrument>, e: FeedEntry, newId: string -> Id)
    requires Upsert(docs, e, newId).1
    ensures Settled(Upsert(docs, e, newId).0[TokenOf(e)], e)
  {
  }

  // ---------------------------------------------------------------------------
  // One feed

  /** The collection after a feed, with the number of listings written and the number of futures seen. */
  datatype FeedRun = FeedRun(docs: map<string, Instrument>, processed: nat, futures: nat)

  /** One turn of the loop: a non-future is passed over, a future is counted and upserted. */
  function Next(before: FeedRun, e: FeedEntry, newId: string -> Id): (r: FeedRun)
    ensures !IsFuture(e.ticker) ==> r == before
    ensures IsFuture(e.ticker) ==> r.futures == before.futures + 1
    ensures r.processed == before.processed + (if IsFuture(e.ticker) && Upsert(before.docs, e, newId).1 then 1 else 0)
  {
    if !IsFuture(e.ticker) then before
    else
      var up := Upsert(before.docs, e, newId);
      FeedRun(up.0, before.processed + (if up.1 then 1 else 0), before.futures + 1)
  }

  /** The body of `fetchAndProcessUrl` over the listings of a feed, in order; a failed listing is skipped. */
  function RunFeed(docs: map<string, Instrument>, entries: seq<FeedEntry>, newId: string -> Id): (r: FeedRun)
    ensures r.processed <= r.futures <= |entries|
    ensures docs.Keys <= r.docs.Keys
    decreases |entries|
  {
    if entries == [] then FeedRun(docs, 0, 0)
    else
      Next(RunFeed(docs, entries[..|entries| - 1], newId), entries[|entries| - 1], newId)
  }

  /** Every future of the feed was written. */
  predicate AllWritten(docs: map<string, Instrument>, entries: seq<FeedEntry>, newId: string -> Id) {
    RunFeed(docs, entries, newId).processed == RunFeed(docs, entries, newId).futures
  }

  /** The futures of the feed have pairwise different exchange tokens. */
  predicate DistinctTokens(entries: seq<FeedEntry>) {
    forall i, j :: 0 <= i < j < |entries| && IsFuture(entries[i].ticker) && IsFuture(entries[j].ticker) ==>
      TokenOf(entries[i]) != TokenOf(entries[j])
  }

  /** A run over one more listing is one more turn of the loop. */
  lemma RunFeedSnoc(docs: map<string, Instrument>, entries: seq<FeedEntry>, i: nat, newId: string -> Id)
    requires i < |entries|
    ensures RunFeed(docs, entries[..i + 1], newId) == Next(RunFeed(docs, entries[..i], newId), entries[i], newId)
  {
    assert entries[..i + 1][..i] == entries[..i];
  }

  /** Only the documents of the feed's futures are written: any other document is as it was. */
  lemma {:induction false} OnlyFuturesWritten(docs: map<string, Instrument>, entries: seq<FeedEntry>, newId: string -> Id, k: string)
    requires forall i :: 0 <= i < |entries| && IsFuture(entries[i].ticker) ==> TokenOf(entries[i]) != k
    ensures k in RunFeed(docs, entries, newId).docs <==> k in docs
    ensures k in docs ==> RunFeed(docs, entries, newId).docs[k] == docs[k]
    decreases |entries|
  {
    if entries != [] {
      OnlyFuturesWritten(docs, entries[..|entries| - 1], newId, k);
    }
  }

  /** A run writes every listing of a shorter run too: the prefix of an all-written run is all-written. */
  lemma PrefixAllWritten(docs: map<string, Instrument>, entries: seq<FeedEntry>, newId: string -> Id)
    requires entries != [] && AllWritten(docs, entries, newId)
    ensures AllWritten(docs, entries[..|entries| - 1], newId)
    ensures IsFuture(entries[|entries| - 1].ticker) ==>
      Upsert(RunFeed(docs, entries[..|entries| - 1], newId).docs, entries[|entries| - 1], newId).1
  {
  }

  /**
   * After a run that wrote every future of a feed whose tokens differ, each
   * future's document is settled and no other document holds its ticker.
   */
  lemma {:induction false} RunSettles(docs: map<string, Instrument>, entries: seq<FeedEntry>, newId: string -> Id)
    requires AllWritten(docs, entries, newId) && DistinctTokens(entries)
    ensures var out := RunFeed(docs, entries, newId).docs;
      forall i :: 0 <= i < |entries| && IsFuture(entries[i].ticker) ==>
        TokenOf(entries[i]) in out && Settled(out[TokenOf(entries[i])], entries[i]) && !TickerTaken(out, entries[i])
    decreases |entries|
  {
    if entries != [] {
      var n := |entries| - 1;
      var prefix := entries[..n];
      var e := entries[n];
      PrefixAllWritten(docs, entries, newId);
      assert DistinctTokens(prefix) by {
        forall i, j | 0 <= i < j < |prefix| && IsFuture(prefix[i].ticker) && IsFuture(prefix[j].ticker)
          ensures TokenOf(prefix[i]) != TokenOf(prefix[j])
        {
          assert prefix[i] == entries[i] && prefix[j] == entries[j];
        }
      }
      RunSettles(docs, prefix, newId);
      var mid := RunFeed(docs, prefix, newId).docs;
      var out := RunFeed(docs, entries, newId).docs;
      if IsFuture(e.ticker) {
        var tok := TokenOf(e);
        UpsertSettles(mid, e, newId);
        forall i | 0 <= i < |entries| && IsFuture(entries[i].ticker)
          ensures TokenOf(entries[i]) in out && Settled(out[TokenOf(entries[i])], entries[i]) && !TickerTaken(out, entries[i])
        {
          if i == n {
            forall k | k in out && k != tok ensures out[k].fyersSymbol != e.ticker {
              assert out[k] == mid[k];
            }
          } else {
            var ei := entries[i];
            assert ei == prefix[i];
            assert TokenOf(ei) != tok;
            assert out[TokenOf(ei)] == mid[TokenOf(ei)];
            assert mid[TokenOf(ei)].fyersSymbol == ei.ticker;
            forall k | k in out && k != TokenOf(ei) ensures out[k].fyersSymbol != ei.ticker {
              if k == tok {
                assert out[k].fyersSymbol == e.ticker;
                assert !TickerTaken(mid, e);
                assert TokenOf(ei) in mid && TokenOf(ei) != tok;
              } else {
                assert out[k] == mid[k];
              }
            }
          }
        }
      } else {
        forall i | 0 <= i < |entries| && IsFuture(entries[i].ticker)
          ensures TokenOf(entries[i]) in out && Settled(out[TokenOf(entries[i])], entries[i]) && !TickerTaken(out, entries[i])
        {
          assert i < n && entries[i] == prefix[i];
        }
      }
    }
  }

  /**
   * Reading a feed a second time changes nothing, when the first reading
   * wrote every future and the futures have different tokens.
   */
  lemma FeedIdempotent(docs: map<string, Instrument>, entries: seq<FeedEntry>, newId: string -> Id)
    requires AllWritten(docs, entries, newId) && DistinctTokens(entries)
    ensures var first := RunFeed(docs, entries, newId);
      RunFeed(first.docs, entries, newId) == first
  {
    RunSettles(docs, entries, newId);
    ReplayKeeps(RunFeed(docs, entries, newId).docs, docs, entries, |entries|, newId);
  }

  /** Replaying the first `n` listings over a collection in which every future is settled and untaken writes each and changes nothing. */
  lemma {:induction false} ReplayKeeps(out: map<string, Instrument>, docs: map<string, Instrument>, entries: seq<FeedEntry>, n: nat, newId: string -> Id)
    requires n <= |entries|
    requires AllWritten(docs, entries, newId) && out == RunFeed(docs, entries, newId).docs
    requires forall i :: 0 <= i < |entries| && IsFuture(entries[i].ticker) ==>
      TokenOf(entries[i]) in out && Settled(out[TokenOf(entries[i])], entries[i]) && !TickerTaken(out, entries[i])
    ensures RunFeed(out, entries[..n], newId).docs == out
    ensures RunFeed(out, entries[..n], newId).futures == RunFeed(docs, entries[..n], newId).futures
    ensures RunFeed(out, entries[..n], newId).processed == RunFeed(out, entries[..n], newId).futures
    ensures n == |entries| ==> RunFeed(out, entries, newId) == RunFeed(docs, entries, newId)
    decreases n
  {
    if n > 0 {
      ReplayKeeps(out, docs, entries, n - 1, newId);
      var e := entries[n - 1];
      RunFeedSnoc(out, entries, n - 1, newId);
      RunFeedSnoc(docs, entries, n - 1, newId);
      ReplayStep(RunFeed(out, entries[..n - 1], newId), RunFeed(docs, entries[..n - 1], newId), e, newId);
    }
    if n == |entries| {
      assert entries[..n] == entries;
    }
  }

  /** One turn over a listing whose future is settled and untaken keeps the collection and counts it as written. */
  lemma ReplayStep(run: FeedRun, other: FeedRun, e: FeedEntry, newId: string -> Id)
    requires run.processed == run.futures && run.futures == other.futures
    requires IsFuture(e.ticker) ==>
      TokenOf(e) in run.docs && Settled(run.docs[TokenOf(e)], e) && !TickerTaken(run.docs, e)
    ensures Next(run, e, newId).docs == run.docs
    ensures Next(run, e, newId).futures == Next(other, e, newId).futures
    ensures Next(run, e, newId).processed == Next(run, e, newId).futures
  {
    if IsFuture(e.ticker) {
      var tok := TokenOf(e);
      assert Upsert(run.docs, e, newId) == (run.docs[tok := run.docs[tok]], true);
      assert run.docs[tok := run.docs[tok]] == run.docs;
    }
  }

  /** A feed of two futures: each is upserted in turn. */
  lemma RunFeedPair(docs: map<string, Instrument>, a: FeedEntry, b: FeedEntry, newId: string -> Id)
    requires IsFuture(a.ticker) && IsFuture(b.ticker)
    ensures RunFeed(docs, [a, b], newId) == Next(Next(FeedRun(docs, 0, 0), a, newId), b, newId)
  {
    assert [a][..0] == [];
    assert RunFeed(docs, [a], newId) == Next(FeedRun(docs, 0, 0), a, newId);
    assert [a, b][..1] == [a];
    assert RunFeed(docs, [a, b], newId) == Next(RunFeed(docs, [a], newId), b, newId);
  }

  /** The listings of the example below: `XFUT` is held by the document of token 2, which `YFUT` renames. */
  const HeldDoc: Instrument := Instrument("doc", "XFUT", None, 0, FutureType, "2", None, "X")
  const ListingX: FeedEntry := FeedEntry("XFUT", 1, "X", 10, None, "0")
  const ListingY: FeedEntry := FeedEntry("YFUT", 2, "Y", 10, None, "0")

  lemma ExampleFacts()
    ensures TokenOf(ListingX) == "1" && TokenOf(ListingY) == "2"
    ensures ConvertEpoch("0") == Some(0)
    ensures IsFuture(ListingX.ticker) && IsFuture(ListingY.ticker)
  {
    ParseIntPrefixOfDecimal(0);
    ParseIntPrefixOfDecimal(1);
    ParseIntPrefixOfDecimal(2);
    assert Text.IntToString(0) == "0";
  }

  /** `XFUT` is refused while token 2 holds its ticker. */
  lemma ListingXRefused(newId: string -> Id)
    ensures Upsert(map["2" := HeldDoc], ListingX, newId) == (map["2" := HeldDoc], false)
  {
    ExampleFacts();
    var docs := map["2" := HeldDoc];
    assert "2" in docs && "2" != TokenOf(ListingX) && docs["2"].fyersSymbol == ListingX.ticker;
  }

  /** `YFUT` renames the document of its own token. */
  lemma ListingYRenames(newId: string -> Id)
    ensures Upsert(map["2" := HeldDoc], ListingY, newId) == (map["2" := Refresh(HeldDoc, ListingY, 0)], true)
  {
    ExampleFacts();
    var docs := map["2" := HeldDoc];
    assert !TickerTaken(docs, ListingY) by {
      forall k | k in docs && k != TokenOf(ListingY) ensures false {
      }
    }
    assert "2" in docs && docs["2"] == HeldDoc;
    assert docs["2" := Refresh(HeldDoc, ListingY, 0)] == map["2" := Refresh(HeldDoc, ListingY, 0)];
  }

  /** The first reading: `XFUT` is refused because token 2 still holds its ticker; `YFUT` then renames that document. */
  lemma FirstReading(newId: string -> Id)
    ensures var first := RunFeed(map["2" := HeldDoc], [ListingX, ListingY], newId);
      first.processed == 1 && first.docs == map["2" := Refresh(HeldDoc, ListingY, 0)]
  {
    ExampleFacts();
    RunFeedPair(map["2" := HeldDoc], ListingX, ListingY, newId);
    ListingXRefused(newId);
    ListingYRenames(newId);
  }

  /** Once renamed, the document no longer holds `XFUT`, so `XFUT` is inserted under token 1. */
  lemma ListingXInserted(newId: string -> Id)
    ensures var m1 := map["2" := Refresh(HeldDoc, ListingY, 0)];
      Upsert(m1, ListingX, newId) == (m1["1" := Inserted(newId("1"), ListingX, 0)], true)
  {
    ExampleFacts();
    var m1 := map["2" := Refresh(HeldDoc, ListingY, 0)];
    assert !TickerTaken(m1, ListingX) by {
      forall k | k in m1 && k != TokenOf(ListingX) ensures m1[k].fyersSymbol != ListingX.ticker {
        assert k == "2";
      }
    }
  }

  /** `YFUT` is written again over its own document, which holds its ticker alone. */
  lemma ListingYRewritten(newId: string -> Id)
    ensures var m2 := map["2" := Refresh(HeldDoc, ListingY, 0), "1" := Inserted(newId("1"), ListingX, 0)];
      Upsert(m2, ListingY, newId).1
  {
    ExampleFacts();
    var m2 := map["2" := Refresh(HeldDoc, ListingY, 0), "1" := Inserted(newId("1"), ListingX, 0)];
    assert !TickerTaken(m2, ListingY) by {
      forall k | k in m2 && k != TokenOf(ListingY) ensures m2[k].fyersSymbol != ListingY.ticker {
        assert k == "1";
      }
    }
  }

  /** The second reading: nothing holds `XFUT` any more, so both listings are written. */
  lemma SecondReading(newId: string -> Id)
    ensures RunFeed(map["2" := Refresh(HeldDoc, ListingY, 0)], [ListingX, ListingY], newId).processed == 2
  {
    ExampleFacts();
    var m1 := map["2" := Refresh(HeldDoc, ListingY, 0)];
    RunFeedPair(m1, ListingX, ListingY, newId);
    ListingXInserted(newId);
    assert m1["1" := Inserted(newId("1"), ListingX, 0)]
      == map["2" := Refresh(HeldDoc, ListingY, 0), "1" := Inserted(newId("1"), ListingX, 0)];
    ListingYRewritten(newId);
  }

  /**
   * The second reading can write what the first could not: a listing whose
   * ticker is held by a document that a later listing renames fails the first
   * time and succeeds the second.
   */
  lemma RenameUnblocksSecondRun(newId: string -> Id)
    ensures var first := RunFeed(map["2" := HeldDoc], [ListingX, ListingY], newId);
      first.processed == 1 && RunFeed(first.docs, [ListingX, ListingY], newId).processed == 2
  {
    FirstReading(newId);
    SecondReading(newId);
  }

  // ---------------------------------------------------------------------------
  // Cleanup

  /** `cleanupExpiredInstruments`: the documents whose expiry is not before the start of today. */
  function Unexpired(docs: map<string, Instrument>, todayStart: int): (r: map<string, Instrument>)
    ensures forall k :: k in r <==> k in docs && docs[k].expiry >= todayStart
    ensures forall k :: k in r ==> r[k] == docs[k]
  {
    map k | k in docs && docs[k].expiry >= todayStart :: docs[k]
  }

  /** The whole job: cleanup, then the five feeds in order; a feed that cannot be fetched is skipped. */
  function RunAll(docs: map<string, Instrument>, urls: seq<string>, fetch: string -> Option<seq<FeedEntry>>,
                  newId: string -> Id): (r: map<string, Instrument>)
    ensures docs.Keys <= r.Keys
    decreases |urls|
  {
    if urls == [] then docs
    else
      var before := RunAll(docs, urls[..|urls| - 1], fetch, newId);
      match fetch(urls[|urls| - 1])
      case None => before
      case Some(entries) => RunFeed(before, entries, newId).docs
  }

  /** The collection the job works on. */
  class InstrumentCatalog {
    var docs: map<string, Instrument>

    constructor (docs: map<string, Instrument>)
      ensures this.docs == docs
    {
      this.docs := docs;
    }

    /** `cleanupExpiredInstruments`: one `deleteMany` of the documents that expired before today. */
    method CleanupExpired(todayStart: int)
      modifies this
      ensures docs == Unexpired(old(docs), todayStart)
    {
      docs := Unexpired(docs, todayStart);
    }

    /** `fetchAndProcessUrl`: the listings are upserted one by one; a failed one is counted out and skipped. */
    method FetchAndProcess(feed: Option<seq<FeedEntry>>, newId: string -> Id) returns (processed: nat, futures: nat)
      modifies this
      ensures feed.None? ==> docs == old(docs) && processed == 0 && futures == 0
      ensures feed.Some? ==> FeedRun(docs, processed, futures) == RunFeed(old(docs), feed.value, newId)
    {
      processed, futures := 0, 0;
      if feed.None? {
        return;
      }
      var entries := feed.value;
      var i := 0;
      while i < |entries|
        invariant 0 <= i <= |entries|
        invariant FeedRun(docs, processed, futures) == RunFeed(old(docs), entries[..i], newId)
      {
        processed, futures := ProcessListing(entries[i], newId, processed, futures);
        RunFeedSnoc(old(docs), entries, i, newId);
        i := i + 1;
      }
      assert entries[..i] == entries;
    }

    /** One turn of the loop over a feed: a future is counted and upserted, anything else passed over. */
    method ProcessListing(e: FeedEntry, newId: string -> Id, processed0: nat, futures0: nat) returns (processed: nat, futures: nat)
      modifies this
      ensures FeedRun(docs, processed, futures) == Next(FeedRun(old(docs), processed0, futures0), e, newId)
    {
      processed, futures := processed0, futures0;
      if IsFuture(e.ticker) {
        futures := futures + 1;
        var ok := UpsertListing(e, newId);
        if ok {
          processed := processed + 1;
        }
      }
    }

    /** `findOneAndUpdate` with `upsert` for one listing, inside its own `try`: whether it succeeded. */
    method UpsertListing(e: FeedEntry, newId: string -> Id) returns (ok: bool)
      modifies this
      ensures (docs, ok) == Upsert(old(docs), e, newId)
    {
      var up := Upsert(docs, e, newId);
      docs, ok := up.0, up.1;
    }

    /** `main`: cleanup first, then each feed in turn. */
    method UpdateInstruments(todayStart: int, fetch: string -> Option<seq<FeedEntry>>, newId: string -> Id)
      modifies this
      ensures docs == RunAll(Unexpired(old(docs), todayStart), FeedUrls, fetch, newId)
    {
      CleanupExpired(todayStart);
      ghost var start := docs;
      var u := 0;
      while u < |FeedUrls|
        invariant 0 <= u <= |FeedUrls|
        invariant docs == RunAll(start, FeedUrls[..u], fetch, newId)
      {
        assert FeedUrls[..u + 1][..u] == FeedUrls[..u];
        var _, _ := FetchAndProcess(fetch(FeedUrls[u]), newId);
        u := u + 1;
      }
      assert FeedUrls[..u] == FeedUrls;
    }
  }

  /** An instrument that has not expired survives the whole job, whatever the feeds say. */
  lemma UnexpiredSurvives(docs: map<string, Instrument>, todayStart: int, fetch: string -> Option<seq<FeedEntry>>,
                          newId: string -> Id, k: string)
    requires k in docs && docs[k].expiry >= todayStart
    ensures k in RunAll(Unexpired(docs, todayStart), FeedUrls, fetch, newId)
  {
  }
}
