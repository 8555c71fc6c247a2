/**
 * The strategy form: the checks its submit handler makes before handing
 * the values on (it records an error message instead when one fails), and
 * the order in which it offers underlyings.
 */
module StrategyForm {
  import opened Wrappers
  import Seqs
  import BrokerStore
  import FrontendStrategyApi
  import UnderlyingSelect

  const PrioritizedUnderlyings: seq<string> := ["NIFTY", "BANKNIFTY", "FINNIFTY", "GOLDM", "SILVERM"]

  const SelectionMissing: string := "Please select an underlying, exchange, and expiry."
  const BrokerMissing: string := "Please select a broker."
  const NoActiveBrokers: string := "No active brokers available. Please add and activate a broker first."
  /** The value of the broker menu when there is no broker to pick. */
  const NoBrokersChoice: string := "no-brokers"

  /** The instrument in the form values. */
  datatype FormSymbol = FormSymbol(name: string, id: string, fyersSymbol: string, underlying: string, exchange: string)

  /**
   * The values the form submits. react-hook-form hands them on only once the
   * form's schema has parsed them, so the instrument carries every field the
   * schema asks for; `SchemaAccepts` states the rest of the schema.
   */
  datatype FormValues = FormValues(name: string, description: string, symbol: FormSymbol,
                                   rollOverOn: Option<FrontendStrategyApi.CalendarDate>, broker: string)

  /** The pickers' state: the chosen underlying and exchange (empty when none) and whether an expiry is chosen. */
  datatype Selection = Selection(underlying: string, exchange: string, expiryChosen: bool)

  predicate SelectionComplete(s: Selection) {
    s.underlying != "" && s.exchange != "" && s.expiryChosen
  }

  /** The schema's length checks: a name, a description and a broker of at least one character. */
  predicate SchemaAccepts(v: FormValues) {
    |v.name| >= 1 && |v.description| >= 1 && |v.broker| >= 1
  }

  predicate BrokerChosen(v: FormValues) {
    v.broker != "" && v.broker != NoBrokersChoice
  }

  /**
   * Past the schema the broker is never empty, so the only broker value the
   * submit check still refuses is the "no brokers" placeholder.
   */
  lemma SchemaLeavesOnlyPlaceholder(v: FormValues)
    requires SchemaAccepts(v)
    ensures BrokerChosen(v) <==> v.broker != NoBrokersChoice
  {
  }

  /**
   * The message of the first failing check of `handleSubmit`, or `None`: the
   * pickers (skipped when editing), then the broker choice, then whether any
   * broker is active.
   */
  function SubmitError(values: FormValues, selection: Selection, isEditMode: bool, activeBrokers: nat): (r: Option<string>)
    ensures !isEditMode && !SelectionComplete(selection) ==> r == Some(SelectionMissing)
    ensures r == Some(BrokerMissing) <==> (isEditMode || SelectionComplete(selection)) && !BrokerChosen(values)
    ensures r == Some(NoActiveBrokers) <==>
      (isEditMode || SelectionComplete(selection)) && BrokerChosen(values) && activeBrokers == 0
    ensures r.None? <==> (isEditMode || SelectionComplete(selection)) && BrokerChosen(values) && activeBrokers > 0
  {
    if !isEditMode && !SelectionComplete(selection) then Some(SelectionMissing)
    else if !BrokerChosen(values) then Some(BrokerMissing)
    else if activeBrokers == 0 then Some(NoActiveBrokers)
    else None
  }

  /** The values handed on: the roll-over date dropped when the roll-over switch is off. */
  function Submitted(values: FormValues, rollOverEnabled: bool): (r: FormValues)
    ensures r.rollOverOn == (if rollOverEnabled then values.rollOverOn else None)
    ensures r.(rollOverOn := values.rollOverOn) == values
  {
    values.(rollOverOn := if rollOverEnabled then values.rollOverOn else None)
  }

  /** The form's own state: the error shown, and every set of values handed to `onSubmit`, in order. */
  class FormState {
    var formError: string
    var submissions: seq<FormValues>

    constructor()
      ensures formError == "" && submissions == []
    {
      formError := "";
      submissions := [];
    }

    /**
     * `handleSubmit`, which the form calls only with values its schema
     * accepts: the first failing check sets the error; otherwise the error is
     * cleared and the values handed on.
     */
    method HandleSubmit(values: FormValues, selection: Selection, isEditMode: bool, rollOverEnabled: bool,
                        brokers: BrokerStore.Store)
      requires SchemaAccepts(values)
      modifies this
      ensures var err := SubmitError(values, selection, isEditMode, |old(brokers.GetActiveBrokers())|);
        && (err.Some? ==> formError == err.value && submissions == old(submissions))
        && (err.None? ==> formError == "" && submissions == old(submissions) + [Submitted(values, rollOverEnabled)])
    {
      if !isEditMode && (selection.underlying == "" || selection.exchange == "" || !selection.expiryChosen) {
        formError := SelectionMissing;
        return;
      }
      if values.broker == "" || values.broker == NoBrokersChoice {
        formError := BrokerMissing;
        return;
      }
      var activeBrokers := brokers.GetActiveBrokers();
      if |activeBrokers| == 0 {
        formError := NoActiveBrokers;
        return;
      }
      formError := "";
      submissions := submissions + [Submitted(values, rollOverEnabled)];
    }
  }

  /** The argument the add dialog passes on to the create request. */
  function CreateDataOf(values: FormValues): (r: FrontendStrategyApi.CreateData)
    ensures r.symbol.id == values.symbol.id && r.rollOverOn == values.rollOverOn
  {
    FrontendStrategyApi.CreateData(values.name, values.description,
                                   FrontendStrategyApi.SymbolChoice(values.symbol.name, values.symbol.id),
                                   values.broker, values.rollOverOn)
  }

  /** With the roll-over switch off the create request carries no roll-over date; with it on, the chosen date. */
  lemma SwitchDecidesRollOver(values: FormValues, rollOverEnabled: bool)
    requires values.rollOverOn.Some? ==> FrontendStrategyApi.ValidCalendarDate(values.rollOverOn.value)
    ensures var body := FrontendStrategyApi.CreatePayload(CreateDataOf(Submitted(values, rollOverEnabled)));
      && (!rollOverEnabled ==> body.rollOverOn.Undefined?)
      && (rollOverEnabled && values.rollOverOn.Some? ==>
            body.rollOverOn.Str? && FrontendStrategyApi.ParseFormatted(body.rollOverOn.s) == values.rollOverOn)
  {
  }

  /** Every name of `first`, then the other underlyings in their order. */
  function NamesFirst(first: seq<string>, underlyings: seq<string>): seq<string> {
    first + Seqs.Filter(underlyings, (u: string) => u !in first)
  }

  /** `sortedUnderlyings`. */
  function SortedUnderlyings(underlyings: seq<string>): seq<string> {
    NamesFirst(PrioritizedUnderlyings, underlyings)
  }

  lemma {:induction false} FilterNoDuplicates(s: seq<string>, p: string -> bool)
    requires Seqs.NoDuplicates(s)
    ensures Seqs.NoDuplicates(Seqs.Filter(s, p))
    decreases |s|
  {
    if s != [] {
      assert Seqs.NoDuplicates(s[1..]);
      FilterNoDuplicates(s[1..], p);
      assert s[0] !in s[1..];
      assert s[0] !in Seqs.Filter(s[1..], p);
    }
  }

  /** The prioritised names come first; the rest is the other underlyings, in order. */
  lemma SortedUnderlyingsParts(underlyings: seq<string>)
    ensures var r := SortedUnderlyings(underlyings);
      && |r| >= |PrioritizedUnderlyings| && r[..|PrioritizedUnderlyings|] == PrioritizedUnderlyings
      && r[|PrioritizedUnderlyings|..] == Seqs.Filter(underlyings, (u: string) => u !in PrioritizedUnderlyings)
  {
    var r := SortedUnderlyings(underlyings);
    assert r[..|PrioritizedUnderlyings|] == PrioritizedUnderlyings;
  }

  /** For distinct underlyings, the list names each one once. */
  lemma SortedUnderlyingsDistinct(underlyings: seq<string>)
    requires Seqs.NoDuplicates(underlyings)
    ensures Seqs.NoDuplicates(SortedUnderlyings(underlyings))
  {
    var n := |PrioritizedUnderlyings|;
    var rest := Seqs.Filter(underlyings, (u: string) => u !in PrioritizedUnderlyings);
    var r := SortedUnderlyings(underlyings);
    SortedUnderlyingsParts(underlyings);
    FilterNoDuplicates(underlyings, (u: string) => u !in PrioritizedUnderlyings);
    forall i, j | 0 <= i < j < |r| ensures r[i] != r[j] {
      if j >= n {
        assert r[j] == rest[j - n];
        assert r[j] !in PrioritizedUnderlyings;
        if i >= n {
          assert r[i] == rest[i - n];
        } else {
          assert r[i] == PrioritizedUnderlyings[i];
        }
      }
    }
  }

  /**
   * The list starts with all prioritised names (offered even when no
   * instrument has them), then holds every other underlying in order; it
   * names every underlying, and for distinct underlyings names each one once.
   */
  lemma SortedUnderlyingsLayout(underlyings: seq<string>)
    ensures var r := SortedUnderlyings(underlyings);
      && |r| >= |PrioritizedUnderlyings| && r[..|PrioritizedUnderlyings|] == PrioritizedUnderlyings
      && Seqs.IsSubsequence(r[|PrioritizedUnderlyings|..], underlyings)
      && (forall x :: x in r <==> x in PrioritizedUnderlyings || x in underlyings)
    ensures Seqs.NoDuplicates(underlyings) ==> Seqs.NoDuplicates(SortedUnderlyings(underlyings))
  {
    var p := (u: string) => u !in PrioritizedUnderlyings;
    SortedUnderlyingsParts(underlyings);
    Seqs.FilterIsSubsequence(underlyings, p);
    if Seqs.NoDuplicates(underlyings) {
      SortedUnderlyingsDistinct(underlyings);
    }
  }

  /** A filter that keeps nothing of `s` gives the empty list. */
  lemma {:induction false} FilterDropsAll(s: seq<string>, p: string -> bool)
    requires forall x :: x in s ==> !p(x)
    ensures Seqs.Filter(s, p) == []
    decreases |s|
  {
    if s != [] {
      FilterDropsAll(s[1..], p);
    }
  }

  /** The picker, given a names-first list and the same names as priorities, keeps the list exactly as it is. */
  lemma PickerKeepsNamesFirst(first: seq<string>, underlyings: seq<string>)
    ensures UnderlyingSelect.SortedOptions(NamesFirst(first, underlyings), first) == NamesFirst(first, underlyings)
  {
    var options := NamesFirst(first, underlyings);
    var notFirst := (o: string) => o !in first;
    var rest := Seqs.Filter(underlyings, notFirst);
    Seqs.FilterKeepsAll(first, (o: string) => o in options);
    assert UnderlyingSelect.PrioritizedPresent(options, first) == first;
    Seqs.FilterAppend(first, rest, notFirst);
    FilterDropsAll(first, notFirst);
    Seqs.FilterKeepsAll(rest, notFirst);
    assert Seqs.Filter(options, notFirst) == rest;
  }

  /** The form's picker shows the underlyings in exactly the form's order. */
  lemma PickerKeepsFormOrder(underlyings: seq<string>)
    ensures UnderlyingSelect.SortedOptions(SortedUnderlyings(underlyings), PrioritizedUnderlyings)
      == SortedUnderlyings(underlyings)
  {
    PickerKeepsNamesFirst(PrioritizedUnderlyings, underlyings);
  }
}
