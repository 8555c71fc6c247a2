/**
 * The strategy table: which strategies it shows for the store's search
 * query and status filter, the request its status switch sends, and the
 * webhook template its copy button puts on the clipboard.
 */
module StrategyTable {
  import opened Wrappers
  import opened Models
  import opened JsValues
  import Seqs
  import Text
  import StrategyStore
  import FrontendStrategyApi
  import StrategyValidation

  /** A row is shown when its name or description contains the query (ignoring case) and its status passes the filter. */
  predicate Shown(s: Strategy, query: string, filter: StrategyStore.StatusFilter) {
    (Text.ContainsIgnoringCase(s.name, query) || Text.ContainsIgnoringCase(s.description, query))
    && (filter == StrategyStore.AllStatuses || filter == StrategyStore.OnlyStatus(s.status))
  }

  /** `filteredStrategies`: the shown rows, in the order received. */
  function FilteredStrategies(strategies: seq<Strategy>, query: string, filter: StrategyStore.StatusFilter): (r: seq<Strategy>)
    ensures forall s :: s in r <==> s in strategies && Shown(s, query, filter)
    ensures Seqs.IsSubsequence(r, strategies)
    ensures forall s :: multiset(r)[s] == if Shown(s, query, filter) then multiset(strategies)[s] else 0
  {
    Seqs.FilterIsSubsequence(strategies, (s: Strategy) => Shown(s, query, filter));
    Seqs.FilterCounts(strategies, (s: Strategy) => Shown(s, query, filter));
    Seqs.Filter(strategies, (s: Strategy) => Shown(s, query, filter))
  }

  /** No query and no status filter show every row. */
  lemma EverythingShownByDefault(strategies: seq<Strategy>)
    ensures FilteredStrategies(strategies, "", StrategyStore.AllStatuses) == strategies
  {
    forall s | s in strategies ensures Shown(s, "", StrategyStore.AllStatuses) {
      Text.ContainsEmpty(Text.ToLower(s.name));
    }
    Seqs.FilterKeepsAll(strategies, (s: Strategy) => Shown(s, "", StrategyStore.AllStatuses));
  }

  /** One row counts once under "all" exactly when it counts once under its own status. */
  lemma ShownUnderOneStatus(s: Strategy, query: string)
    ensures (if Shown(s, query, StrategyStore.AllStatuses) then 1 else 0)
      == (if Shown(s, query, StrategyStore.OnlyStatus(Running)) then 1 else 0)
       + (if Shown(s, query, StrategyStore.OnlyStatus(Stopped)) then 1 else 0)
  {
    if s.status == Running {
      assert StrategyStore.OnlyStatus(s.status) != StrategyStore.OnlyStatus(Stopped);
    } else {
      assert StrategyStore.OnlyStatus(s.status) != StrategyStore.OnlyStatus(Running);
    }
  }

  /** For one query, the running rows and the stopped rows together are the rows shown under "all". */
  lemma {:induction false} StatusFiltersSplitRows(strategies: seq<Strategy>, query: string)
    ensures |FilteredStrategies(strategies, query, StrategyStore.AllStatuses)|
      == |FilteredStrategies(strategies, query, StrategyStore.OnlyStatus(Running))|
       + |FilteredStrategies(strategies, query, StrategyStore.OnlyStatus(Stopped))|
    decreases |strategies|
  {
    if strategies != [] {
      var n := |strategies| - 1;
      var all := (s: Strategy) => Shown(s, query, StrategyStore.AllStatuses);
      var running := (s: Strategy) => Shown(s, query, StrategyStore.OnlyStatus(Running));
      var stopped := (s: Strategy) => Shown(s, query, StrategyStore.OnlyStatus(Stopped));
      StatusFiltersSplitRows(strategies[..n], query);
      Seqs.FilterSnoc(strategies, n, all);
      Seqs.FilterSnoc(strategies, n, running);
      Seqs.FilterSnoc(strategies, n, stopped);
      ShownUnderOneStatus(strategies[n], query);
      assert strategies[..n + 1] == strategies;
      assert |Seqs.Filter(strategies, all)| == |Seqs.Filter(strategies[..n], all)| + (if all(strategies[n]) then 1 else 0);
      assert |Seqs.Filter(strategies, running)| == |Seqs.Filter(strategies[..n], running)| + (if running(strategies[n]) then 1 else 0);
      assert |Seqs.Filter(strategies, stopped)| == |Seqs.Filter(strategies[..n], stopped)| + (if stopped(strategies[n]) then 1 else 0);
    }
  }

  /** The status the switch asks for: running when switched on, stopped when switched off. */
  function ToggledStatus(checked: bool): StrategyStatus {
    if checked then Running else Stopped
  }

  /** `handleStatusToggle`: the strategy's id and the update body carrying only the new status. */
  function ToggleRequest(s: Strategy, checked: bool): (r: (Id, StrategyValidation.StrategyInput))
    ensures r.0 == s.id
    ensures r.1.status.Str? && ParseStatus(r.1.status.s) == Some(ToggledStatus(checked))
    ensures r.1.status == Str(if checked then "running" else "stopped")
  {
    StatusNameRoundTrip(ToggledStatus(checked), StatusName(ToggledStatus(checked)));
    (s.id, FrontendStrategyApi.UpdatePayload(FrontendStrategyApi.UpdateData(None, None, None, None, None,
                                                                            Some(StatusName(ToggledStatus(checked))))))
  }

  /** The server accepts the switch's body for a stored strategy, and stores just the new status. */
  lemma ToggleAccepted(s: Strategy, checked: bool, strategies: map<Id, Strategy>, instruments: seq<Instrument>,
                       clock: StrategyValidation.Clock)
    requires s.id in strategies
    ensures StrategyValidation.ValidateUpdate(ToggleRequest(s, checked).1, s.id, strategies, instruments, clock)
      == Ok(StrategyValidation.Validation(true, None, StrategyValidation.NoFields.(status := Some(ToggledStatus(checked)))))
  {
    FrontendStrategyApi.StatusOnlyUpdate(StatusName(ToggledStatus(checked)));
  }

  /** The template around the quoted id: the opening brace and key, then the two order placeholders. */
  const SyntaxOpen: string := "{\n  \"strategyId\": "
  const SyntaxRest: string := ",\n  \"qty\": \"{{strategy.order.contracts}}\",\n  \"side\": \"{{strategy.order.action}}\"\n}"
  const SyntaxHead: string := SyntaxOpen + "\""
  const SyntaxTail: string := "\"" + SyntaxRest

  /** `handleCopySyntax`: the two-space-indented JSON of the strategy id and the order placeholders. */
  function CopySyntax(strategyId: string): string {
    SyntaxOpen + Text.JsonQuote(strategyId) + SyntaxRest
  }

  /** Reads the strategy id back out of a copied template; `None` for any other text. */
  function CopiedStrategyId(text: string): Option<string> {
    if |text| < |SyntaxHead| + |SyntaxTail| then None
    else if text[..|SyntaxHead|] != SyntaxHead || text[|text| - |SyntaxTail|..] != SyntaxTail then None
    else Text.Unescape(text[|SyntaxHead|..|text| - |SyntaxTail|])
  }

  /** Where the parts of `head + middle + tail` sit. */
  lemma FramedParts(head: string, middle: string, tail: string)
    ensures var t := head + middle + tail;
      |t| == |head| + |middle| + |tail| && t[..|head|] == head && t[|t| - |tail|..] == tail
      && t[|head|..|t| - |tail|] == middle
  {
  }

  /** The template is the head, the escaped id and the tail. */
  lemma CopySyntaxParts(strategyId: string)
    ensures CopySyntax(strategyId) == SyntaxHead + Text.Escape(strategyId) + SyntaxTail
  {
    Regroup(SyntaxOpen, "\"", Text.Escape(strategyId), "\"", SyntaxRest);
  }

  /** Concatenation regrouped around a middle part. */
  lemma Regroup(a: string, b: string, m: string, c: string, d: string)
    ensures a + (b + m + c) + d == (a + b) + m + (c + d)
  {
  }

  /** The copied template names its strategy: reading it back gives the id. */
  lemma CopySyntaxRoundTrip(strategyId: string)
    ensures CopiedStrategyId(CopySyntax(strategyId)) == Some(strategyId)
  {
    Text.EscapeRoundTrip(strategyId);
    CopySyntaxParts(strategyId);
    FramedParts(SyntaxHead, Text.Escape(strategyId), SyntaxTail);
  }

  /** Different strategies get different templates. */
  lemma CopySyntaxInjective(strategyId: string, other: string)
    requires CopySyntax(strategyId) == CopySyntax(other)
    ensures strategyId == other
  {
    CopySyntaxRoundTrip(strategyId);
    CopySyntaxRoundTrip(other);
  }
}
