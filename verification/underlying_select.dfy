/**
 * The searchable underlying picker: the prioritised underlyings that are on
 * offer come first, in priority order, then every other option in its own
 * order; the search box keeps the options containing the search text,
 * ignoring case.
 */
module UnderlyingSelect {
  import Seqs
  import Text

  /** The prioritised entries that are among the options, in priority order. */
  function PrioritizedPresent(options: seq<string>, prioritizedOptions: seq<string>): (r: seq<string>)
    ensures forall i :: 0 <= i < |r| ==> r[i] in options && r[i] in prioritizedOptions
    ensures Seqs.IsSubsequence(r, prioritizedOptions)
    ensures forall x :: multiset(r)[x] == if x in options then multiset(prioritizedOptions)[x] else 0
  {
    Seqs.FilterIsSubsequence(prioritizedOptions, (o: string) => o in options);
    Seqs.FilterCounts(prioritizedOptions, (o: string) => o in options);
    Seqs.Filter(prioritizedOptions, (o: string) => o in options)
  }

  /** `sortedOptions`: the prioritised entries on offer, then the options not among them. */
  function SortedOptions(options: seq<string>, prioritizedOptions: seq<string>): seq<string>
  {
    var prioritized := PrioritizedPresent(options, prioritizedOptions);
    prioritized + Seqs.Filter(options, (o: string) => o !in prioritized)
  }

  /**
   * The sorted list is the prioritised entries on offer in priority order
   * (entries not on offer are dropped), followed by the other options in
   * their own order; it offers exactly the options.
   */
  lemma SortedLayout(options: seq<string>, prioritizedOptions: seq<string>)
    ensures var r := SortedOptions(options, prioritizedOptions);
      var k := |PrioritizedPresent(options, prioritizedOptions)|;
      && k <= |r|
      && r[..k] == Seqs.Filter(prioritizedOptions, (o: string) => o in options)
      && r[k..] == Seqs.Filter(options, (o: string) => o !in prioritizedOptions)
    ensures forall x :: x in SortedOptions(options, prioritizedOptions) <==> x in options
  {
    var p := PrioritizedPresent(options, prioritizedOptions);
    var r := SortedOptions(options, prioritizedOptions);
    assert r[..|p|] == p;
    FilterAgrees(options, (o: string) => o !in p, (o: string) => o !in prioritizedOptions);
    assert r[|p|..] == Seqs.Filter(options, (o: string) => o !in prioritizedOptions);
    forall x | x in options ensures x in r {
      if x !in p {
        assert x in Seqs.Filter(options, (o: string) => o !in p);
      }
    }
  }

  /** Two tests that agree on every element of `s` keep the same elements. */
  lemma {:induction false} FilterAgrees(s: seq<string>, p: string -> bool, q: string -> bool)
    requires forall x :: x in s ==> p(x) == q(x)
    ensures Seqs.Filter(s, p) == Seqs.Filter(s, q)
    decreases |s|
  {
    if s != [] {
      FilterAgrees(s[1..], p, q);
    }
  }

  /** With neither list repeating an entry, the sorted list is a permutation of the options. */
  lemma SortedIsPermutation(options: seq<string>, prioritizedOptions: seq<string>)
    requires Seqs.NoDuplicates(options) && Seqs.NoDuplicates(prioritizedOptions)
    ensures multiset(SortedOptions(options, prioritizedOptions)) == multiset(options)
  {
    var inOptions := (o: string) => o in options;
    var p := PrioritizedPresent(options, prioritizedOptions);
    var notPrioritized := (o: string) => o !in p;
    var rest := Seqs.Filter(options, notPrioritized);
    forall x
      ensures multiset(SortedOptions(options, prioritizedOptions))[x] == multiset(options)[x]
    {
      Seqs.FilterMultiset(prioritizedOptions, inOptions, x);
      Seqs.FilterMultiset(options, notPrioritized, x);
      Seqs.NoDuplicatesCount(prioritizedOptions, x);
      Seqs.NoDuplicatesCount(options, x);
      assert x in p <==> x in prioritizedOptions && x in options;
      assert multiset(p + rest) == multiset(p) + multiset(rest);
    }
  }

  /** `filteredOptions`: the sorted options whose text contains the search text, ignoring case, in order. */
  function FilteredOptions(sortedOptions: seq<string>, search: string): (r: seq<string>)
    ensures forall x :: x in r <==> x in sortedOptions && Text.ContainsIgnoringCase(x, search)
    ensures Seqs.IsSubsequence(r, sortedOptions)
    ensures forall x :: multiset(r)[x] == if Text.ContainsIgnoringCase(x, search) then multiset(sortedOptions)[x] else 0
  {
    Seqs.FilterIsSubsequence(sortedOptions, (o: string) => Text.ContainsIgnoringCase(o, search));
    Seqs.FilterCounts(sortedOptions, (o: string) => Text.ContainsIgnoringCase(o, search));
    Seqs.Filter(sortedOptions, (o: string) => Text.ContainsIgnoringCase(o, search))
  }

  /** An empty search keeps every option. */
  lemma EmptySearchKeepsAll(sortedOptions: seq<string>)
    ensures FilteredOptions(sortedOptions, "") == sortedOptions
  {
    forall x | x in sortedOptions ensures Text.ContainsIgnoringCase(x, "") {
      Text.ContainsEmpty(Text.ToLower(x));
    }
    Seqs.FilterKeepsAll(sortedOptions, (o: string) => Text.ContainsIgnoringCase(o, ""));
  }
}
