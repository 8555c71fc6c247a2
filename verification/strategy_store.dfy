/**
 * The browser's strategy store: a list of strategy cards with a search
 * query and a status filter. Each action replaces a field with a value
 * computed from the old one.
 *
 * The cards are matched by their `_id` field (`recordId` here), which the
 * card type does not declare: a card carries it only if the object it was
 * built from did.
 */
module StrategyStore {
  import opened Wrappers
  import opened Models
  import Seqs
  import FrontendStrategyApi

  /** `"all" | "running" | "stopped"`. */
  datatype StatusFilter = AllStatuses | OnlyStatus(status: StrategyStatus)

  /** The instrument kind shown on a card. */
  datatype SymbolKind = FutureKind | OptionKind

  /** A strategy card; times are milliseconds. */
  datatype Card = Card(id: string, recordId: Option<string>, name: string, description: string,
                       status: StrategyStatus, symbol: FrontendStrategyApi.SymbolChoice, symbolKind: SymbolKind,
                       rollOverOn: int, createdAt: int, updatedAt: int)

  /** The argument of `addStrategy`: a card without its id and times. */
  datatype CardDraft = CardDraft(recordId: Option<string>, name: string, description: string, status: StrategyStatus,
                                 symbol: FrontendStrategyApi.SymbolChoice, symbolKind: SymbolKind, rollOverOn: int)

  /** The argument of `updateStrategy`: the fields to overwrite. */
  datatype CardPatch = CardPatch(id: Option<string>, name: Option<string>, description: Option<string>,
                                 status: Option<StrategyStatus>, symbol: Option<FrontendStrategyApi.SymbolChoice>,
                                 symbolKind: Option<SymbolKind>, rollOverOn: Option<int>, createdAt: Option<int>)

  const NoChanges: CardPatch := CardPatch(None, None, None, None, None, None, None, None)

  /** A given field overrides the old value. */
  function Pick<T>(given: Option<T>, current: T): T {
    if given.Some? then given.value else current
  }

  /** The card `addStrategy` appends: the draft with a fresh id, created and updated now. */
  function NewCard(draft: CardDraft, newId: string, now: int): (r: Card)
    ensures r.id == newId && r.recordId == draft.recordId && r.createdAt == now && r.updatedAt == now
    ensures r.name == draft.name && r.description == draft.description && r.status == draft.status
    ensures r.symbol == draft.symbol && r.symbolKind == draft.symbolKind && r.rollOverOn == draft.rollOverOn
  {
    Card(newId, draft.recordId, draft.name, draft.description, draft.status, draft.symbol, draft.symbolKind,
         draft.rollOverOn, now, now)
  }

  /** `{ ...strategy, ...patch, updatedAt: now }`. */
  function Merge(c: Card, patch: CardPatch, now: int): Card {
    Card(Pick(patch.id, c.id), c.recordId, Pick(patch.name, c.name), Pick(patch.description, c.description),
         Pick(patch.status, c.status), Pick(patch.symbol, c.symbol), Pick(patch.symbolKind, c.symbolKind),
         Pick(patch.rollOverOn, c.rollOverOn), Pick(patch.createdAt, c.createdAt), now)
  }

  predicate HasRecordId(c: Card, id: string) {
    c.recordId == Some(id)
  }

  /** The list after `updateStrategy(id, patch)`. */
  function Updated(cards: seq<Card>, id: string, patch: CardPatch, now: int): seq<Card> {
    Seqs.Map(cards, (c: Card) => if HasRecordId(c, id) then Merge(c, patch, now) else c)
  }

  /** The list after `deleteStrategy(id)`. */
  function Deleted(cards: seq<Card>, id: string): seq<Card> {
    Seqs.Filter(cards, (c: Card) => !HasRecordId(c, id))
  }

  class Store {
    var strategies: seq<Card>
    var searchQuery: string
    var statusFilter: StatusFilter

    /** The initial state: the sample cards, no search, every status. */
    constructor(sampleCards: seq<Card>)
      ensures strategies == sampleCards && searchQuery == "" && statusFilter == AllStatuses
    {
      strategies := sampleCards;
      searchQuery := "";
      statusFilter := AllStatuses;
    }

    /** `addStrategy`. */
    method AddStrategy(draft: CardDraft, newId: string, now: int)
      modifies this`strategies
      ensures strategies == old(strategies) + [NewCard(draft, newId, now)]
    {
      strategies := strategies + [NewCard(draft, newId, now)];
    }

    /** `updateStrategy`. */
    method UpdateStrategy(id: string, patch: CardPatch, now: int)
      modifies this`strategies
      ensures strategies == Updated(old(strategies), id, patch, now)
    {
      strategies := Updated(strategies, id, patch, now);
    }

    /** `deleteStrategy`. */
    method DeleteStrategy(id: string)
      modifies this`strategies
      ensures strategies == Deleted(old(strategies), id)
    {
      strategies := Deleted(strategies, id);
    }

    /** `setSearchQuery`: the query alone changes. */
    method SetSearchQuery(query: string)
      modifies this`searchQuery
      ensures searchQuery == query
    {
      searchQuery := query;
    }

    /** `setStatusFilter`: the filter alone changes. */
    method SetStatusFilter(filter: StatusFilter)
      modifies this`statusFilter
      ensures statusFilter == filter
    {
      statusFilter := filter;
    }
  }

  /** Adding keeps every existing card in place and appends exactly one. */
  lemma AddAppendsOne(cards: seq<Card>, draft: CardDraft, newId: string, now: int)
    ensures var r := cards + [NewCard(draft, newId, now)];
      |r| == |cards| + 1 && r[..|cards|] == cards && r[|cards|].id == newId
  {
    var r := cards + [NewCard(draft, newId, now)];
    assert r[..|cards|] == cards;
  }

  /**
   * An update keeps the length; a card with that record id takes every
   * given field and the new update time, and every other card is unchanged.
   */
  lemma UpdateTouchesOnlyMatches(cards: seq<Card>, id: string, patch: CardPatch, now: int, i: nat)
    requires i < |cards|
    ensures |Updated(cards, id, patch, now)| == |cards|
    ensures !HasRecordId(cards[i], id) ==> Updated(cards, id, patch, now)[i] == cards[i]
    ensures HasRecordId(cards[i], id) ==>
      var c := Updated(cards, id, patch, now)[i];
      && c.recordId == Some(id) && c.updatedAt == now
      && (patch.name.Some? ==> c.name == patch.name.value) && (patch.name.None? ==> c.name == cards[i].name)
      && (patch.status.Some? ==> c.status == patch.status.value) && (patch.status.None? ==> c.status == cards[i].status)
      && (patch.symbol.Some? ==> c.symbol == patch.symbol.value) && (patch.symbol.None? ==> c.symbol == cards[i].symbol)
  {
  }

  /** An update with no fields only moves the update time of the matching cards. */
  lemma EmptyPatchOnlyTouchesTime(cards: seq<Card>, id: string, now: int, i: nat)
    requires i < |cards|
    ensures Updated(cards, id, NoChanges, now)[i] ==
      if HasRecordId(cards[i], id) then cards[i].(updatedAt := now) else cards[i]
  {
  }

  /**
   * A delete removes exactly the cards with that record id, keeps the rest in
   * order and as often as they were there, and a second delete changes nothing.
   */
  lemma DeleteRemovesExactly(cards: seq<Card>, id: string)
    ensures forall c :: c in Deleted(cards, id) <==> c in cards && !HasRecordId(c, id)
    ensures Seqs.IsSubsequence(Deleted(cards, id), cards)
    ensures forall c :: !HasRecordId(c, id) ==> multiset(Deleted(cards, id))[c] == multiset(cards)[c]
    ensures Deleted(Deleted(cards, id), id) == Deleted(cards, id)
  {
    var p := (c: Card) => !HasRecordId(c, id);
    Seqs.FilterIsSubsequence(cards, p);
    forall c | !HasRecordId(c, id) ensures multiset(Deleted(cards, id))[c] == multiset(cards)[c] {
      Seqs.FilterMultiset(cards, p, c);
    }
    Seqs.FilterKeepsAll(Deleted(cards, id), p);
  }

  /** Deleting the record id of a card just added undoes the add. */
  lemma DeleteUndoesAdd(cards: seq<Card>, draft: CardDraft, newId: string, now: int, id: string)
    requires draft.recordId == Some(id)
    ensures Deleted(cards + [NewCard(draft, newId, now)], id) == Deleted(cards, id)
  {
    var p := (c: Card) => !HasRecordId(c, id);
    Seqs.FilterAppend(cards, [NewCard(draft, newId, now)], p);
    assert Seqs.Filter([NewCard(draft, newId, now)], p) == [];
  }

  /**
   * Cards without a record id (every card built from the card type, which
   * has only `id`) are never matched: update and delete leave them as they are.
   */
  lemma CardsWithoutRecordIdUntouched(cards: seq<Card>, id: string, patch: CardPatch, now: int)
    requires forall i :: 0 <= i < |cards| ==> cards[i].recordId.None?
    ensures Updated(cards, id, patch, now) == cards
    ensures Deleted(cards, id) == cards
  {
    Seqs.FilterKeepsAll(cards, (c: Card) => !HasRecordId(c, id));
  }
}
