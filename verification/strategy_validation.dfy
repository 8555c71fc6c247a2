/**
 * The validators of the strategy endpoints. Each runs its checks in a fixed
 * order and reports the first failure, together with the fields it had
 * accepted up to that point; on success it returns the fields to store.
 */
module StrategyValidation {
  import opened Wrappers
  import opened Models
  import opened JsValues
  import opened Runtime
  import Text

  /** A request body for a strategy; `Undefined` marks an absent field. */
  datatype StrategyInput = StrategyInput(name: JsValue, description: JsValue, symbol: JsValue,
                                         status: JsValue, rollOverOn: JsValue, broker: JsValue)

  /** `validatedData`: the fields accepted so far. */
  datatype Fields = Fields(name: Option<string>, description: Option<string>, symbol: Option<Id>,
                           status: Option<StrategyStatus>, rollOverOn: Option<JsValue>, broker: Option<string>)

  const NoFields: Fields := Fields(None, None, None, None, None, None)

  datatype Validation = Validation(isValid: bool, error: Option<string>, validatedData: Fields)

  /** The clock reading of the request and `new Date(v)`: milliseconds, or `None` for an invalid date. */
  datatype Clock = Clock(now: int, parseDate: JsValue -> Option<int>)

  const InvalidSymbol: string := "Invalid input: 'symbol' must be a valid instrument ID."
  const NoInstrument: string := "Invalid input: The specified instrument does not exist."
  const BadDate: string := "Invalid date format for 'rollOverOn'. Use YYYY-MM-DD format or null to disable rollover."
  const InPast: string := "Roll over date cannot be in the past."
  const NotBeforeExpiry: string := "Roll over date must be before the instrument's expiry date."
  const NameRequired: string := "Invalid input: 'name' is required and must be a string."
  const DescriptionRequired: string := "Invalid input: 'description' is required and must be a string."
  const SymbolRequired: string := "Invalid input: 'symbol' is required."
  const InvalidBroker: string := "Invalid broker. Allowed values: fyers."
  const StrategyMissing: string := "Strategy not found. Please provide a valid strategy ID."
  const NameEmpty: string := "Invalid input: 'name' must be a non-empty string."
  const DescriptionEmpty: string := "Invalid input: 'description' must be a non-empty string."
  const InvalidStatus: string := "Invalid status. Allowed values: running, stopped."

  /** A provided roll-over date that parses and lies in `[now, expiry)`. */
  predicate RollOverInWindow(instrument: Instrument, rollOverOn: JsValue, clock: Clock) {
    clock.parseDate(rollOverOn).Some? && clock.now <= clock.parseDate(rollOverOn).value < instrument.expiry
  }

  /**
   * `validateSymbolAndRollOver` once the symbol is an ObjectId: the
   * instrument must exist, and a truthy roll-over date must fall in its window.
   */
  function InstrumentAndRollOver(instruments: seq<Instrument>, symbol: Id, rollOverOn: JsValue, clock: Clock): (r: Result<Instrument>)
    ensures r.Ok? <==>
      FindInstrument(instruments, symbol).Some?
      && (Truthy(rollOverOn) ==> RollOverInWindow(FindInstrument(instruments, symbol).value, rollOverOn, clock))
    ensures r.Ok? ==> r.value.id == symbol && r.value in instruments
    ensures FindInstrument(instruments, symbol).None? ==> r == Err(NoInstrument)
  {
    match FindInstrument(instruments, symbol)
    case None => Err(NoInstrument)
    case Some(instrument) =>
      if !Truthy(rollOverOn) then Ok(instrument)
      else match clock.parseDate(rollOverOn)
        case None => Err(BadDate)
        case Some(d) =>
          if d < clock.now then Err(InPast)
          else if d >= instrument.expiry then Err(NotBeforeExpiry)
          else Ok(instrument)
  }

  /** `validateSymbolAndRollOver` on a raw request value: it must be an ObjectId first. */
  function SymbolAndRollOver(instruments: seq<Instrument>, symbol: JsValue, rollOverOn: JsValue, clock: Clock): (r: Result<Instrument>)
    ensures !IsObjectIdValue(symbol) ==> r == Err(InvalidSymbol)
    ensures IsObjectIdValue(symbol) ==> r == InstrumentAndRollOver(instruments, ObjectIdOf(symbol.s), rollOverOn, clock)
  {
    if !IsObjectIdValue(symbol) then Err(InvalidSymbol)
    else InstrumentAndRollOver(instruments, ObjectIdOf(symbol.s), rollOverOn, clock)
  }

  /** `validateCreateStrategy`. */
  function ValidateCreate(data: StrategyInput, instruments: seq<Instrument>, clock: Clock): (r: Validation)
    ensures r.isValid <==>
      IsNonEmptyString(data.name) && IsNonEmptyString(data.description) && Truthy(data.symbol)
      && SymbolAndRollOver(instruments, data.symbol, data.rollOverOn, clock).Ok?
      && data.broker == Str(FyersName)
    ensures r.isValid <==> r.error.None?
    ensures r.isValid ==> r.validatedData == Fields(
      Some(data.name.s), Some(data.description.s), Some(ObjectIdOf(data.symbol.s)), None,
      Some(if Truthy(data.rollOverOn) then data.rollOverOn else Null), Some(FyersName))
  {
    if !IsNonEmptyString(data.name) then Validation(false, Some(NameRequired), NoFields)
    else
      var f1 := NoFields.(name := Some(data.name.s));
      if !IsNonEmptyString(data.description) then Validation(false, Some(DescriptionRequired), f1)
      else
        var f2 := f1.(description := Some(data.description.s));
        if !Truthy(data.symbol) then Validation(false, Some(SymbolRequired), f2)
        else match SymbolAndRollOver(instruments, data.symbol, data.rollOverOn, clock)
          case Err(e) => Validation(false, Some(e), f2)
          case Ok(_) =>
            var f3 := f2.(symbol := Some(ObjectIdOf(data.symbol.s)),
                          rollOverOn := Some(if Truthy(data.rollOverOn) then data.rollOverOn else Null));
            if !Truthy(data.broker) || data.broker != Str(FyersName) then Validation(false, Some(InvalidBroker), f3)
            else Validation(true, None, f3.(broker := Some(FyersName)))
  }

  /** The present-and-not-blank test of an update: `typeof v === "string" && v.trim()`. */
  predicate IsNonBlankString(v: JsValue) {
    v.Str? && Text.Trim(v.s) != ""
  }

  /**
   * `validateUpdateStrategy` for the strategy `id`; `Err` is an exception
   * escaping it, which happens when a truthy symbol is not an ObjectId.
   */
  function ValidateUpdate(data: StrategyInput, id: Id, strategies: map<Id, Strategy>, instruments: seq<Instrument>,
                          clock: Clock): (r: Result<Validation>)
    ensures id !in strategies ==> r == Ok(Validation(false, Some(StrategyMissing), NoFields))
    ensures r.Err? <==>
      id in strategies && UpdateTextOk(data) && (data.symbol != Undefined || data.rollOverOn != Undefined)
      && Truthy(data.symbol) && !IsObjectIdValue(data.symbol)
    ensures r.Err? ==> r.error == BsonInvalidId
    ensures r.Ok? ==> (r.value.isValid <==> r.value.error.None?)
    ensures r.Ok? && r.value.isValid <==>
      id in strategies && UpdateTextOk(data)
      && ((data.symbol == Undefined && data.rollOverOn == Undefined)
          || ((Truthy(data.symbol) ==> IsObjectIdValue(data.symbol))
              && InstrumentAndRollOver(instruments, UpdateTarget(data, strategies[id]), data.rollOverOn, clock).Ok?))
      && UpdateTailOk(data)
  {
    if id !in strategies then Ok(Validation(false, Some(StrategyMissing), NoFields))
    else
      var existing := strategies[id];
      if data.name != Undefined && !IsNonBlankString(data.name) then Ok(Validation(false, Some(NameEmpty), NoFields))
      else
        var f1 := if data.name != Undefined then NoFields.(name := Some(data.name.s)) else NoFields;
        if data.description != Undefined && !IsNonBlankString(data.description) then Ok(Validation(false, Some(DescriptionEmpty), f1))
        else
          var f2 := if data.description != Undefined then f1.(description := Some(data.description.s)) else f1;
          if data.symbol == Undefined && data.rollOverOn == Undefined then Ok(UpdateTail(data, f2))
          else if Truthy(data.symbol) && !IsObjectIdValue(data.symbol) then Err(BsonInvalidId)
          else
            var target := UpdateTarget(data, existing);
            match InstrumentAndRollOver(instruments, target, data.rollOverOn, clock)
            case Err(e) => Ok(Validation(false, Some(e), f2))
            case Ok(_) =>
              var f3 := if Truthy(data.symbol) then f2.(symbol := Some(target)) else f2;
              var f4 := if data.rollOverOn != Undefined then f3.(rollOverOn := Some(data.rollOverOn)) else f3;
              Ok(UpdateTail(data, f4))
  }

  /** The instrument an update is checked against: the given symbol when truthy, else the strategy's own. */
  function UpdateTarget(data: StrategyInput, existing: Strategy): (r: Id)
    requires Truthy(data.symbol) ==> IsObjectIdValue(data.symbol)
    ensures Truthy(data.symbol) ==> r == ObjectIdOf(data.symbol.s)
    ensures !Truthy(data.symbol) ==> r == existing.symbol
  {
    if Truthy(data.symbol) then ObjectIdOf(data.symbol.s) else existing.symbol
  }

  /** The status is absent or a status name, and the broker absent or `fyers`. */
  predicate UpdateTailOk(data: StrategyInput) {
    (data.status != Undefined ==> data.status.Str? && ParseStatus(data.status.s).Some?)
    && (data.broker != Undefined ==> data.broker == Str(FyersName))
  }

  /** Name and description are absent or non-blank strings. */
  predicate UpdateTextOk(data: StrategyInput) {
    (data.name != Undefined ==> IsNonBlankString(data.name))
    && (data.description != Undefined ==> IsNonBlankString(data.description))
  }

  /** The status and broker checks that end an update's validation. */
  function UpdateTail(data: StrategyInput, fields: Fields): (r: Validation)
    ensures r.isValid <==> r.error.None?
    ensures r.isValid <==> UpdateTailOk(data)
  {
    if data.status != Undefined && !(data.status.Str? && ParseStatus(data.status.s).Some?) then
      Validation(false, Some(InvalidStatus), fields)
    else
      var f1 := if data.status != Undefined then fields.(status := ParseStatus(data.status.s)) else fields;
      if data.broker != Undefined && data.broker != Str(FyersName) then Validation(false, Some(InvalidBroker), f1)
      else
        var f2 := if data.broker != Undefined then f1.(broker := Some(FyersName)) else f1;
        Validation(true, None, f2)
  }

  // ---------------------------------------------------------------------------
  // Properties

  /**
   * A roll-over date is accepted exactly when it lies in `[now, expiry)` of
   * the instrument; without a date only the instrument's existence matters.
   */
  lemma RollOverWindow(instruments: seq<Instrument>, symbol: Id, rollOverOn: JsValue, clock: Clock)
    requires FindInstrument(instruments, symbol).Some?
    ensures var i := FindInstrument(instruments, symbol).value;
      && (Truthy(rollOverOn) && clock.parseDate(rollOverOn).Some? ==>
           (InstrumentAndRollOver(instruments, symbol, rollOverOn, clock).Ok? <==>
              clock.now <= clock.parseDate(rollOverOn).value < i.expiry))
      && (!Truthy(rollOverOn) ==> InstrumentAndRollOver(instruments, symbol, rollOverOn, clock) == Ok(i))
  {
  }

  /** Which check rejects a rejected date: past dates before late ones, and an unparsable date before both. */
  lemma RollOverErrors(instruments: seq<Instrument>, symbol: Id, rollOverOn: JsValue, clock: Clock)
    requires FindInstrument(instruments, symbol).Some? && Truthy(rollOverOn)
    ensures var i := FindInstrument(instruments, symbol).value;
      var r := InstrumentAndRollOver(instruments, symbol, rollOverOn, clock);
      && (clock.parseDate(rollOverOn).None? ==> r == Err(BadDate))
      && (clock.parseDate(rollOverOn).Some? && clock.parseDate(rollOverOn).value < clock.now ==> r == Err(InPast))
      && (clock.parseDate(rollOverOn).Some? && clock.now <= clock.parseDate(rollOverOn).value && i.expiry <= clock.parseDate(rollOverOn).value ==>
           r == Err(NotBeforeExpiry))
  {
  }

  /** Creation reports the first failing check, in the order name, description, symbol, symbol and date, broker. */
  lemma CreateFirstFailure(data: StrategyInput, instruments: seq<Instrument>, clock: Clock)
    ensures var r := ValidateCreate(data, instruments, clock);
      && (!IsNonEmptyString(data.name) ==> r.error == Some(NameRequired))
      && (IsNonEmptyString(data.name) && !IsNonEmptyString(data.description) ==> r.error == Some(DescriptionRequired))
      && (IsNonEmptyString(data.name) && IsNonEmptyString(data.description) && !Truthy(data.symbol) ==>
           r.error == Some(SymbolRequired))
      && (IsNonEmptyString(data.name) && IsNonEmptyString(data.description) && Truthy(data.symbol)
          && SymbolAndRollOver(instruments, data.symbol, data.rollOverOn, clock).Err? ==>
           r.error == Some(SymbolAndRollOver(instruments, data.symbol, data.rollOverOn, clock).error))
      && (IsNonEmptyString(data.name) && IsNonEmptyString(data.description) && Truthy(data.symbol)
          && SymbolAndRollOver(instruments, data.symbol, data.rollOverOn, clock).Ok? && data.broker != Str(FyersName) ==>
           r.error == Some(InvalidBroker))
  {
  }

  /** Creation accepts a blank name, which an update would refuse. */
  lemma BlankNameOnlyCreatable(data: StrategyInput, id: Id, strategies: map<Id, Strategy>, instruments: seq<Instrument>, clock: Clock)
    requires data.name == Str(" ") && id in strategies
    ensures ValidateCreate(data, instruments, clock).error != Some(NameRequired)
    ensures ValidateUpdate(data, id, strategies, instruments, clock) == Ok(Validation(false, Some(NameEmpty), NoFields))
  {
    assert Text.Trim(" ") == "" by {
      Text.TrimEmptyIff(" ");
    }
  }

  /**
   * An accepted update carries exactly the provided fields: name,
   * description, status, broker and roll-over date when present, and the
   * symbol when truthy; a roll-over date, `null` included, is copied as given.
   */
  lemma UpdateCarriesProvidedFields(data: StrategyInput, id: Id, strategies: map<Id, Strategy>, instruments: seq<Instrument>, clock: Clock)
    requires ValidateUpdate(data, id, strategies, instruments, clock).Ok?
    requires ValidateUpdate(data, id, strategies, instruments, clock).value.isValid
    ensures var f := ValidateUpdate(data, id, strategies, instruments, clock).value.validatedData;
      && (f.name.Some? <==> data.name != Undefined) && (f.name.Some? ==> data.name == Str(f.name.value))
      && (f.description.Some? <==> data.description != Undefined) && (f.description.Some? ==> data.description == Str(f.description.value))
      && (f.symbol.Some? <==> Truthy(data.symbol)) && (f.symbol.Some? ==> f.symbol.value == ObjectIdOf(data.symbol.s))
      && (f.rollOverOn.Some? <==> data.rollOverOn != Undefined) && (f.rollOverOn.Some? ==> f.rollOverOn.value == data.rollOverOn)
      && (f.status.Some? <==> data.status != Undefined) && (f.status.Some? ==> data.status == Str(StatusName(f.status.value)))
      && (f.broker.Some? <==> data.broker != Undefined) && (f.broker.Some? ==> f.broker.value == FyersName)
  {
    var target := UpdateTarget(data, strategies[id]);
    AcceptedIsTail(data, id, strategies, instruments, clock);
    UpdateTailFields(data, Gathered(data, target));
  }

  /** The fields an update gathers before its status and broker checks, for the symbol it checks against. */
  function Gathered(data: StrategyInput, target: Id): Fields {
    var f1 := if data.name.Str? then NoFields.(name := Some(data.name.s)) else NoFields;
    var f2 := if data.description.Str? then f1.(description := Some(data.description.s)) else f1;
    var f3 := if Truthy(data.symbol) then f2.(symbol := Some(target)) else f2;
    if data.rollOverOn != Undefined then f3.(rollOverOn := Some(data.rollOverOn)) else f3
  }

  /** An accepted update is the tail checks applied to the gathered fields. */
  lemma AcceptedIsTail(data: StrategyInput, id: Id, strategies: map<Id, Strategy>, instruments: seq<Instrument>, clock: Clock)
    requires ValidateUpdate(data, id, strategies, instruments, clock).Ok?
    requires ValidateUpdate(data, id, strategies, instruments, clock).value.isValid
    ensures id in strategies && UpdateTextOk(data)
    ensures ValidateUpdate(data, id, strategies, instruments, clock).value
      == UpdateTail(data, Gathered(data, UpdateTarget(data, strategies[id])))
  {
  }

  /** An accepted tail keeps the fields gathered so far and adds the status and broker exactly when given. */
  lemma UpdateTailFields(data: StrategyInput, fields: Fields)
    requires UpdateTail(data, fields).isValid
    ensures var f := UpdateTail(data, fields).validatedData;
      && f.name == fields.name && f.description == fields.description
      && f.symbol == fields.symbol && f.rollOverOn == fields.rollOverOn
      && (f.status.Some? <==> data.status != Undefined || fields.status.Some?)
      && (data.status != Undefined ==> data.status == Str(StatusName(f.status.value)))
      && (f.broker.Some? <==> data.broker != Undefined || fields.broker.Some?)
      && (data.broker != Undefined ==> f.broker == Some(FyersName))
  {
    if data.status != Undefined {
      StatusNameRoundTrip(ParseStatus(data.status.s).value, data.status.s);
    }
  }

  /**
   * A truthy roll-over date in an accepted update lies in the window of the
   * new symbol's instrument when a symbol is given, and of the stored
   * symbol's otherwise.
   */
  lemma UpdateRollOverChecked(data: StrategyInput, id: Id, strategies: map<Id, Strategy>, instruments: seq<Instrument>, clock: Clock)
    requires ValidateUpdate(data, id, strategies, instruments, clock).Ok?
    requires ValidateUpdate(data, id, strategies, instruments, clock).value.isValid
    requires Truthy(data.rollOverOn)
    ensures id in strategies
    ensures var target := UpdateTarget(data, strategies[id]);
      FindInstrument(instruments, target).Some? && RollOverInWindow(FindInstrument(instruments, target).value, data.rollOverOn, clock)
  {
  }

  /** A falsy roll-over date, `null` included, is never checked against any date. */
  lemma FalsyRollOverSkipsDates(instruments: seq<Instrument>, symbol: Id, rollOverOn: JsValue, clock: Clock, other: Clock)
    requires !Truthy(rollOverOn)
    ensures InstrumentAndRollOver(instruments, symbol, rollOverOn, clock) == InstrumentAndRollOver(instruments, symbol, rollOverOn, other)
  {
  }
}
