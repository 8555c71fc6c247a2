/**
 * The strategy endpoints: create, update, view one, view all and delete.
 * Creation and update run the validators, then let the strategy schema build
 * the stored document: the name is trimmed, the status defaults to running,
 * and the roll-over date is cast to a date. A created strategy with a
 * roll-over date also gets a job, delayed until that date, on the queue
 * named `rolloverQueue`, a queue created without default job options.
 */
module StrategyController {
  import opened Wrappers
  import opened Models
  import opened JsValues
  import opened Runtime
  import opened JobQueue
  import opened StrategyValidation
  import Text

  /** A reply: its status code, its error, and the strategy it returns. */
  datatype StrategyReply = StrategyReply(status: int, error: Option<string>, strategy: Option<Strategy>)

  const InvalidStrategyId: string := "Invalid strategy ID."
  const NotFound: string := "Strategy not found."
  const CreateFailed: string := "Failed to create strategy"
  const UpdateFailed: string := "Failed to update strategy"
  const ScheduledJobName: string := "execute-rollover"

  /** Why the schema refuses a document (each surfaces as a 500 reply). */
  const RequiredMissing: string := "Strategy validation failed"
  const DuplicateKey: string := "E11000 duplicate key error"
  const DateCastFailed: string := "Cast to date failed"

  // ---------------------------------------------------------------------------
  // The schema

  /** A `Date` field's cast: null and the empty string store null; anything else must make a date. */
  function CastDate(v: JsValue, clock: Clock): (r: Result<Option<int>>)
    ensures v == Null || v == Str("") ==> r == Ok(None)
    ensures v != Null && v != Str("") ==>
      (r.Ok? <==> clock.parseDate(v).Some?) && (r.Ok? ==> r.value == clock.parseDate(v))
  {
    if v == Null || v == Str("") then Ok(None)
    else match clock.parseDate(v)
      case None => Err(DateCastFailed)
      case Some(d) => Ok(Some(d))
  }

  /**
   * `new Strategy(fields)` followed by schema validation: the name is trimmed
   * and required, as are the description and the symbol; status and broker
   * take their defaults.
   */
  function Build(id: Id, f: Fields, clock: Clock): (r: Result<Strategy>)
    ensures r.Ok? <==>
      f.name.Some? && Text.Trim(f.name.value) != "" && f.description.Some? && f.description.value != ""
      && f.symbol.Some? && (f.broker.Some? ==> f.broker.value == FyersName)
      && (f.rollOverOn.Some? ==> CastDate(f.rollOverOn.value, clock).Ok?)
    ensures r.Ok? ==> r.value == Strategy(id, Text.Trim(f.name.value), f.description.value, f.symbol.value,
      if f.status.Some? then f.status.value else Running,
      if f.rollOverOn.Some? then CastDate(f.rollOverOn.value, clock).value else None,
      FyersName)
  {
    if f.name.None? || Text.Trim(f.name.value) == "" || f.description.None? || f.description.value == "" || f.symbol.None?
    then Err(RequiredMissing)
    else if f.broker.Some? && f.broker.value != FyersName then Err(RequiredMissing)
    else
      var rollOverOn := if f.rollOverOn.Some? then CastDate(f.rollOverOn.value, clock) else Ok(None);
      if rollOverOn.Err? then Err(rollOverOn.error)
      else Ok(Strategy(id, Text.Trim(f.name.value), f.description.value, f.symbol.value,
                       if f.status.Some? then f.status.value else Running, rollOverOn.value, FyersName))
  }

  /** `save()` of a new document: an id already taken is a duplicate key. */
  function Insert(strategies: map<Id, Strategy>, id: Id, f: Fields, clock: Clock): (r: Result<Strategy>)
    ensures id in strategies ==> r == Err(DuplicateKey)
    ensures id !in strategies ==> r == Build(id, f, clock)
  {
    if id in strategies then Err(DuplicateKey) else Build(id, f, clock)
  }

  /** The options of the scheduled job: a delay from now until the roll-over date. */
  function DelayUntil(date: int, now: int): (r: JobOptions)
    ensures r.delay == Some(date - now) && r.priority.None? && r.attempts.None?
  {
    NoOptions.(delay := Some(date - now))
  }

  // ---------------------------------------------------------------------------
  // Create

  /** `createStrategy`: 400 for invalid input, 500 when the save fails, else 201 and, with a roll-over date, a delayed job. */
  method CreateStrategy(backend: Backend, rolloverQueue: Queue, data: StrategyInput, clock: Clock, newId: Id)
    returns (reply: StrategyReply)
    requires rolloverQueue.Valid() && rolloverQueue.defaults == NoOptions
    modifies backend`strategies, rolloverQueue
    ensures rolloverQueue.Valid()
    ensures var v := ValidateCreate(data, old(backend.instruments), clock);
      !v.isValid ==>
        reply == StrategyReply(400, v.error, None)
        && backend.strategies == old(backend.strategies) && rolloverQueue.jobs == old(rolloverQueue.jobs)
    ensures var v := ValidateCreate(data, old(backend.instruments), clock);
      v.isValid && Insert(old(backend.strategies), newId, v.validatedData, clock).Err? ==>
        reply == StrategyReply(500, Some(CreateFailed), None)
        && backend.strategies == old(backend.strategies) && rolloverQueue.jobs == old(rolloverQueue.jobs)
    ensures var v := ValidateCreate(data, old(backend.instruments), clock);
      v.isValid && Insert(old(backend.strategies), newId, v.validatedData, clock).Ok? ==>
        var s := Insert(old(backend.strategies), newId, v.validatedData, clock).value;
        && reply == StrategyReply(201, None, Some(s))
        && backend.strategies == old(backend.strategies)[newId := s]
        && rolloverQueue.jobs == old(rolloverQueue.jobs) +
             (if s.rollOverOn.None? then []
              else [QueuedJob(old(rolloverQueue.nextId), ScheduledJobName, StrategySnapshot(s),
                              DelayUntil(s.rollOverOn.value, clock.now))])
  {
    var v := ValidateCreate(data, backend.instruments, clock);
    if !v.isValid {
      return StrategyReply(400, v.error, None);
    }
    var saved := Insert(backend.strategies, newId, v.validatedData, clock);
    if saved.Err? {
      return StrategyReply(500, Some(CreateFailed), None);
    }
    var s := saved.value;
    backend.strategies := backend.strategies[newId := s];
    if s.rollOverOn.Some? {
      var _ := rolloverQueue.Add(ScheduledJobName, StrategySnapshot(s), DelayUntil(s.rollOverOn.value, clock.now));
    }
    return StrategyReply(201, None, Some(s));
  }

  /** The fields a valid creation hands to the schema, and the date cast of its roll-over field. */
  lemma ValidCreateFields(data: StrategyInput, instruments: seq<Instrument>, clock: Clock)
    requires ValidateCreate(data, instruments, clock).isValid
    ensures var f := ValidateCreate(data, instruments, clock).validatedData;
      && data.name.Str? && f.name == Some(data.name.s)
      && data.description.Str? && data.description.s != "" && f.description == Some(data.description.s)
      && data.symbol.Str? && f.symbol == Some(ObjectIdOf(data.symbol.s))
      && FindInstrument(instruments, ObjectIdOf(data.symbol.s)).Some?
      && f.status.None? && f.broker == Some(FyersName) && f.rollOverOn.Some?
      && (Truthy(data.rollOverOn) ==>
            && CastDate(f.rollOverOn.value, clock) == Ok(clock.parseDate(data.rollOverOn))
            && RollOverInWindow(FindInstrument(instruments, ObjectIdOf(data.symbol.s)).value, data.rollOverOn, clock))
      && (!Truthy(data.rollOverOn) ==> CastDate(f.rollOverOn.value, clock) == Ok(None))
  {
    var id := ObjectIdOf(data.symbol.s);
    assert SymbolAndRollOver(instruments, data.symbol, data.rollOverOn, clock).Ok?;
    assert InstrumentAndRollOver(instruments, id, data.rollOverOn, clock).Ok?;
    if Truthy(data.rollOverOn) {
      assert data.rollOverOn != Null && data.rollOverOn != Str("");
      assert RollOverInWindow(FindInstrument(instruments, id).value, data.rollOverOn, clock);
    }
  }

  /**
   * What creation stores: the trimmed name, the given description, the
   * validated symbol (an existing instrument), status running, broker fyers,
   * and the roll-over date exactly when one was given, inside the
   * instrument's window.
   */
  lemma CreatedStrategy(data: StrategyInput, strategies: map<Id, Strategy>, instruments: seq<Instrument>, clock: Clock, newId: Id)
    requires ValidateCreate(data, instruments, clock).isValid
    requires Insert(strategies, newId, ValidateCreate(data, instruments, clock).validatedData, clock).Ok?
    ensures var s := Insert(strategies, newId, ValidateCreate(data, instruments, clock).validatedData, clock).value;
      && s.id == newId && s.name == Text.Trim(data.name.s) && s.description == data.description.s
      && s.symbol == ObjectIdOf(data.symbol.s) && FindInstrument(instruments, s.symbol).Some?
      && s.status == Running && s.broker == FyersName
      && (s.rollOverOn.Some? <==> Truthy(data.rollOverOn))
      && (s.rollOverOn.Some? ==>
            s.rollOverOn == clock.parseDate(data.rollOverOn)
            && clock.now <= s.rollOverOn.value < FindInstrument(instruments, s.symbol).value.expiry)
  {
    ValidCreateFields(data, instruments, clock);
  }

  /** Validation accepts a name of white space only, which the schema then refuses: the only way a valid create fails on a fresh id. */
  lemma CreateFailsOnlyOnBlankName(data: StrategyInput, strategies: map<Id, Strategy>, instruments: seq<Instrument>, clock: Clock, newId: Id)
    requires ValidateCreate(data, instruments, clock).isValid && newId !in strategies
    ensures Insert(strategies, newId, ValidateCreate(data, instruments, clock).validatedData, clock).Err?
      <==> Text.Trim(data.name.s) == ""
  {
    ValidCreateFields(data, instruments, clock);
  }

  // ---------------------------------------------------------------------------
  // Update

  /** `findByIdAndUpdate(id, fields)`: each provided field replaces the stored one; the name is trimmed, the date cast. */
  function ApplyUpdate(s: Strategy, f: Fields, clock: Clock): (r: Result<Strategy>)
    ensures r.Ok? <==> (f.rollOverOn.Some? ==> CastDate(f.rollOverOn.value, clock).Ok?)
    ensures r.Ok? ==> r.value.id == s.id
    ensures r.Ok? ==> r.value.name == (if f.name.Some? then Text.Trim(f.name.value) else s.name)
    ensures r.Ok? ==> r.value.description == (if f.description.Some? then f.description.value else s.description)
    ensures r.Ok? ==> r.value.symbol == (if f.symbol.Some? then f.symbol.value else s.symbol)
    ensures r.Ok? ==> r.value.status == (if f.status.Some? then f.status.value else s.status)
    ensures r.Ok? ==> r.value.broker == (if f.broker.Some? then f.broker.value else s.broker)
    ensures r.Ok? ==> r.value.rollOverOn == (if f.rollOverOn.Some? then CastDate(f.rollOverOn.value, clock).value else s.rollOverOn)
  {
    var rollOverOn := if f.rollOverOn.Some? then CastDate(f.rollOverOn.value, clock) else Ok(s.rollOverOn);
    if rollOverOn.Err? then Err(rollOverOn.error)
    else Ok(s.(name := if f.name.Some? then Text.Trim(f.name.value) else s.name,
               description := if f.description.Some? then f.description.value else s.description,
               symbol := if f.symbol.Some? then f.symbol.value else s.symbol,
               status := if f.status.Some? then f.status.value else s.status,
               broker := if f.broker.Some? then f.broker.value else s.broker,
               rollOverOn := rollOverOn.value))
  }

  /**
   * `updateStrategy`: 400 for an id that is not an ObjectId or invalid input,
   * 500 when validation throws or the date does not cast, else 200 and the
   * strategy rewritten; no other strategy changes.
   */
  method UpdateStrategy(backend: Backend, id: string, data: StrategyInput, clock: Clock) returns (reply: StrategyReply)
    modifies backend`strategies
    ensures !IsObjectIdText(id) ==>
      reply == StrategyReply(400, Some(InvalidStrategyId), None) && backend.strategies == old(backend.strategies)
    ensures IsObjectIdText(id) ==>
      var v := ValidateUpdate(data, ObjectIdOf(id), old(backend.strategies), old(backend.instruments), clock);
      && (v.Err? ==> reply == StrategyReply(500, Some(UpdateFailed), None) && backend.strategies == old(backend.strategies))
      && (v.Ok? && !v.value.isValid ==>
            reply == StrategyReply(400, v.value.error, None) && backend.strategies == old(backend.strategies))
      && (v.Ok? && v.value.isValid ==> ObjectIdOf(id) in old(backend.strategies))
    ensures IsObjectIdText(id) && ObjectIdOf(id) in old(backend.strategies) ==>
      var k := ObjectIdOf(id);
      var v := ValidateUpdate(data, k, old(backend.strategies), old(backend.instruments), clock);
      v.Ok? && v.value.isValid ==>
        var u := ApplyUpdate(old(backend.strategies)[k], v.value.validatedData, clock);
        && (u.Err? ==> reply == StrategyReply(500, Some(UpdateFailed), None) && backend.strategies == old(backend.strategies))
        && (u.Ok? ==> reply == StrategyReply(200, None, Some(u.value)) && backend.strategies == old(backend.strategies)[k := u.value])
  {
    if !IsObjectIdText(id) {
      return StrategyReply(400, Some(InvalidStrategyId), None);
    }
    var k := ObjectIdOf(id);
    var v := ValidateUpdate(data, k, backend.strategies, backend.instruments, clock);
    if v.Err? {
      return StrategyReply(500, Some(UpdateFailed), None);
    }
    if !v.value.isValid {
      return StrategyReply(400, v.value.error, None);
    }
    var u := ApplyUpdate(backend.strategies[k], v.value.validatedData, clock);
    if u.Err? {
      return StrategyReply(500, Some(UpdateFailed), None);
    }
    backend.strategies := backend.strategies[k := u.value];
    return StrategyReply(200, None, Some(u.value));
  }

  /**
   * After an accepted update with a roll-over date, the stored date is that
   * date and lies inside the window of the instrument the strategy now points at.
   */
  lemma UpdatedRollOverInWindow(data: StrategyInput, k: Id, strategies: map<Id, Strategy>, instruments: seq<Instrument>, clock: Clock)
    requires ValidateUpdate(data, k, strategies, instruments, clock).Ok?
    requires ValidateUpdate(data, k, strategies, instruments, clock).value.isValid
    requires Truthy(data.rollOverOn)
    ensures k in strategies
    ensures var u := ApplyUpdate(strategies[k], ValidateUpdate(data, k, strategies, instruments, clock).value.validatedData, clock);
      && u.Ok?
      && u.value.rollOverOn == clock.parseDate(data.rollOverOn)
      && FindInstrument(instruments, u.value.symbol).Some?
      && clock.now <= u.value.rollOverOn.value < FindInstrument(instruments, u.value.symbol).value.expiry
  {
    UpdateRollOverChecked(data, k, strategies, instruments, clock);
    UpdateCarriesProvidedFields(data, k, strategies, instruments, clock);
    assert data.rollOverOn != Null && data.rollOverOn != Str("");
  }

  /** An update with an empty body is accepted and changes nothing. */
  lemma EmptyUpdateChangesNothing(k: Id, strategies: map<Id, Strategy>, instruments: seq<Instrument>, clock: Clock)
    requires k in strategies
    ensures var data := StrategyInput(Undefined, Undefined, Undefined, Undefined, Undefined, Undefined);
      var v := ValidateUpdate(data, k, strategies, instruments, clock);
      v == Ok(Validation(true, None, NoFields)) && ApplyUpdate(strategies[k], NoFields, clock) == Ok(strategies[k])
  {
  }

  /** Setting the roll-over date to null is accepted and clears it, whatever else the strategy holds. */
  lemma NullRollOverClears(k: Id, strategies: map<Id, Strategy>, instruments: seq<Instrument>, clock: Clock)
    requires k in strategies && FindInstrument(instruments, strategies[k].symbol).Some?
    ensures var data := StrategyInput(Undefined, Undefined, Undefined, Undefined, Null, Undefined);
      var v := ValidateUpdate(data, k, strategies, instruments, clock);
      v.Ok? && v.value.isValid
      && ApplyUpdate(strategies[k], v.value.validatedData, clock) == Ok(strategies[k].(rollOverOn := None))
  {
  }

  // ---------------------------------------------------------------------------
  // View and delete

  /** `viewStrategy`: 400 for an id that is not an ObjectId, 404 for an unknown one, else 200 and the strategy. */
  function ViewStrategy(strategies: map<Id, Strategy>, id: string): (r: StrategyReply)
    ensures r.status == 200 <==> IsObjectIdText(id) && ObjectIdOf(id) in strategies
    ensures r.status == 200 ==> r.strategy == Some(strategies[ObjectIdOf(id)])
    ensures r.status != 200 ==> r.strategy.None?
    ensures r.status == 400 <==> !IsObjectIdText(id)
  {
    if !IsObjectIdText(id) then StrategyReply(400, Some(InvalidStrategyId), None)
    else if ObjectIdOf(id) !in strategies then StrategyReply(404, Some(NotFound), None)
    else StrategyReply(200, None, Some(strategies[ObjectIdOf(id)]))
  }

  /** `viewAllStrategies`: every stored strategy, and nothing else. */
  function ViewAllStrategies(strategies: map<Id, Strategy>): (r: set<Strategy>)
    ensures forall k :: k in strategies ==> strategies[k] in r
    ensures forall s :: s in r ==> exists k :: k in strategies && strategies[k] == s
  {
    set k | k in strategies :: strategies[k]
  }

  /** `deleteStrategy`: 400 for an id that is not an ObjectId, 404 for an unknown one, else 200 and exactly that strategy removed. */
  method DeleteStrategy(backend: Backend, id: string) returns (reply: StrategyReply)
    modifies backend`strategies
    ensures !IsObjectIdText(id) ==>
      reply == StrategyReply(400, Some(InvalidStrategyId), None) && backend.strategies == old(backend.strategies)
    ensures IsObjectIdText(id) && ObjectIdOf(id) !in old(backend.strategies) ==>
      reply == StrategyReply(404, Some(StrategyMissing), None) && backend.strategies == old(backend.strategies)
    ensures IsObjectIdText(id) && ObjectIdOf(id) in old(backend.strategies) ==>
      reply == StrategyReply(200, None, Some(old(backend.strategies)[ObjectIdOf(id)]))
      && backend.strategies == old(backend.strategies) - {ObjectIdOf(id)}
  {
    if !IsObjectIdText(id) {
      return StrategyReply(400, Some(InvalidStrategyId), None);
    }
    var k := ObjectIdOf(id);
    if k !in backend.strategies {
      return StrategyReply(404, Some(StrategyMissing), None);
    }
    var deleted := backend.strategies[k];
    backend.strategies := backend.strategies - {k};
    return StrategyReply(200, None, Some(deleted));
  }

  /** A deleted strategy is no longer found, and every other one still is. */
  lemma DeletedNotViewable(strategies: map<Id, Strategy>, id: string, other: string)
    requires IsObjectIdText(id) && IsObjectIdText(other) && ObjectIdOf(other) != ObjectIdOf(id)
    ensures ViewStrategy(strategies - {ObjectIdOf(id)}, id).status == 404
    ensures ViewStrategy(strategies - {ObjectIdOf(id)}, other) == ViewStrategy(strategies, other)
  {
  }

  /** A created strategy is found under its id, in upper or lower case. */
  lemma CreatedIsViewable(strategies: map<Id, Strategy>, s: Strategy, id: string)
    requires IsObjectIdText(id)
    ensures ViewStrategy(strategies[ObjectIdOf(id) := s], id) == StrategyReply(200, None, Some(s))
  {
  }
}
