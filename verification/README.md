# algo-trading, modelled in Dafny

This project models the core of **algo-trading**, a Node/Express service with a Next.js dashboard. Users define
*strategies* that bind a futures instrument to a Fyers brokerage account. Webhook signals become trade jobs on a queue.
A scheduled *rollover* replaces an expiring futures contract with the next month's: it closes the open positions and
reopens them on the new contract. Around this engine sit several more parts, and each is modelled here as the code
does it, with its contracts proved:

- the broker credentials: the schema validator, the OAuth login and callback, the daily token refresh;
- the strategy, broker, instrument, rollover and webhook controllers and their validators;
- the daily instrument-catalog update;
- the legacy Redis task queue;
- the browser's stores, payload builders and list helpers.

Modules follow the source files one to one:

| module | source file |
|---|---|
| `TradeFunctions` | `backend/src/utils/tradeFunctions.ts` |
| `Fyers` | `backend/src/brokersApi/FyersBroker.ts` |
| `RolloverQueueManager` | `backend/src/queue/RolloverQueueManager.ts` |
| `TradeQueueManager` | `backend/src/queue/TradeQueueManager.ts` |
| `JobQueue` | the BullMQ queue and job as the managers use them (`backend/src/queue/config/queue.config.ts`) |
| `BrokerResolution` | `backend/src/utils/broker.ts` |
| `RefreshTokens` | `backend/src/cron/refreshFyersAccessTokens.ts` |
| `TaskQueue` | `backend/src/queue/QueueClient.ts` |
| `StrategyValidation` | `backend/src/validators/strategy.validation.ts` |
| `WebhookController` | `backend/src/rest/controllers/webhook.controller.ts` |
| `BrokerModel` | `backend/src/models/broker.model.ts` |
| `FyersAuthController` | `backend/src/rest/controllers/fyresAuth.controller.ts` |
| `BrokersController` | `backend/src/rest/controllers/brokers.controller.ts` |
| `StrategyController` | `backend/src/rest/controllers/strategy.controller.ts` |
| `RolloverController` | `backend/src/rest/controllers/rollover.controller.ts` |
| `InstrumentsUpdate` | `backend/src/cron/instrumentsUpdate.ts` |
| `InstrumentsController` | `backend/src/rest/controllers/instruments.controller.ts` |
| `FrontendStrategyApi` | `frontend/src/lib/api/strategy.ts` |
| `UnderlyingSelect` | `frontend/src/app/components/UnderlyingSelect.tsx` |
| `StrategyStore` | `frontend/src/store/useStrategyStore.ts` |
| `BrokerStore` | `frontend/src/store/useBrokerStore.ts` |
| `StrategyTable` | `frontend/src/app/components/strategy-table.tsx` |
| `StrategyForm` | `frontend/src/app/components/strategy-form.tsx` |

Shared modules:

- `Models` holds the stored documents (`strategy.model.ts`, `instruments.model.ts`, `types/enums.ts`).
- `JsValues` holds the JavaScript values a request body can carry: truthiness, `Number(...)` and integer tests.
- `Runtime` is the world the handlers change. It holds the strategy, instrument and broker collections and an ordered
  log of every strategy write and every order sent to the brokerage, so that the rollover's step order can be stated.
- `Wrappers`, `Text` and `Seqs` are helpers: `Option`/`Result`, string functions, and sequence filters and searches.

The state the source changes in place is modelled as a class:

- the queue and job objects;
- the singletons (`getInstance`), whose lazily set `instance` field is modelled;
- the three Redis lists of the task queue;
- the Mongo collections (`Runtime.Backend`);
- the instrument catalog;
- the two Zustand stores;
- the form's state.

Each method's `ensures` ties the new state to a function of the old one, and lemmas state what the source promises
about that function. Fresh ids, the clock, `Math.random`/`uuid`, and the broker's HTTP replies are parameters.

## What the model shows about the code

The notes below are observations about the code as written. Each is proved by the lemma named.

- **Rollover clears the date first.** `RolloverQueueManager.ProcessJob` writes `rollOverOn := null` before it looks
  up positions or the next contract. A rollover that finds no next contract therefore still loses its date
  (`RolloverQueueManager.NoNextContractThrows`).
- **Longs are only ever sold.** The reopen passes the position's side (`BUY`/`SELL`) verbatim. The adapter maps only
  the exact string `buy` to a buy, so a BUY position is closed with a sell and "reopened" with a second sell
  (`RolloverQueueManager.LongBookOnlySells`, `Fyers.SideIsCaseSensitive`).
- **Trade jobs never resolve a broker.** A validated strategy stores the enum value `fyers` in `broker`.
  `getBrokerInstance` looks that value up as a broker record id, which it never is, so every trade job fails at its broker step (`BrokerResolution.EnumBrokerNeverResolves`, `TradeQueueManager.EnumBrokerTradeFails`).
  The lookup also ignores `is_active` (`BrokerResolution.ActivityIgnored`).
- **`addBroker` always answers 500.** The record it builds has no `token_issued_at`, which the schema requires, and a
  Fyers record lacks the token fields the validator demands (`BrokersController.AddedRecordAlwaysRefused`).
- **`updateBroker` always answers 500 for an existing record.** `findByIdAndUpdate` runs with `runValidators`, and
  the credentials validator reads `this.broker_name`. In an update query `this` is not the document, so the broker
  name is missing and the validator refuses every update; nothing is written
  (`BrokersController.UpdateAlwaysRefused`, `BrokersController.UpdateBroker`).
- **A failed trade job throws instead of failing cleanly.** `processJob` calls `job.moveToFailed(error, strategyId)`,
  but BullMQ's second argument is the worker's lock token. A strategy id never equals that token, so the call throws
  a lock-mismatch error and the failure reason is not recorded (`TradeQueueManager.StrategyIdNeverUnlocks`,
  `TradeQueueManager.TradeQueueManager.ProcessJob`).
- **The pre-save hook's messages are unreachable.** The schema validator runs first and refuses every record the hook
  would refuse (`BrokerModel.PreSaveMessagesUnreachable`).
- **The token refresh always fails.** The job calls `FyersBroker.create`, which the adapter does not define, and
  `getNewToken` without its argument. Every active Fyers record that is not yet due is therefore deactivated too
  (`RefreshTokens.AllFyersDeactivatedWhenRefreshFails`). A failed save is caught only by the outer `try`, so it ends
  the run.
- **Missing collaborators in `RolloverQueueManager`.** The file imports `getOpenOrders`, `findNextContract` and
  `updateStrategySymbol`, which `tradeFunctions.ts` does not export. It also calls `closeAllPositions` and
  `openNewPositions` with a different number of arguments than they take. These calls are modelled as the
  collaborators the code evidently intends (`RolloverQueueManager.Collaborators`): the lookups are parameters, and
  the close and reopen are the modelled `TradeFunctions` loops. The `else throw` branches at
  `RolloverQueueManager.ts:67-69` and `78-80` cannot be reached and have no counterpart.
- **The strategy store matches on a field its cards do not have.** `updateStrategy` and `deleteStrategy` compare
  `_id`, but a card built from the card type has only `id`, so they touch nothing
  (`StrategyStore.CardsWithoutRecordIdUntouched`).
- **A blank strategy name.** Creation accepts a name of white space only. The schema then trims it to empty and
  refuses the save, and that is the only way a validated create fails on a fresh id
  (`StrategyController.CreateFailsOnlyOnBlankName`, `StrategyValidation.BlankNameOnlyCreatable`).
- **Two rollover queues.** Strategy creation schedules its job on the queue named `rolloverQueue`, while the rollover
  manager and endpoint use `rollover-queue`. The model keeps them as two queue objects.

## Model

| member | source | states |
|---|---|---|
| Models.ObjectIdOf | backend/src/rest/controllers/webhook.controller.ts:25 | an id accepted as an ObjectId denotes the 24 hexadecimal digits in lower case, itself a valid ObjectId text |
| Models.ObjectIdOfCanonical | backend/src/rest/controllers/rollover.controller.ts:25 | an id in canonical form is its own ObjectId, so `_id.toString()` round-trips |
| Models.ParseStatus | backend/src/types/enums.ts:1-4 | a status text is accepted exactly when it is `running` or `stopped` |
| Models.StatusNameRoundTrip | backend/src/types/enums.ts:1-4 | status names and statuses correspond one to one: each status's name parses back to it and only its name does |
| Models.OrElse | backend/src/rest/controllers/instruments.controller.ts:13-14 | JavaScript's logical or with a fallback: a given non-empty value is kept, and the fallback replaces an absent or empty one |
| Runtime.OrderEvents | backend/src/utils/tradeFunctions.ts:77-85 | orders sent in turn by one adapter appear as one event each, carrying the wire record, in order |
| Runtime.ApplyEvent | backend/src/queue/RolloverQueueManager.ts:45-47 | a write changes no strategy's presence; orders leave the collection alone |
| Runtime.ApplyEvents | backend/src/queue/RolloverQueueManager.ts:45-76 | applying a run of events never adds or removes a strategy |
| Runtime.ApplyEventsAppend | backend/src/queue/RolloverQueueManager.ts:45-76 | applying two runs of events in turn is applying their concatenation |
| Runtime.ApplyOrderEvents | backend/src/utils/tradeFunctions.ts:77-92 | orders never change the strategy collection |
| Runtime.FindInstrument | backend/src/queue/TradeQueueManager.ts:38 | `findById` on instruments finds one with that id, and none exactly when no instrument has it |
| Runtime.FindBroker | backend/src/utils/broker.ts:16 | `findById` on brokers finds one with that id, and none exactly when no record has it |
| Runtime.Backend.constructor | backend/src/queue/TradeQueueManager.ts:28-32 | the backend holds the given collections and has sent nothing yet |
| Runtime.Backend.PlaceOrder | backend/src/brokersApi/FyersBroker.ts:98-103 | placing an order sends exactly one wire record and returns the response `placeOrder` makes of the brokerage's reply |
| Runtime.Backend.ClearRollOver | backend/src/queue/RolloverQueueManager.ts:45-47 | the strategy's roll-over date is cleared and the write logged |
| Runtime.Backend.UpdateSymbol | backend/src/queue/RolloverQueueManager.ts:63-66 | the strategy is pointed at the new instrument and the write logged |
| JsValues.ToInteger | backend/src/rest/controllers/webhook.controller.ts:42-43 | `Number(v)` when integral: a number is itself, an absent value or object is not a number, blank text is 0, and other text is read after trimming as a signed decimal literal |
| JsValues.PlusSignAccepted | backend/src/rest/controllers/webhook.controller.ts:42-43 | digits after a plus sign convert to their value |
| JsValues.SignedDigits | backend/src/rest/controllers/webhook.controller.ts:42-43 | digits after a minus sign convert to the negated value |
| JsValues.ZeroFractionAccepted | backend/src/rest/controllers/webhook.controller.ts:42-43 | digits followed by a point and only zeros (`"5."`, `"5.0"`) are the integer the digits spell |
| JsValues.NonZeroFractionRefused | backend/src/rest/controllers/webhook.controller.ts:42-43 | digits followed by a point and a fraction with a non-zero digit are no integer |
| JsValues.PointedLiteral | backend/src/rest/controllers/webhook.controller.ts:42-43 | digits, a point and a digit fraction convert to the whole part exactly when the fraction is all zeros, and to no integer otherwise |
| JsValues.ToIntegerOfDecimal | backend/src/rest/controllers/webhook.controller.ts:42 | the decimal text of an integer converts back to it |
| WebhookController.ValidateWebhook | backend/src/rest/controllers/webhook.controller.ts:13-67 | a body is valid exactly when the id is an ObjectId of a stored strategy, the quantity is truthy and converts to a positive integer, and the side is exactly `buy` or `sell`; the signal then carries the id, the converted quantity and the side |
| WebhookController.WebhookControllerReply | backend/src/rest/controllers/webhook.controller.ts:69-96 | 200 with the signal exactly for a valid body, otherwise 400 with the first failing check's error |
| WebhookController.ZeroQuantityIsMissing | backend/src/rest/controllers/webhook.controller.ts:17-22 | a quantity of 0 or the empty string is reported as a missing field, while the text "0" fails the quantity check |
| WebhookController.StrategyCheckedFirst | backend/src/rest/controllers/webhook.controller.ts:32-39 | an unknown strategy is reported before any problem with the quantity or the side |
| WebhookController.SideIsExact | backend/src/rest/controllers/webhook.controller.ts:50-57 | `BUY` is refused with the side error; `buy` is accepted |
| WebhookController.DecimalQuantityAccepted | backend/src/rest/controllers/webhook.controller.ts:41-48 | a positive quantity sent as decimal text is accepted as that number |
| Fyers.NewFyersBroker | backend/src/brokersApi/FyersBroker.ts:40-48 | an empty app id or access token is refused with "App ID and Access Token are required" (both directions); otherwise the adapter keeps both and its authorization value is `appId:accessToken` |
| Fyers.AuthTokenSplits | backend/src/brokersApi/FyersBroker.ts:47 | the authorization value splits back at its last colon into the app id when the token has no colon (the derivation is invertible) |
| Fyers.MapToFyersRequest | backend/src/brokersApi/FyersBroker.ts:149-165 | the wire record is a market order (type 2) with the request's symbol and quantity; side 1 exactly for `buy`, -1 otherwise; absent or empty product type, validity and tag default to INTRADAY, DAY and algo_trade; absent prices to 0; disclosed quantity, stop loss and take profit 0, not offline |
| Fyers.SideIsCaseSensitive | backend/src/brokersApi/FyersBroker.ts:154 | only the exact word `buy` gives a buy; `BUY` is sent as a sell |
| Fyers.PlaceOrderResponse | backend/src/brokersApi/FyersBroker.ts:98-134 | success exactly for a reply with `s == "ok"`, then carrying the reply's id and message; a non-ok reply keeps its message with error "Order failed with code: <code>"; a transport failure gives "Order placement failed" with the reply's message or else the error's; never throws |
| Fyers.PlaceOrderErrorIffFailed | backend/src/brokersApi/FyersBroker.ts:107-133 | a response carries an error exactly when it is not a success |
| Fyers.FailedOrderCodeReadable | backend/src/brokersApi/FyersBroker.ts:115-119 | the code in a failed order's error text parses back to the reply's code |
| Fyers.GetOrderBook | backend/src/brokersApi/FyersBroker.ts:74-96 | fails exactly on a transport failure, with "Failed to fetch orders: " and the reply's or the error's message; an ok body passes through unchanged; a non-ok body becomes `s = "error"` with its message, an empty book and code 400 when the code is 0 |
| Fyers.GetOrderBookNeverLaundersFailure | backend/src/brokersApi/FyersBroker.ts:80-87 | a non-ok reply is never reported as ok, its code is never 0, and it carries an empty order book |
| Fyers.GetNewToken | backend/src/brokersApi/FyersBroker.ts:136-147 | succeeds exactly when the reply body carries a non-empty access token, returning it; a body without one gives "Failed to refresh token for appId: <appId>" |
| BrokerModel.RequiredFields | backend/src/models/broker.model.ts:57-67 | the Fyers, Angel One and Zerodha rule sets, exactly as listed, and no rule set for any other name |
| BrokerModel.PreSaveCheck | backend/src/models/broker.model.ts:93-115 | the pre-save hook refuses only records of the three listed types whose key-presence guard fails |
| BrokerModel.SaveCheck | backend/src/models/broker.model.ts:36-90 | a record is saved only when its name is in the enum, it has an issue date and its credentials pass the validator |
| BrokerModel.OtherAlwaysValid | backend/src/models/broker.model.ts:64 | records of type `other` pass the validator whatever their credentials |
| BrokerModel.UnlistedNameRejected | backend/src/models/broker.model.ts:66-67 | a name outside the enum is always refused by the validator |
| BrokerModel.ValidatorImpliesGuard | backend/src/models/broker.model.ts:70-72 | credentials the validator accepts (every required field a non-empty string) always pass the pre-save guard (key presence) |
| BrokerModel.GuardAdmitsEmptyFields | backend/src/models/broker.model.ts:118-122 | a Fyers record whose keys are all present but empty passes the guard and fails the validator |
| BrokerModel.PreSaveMessagesUnreachable | backend/src/models/broker.model.ts:97-112 | every record the hook would refuse is already refused by validation, so the hook's own messages never surface |
| BrokerModel.NewBrokerDoc | backend/src/models/broker.model.ts:44-48 | a record built without an activity flag is active, with the given id, name, credentials and issue date |
| BrokerModel.Upsert | backend/src/rest/controllers/brokers.controller.ts:56-63 | a write grows the collection by one exactly when no record had the id |
| BrokerModel.UpsertSpec | backend/src/rest/controllers/brokers.controller.ts:56-63 | after a write the record is found under its id, every other id finds what it found before, and ids stay unique |
| BrokerModel.UpsertMembers | backend/src/rest/controllers/brokers.controller.ts:56-63 | a record of the written collection is the new one or was there before |
| BrokerModel.Save | backend/src/rest/controllers/brokers.controller.ts:31 | `save()` reports the validation outcome and writes the record exactly when it is accepted |
| BrokerResolution.FindStrategy | backend/src/utils/broker.ts:10-14 | the lookup throws the cast failure exactly for an id that is not an ObjectId, and otherwise finds the strategy stored under it, or none |
| BrokerResolution.GetBrokerInstance | backend/src/utils/broker.ts:8-33 | an adapter is returned exactly when the strategy exists, its `broker` field is the id of a stored record named `fyers`, and that record has a non-empty client id and access token; the adapter is built from those two; every failure, thrown or not, gives none |
| BrokerResolution.WithActivity | backend/src/models/broker.model.ts:44-48 | every record with its activity flag replaced and nothing else changed |
| BrokerResolution.ActivityIgnored | backend/src/utils/broker.ts:16-28 | the activity flag is never consulted: deactivating every record changes no resolution |
| BrokerResolution.FindBrokerIgnoresActivity | backend/src/utils/broker.ts:16 | the record lookup finds the same records, up to the flag, whatever their activity |
| BrokerResolution.EnumBrokerNeverResolves | backend/src/utils/broker.ts:16 | a strategy whose `broker` field holds the enumeration value `fyers` never gets an adapter: that value is not a record id |
| TradeFunctions.FetchOpenPositions | backend/src/utils/tradeFunctions.ts:7-17 | fails exactly when the order-book request fails or its body is not ok ("Failed to fetch open positions from broker"); otherwise returns exactly the book's orders in the symbol with status 2, in book order and each as many times as it occurs in the book, and none for a body without a book |
| TradeFunctions.FetchOpenPositionsNeedsOk | backend/src/utils/tradeFunctions.ts:8-13 | positions are returned exactly when the brokerage replied ok |
| TradeFunctions.MonthMapFollowsCalendar | backend/src/utils/tradeFunctions.ts:38-51 | the month map takes each month code to the next calendar month, December to January |
| TradeFunctions.MonthMapKeysAreMonths | backend/src/utils/tradeFunctions.ts:53-55 | a month code is accepted exactly when it is one of the twelve calendar codes |
| TradeFunctions.MonthsDistinct | backend/src/utils/tradeFunctions.ts:38-51 | the twelve month codes are distinct |
| TradeFunctions.CycleReturnsIff | backend/src/utils/tradeFunctions.ts:38-51 | in any cycle of twelve distinct codes, k steps return to the start exactly when k is a multiple of twelve |
| TradeFunctions.MonthMapIsTwelveCycle | backend/src/utils/tradeFunctions.ts:38-51 | repeated rollovers of a month return to it exactly after a multiple of twelve steps: the map is one cycle through all months |
| TradeFunctions.ParseContractName | backend/src/utils/tradeFunctions.ts:29-35 | a match of `^([A-Z0-9]+)([A-Z]{3})FUT$` splits the name into a non-empty base and a three-letter month with `FUT` after them |
| TradeFunctions.ParseContractNameRoundTrip | backend/src/utils/tradeFunctions.ts:29-35 | any base of capitals and digits with any capital month code parses back to exactly those parts |
| TradeFunctions.NextContractName | backend/src/utils/tradeFunctions.ts:29-61 | the successor name is the same base with the mapped month and `FUT`; a name outside the pattern gives "Invalid symbol format" and an unknown month "Invalid month in symbol" |
| TradeFunctions.DecemberRollsIntoSameBase | backend/src/utils/tradeFunctions.ts:50-61 | a December contract rolls into January with the same base, year digits included |
| TradeFunctions.NextContractNameAdvancesMonth | backend/src/utils/tradeFunctions.ts:29-61 | rolling keeps the base and moves the month one step on the calendar |
| TradeFunctions.FindByExSymName | backend/src/utils/tradeFunctions.ts:23 | finds an instrument with exactly that name, and none exactly when the catalog has none |
| TradeFunctions.GetNextContract | backend/src/utils/tradeFunctions.ts:22-69 | fails, in this order, with "Expired symbol not found", the name or month error, or "Next contract not found in Instrument table"; otherwise the catalog entry named like the symbol with its month moved on |
| TradeFunctions.CloseOrderFor | backend/src/utils/tradeFunctions.ts:78-85 | a close keeps symbol and quantity, sells a `BUY` position and buys anything else, on margin, tagged `rollover_close` |
| TradeFunctions.OpenOrderFor | backend/src/utils/tradeFunctions.ts:100-106 | a reopen is in the new contract's Fyers symbol with the position's quantity and its recorded side verbatim, on margin, tagged `rollover_open` |
| TradeFunctions.CloseRequests | backend/src/utils/tradeFunctions.ts:74-78 | one close order per position held in the symbol, in the positions' order |
| TradeFunctions.OpenRequests | backend/src/utils/tradeFunctions.ts:98-106 | one reopen order per previous position, in order |
| TradeFunctions.CloseRequestsCompose | backend/src/utils/tradeFunctions.ts:75-77 | closing two runs of positions sends the orders of the first run, then those of the second |
| TradeFunctions.CloseRequestsSingle | backend/src/utils/tradeFunctions.ts:75 | a single position gives one close when it is in the symbol and none otherwise |
| TradeFunctions.OpenRequestsCompose | backend/src/utils/tradeFunctions.ts:99 | reopening two runs of positions sends the orders of the first run, then those of the second |
| TradeFunctions.CloseAndReopenSides | backend/src/utils/tradeFunctions.ts:78-103 | a `BUY` position is closed with a sell and reopened with a sell, a `buy` one with a buy both times; close and reopen get the same wire side exactly for those two spellings |
| TradeFunctions.CloseAllPositions | backend/src/utils/tradeFunctions.ts:74-93 | the loop sends exactly the close orders, in order, through the adapter; a failed order does not stop it |
| TradeFunctions.OpenNewPositions | backend/src/utils/tradeFunctions.ts:98-114 | the loop sends exactly the reopen orders, in order; a failed order does not stop it |
| JobQueue.WithPriority | backend/src/queue/TradeQueueManager.ts:70-73 | `{ ...options, priority: p }`: the priority is overridden and every other option kept |
| JobQueue.Merge | backend/src/queue/config/queue.config.ts:38-44 | a job option the caller gives wins; an absent one takes the queue's default |
| JobQueue.Queue.constructor | backend/src/queue/config/queue.config.ts:35-64 | a queue starts empty with its name and its default job options |
| JobQueue.Queue.Add | backend/src/queue/TradeQueueManager.ts:70 | adding appends exactly one job with a new, increasing id, its name, its data and the caller's options over the defaults |
| JobQueue.Job.constructor | backend/src/queue/TradeQueueManager.ts:28-29 | a job in a worker's hands carries its data, progress 0 and no failure |
| JobQueue.Job.UpdateProgress | backend/src/queue/TradeQueueManager.ts:61 | only the progress changes |
| JobQueue.Job.MoveToFailed | backend/src/queue/TradeQueueManager.ts:65 | with the job's lock token the failure reason becomes the error's message and nothing is thrown; with any other token a lock-mismatch error is thrown and the reason stays as it was; nothing else changes |
| TradeQueueManager.PrepareOrder | backend/src/queue/TradeQueueManager.ts:29-54 | steps 1-3 succeed exactly when the strategy, its instrument and its adapter are all found, giving that adapter and the order of the instrument's Fyers symbol with the signal's quantity and side; an id that is not an ObjectId gives the cast failure, an unknown strategy "Strategy not found: <id>", a missing instrument "Symbol not found: <symbol id>", a missing adapter "Failed to initialize broker instance for strategy: <id>" |
| TradeQueueManager.OrderFailure | backend/src/queue/TradeQueueManager.ts:56-58 | a response leads to a failure exactly when it is not a success, and the reason is never empty |
| TradeQueueManager.TradeQueueManager.constructor | backend/src/queue/TradeQueueManager.ts:17-19 | the manager owns a fresh, empty queue named `trade-queue` with the trade defaults |
| TradeQueueManager.TradeQueueManager.ProcessJob | backend/src/queue/TradeQueueManager.ts:28-67 | a failure in steps 1-3 sends nothing; otherwise exactly one order is sent through the strategy's adapter, and the job either reaches progress 100 without throwing or fails; a failure is handed to `moveToFailed` with the strategy id as the token, so the reason is recorded only when that id is the lock token and the lock-mismatch error escapes otherwise |
| TradeQueueManager.StrategyIdNeverUnlocks | backend/src/queue/TradeQueueManager.ts:65 | a strategy id (no hyphen) never matches a lock token (a UUID), so `moveToFailed` throws the lock mismatch and records nothing |
| TradeQueueManager.TradeQueueManager.AddTradeJob | backend/src/queue/TradeQueueManager.ts:69-74 | appends one `trade` job with the caller's options overridden to priority 1, then the trade defaults |
| TradeQueueManager.Instances.constructor | backend/src/queue/TradeQueueManager.ts:15 | no manager exists before the first request |
| TradeQueueManager.Instances.GetInstance | backend/src/queue/TradeQueueManager.ts:21-26 | the first call creates the manager with an empty queue; every later call returns that same manager |
| TradeQueueManager.TradeOptions | backend/src/queue/TradeQueueManager.ts:69-74 | a trade job always runs at priority 1, keeps the caller's delay, and has three attempts unless the caller set its own |
| TradeQueueManager.TradeSidesReachTheWire | backend/src/queue/TradeQueueManager.ts:50-54 | a `buy` signal becomes a buy order and a `sell` signal a sell order on the wire |
| TradeQueueManager.FailureReasons | backend/src/queue/TradeQueueManager.ts:56-58 | a non-ok reply fails with its code; a transport failure fails with the reply's or the error's message, and with the fixed fallback only when both are empty |
| TradeQueueManager.EnumBrokerTradeFails | backend/src/queue/TradeQueueManager.ts:44-47 | a strategy that stores the broker enumeration value `fyers` (as the strategy validator requires) never resolves to an adapter, so its trade job fails before sending any order |
| RolloverQueueManager.RolloverQueueManager.constructor | backend/src/queue/RolloverQueueManager.ts:25-27 | the manager owns a fresh, empty queue named `rollover-queue` with the rollover defaults |
| RolloverQueueManager.RolloverQueueManager.ProcessJob | backend/src/queue/RolloverQueueManager.ts:36-83 | the job ends, and writes and sends exactly, as the rollover function of its strategy says; the collection afterwards is those writes applied in order; progress 100 exactly when it completes |
| RolloverQueueManager.RolloverQueueManager.AddRolloverJob | backend/src/queue/RolloverQueueManager.ts:85-90 | appends one `rollover` job with the given data and the caller's options overridden to priority 2, then the queue defaults |
| RolloverQueueManager.RolloverQueueManager.ScheduleRolloverJob | backend/src/queue/RolloverQueueManager.ts:92-102 | as adding, with the delay set to the scheduled time minus the current time |
| RolloverQueueManager.ScheduledOptions | backend/src/queue/RolloverQueueManager.ts:97-101 | a scheduled job runs at priority 2 with that delay whatever the caller passed, and with three attempts unless the caller set its own |
| RolloverQueueManager.Instances.constructor | backend/src/queue/RolloverQueueManager.ts:23 | no manager exists before the first request |
| RolloverQueueManager.Instances.GetInstance | backend/src/queue/RolloverQueueManager.ts:29-34 | the first call creates the manager with an empty queue; every later call returns that same manager |
| RolloverQueueManager.ClearsFirst | backend/src/queue/RolloverQueueManager.ts:45-47 | for a well-formed strategy id the first write clears the roll-over date, however the job ends afterwards |
| RolloverQueueManager.FailureSendsNoOrder | backend/src/queue/RolloverQueueManager.ts:36-61 | a job that throws has at most cleared the roll-over date: no symbol change and no order |
| RolloverQueueManager.NoPositionsOnlyClears | backend/src/queue/RolloverQueueManager.ts:50-55 | a strategy without open positions completes after only clearing its date |
| RolloverQueueManager.NoNextContractThrows | backend/src/queue/RolloverQueueManager.ts:58-61 | with positions but no next contract the job throws "No next contract found for strategy <name>" after only clearing the date |
| RolloverQueueManager.RolloverReachesOrders | backend/src/queue/RolloverQueueManager.ts:45-82 | with well-formed ids, open positions and a next contract the job completes with the full rollover: clear, re-point, closes, reopens |
| RolloverQueueManager.FullRolloverCloseAt | backend/src/queue/RolloverQueueManager.ts:72 | the event at each close position is the close order of the matching held position |
| RolloverQueueManager.FullRolloverOpenAt | backend/src/queue/RolloverQueueManager.ts:76 | the event at each reopen position is the open order of the matching position in the new contract |
| RolloverQueueManager.FullRolloverWrites | backend/src/queue/RolloverQueueManager.ts:45-76 | a full rollover has two writes (clear date, then new symbol) followed by one close per position held in the old contract and one reopen per position |
| RolloverQueueManager.FullRolloverCloses | backend/src/queue/RolloverQueueManager.ts:72 | the closes come right after the writes, in the order of the held positions |
| RolloverQueueManager.FullRolloverOpens | backend/src/queue/RolloverQueueManager.ts:75-76 | the reopens come last, one per position, in the positions' order |
| RolloverQueueManager.ClosesBeforeOpens | backend/src/queue/RolloverQueueManager.ts:63-76 | no reopen precedes a close, and every order is sent after the strategy points at the new contract |
| RolloverQueueManager.RolloverWrites | backend/src/queue/RolloverQueueManager.ts:45-47 | the two writes leave the strategy without a roll-over date and on the next contract |
| RolloverQueueManager.FullRolloverState | backend/src/queue/RolloverQueueManager.ts:45-82 | after a full rollover the strategy points at the next contract with no roll-over date, and no other strategy changes |
| RolloverQueueManager.LongBookOnlySells | backend/src/queue/RolloverQueueManager.ts:71-76 | rolling over positions recorded as `BUY` sends only sell orders, closes and reopens alike, because the recorded side is passed on verbatim and only `buy` buys |
| RolloverController.RolloverJobFor | backend/src/rest/controllers/rollover.controller.ts:23-29 | the job data names the strategy's id, name and symbol |
| RolloverController.Refusal | backend/src/rest/controllers/rollover.controller.ts:9-17 | no job is queued exactly when the id is empty (400), not an ObjectId (500) or unknown (404); 400 exactly for the empty id |
| RolloverController.Rollover | backend/src/rest/controllers/rollover.controller.ts:5-39 | a refusal changes no queue; otherwise the shared manager (created if needed) gets exactly one more `rollover` job for the strategy, and the reply is 200 with that job's id |
| RolloverController.QueuedOptionsAre | backend/src/queue/config/queue.config.ts:50-63 | a job queued by the endpoint runs at priority 2 with three attempts and no delay |
| RolloverController.QueuedJobTargetsStrategy | backend/src/rest/controllers/rollover.controller.ts:23-29 | the job queued for a stored strategy, when run, first clears that same strategy's roll-over date |
| TaskQueue.Push | backend/src/queue/QueueClient.ts:32 | `LPUSH`: the new task becomes the head and the old list follows it unchanged |
| TaskQueue.FirstInFirstOut | backend/src/queue/QueueClient.ts:32-37 | tasks pushed at the head and popped from the tail come out in the order they were added |
| TaskQueue.DrainTwice | backend/src/queue/QueueClient.ts:37 | popping from the tail reverses a list, so doing it twice gives the list back |
| TaskQueue.IndexOf | backend/src/queue/QueueClient.ts:67 | `findIndex`: the first index whose task has the id, and none exactly when no task has it |
| TaskQueue.FindIndex | backend/src/queue/QueueClient.ts:66-68 | the loop over the list returns the first index carrying the id, or none, as `IndexOf` says |
| TaskQueue.RemoveFirst | backend/src/queue/QueueClient.ts:53 | `LREM list 1 x`: a list without `x` is unchanged; otherwise exactly one element goes |
| TaskQueue.RemoveFirstAtIndex | backend/src/queue/QueueClient.ts:49-53 | removing the first copy of the task found by id removes exactly that task's index |
| TaskQueue.Trim | backend/src/queue/QueueClient.ts:61-62 | `LTRIM 0 999`: the newest thousand entries, unchanged and in order |
| TaskQueue.Finished | backend/src/queue/QueueClient.ts:55-58 | a completed task keeps its id, data and creation time, is failed exactly when a non-empty error is given (storing that error), and records the processing time |
| TaskQueue.StatusReflectsList | backend/src/queue/QueueClient.ts:73-83 | on well-formed lists the status query answers nothing exactly when no list holds the id (in particular for an id not issued yet), and otherwise the status of the list holding it |
| TaskQueue.AddKeepsWellFormed | backend/src/queue/QueueClient.ts:24-34 | adding a pending task with a new id keeps ids unique across the lists, pending tasks newest first and each list's status |
| TaskQueue.DequeueKeepsWellFormed | backend/src/queue/QueueClient.ts:36-44 | moving the oldest pending task to the processing list as processing keeps the lists well formed |
| TaskQueue.CompleteKeepsWellFormed | backend/src/queue/QueueClient.ts:46-63 | moving a processing task, finished, to the trimmed completed list keeps the lists well formed and the completed list at most a thousand long |
| TaskQueue.OldestAtTail | backend/src/queue/QueueClient.ts:37 | the task popped from the tail is the oldest pending one |
| TaskQueue.QueueClient.constructor | backend/src/queue/QueueClient.ts:13-15 | the client starts with three empty, well-formed lists |
| TaskQueue.QueueClient.AddTask | backend/src/queue/QueueClient.ts:24-34 | a pending task with a new id goes to the head of the pending list, the other lists unchanged, and its status then reads as pending |
| TaskQueue.QueueClient.GetNextTask | backend/src/queue/QueueClient.ts:36-44 | nothing happens to an empty pending list; otherwise the oldest pending task leaves it and heads the processing list, returned and stored as processing |
| TaskQueue.QueueClient.UpdateTask | backend/src/queue/QueueClient.ts:65-71 | the first processing entry with the task's id is overwritten; without one nothing changes |
| TaskQueue.QueueClient.CompleteTask | backend/src/queue/QueueClient.ts:46-63 | an id not being processed is ignored; otherwise the task leaves the processing list and, finished, heads the completed list trimmed to a thousand |
| TaskQueue.QueueClient.GetTaskStatus | backend/src/queue/QueueClient.ts:73-83 | the status stored with the first task carrying the id, searching the pending, processing and completed lists in turn, or none |
| TaskQueue.Instances.constructor | backend/src/queue/QueueClient.ts:7 | no client exists before the first request |
| TaskQueue.Instances.GetInstance | backend/src/queue/QueueClient.ts:17-22 | the first call creates the client with empty lists; every later call returns that same client |
| BrokersController.FindByClientId | backend/src/rest/controllers/brokers.controller.ts:17 | finds a record whose stored client id equals the given one, and finds none exactly when no record has it |
| BrokersController.AddedRecord | backend/src/rest/controllers/brokers.controller.ts:23-30 | the new record is active, named as asked, with exactly the client id and secret as credentials and no issue date |
| BrokersController.AddBroker | backend/src/rest/controllers/brokers.controller.ts:8-38 | a missing or empty name, client id or secret gives 400 and stores nothing; a known client id gives 409 and stores nothing; otherwise the record is saved (201) or, when the schema refuses it, 500 with nothing stored |
| BrokersController.AddedRecordAlwaysRefused | backend/src/rest/controllers/brokers.controller.ts:23-31 | the schema refuses every record this endpoint builds, because it never sets the required issue date, so the endpoint never answers 201 |
| BrokersController.AddedFyersRecordLacksTokens | backend/src/rest/controllers/brokers.controller.ts:23-30 | a Fyers record built from a client id and secret alone also fails the credentials validator |
| BrokersController.CredentialsUpdate | backend/src/rest/controllers/brokers.controller.ts:52-54 | the credentials written hold the client id exactly when it is given non-empty, the secret likewise, and nothing else |
| BrokersController.UpdatedRecord | backend/src/rest/controllers/brokers.controller.ts:56-63 | the update keeps id, active flag and issue date, keeps the name when none is given, and replaces the credentials whole with the update's |
| BrokersController.UpdateBroker | backend/src/rest/controllers/brokers.controller.ts:42-70 | an id that is not an ObjectId gives 500 and an unknown one 404; for an existing record the update validators refuse the write, so the reply is 500 with the internal-error text; no branch changes the collection |
| BrokersController.UpdateValidation | backend/src/models/broker.model.ts:53-66 | an update's credentials pass exactly when the credentials validator accepts them for the broker name an update query supplies, which is none |
| BrokersController.UpdateAlwaysRefused | backend/src/models/broker.model.ts:53-66 | every update the endpoint builds, whatever its name and credentials, is refused by the credentials validator |
| BrokersController.FyersRecords | backend/src/rest/controllers/brokers.controller.ts:77 | the records named `fyers`, exactly those, in collection order and with their multiplicity |
| BrokersController.ViewAllFyersBrokers | backend/src/rest/controllers/brokers.controller.ts:74-91 | 404 exactly when no record is named `fyers`; otherwise 200 with the Fyers records |
| InstrumentsController.PushBuckets | backend/src/rest/controllers/instruments.controller.ts:13-23 | one reduce step adds exactly the instrument's own pair, keeps every other list, and appends the instrument at the end of its pair's list |
| InstrumentsController.PushInstrument | backend/src/rest/controllers/instruments.controller.ts:13-23 | the callback's in-place steps (create the missing group, create the missing list, push) leave the accumulator as one reduce step of `PushBuckets` |
| InstrumentsController.GroupSpec | backend/src/rest/controllers/instruments.controller.ts:12-24 | an underlying/exchange pair is in the grouping exactly when some instrument has it, and its list is exactly that pair's instruments in collection order |
| InstrumentsController.NoEmptyGroups | backend/src/rest/controllers/instruments.controller.ts:16-22 | every underlying in the grouping has at least one exchange |
| InstrumentsController.EveryInstrumentGrouped | backend/src/rest/controllers/instruments.controller.ts:12-24 | every instrument is in the list of its own pair and in no other list |
| InstrumentsController.MissingKeysAreOther | backend/src/rest/controllers/instruments.controller.ts:13-14 | an instrument with no or an empty underlying (exchange) is filed under `Other` |
| InstrumentsController.ViewAllInstruments | backend/src/rest/controllers/instruments.controller.ts:7-30 | the loop that creates missing groups and pushes each instrument builds exactly the grouping of `GroupSpec`: each list is its pair's instruments in order |
| InstrumentsController.GetFyersBrokers | backend/src/rest/controllers/instruments.controller.ts:34-51 | 404 exactly when no record is named `fyers`; otherwise 200 with the Fyers records in collection order, all of them and only them |
| RefreshTokens.ActiveOnly | backend/src/cron/refreshFyersAccessTokens.ts:14 | the records the run loads are exactly the active ones, in collection order and with their multiplicity |
| RefreshTokens.RefreshFromStep | backend/src/cron/refreshFyersAccessTokens.ts:16-53 | one visit: a record that is not an active Fyers record due for deactivation is passed over; a due one is saved inactive, or its save error ends the run |
| RefreshTokens.RefreshAccessTokens | backend/src/cron/refreshFyersAccessTokens.ts:9-58 | the loop over the loaded records leaves the collection, and the error that cut it short if any, as the step-by-step definition of the run says |
| RefreshTokens.RefreshFromEffect | backend/src/cron/refreshFyersAccessTokens.ts:16-53 | a run keeps ids unique and removes no record; a record active afterwards is exactly as before; a record no due visit names is untouched |
| RefreshTokens.NeverActivates | backend/src/cron/refreshFyersAccessTokens.ts:28-53 | the run never makes a record active: a record active afterwards is unchanged |
| RefreshTokens.DueRecordsDeactivated | backend/src/cron/refreshFyersAccessTokens.ts:28-53 | a run not cut short leaves every due record (fourteen days or more since issue, or a failed refresh) present and inactive |
| RefreshTokens.MissingIssueDateNeverExpires | backend/src/cron/refreshFyersAccessTokens.ts:22-28 | a record without an issue date counts as issued now and never expires |
| RefreshTokens.AllFyersDeactivatedWhenRefreshFails | backend/src/cron/refreshFyersAccessTokens.ts:38-53 | when every refresh fails (the adapter factory the job calls does not exist), a completed run leaves every active Fyers record inactive |
| FrontendStrategyApi.DateRoundTrip | frontend/src/lib/api/strategy.ts:20-25 | the roll-over date is written as the year, a dash, a two-digit month counted from 1, a dash and a two-digit day, and that text reads back as the same calendar date |
| FrontendStrategyApi.PaddedFields | frontend/src/lib/api/strategy.ts:21-24 | month and day are zero-padded to two digits (January the 5th gives `-01-05`) |
| FrontendStrategyApi.DateField | frontend/src/lib/api/strategy.ts:20-25 | the date field is absent exactly when no date is given; a given date (always truthy) is sent as text that parses back to it |
| FrontendStrategyApi.OptionalField | frontend/src/lib/api/strategy.ts:57-68 | an optional update field is absent exactly when it is not given, and is sent unchanged otherwise |
| FrontendStrategyApi.CreatePayload | frontend/src/lib/api/strategy.ts:15-26 | the create body sends name, description and broker unchanged, the instrument by its record id, no status, and the date field absent exactly when no date is chosen, otherwise reading back as that date |
| FrontendStrategyApi.UpdatePayload | frontend/src/lib/api/strategy.ts:57-69 | the update body sends the instrument's record id only when an instrument is given, passes the status through, and treats the date as the create body does |
| FrontendStrategyApi.UpdateExtendsCreate | frontend/src/lib/api/strategy.ts:15-69 | with every create field given, the update body is the create body plus the status |
| FrontendStrategyApi.StatusOnlyUpdate | frontend/src/lib/api/strategy.ts:57-69 | an update carrying only a status sends the status and every other field absent |
| UnderlyingSelect.PrioritizedPresent | frontend/src/app/components/UnderlyingSelect.tsx:21 | the prioritised entries kept are those on offer, in priority order, each as often as it is listed |
| UnderlyingSelect.SortedLayout | frontend/src/app/components/UnderlyingSelect.tsx:20-24 | the sorted list is the prioritised entries on offer in priority order, then the options that are not prioritised in their own order; it offers exactly the options |
| UnderlyingSelect.SortedIsPermutation | frontend/src/app/components/UnderlyingSelect.tsx:20-24 | when neither list repeats an entry, the sorted list is a permutation of the options |
| UnderlyingSelect.FilteredOptions | frontend/src/app/components/UnderlyingSelect.tsx:26 | the options shown are exactly the sorted options containing the search text (ignoring case), in sorted order and with their multiplicity |
| UnderlyingSelect.EmptySearchKeepsAll | frontend/src/app/components/UnderlyingSelect.tsx:26 | an empty search shows every option |
| StrategyStore.NewCard | frontend/src/store/useStrategyStore.ts:27-32 | the card added is the draft with the fresh id, created and updated at the same instant |
| StrategyStore.Store.constructor | frontend/src/store/useStrategyStore.ts:18-21 | the store starts with the sample cards, an empty search and the "all" filter |
| StrategyStore.Store.AddStrategy | frontend/src/store/useStrategyStore.ts:23-34 | the new card is appended after the existing ones |
| StrategyStore.Store.UpdateStrategy | frontend/src/store/useStrategyStore.ts:36-41 | every card whose `_id` matches takes the patch's fields and the new update time; the others stay |
| StrategyStore.Store.DeleteStrategy | frontend/src/store/useStrategyStore.ts:43-46 | the cards whose `_id` matches are removed |
| StrategyStore.Store.SetSearchQuery | frontend/src/store/useStrategyStore.ts:48 | only the search query changes |
| StrategyStore.Store.SetStatusFilter | frontend/src/store/useStrategyStore.ts:49 | only the status filter changes |
| StrategyStore.AddAppendsOne | frontend/src/store/useStrategyStore.ts:23-34 | adding keeps every card in place and appends exactly one, with the fresh id |
| StrategyStore.UpdateTouchesOnlyMatches | frontend/src/store/useStrategyStore.ts:36-41 | an update keeps the length; a matching card takes each given field, keeps each missing one and gets the new time; every other card is unchanged |
| StrategyStore.EmptyPatchOnlyTouchesTime | frontend/src/store/useStrategyStore.ts:39 | an update with no fields only moves the update time of the matching cards |
| StrategyStore.DeleteRemovesExactly | frontend/src/store/useStrategyStore.ts:43-46 | a card survives a delete exactly when its `_id` differs; survivors keep their order and multiplicity, and a second delete changes nothing |
| StrategyStore.DeleteUndoesAdd | frontend/src/store/useStrategyStore.ts:23-46 | deleting the record id of a card just added undoes the add |
| StrategyStore.CardsWithoutRecordIdUntouched | frontend/src/store/useStrategyStore.ts:38-45 | cards without `_id` are never matched, so update and delete leave such a list unchanged |
| BrokerStore.Active | frontend/src/store/useBrokerStore.ts:37 | a record is active-listed exactly when it is in the list and active, in list order and as often as it is listed |
| BrokerStore.Store.constructor | frontend/src/store/useBrokerStore.ts:16-19 | the store starts with no records, not loading and no error |
| BrokerStore.Store.SetBrokers | frontend/src/store/useBrokerStore.ts:21 | the list is replaced |
| BrokerStore.Store.SetLoading | frontend/src/store/useBrokerStore.ts:23 | only the loading flag changes |
| BrokerStore.Store.SetError | frontend/src/store/useBrokerStore.ts:25 | only the error changes |
| BrokerStore.Store.AddBroker | frontend/src/store/useBrokerStore.ts:27-30 | the record is appended |
| BrokerStore.Store.UpdateBroker | frontend/src/store/useBrokerStore.ts:32-35 | every record whose `_id` matches takes the patch's fields; the others stay |
| BrokerStore.Store.GetActiveBrokers | frontend/src/store/useBrokerStore.ts:37 | the current active records: membership exactly for active records in the list, in list order and with their multiplicity |
| BrokerStore.UpdateTouchesOnlyMatches | frontend/src/store/useBrokerStore.ts:32-35 | an update keeps the length; a matching record takes the given flag and credentials and keeps the missing ones; every other record is unchanged |
| BrokerStore.ActiveAfterAdd | frontend/src/store/useBrokerStore.ts:27-37 | appending a record extends the active list by that record exactly when it is active |
| BrokerStore.ActiveCountKeptByUpdate | frontend/src/store/useBrokerStore.ts:32-37 | an update that does not set the active flag keeps the number of active records |
| StrategyTable.FilteredStrategies | frontend/src/app/components/strategy-table.tsx:147-155 | a row is shown exactly when its name or description contains the query (ignoring case) and its status passes the filter; rows keep their order and their multiplicity |
| StrategyTable.EverythingShownByDefault | frontend/src/app/components/strategy-table.tsx:147-155 | no query and the "all" filter show every row |
| StrategyTable.ShownUnderOneStatus | frontend/src/app/components/strategy-table.tsx:152 | a row shown under "all" is shown under exactly one of "running" and "stopped" |
| StrategyTable.StatusFiltersSplitRows | frontend/src/app/components/strategy-table.tsx:147-155 | for one query, the running rows and the stopped rows together number the rows shown under "all" |
| StrategyTable.ToggleRequest | frontend/src/app/components/strategy-table.tsx:57-97 | the switch updates the strategy's own id with the status "running" when on and "stopped" when off, a status the backend reads back as that status |
| StrategyTable.ToggleAccepted | frontend/src/app/components/strategy-table.tsx:94-97 | for a stored strategy the backend's update validator (backend/src/validators/strategy.validation.ts) accepts the switch's body and stores the new status and nothing else |
| StrategyTable.CopySyntaxParts | frontend/src/app/components/strategy-table.tsx:99-108 | the copied text is the fixed two-space-indented head, the JSON-escaped strategy id and the fixed tail with both order placeholders |
| StrategyTable.CopySyntaxRoundTrip | frontend/src/app/components/strategy-table.tsx:99-108 | the strategy id reads back out of the copied text |
| StrategyTable.CopySyntaxInjective | frontend/src/app/components/strategy-table.tsx:99-108 | different strategies get different copied texts |
| StrategyForm.SubmitError | frontend/src/app/components/strategy-form.tsx:108-123 | when creating, an incomplete underlying/exchange/expiry choice gives its message; otherwise a missing broker ("no-brokers" counts as missing) gives its message, exactly then; otherwise no active broker gives its message, exactly then; and no error exactly when all checks pass |
| StrategyForm.Submitted | frontend/src/app/components/strategy-form.tsx:127-130 | the values handed on are the form's values with the roll-over date kept only when the switch is on |
| StrategyForm.FormState.constructor | frontend/src/app/components/strategy-form.tsx:50 | the form starts with no error and nothing submitted |
| StrategyForm.FormState.HandleSubmit | frontend/src/app/components/strategy-form.tsx:108-133 | for values the form's schema has accepted: a failing check sets its message and submits nothing; otherwise the error is cleared and the values (date dropped when the switch is off) are submitted once |
| StrategyForm.SchemaLeavesOnlyPlaceholder | frontend/src/app/components/strategy-form-schema.ts:17 | past the schema's non-empty broker check, the submit check refuses exactly the "no brokers" placeholder |
| StrategyForm.CreateDataOf | frontend/src/app/components/add-strategy-modal.tsx:20-38 | the create request receives the instrument's record id and the submitted roll-over date |
| StrategyForm.SwitchDecidesRollOver | frontend/src/app/components/strategy-form.tsx:127-132 | through the create body of frontend/src/lib/api/strategy.ts, with the switch off the create body has no roll-over date; with it on, the date sent parses back to the chosen one |
| StrategyForm.SortedUnderlyingsLayout | frontend/src/app/components/strategy-form.tsx:52-60 | the list starts with all five prioritised names (offered even when no instrument has them), then every other underlying in order; it names exactly the prioritised names and the underlyings, each once when the underlyings are distinct |
| StrategyForm.PickerKeepsNamesFirst | frontend/src/app/components/UnderlyingSelect.tsx:20-24 | the picker leaves a names-first list unchanged when given the same names as priorities |
| StrategyForm.PickerKeepsFormOrder | frontend/src/app/components/strategy-form.tsx:172-177 | the picker (frontend/src/app/components/UnderlyingSelect.tsx:20-24) shows the form's underlyings in exactly the form's order |
| FyersAuthController.GetBrokerCredentials | backend/src/utils/helperFunction.ts:10-16 | succeeds exactly when the id is an ObjectId naming a stored record, and then returns that record; a cast failure or a missing record is an error |
| FyersAuthController.StateRoundTrip | backend/src/rest/controllers/fyresAuth.controller.ts:24 | the state the login sends out reads back as the broker id it was built from |
| FyersAuthController.FyersLogin | backend/src/rest/controllers/fyresAuth.controller.ts:12-32 | 400 without a broker id; a redirect exactly when the record loads, to the consent URL carrying its client id, the redirect URL and the encoded state; 500 otherwise |
| FyersAuthController.NewCredentials | backend/src/rest/controllers/fyresAuth.controller.ts:93-99 | the credentials written hold the `fy_id` and access token, and the refresh token, client id and secret key exactly when they are defined |
| FyersAuthController.FindByFyId | backend/src/rest/controllers/fyresAuth.controller.ts:90 | a found record is stored and carries that `fy_id`; nothing is found exactly when no record carries it |
| FyersAuthController.CallbackRecord | backend/src/rest/controllers/fyresAuth.controller.ts:90-116 | the saved record has the new credentials and issue time; it keeps the found record's id, name and activity flag, or is a new active `fyers` record |
| FyersAuthController.Callback | backend/src/rest/controllers/fyresAuth.controller.ts:34-124 | 400 without a code or string state; the collection changes only on the redirect home, which happens exactly when the steps reach a write the validator accepts, and then the record is upserted |
| FyersAuthController.FyersCallback | backend/src/rest/controllers/fyresAuth.controller.ts:34-124 | the handler's reply and the collection afterwards are those of the callback definition |
| FyersAuthController.WrittenRecordHasTokens | backend/src/rest/controllers/fyresAuth.controller.ts:68-100 | a written record always holds a non-empty access token and `fy_id`, issued now |
| FyersAuthController.FoundIsFindable | backend/src/rest/controllers/fyresAuth.controller.ts:90-101 | with unique ids, a stored record is found again under its own id |
| FyersAuthController.ExistingAccountUpdated | backend/src/rest/controllers/fyresAuth.controller.ts:92-101 | a successful callback for a known `fy_id` rewrites that record in place with the new credentials and issue time, and the collection does not grow |
| FyersAuthController.NewAccountInserted | backend/src/rest/controllers/fyresAuth.controller.ts:102-116 | a successful callback for an unknown `fy_id` adds exactly one active `fyers` record whose credentials the validator accepts |
| StrategyValidation.InstrumentAndRollOver | backend/src/validators/strategy.validation.ts:26-65 | accepted exactly when the instrument exists and a truthy roll-over date lies in its window; the accepted instrument is the one named; a missing instrument is its own error |
| StrategyValidation.SymbolAndRollOver | backend/src/validators/strategy.validation.ts:14-66 | a value that is not an ObjectId is refused as an invalid symbol; otherwise the instrument and roll-over checks decide |
| StrategyValidation.ValidateCreate | backend/src/validators/strategy.validation.ts:69-123 | valid exactly when name and description are non-empty strings, the symbol is given and passes the instrument and date checks, and the broker is `fyers`; valid exactly when there is no error; the stored fields are the given ones, a falsy roll-over date becoming `null` |
| StrategyValidation.ValidateUpdate | backend/src/validators/strategy.validation.ts:126-226 | an unknown strategy is refused first; the validator throws exactly when the text checks pass, a symbol or date is given, and a truthy symbol is not an ObjectId; a result is valid exactly when it has no error, and exactly when the strategy exists, the text checks pass, any given symbol or date resolves against the instrument and date checks, and the status and broker checks pass |
| StrategyValidation.UpdateTail | backend/src/validators/strategy.validation.ts:201-225 | valid exactly when no error, and exactly when a given status is `running` or `stopped` and a given broker is `fyers` |
| StrategyValidation.RollOverWindow | backend/src/validators/strategy.validation.ts:35-63 | for an existing instrument, a parsed date is accepted exactly when it lies in `[now, expiry)`; without a date the instrument alone is returned |
| StrategyValidation.RollOverErrors | backend/src/validators/strategy.validation.ts:36-62 | an unparsable date gets the format error, a past one the past-date error, and one at or after expiry the expiry error |
| StrategyValidation.CreateFirstFailure | backend/src/validators/strategy.validation.ts:72-119 | creation reports the first failing check in the order name, description, symbol presence, symbol and date, broker |
| StrategyValidation.BlankNameOnlyCreatable | backend/src/validators/strategy.validation.ts:73-150 | a blank name passes creation's name check but an update refuses it |
| StrategyValidation.UpdateCarriesProvidedFields | backend/src/validators/strategy.validation.ts:142-225 | an accepted update carries exactly the provided fields, the symbol only when truthy, and a roll-over date (`null` included) as given |
| StrategyValidation.UpdateRollOverChecked | backend/src/validators/strategy.validation.ts:165-199 | a truthy date in an accepted update lies in the window of the new symbol's instrument, or of the stored symbol's when none is given |
| StrategyValidation.FalsyRollOverSkipsDates | backend/src/validators/strategy.validation.ts:35-36 | a falsy roll-over date, `null` included, is never compared with any date |
| StrategyController.CastDate | backend/src/models/strategy.model.ts:25-29 | null and the empty string store no date; any other value is accepted exactly when it parses, and stores the parsed date |
| StrategyController.Build | backend/src/models/strategy.model.ts:4-41 | the schema accepts exactly a non-blank name, a non-empty description, a symbol, a `fyers` broker if any and a castable date; the stored document trims the name and defaults status to running and the broker to `fyers` |
| StrategyController.Insert | backend/src/rest/controllers/strategy.controller.ts:29-30 | saving under an id already taken fails as a duplicate key; otherwise the schema decides |
| StrategyController.DelayUntil | backend/src/rest/controllers/strategy.controller.ts:39 | the scheduled job's delay is the roll-over date minus now, with no priority or retries of its own |
| StrategyController.CreateStrategy | backend/src/rest/controllers/strategy.controller.ts:19-54 | 400 with the validator's error and nothing stored for invalid input; 500 and nothing stored when the save fails; otherwise 201, the strategy stored under its new id and, exactly when it has a roll-over date, one job appended to the roll-over queue, whose options are only the delay until that date, as the queue has no default options |
| StrategyController.CreatedStrategy | backend/src/rest/controllers/strategy.controller.ts:19-47 | a created strategy has the trimmed name, the given description, a symbol naming an existing instrument, status running, broker `fyers`, and a roll-over date exactly when one was given, inside that instrument's window |
| StrategyController.CreateFailsOnlyOnBlankName | backend/src/rest/controllers/strategy.controller.ts:21-30 | on a fresh id, a validated create fails to save exactly when the name is white space only |
| StrategyController.ApplyUpdate | backend/src/rest/controllers/strategy.controller.ts:77 | the update succeeds exactly when a given date casts; it keeps the id and replaces each given field (the name trimmed), leaving the others as stored |
| StrategyController.UpdateStrategy | backend/src/rest/controllers/strategy.controller.ts:58-90 | 400 for an id that is not an ObjectId or for input the validator refuses; 500 when it throws or the date does not cast; otherwise 200 and only that strategy rewritten |
| StrategyController.UpdatedRollOverInWindow | backend/src/rest/controllers/strategy.controller.ts:66-77 | after an accepted update with a date, the stored date is that date and lies in the window of the instrument the strategy now names |
| StrategyController.EmptyUpdateChangesNothing | backend/src/rest/controllers/strategy.controller.ts:66-77 | an empty body is accepted and leaves the strategy as it was |
| StrategyController.NullRollOverClears | backend/src/rest/controllers/strategy.controller.ts:66-77 | a `null` roll-over date is accepted and clears the stored date |
| StrategyController.ViewStrategy | backend/src/rest/controllers/strategy.controller.ts:109-133 | 200 with the stored strategy exactly when the id is an ObjectId on file; 400 exactly when it is not an ObjectId; 404 otherwise, with no strategy |
| StrategyController.ViewAllStrategies | backend/src/rest/controllers/strategy.controller.ts:94-105 | the reply holds every stored strategy and nothing else |
| StrategyController.DeleteStrategy | backend/src/rest/controllers/strategy.controller.ts:137-162 | 400 for an id that is not an ObjectId, 404 for an unknown one, otherwise 200 with the deleted strategy and exactly that strategy removed |
| StrategyController.DeletedNotViewable | backend/src/rest/controllers/strategy.controller.ts:109-162 | after a delete the strategy is no longer found, and every other one is found as before |
| StrategyController.CreatedIsViewable | backend/src/rest/controllers/strategy.controller.ts:29-127 | a stored strategy is found under its id, whatever the case of its hex digits |
| InstrumentsUpdate.ExchangeName | backend/src/cron/instrumentsUpdate.ts:25-29 | codes 10, 11 and 12 name NSE, MCX and BSE; every other code names nothing |
| InstrumentsUpdate.ConvertEpoch | backend/src/cron/instrumentsUpdate.ts:94-96 | the expiry converts exactly when `parseInt` yields a number whose milliseconds lie within the range a date can hold, and is then the parsed seconds times a thousand |
| InstrumentsUpdate.ParseIntPrefixOfDecimal | backend/src/cron/instrumentsUpdate.ts:95 | `parseInt` reads back the decimal text of any integer |
| InstrumentsUpdate.EpochRoundTrip | backend/src/cron/instrumentsUpdate.ts:94-96 | the decimal text of a number of seconds in range converts to that many thousands of milliseconds |
| InstrumentsUpdate.ParseIntExamples | backend/src/cron/instrumentsUpdate.ts:95 | text after the digits is ignored, and text that starts with no digit is no number |
| InstrumentsUpdate.Refresh | backend/src/cron/instrumentsUpdate.ts:60-74 | an update of a stored document keeps its id, token and type, replaces ticker, expiry and name, and keeps the stored underlying and exchange when the listing has none |
| InstrumentsUpdate.Inserted | backend/src/cron/instrumentsUpdate.ts:60-74 | an inserted document carries the listing's fields, its token as text, and the default type `future` |
| InstrumentsUpdate.Upsert | backend/src/cron/instrumentsUpdate.ts:59-78 | the write succeeds exactly when the expiry is a date and no other document holds the ticker; a failure changes nothing; a success rewrites only the document under the token, refreshed or inserted |
| InstrumentsUpdate.RefreshSettled | backend/src/cron/instrumentsUpdate.ts:71-74 | writing a listing over the document it has just written changes nothing |
| InstrumentsUpdate.UpsertIdempotent | backend/src/cron/instrumentsUpdate.ts:71-74 | upserting a listing twice is the same as upserting it once |
| InstrumentsUpdate.UpsertSettles | backend/src/cron/instrumentsUpdate.ts:71-74 | what a successful upsert writes is settled for that listing |
| InstrumentsUpdate.Next | backend/src/cron/instrumentsUpdate.ts:55-79 | a non-future is passed over; a future is counted, and counted as processed exactly when its upsert succeeds |
| InstrumentsUpdate.RunFeed | backend/src/cron/instrumentsUpdate.ts:45-88 | the processed count never exceeds the futures count, which never exceeds the listings; no document is removed |
| InstrumentsUpdate.OnlyFuturesWritten | backend/src/cron/instrumentsUpdate.ts:55-79 | a document whose token no future of the feed carries is left as it was |
| InstrumentsUpdate.RunSettles | backend/src/cron/instrumentsUpdate.ts:55-79 | after a run that wrote every future of a feed with distinct tokens, each future's document is settled and holds its ticker alone |
| InstrumentsUpdate.FeedIdempotent | backend/src/cron/instrumentsUpdate.ts:45-88 | reading a feed a second time changes nothing when the first reading wrote every future and the tokens differ |
| InstrumentsUpdate.RenameUnblocksSecondRun | backend/src/cron/instrumentsUpdate.ts:55-79 | without those conditions a second reading can write a listing the first could not |
| InstrumentsUpdate.Unexpired | backend/src/cron/instrumentsUpdate.ts:31-43 | exactly the documents expiring at or after the start of today are kept, unchanged |
| InstrumentsUpdate.RunAll | backend/src/cron/instrumentsUpdate.ts:107-109 | reading the feeds in turn removes no document |
| InstrumentsUpdate.InstrumentCatalog.constructor | backend/src/cron/instrumentsUpdate.ts:3 | the catalog starts with the given documents |
| InstrumentsUpdate.InstrumentCatalog.CleanupExpired | backend/src/cron/instrumentsUpdate.ts:31-43 | the collection becomes its unexpired documents |
| InstrumentsUpdate.InstrumentCatalog.FetchAndProcess | backend/src/cron/instrumentsUpdate.ts:45-88 | a failed fetch changes nothing; otherwise the loop leaves the collection and both counts as the definition of a feed run says |
| InstrumentsUpdate.InstrumentCatalog.ProcessListing | backend/src/cron/instrumentsUpdate.ts:55-79 | one turn of the loop: the collection and both counts move as one step of the feed-run definition |
| InstrumentsUpdate.InstrumentCatalog.UpsertListing | backend/src/cron/instrumentsUpdate.ts:59-78 | one listing's write, with its success, as the upsert definition says |
| InstrumentsUpdate.InstrumentCatalog.UpdateInstruments | backend/src/cron/instrumentsUpdate.ts:98-117 | the job leaves the collection as the cleanup followed by the five feeds in order |
| InstrumentsUpdate.UnexpiredSurvives | backend/src/cron/instrumentsUpdate.ts:31-117 | an instrument that has not expired survives the whole job, whatever the feeds say |

## Left out

- Network, database and queue I/O is not modelled as I/O. HTTP replies, `fetch` of the symbol masters, the token
  exchange and the profile service are parameters of the operations that use them. Mongo collections are values in
  `Runtime.Backend` or `InstrumentsUpdate.InstrumentCatalog`, and BullMQ queues and jobs are `JobQueue` objects.
- Logging (`console.*`) has no counterpart, because it decides nothing.
- BullMQ's retries, exponential backoff, retention and worker concurrency happen inside the library. The model keeps
  only the options the managers pass; no worker ever runs two jobs at once in it.
- The cron schedules (`0 2 * * *`, `30 2 * * *`) are not modelled. A run is one call with a `now` parameter.
- Clocks, `uuid`, `Math.random` and the ids Mongo assigns are parameters (`now`, `newId`, the task queue's counter).
- `RefreshTokens.RefreshAccessTokens`: one `now` serves the whole run; the clock does not advance between records.
- `daysSinceIssued` is a floating-point division. It is modelled as the equivalent integer test, `now - issued` of at
  least fourteen days in milliseconds.
- `JSON.parse`, `JSON.stringify` (beyond the two fixed shapes modelled), `encodeURIComponent` and the SHA-256 app-id
  hash are opaque functions or parameters. `ObjectId.isValid` is modelled for the 24-hex-digit text form only, not for
  12-byte strings.
- `new Date(...)` parsing is a parameter (`StrategyValidation.Clock.parseDate`). The browser's time zone is left out:
  `getMonth`/`getDate` are read from a calendar date given as a value, and an Invalid Date is not modelled.
- `toLowerCase` is modelled on ASCII letters only. `trim` removes ECMAScript white space and line terminators: tab,
  line feed, vertical tab, form feed, carriage return, space, U+00A0, U+1680, U+2000 to U+200A, U+2028, U+2029,
  U+202F, U+205F, U+3000 and U+FEFF (`Text.IsSpace`).
- `InstrumentsUpdate.ParseIntPrefix` reads decimal digits only; `parseInt`'s `0x` prefix is not modelled.
- Mongoose `populate` is left out: replies carry the stored symbol id, not the instrument document.
- `BrokersController.UpdateBroker`: the update query's own casting of the request body is not modelled; the
  validator's refusal decides the reply before any write.
- `Fyers.GetOrderBook` and `Fyers.PlaceOrderResponse`: a thrown error that is not an HTTP-client error is folded
  into the transport failure. The fixed text "Failed to fetch orders from Fyers API" and the `error.message` or
  "Unknown error" text of those catch branches are not modelled separately.
- The `details` text of the 500 replies (an exception's `message`) is not modelled, only the status and the fixed
  error text.
- `StrategyController.ViewAllStrategies` returns a set: the order of `find()` is not modelled.
- `InstrumentsUpdate.FeedIdempotent`: idempotence holds only when the first reading wrote every future and the
  futures' tokens differ. `InstrumentsUpdate.RenameUnblocksSecondRun` shows a feed where a second reading writes more.
- The instrument collection is a map keyed by exchange token. This relies on the unique index on `exToken`; the
  unique index on the Fyers symbol is modelled as a failed write.
- `RolloverQueueManager.ts` imports `getOpenOrders`, `findNextContract` and `updateStrategySymbol`, which
  `tradeFunctions.ts` does not export. The two lookups `getOpenOrders` and `findNextContract` are parameters
  (`RolloverQueueManager.Collaborators`). `updateStrategySymbol` is modelled as the write
  `Runtime.Backend.UpdateSymbol`, which sets the strategy's `symbol` to the next contract's id; that effect is taken
  from its name and its call site (`RolloverQueueManager.ts:65`), as no file defines it. The wrongly-aritied calls of `closeAllPositions` and
  `openNewPositions` are modelled with the arguments those functions take.
- The second "Strategy not found" lookup in `validateUpdateStrategy` (lines 173-180) cannot fail once the first
  lookup succeeded, so it has no branch in `StrategyValidation.ValidateUpdate`.
- In the browser stores, a patch key set explicitly to `undefined` is treated as absent. A spread would copy the
  `undefined`.
- The sample strategies the strategy store starts with are a constructor parameter.
- Card fields the store never reads or writes (display-only fields) are omitted from `StrategyStore.Card`.
- JavaScript numbers are integers in the model (`JsValues.JsValue`). A fractional number in a request body cannot be
  written, so `WebhookController.ValidateWebhook` refuses fractions only when they arrive as text such as `"1.5"`.
- `JsValues.ToInteger` reads text as an optional sign, decimal digits and an optional point with a zero fraction
  (`"+5"`, `"5."`, `"5.0"`). Hexadecimal, binary and octal prefixes, exponents, `Infinity`, and arrays or objects
  converted through their primitive value (`["5"]`) are not modelled; they yield no integer in the model.
- The strategy table's rollover action calls `strategyApi.rolloverStrategy`, which `frontend/src/lib/api/strategy.ts`
  does not define. It has no counterpart here.
- `FyersBroker.create`, which the refresh job calls, does not exist in the adapter. Its failure is modelled as a
  refresh that fails (`refreshed` returning false).
- The dashboard's pages, modals and providers, the mock-store duplicates under `frontend/src/app/dashboard/`, the
  legacy rollover worker and scheduler, and the authentication routes are not part of this model.
