# gobeego event-sourced aggregates, in Dafny

This project models the core of gobeego. gobeego is a set of event-sourced aggregates built on a
command/event envelope library. Each aggregate's state is rebuilt by replaying its ordered
event stream through `ApplyEvent`. A command is then checked against that rebuilt state by
`ApplyCommand` or by a service's `Handle`, which returns the events to append. The model covers:

- **Banking.** `AccountAggregate` is a plain ledger. `PaymentAggregate` decides the create,
  debit and credit commands. `PaymentService.Handle` adds the existence gate.
- **Shopping.** The cart, user and product aggregates. `CartService.Handle` snapshots the
  product that a removal names. `UserService.Handle` adds the extra `cart_added` event.
- **Read-side projections** of the web application. This is the product command mapper
  `ProductService.Handle` plus four in-memory views.
- **The type registry.** It maps `(domain, tag)` to payload types.
- **The envelope builders** of the banking package and of the test helpers.
- **The naming rules of the protoc-gen-bee code generator.**

The aggregates that the Go code mutates in place are Dafny classes. Each has a `State()`
function and methods with `modifies this`. Every `ApplyEvent` and `ApplyCommand` is proved
equal to a pure step or decision function of the old state (`LedgerStep`, `PaymentDecide`,
`CartStep`, ...). Every `Replay` method is proved equal to a fold of that step function over
the history. The properties are lemmas about those functions.

- **Payloads** are JSON values: null, string, integer, object, or malformed. Decoding follows
  `encoding/json`:
  - a missing key or a null reads as the zero value;
  - a value of the wrong type is an error;
  - unknown keys are ignored.
- **The library's replay** is `EventLog.Fold`, a left fold with a policy parameter:
  - `Halt` stops at the first error;
  - `Continue` keeps the state changes made before an error and goes on with the next event.
- **A stream** is the log filtered by aggregate type and id (`EventLog.Stream`).
- **The command loop**: after a command, the library stamps each returned event that has an
  empty aggregate type or id with the command's, then appends it (`EventLog.Publish`).

Two quirks of the code are modelled as written:

- **Banking create.** The create decision emits its `AccountCreated` payload under the tag
  `"credited"`. On replay it reads as a credit of 0, so the opening balance is never replayed.
- **Cart `created` event.** The cart aggregate rejects its own `"created"` event on replay.
  The shopping test only holds under the `Continue` policy. `ShoppingScenario.CartScenario`
  proves it under `Continue`. `ShoppingScenario.CartScenarioUnderHalt` shows that `Halt`
  yields an empty cart.

Files:

| file | module | contents |
|---|---|---|
| `wrappers.dfy` | `Wrappers` | `Option`, `Result` |
| `json.dfy` | `Json` | JSON values and field reads |
| `envelopes.dfy` | `Envelopes` | the command and event envelopes, the error kinds |
| `payloads.dfy` | `Payloads` | payload types of both apps, encoding and decoding |
| `registry.dfy` | `Registry` | the `(domain, tag)` tables and envelope decoding |
| `event_log.dfy` | `EventLog` | fold, streams, stamping and publishing |
| `banking_const.dfy` | `BankingConst` | the payments constants |
| `banking_aggregates.dfy` | `BankingAggregates` | `AccountAggregate`, `PaymentAggregate` |
| `banking_service.dfy` | `BankingService` | `PaymentService.Handle` |
| `banking_commands.dfy` | `BankingCommands` | envelope builders of the banking package |
| `banking_scenario.dfy` | `BankingScenario` | the payments test scenario |
| `shopping_aggregates.dfy` | `ShoppingAggregates` | cart, user and product aggregates |
| `shopping_service.dfy` | `ShoppingService` | `CartService.Handle`, `UserService.Handle` |
| `shopping_scenario.dfy` | `ShoppingScenario` | the cart and user test scenarios |
| `projections.dfy` | `Projections` | `ProductService.Handle` and the four live projections |
| `test_builders.dfy` | `TestBuilders` | envelope builders of the test helpers |
| `protoc_gen_bee.dfy` | `ProtocGenBee` | kind mapping and message classification |

## Model

| member | source | states |
|---|---|---|
| BankingAggregates.LedgerStep | apps/banking/aggregates.go:20-39 | an error leaves the ledger unchanged; id and currency never change |
| BankingAggregates.LedgerStepOutcomes | apps/banking/aggregates.go:20-39 | an envelope for another id is refused before decoding; a decoded non-movement is an unknown-type error; a debit or credit shifts the balance by its signed amount; the balance moves only in that last case |
| BankingAggregates.AccountAggregate.constructor | apps/banking/aggregates.go:14-18 | a fresh account has the given id, balance 0 and no currency |
| BankingAggregates.AccountAggregate.ApplyEvent | apps/banking/aggregates.go:20-39 | the new fields and the returned error are exactly one ledger step from the old fields |
| BankingAggregates.AccountAggregate.Replay | apps/banking/service.go:17-18 | the fields after replay are the fold of the ledger step over the history under the given policy |
| BankingAggregates.MovementEnvelopes | apps/banking/aggregates.go:30-38 | wraps each debit or credit, in order, in the envelope the payments domain stores it in |
| BankingAggregates.MovementDecodes | apps/banking/aggregates.go:30-38 | a stored debit or credit decodes back to itself |
| BankingAggregates.LedgerConservation | apps/banking/aggregates.go:30-38 | replaying debits and credits of one account gives initial balance + Σ credits − Σ debits, with no error |
| BankingAggregates.PaymentStep | apps/banking/aggregates.go:49-78 | `found` becomes true exactly when the payload decodes; the id never changes; an error changes nothing but `found` |
| BankingAggregates.PaymentChecksAccountBeforeApplying | apps/banking/aggregates.go:56-72 | an account event naming another account only marks the aggregate found and is refused |
| BankingAggregates.PaymentAppliesOwnEvents | apps/banking/aggregates.go:56-72 | an account event naming this account is applied: created overwrites balance and currency, debit subtracts, credit adds |
| BankingAggregates.PaymentDecide | apps/banking/aggregates.go:80-163 | a decision fails exactly when it returns no events; a failure leaves the state unchanged; `found` never changes |
| BankingAggregates.PaymentAggregate.constructor | apps/banking/aggregates.go:41-47 | a fresh payment aggregate has the given id, balance 0, no currency and is not found |
| BankingAggregates.PaymentAggregate.ApplyEvent | apps/banking/aggregates.go:49-78 | the new fields and the returned error are exactly one payment step from the old fields |
| BankingAggregates.PaymentAggregate.Replay | apps/banking/service.go:17-18 | the fields after replay are the fold of the payment step over the history |
| BankingAggregates.PaymentAggregate.ApplyCommand | apps/banking/aggregates.go:80-163 | the new fields, events and error are exactly the decision on the old fields |
| BankingAggregates.PaymentFoundAfterReplay | apps/banking/aggregates.go:50-54 | under `Continue`, a replayed account is found iff it was found before or some event of its history decodes |
| BankingAggregates.CreateOutcome | apps/banking/aggregates.go:88-110 | create rejects a negative balance, then an empty currency, with no events; otherwise it sets the state and returns one event for the new account, of type "payments", tagged "credited" |
| BankingAggregates.CreateReplaysAsZeroCredit | apps/banking/aggregates.go:99-109 | the create event decodes as a credit of 0: replaying it marks the account found and keeps balance and currency where they were |
| BankingAggregates.DebitOutcome | apps/banking/aggregates.go:112-142 | debit rejects amount ≤ 0, then balance < amount, with no events; otherwise it lowers the balance and returns a debit of the source with the new balance, then a credit of the destination with the same amount and ref |
| BankingAggregates.CreditOutcome | apps/banking/aggregates.go:143-159 | credit rejects amount ≤ 0; otherwise it raises the balance and returns one credit of the destination carrying the new balance |
| BankingAggregates.UndecidableCommandsAreRejected | apps/banking/aggregates.go:80-86 | a command that does not decode, or is not one of the three, returns its error, no events and no change |
| BankingService.PaymentHandle | apps/banking/service.go:16-27 | Handle fails exactly when it returns no events |
| BankingService.HandlePayment | apps/banking/service.go:16-27 | the method's events and error are those of the handle function |
| BankingService.ExistenceGate | apps/banking/service.go:20-24 | under `Continue`: a create on an account whose stream has a decodable event is refused as existing; any other command on an account without one is refused as missing |
| BankingService.PastTheGate | apps/banking/service.go:26 | past the gate, Handle returns exactly what the replayed aggregate decides |
| BankingService.FoundAfterDecodedEvent | apps/banking/aggregates.go:50-54 | a history ending in a decodable event replays to a found account |
| BankingService.CreateEventDecodes | apps/banking/aggregates.go:99-109 | an accepted create returns exactly one event, and that event decodes |
| BankingService.CreateThenCreateIsRefused | apps/banking/service.go:20-21 | once an accepted create's events are appended, the same create is refused as existing |
| BankingCommands.CreateAccount | apps/banking/comands.go:30-45 | addressed to the new account, aggregate "payments", type "create"; the payload decodes back to the four arguments |
| BankingCommands.DebitAccount | apps/banking/comands.go:47-62 | addressed to the source account, type "debit"; the payload decodes back to the arguments |
| BankingCommands.CreditAccount | apps/banking/comands.go:64-79 | addressed to the destination account, type "credit"; the payload decodes back to the arguments |
| BankingScenario.FirstOpening | apps/banking/banking_test.go:79-100 | opening 54321 on an empty log succeeds and appends its single event |
| BankingScenario.SecondOpening | apps/banking/banking_test.go:79-100 | opening 12345 is unaffected by 54321's stream |
| BankingScenario.DepositStep | apps/banking/banking_test.go:100-120 | the deposit finds 12345 open and appends one credit carrying balance 1000 |
| BankingScenario.TransferStep | apps/banking/banking_test.go:120-156 | the transfer appends a debit of 12345 and a credit of 54321 |
| BankingScenario.PaymentsScenario | apps/banking/banking_test.go:79-156 | after the two openings and the deposit, 12345 replays to 1000; after the transfer, 12345 replays to 0 and 54321 to 1000; under either policy |
| ShoppingAggregates.FirstMatch | apps/shopping/aggregates.go:30-37 | returns the index of the first item with the id, or none when no item has it |
| ShoppingAggregates.CartStep | apps/shopping/aggregates.go:20-44 | `found` becomes true exactly when the payload decodes; the id never changes; an error changes nothing but `found` |
| ShoppingAggregates.CartDecide | apps/shopping/aggregates.go:46-103 | create on a found cart and anything else on a missing cart are refused; failure iff no events; every event is addressed to the cart with no aggregate type |
| ShoppingAggregates.ShoppingCartAggregate.constructor | apps/shopping/aggregates.go:11-18 | an empty, not-found cart with the given id |
| ShoppingAggregates.ShoppingCartAggregate.ApplyEvent | apps/shopping/aggregates.go:20-44 | the new fields and error are exactly one cart step from the old fields |
| ShoppingAggregates.ShoppingCartAggregate.Replay | apps/shopping/service.go:20-21 | the fields after replay are the fold of the cart step over the history |
| ShoppingAggregates.ShoppingCartAggregate.ApplyCommand | apps/shopping/aggregates.go:46-103 | the new fields, events and error are exactly the cart decision on the old fields |
| ShoppingAggregates.SumPricesAppend | apps/shopping/aggregates.go:27-29 | the price sum of a concatenation is the sum of the two sums |
| ShoppingAggregates.SumPricesRemove | apps/shopping/aggregates.go:30-37 | splicing out one item lowers the price sum by that item's price |
| ShoppingAggregates.CartStepKeepsTotal | apps/shopping/aggregates.go:27-37 | every cart step keeps the total equal to the sum of the item prices |
| ShoppingAggregates.ReplayedCartTotal | apps/shopping/aggregates.go:27-37 | a cart replayed from empty has total = sum of item prices, under either policy |
| ShoppingAggregates.CartRemovalWithoutMatch | apps/shopping/aggregates.go:30-37 | a removal matching no item changes neither items nor total |
| ShoppingAggregates.CartRemovalOfFirstMatch | apps/shopping/aggregates.go:30-37 | a removal takes out only the first matching item, keeps the others in order, and removes exactly that item from the multiset |
| ShoppingAggregates.CartCreatedIsRefusedOnReplay | apps/shopping/aggregates.go:21-25 | a decoded cart "created" event marks the cart found and is an unknown-type error |
| ShoppingAggregates.CartCommandsForwardPayload | apps/shopping/aggregates.go:57-99 | an accepted create, add or discount returns one event under its own tag with the command's payload and metadata; create resets items, total and discount |
| ShoppingAggregates.CartDecisionsReplay | apps/shopping/aggregates.go:72-99 | replaying an accepted add appends the product and adds its price; replaying a discount sets the discount |
| ShoppingAggregates.CartRemovalEventDecodes | apps/shopping/aggregates.go:79-92 | an accepted removal's event decodes to a removal of the snapshot product, under the snapshot's id |
| ShoppingAggregates.UserStep | apps/shopping/aggregates.go:113-130 | `found` becomes true exactly when the payload decodes; an error changes nothing but `found` |
| ShoppingAggregates.UserDecide | apps/shopping/aggregates.go:132-167 | the existence gate as for the cart; failure iff no events; `found` and the carts never change |
| ShoppingAggregates.UserAggregate.constructor | apps/shopping/aggregates.go:105-111 | an empty, not-found user with the given id |
| ShoppingAggregates.UserAggregate.ApplyEvent | apps/shopping/aggregates.go:113-130 | the new fields and error are exactly one user step from the old fields |
| ShoppingAggregates.UserAggregate.Replay | apps/shopping/service.go:55-56 | the fields after replay are the fold of the user step over the history |
| ShoppingAggregates.UserFoundAfterReplay | apps/shopping/aggregates.go:113-118 | under `Continue`, a replayed user is found iff it was found before or some event decodes |
| ShoppingAggregates.UserAggregate.ApplyCommand | apps/shopping/aggregates.go:132-167 | the new fields, events and error are exactly the user decision on the old fields |
| ShoppingAggregates.CartIds | apps/shopping/aggregates.go:124-125 | the cart ids of a run of cart_added events, one per event, in order |
| ShoppingAggregates.UserCartsInOrder | apps/shopping/aggregates.go:124-125 | replaying cart_added events appends their cart ids in order, duplicates kept, with no error |
| ShoppingAggregates.UserCreateReplays | apps/shopping/aggregates.go:142-153 | an accepted create's event, once stamped, is stored under the user and replays to the decided state |
| ShoppingAggregates.AddCartEventLosesCartId | apps/shopping/aggregates.go:155-162 | add_cart is addressed to the metadata's cart_id; a builder-made payload replays as an empty cart id |
| ShoppingAggregates.ProductStep | apps/shopping/aggregates.go:176-199 | `found` becomes true exactly when the payload decodes; an error changes nothing but `found` |
| ShoppingAggregates.ProductStepOutcomes | apps/shopping/aggregates.go:181-197 | created sets id, name and price; each update changes only its field; deleted blanks all three and stays found; anything else is an error |
| ShoppingAggregates.ProductAggregate.constructor | apps/shopping/aggregates.go:169-174 | a blank, not-found product with the given id |
| ShoppingAggregates.ProductAggregate.ApplyEvent | apps/shopping/aggregates.go:176-199 | the new fields and error are exactly one product step from the old fields |
| ShoppingAggregates.ProductAggregate.Replay | apps/shopping/service.go:30-31 | the fields after replay are the fold of the product step over the history |
| ShoppingAggregates.DeletedProductIsBlank | apps/shopping/aggregates.go:191-194 | a history ending in a deletion replays to id "", name "", price 0, found |
| ShoppingAggregates.ProductFoundAfterReplay | apps/shopping/aggregates.go:176-180 | under `Continue`, a replayed product is found iff it was found before or some event decodes |
| ShoppingService.CartHandle | apps/shopping/service.go:19-48 | Handle fails exactly when it returns no events; a command that does not decode returns its decode error and no events, before the cart decides |
| ShoppingService.HandleCart | apps/shopping/service.go:19-48 | the method's events and error are those of the handle function |
| ShoppingService.SnapshotReadsBack | apps/shopping/service.go:33-39 | the snapshot stored in the extra metadata reads back as the same product |
| ShoppingService.OtherCommandsPassThrough | apps/shopping/service.go:43-47 | a decodable command other than a removal is decided on the unmodified envelope |
| ShoppingService.NeverCreatedProductSnapshot | apps/shopping/service.go:29-39 | a product with no decodable event is snapshotted with the requested id and no name or price |
| ShoppingService.NoDecodedEventChangesNothing | apps/shopping/aggregates.go:176-180 | a history of undecodable events leaves the product as it was |
| ShoppingService.DeletedProductSnapshot | apps/shopping/service.go:29-39 | a product whose stream ends in a deletion is snapshotted blank, with id "" |
| ShoppingService.RemovalWithSnapshot | apps/shopping/aggregates.go:79-92 | on a found cart, a removal with a snapshot returns one event that decodes to the snapshot product |
| ShoppingService.RemovalHandle | apps/shopping/service.go:29-47 | a removal is decided on the envelope carrying the product's replayed snapshot |
| ShoppingService.DeletedProductRemovesNothing | apps/shopping/service.go:29-47 | removing a deleted product is accepted, and its event removes nothing from a cart whose items all have ids |
| ShoppingService.CartIdPayload | apps/shopping/service.go:74 | the concatenated cart_id payload is a JSON object exactly when the id needs no escaping |
| ShoppingService.UserHandle | apps/shopping/service.go:54-80 | a create that is not refused as existing ends with the cart_added event; UserExistenceGate and UserPastTheGate give the gate and the decision |
| ShoppingService.UserExistenceGate | apps/shopping/service.go:58-62 | under `Continue`: a create on a user whose stream has a decodable event is refused as existing; any other command on a user without one is refused as missing; both with no events |
| ShoppingService.UserPastTheGate | apps/shopping/service.go:64-79 | past the gate, Handle returns what the replayed user decides, with cart_added appended after a create's events and the decision's error kept |
| ShoppingService.HandleUser | apps/shopping/service.go:54-80 | the method's events and error are those of the handle function |
| ShoppingService.UserCreateOutcome | apps/shopping/service.go:64-79 | a create on a missing user returns "created", then "cart_added", with no error |
| ShoppingService.UserCreateEventsDecode | apps/shopping/service.go:64-79 | once stamped, the two events decode to the created user and to the metadata's cart id |
| ShoppingService.UserCreateReplaysWithItsCart | apps/shopping/service.go:64-79 | replaying a successful create's two events gives the named user with exactly one cart, the metadata's cart_id |
| ShoppingService.UndecodableCreateStillAddsCart | apps/shopping/service.go:65-79 | a create whose payload does not decode still returns the cart_added event, together with the error |
| ShoppingScenario.CartScenario | apps/shopping/shopping_test.go:73-150 | under `Continue`: create, two adds of item1 at 10 → 2 items, total 20; one removal → 1 item, total 10 |
| ShoppingScenario.CartScenarioUnderHalt | apps/shopping/shopping_test.go:73-150 | under `Halt` the same commands are accepted, but the cart replays empty with an unknown-type error |
| ShoppingScenario.UserScenario | apps/shopping/shopping_test.go:152-177 | the user create replays to user-1 with one cart |
| Projections.ProductHandle | cmd/app/projections.go:20-54 | fails exactly when the command does not decode; at most one event, addressed to the command's id; a decoded non-product command gives no events and no error |
| Projections.ProductEventDecodes | cmd/app/projections.go:26-50 | each stamped event decodes to the event its command maps to |
| Projections.ProductCommandsReplay | cmd/app/projections.go:26-50 | each of the four commands yields one event, and replaying it on the product aggregate has the command's effect |
| Projections.LiveViewStep | cmd/app/projections.go:105-130 | an error exactly when decoding fails, with no change; otherwise the id comes from the envelope, the recorded error is cleared for a created, name, price or deleted event and set to unsupported for any other, while nil is returned |
| Projections.ProductLiveView.constructor | cmd/app/projections.go:100-104 | no error recorded, blank product |
| Projections.ProductLiveView.ApplyEvent | cmd/app/projections.go:105-130 | the new fields and result are exactly one live-view step |
| Projections.LiveViewStepAgrees | cmd/app/projections.go:105-130 | without deletions, one live-view step and one product step keep the view showing the product |
| Projections.LiveViewAgreesWithAggregate | cmd/app/projections.go:105-130 | over a history with no deletion, the live view shows what the product aggregate replays to |
| Projections.ProductIdIsStableWithoutDeletion | apps/shopping/aggregates.go:181-197 | without deletions, a replay addressed to the product keeps its id |
| Projections.LiveViewKeepsDeletedProduct | cmd/app/projections.go:124-125 | on deletion the view keeps name and price, whereas the aggregate blanks them |
| Projections.ProductListStep | cmd/app/projections.go:137-155 | an error exactly when decoding fails, with no change; otherwise the recorded error is cleared for a created event and set to unsupported for any other, which leaves the list as it was |
| Projections.UpdateProductLiveProjection.constructor | cmd/app/projections.go:132-136 | an empty list, no error |
| Projections.UpdateProductLiveProjection.ApplyEvent | cmd/app/projections.go:137-155 | the new fields and result are exactly one list step |
| Projections.ProductListIsCreatedProducts | cmd/app/projections.go:137-155 | the list after a history is the old list plus one product per created event, in order; an error iff some event does not decode |
| Projections.CounterStep | cmd/app/projections.go:163-179 | an error exactly when decoding fails, with no change |
| Projections.CartCounterLiveProjection.constructor | cmd/app/projections.go:157-162 | count 0, total 0 |
| Projections.CartCounterLiveProjection.ApplyEvent | cmd/app/projections.go:163-179 | the new fields and error are exactly one counter step |
| Projections.CountWhere | cmd/app/projections.go:163-179 | counts the events of a history that satisfy a test, at most its length |
| Projections.CounterCountsEvents | cmd/app/projections.go:163-179 | count after a history = old count + #item_added − #item_removed |
| Projections.CounterTotalsEvents | cmd/app/projections.go:168-174 | total after a history = old total + Σ prices of item_added − Σ prices carried by item_removed, whether or not the item was in the cart |
| Projections.CounterCanGoNegative | cmd/app/projections.go:172-174 | more removals than additions drive the count below zero |
| Projections.CounterAgreesWithoutRemovals | cmd/app/projections.go:163-179 | without removals, the counter's count stays the cart aggregate's item count and its total the cart's total |
| Projections.CounterCountsAbsentRemoval | cmd/app/projections.go:172-174 | a removal of an absent item leaves the cart's items and total alone but still lowers the count by one and the total by the carried price |
| Projections.StripAll | cmd/app/projections.go:191-196 | keeps only id, name and price of each item, in order |
| Projections.CartViewStep | cmd/app/projections.go:185-208 | an error exactly when decoding fails, with no change |
| Projections.CartProjection.constructor | cmd/app/projections.go:181-184 | no items |
| Projections.CartProjection.ApplyEvent | cmd/app/projections.go:185-208 | the new items and error are exactly one cart-view step |
| Projections.FirstMatchOfStripped | cmd/app/projections.go:197-203 | stripping items does not change which item first matches an id |
| Projections.CartViewStepMirrorsCart | cmd/app/projections.go:185-208 | one cart-view step on the stripped items is the stripped result of one cart step |
| Projections.CartProjectionMirrorsCart | cmd/app/projections.go:185-208 | over any history, under `Continue`, the cart projection holds the cart aggregate's items, stripped |
| Registry.DecodeErrorsAreDecodeErrors | apps/shopping/init.go:5-30 | decoding fails only with a decode error, and a decoded value has the registered type of its tag |
| Registry.DecodeRegisteredEvent | apps/shopping/init.go:5-30 | an event encoded under a registered tag of its type decodes back to itself |
| Registry.DecodeRegisteredCommand | apps/shopping/init.go:5-30 | a command encoded under a registered tag of its type decodes back to itself |
| Registry.CreateTagDecodesAsCreate | apps/shopping/init.go:6-29 | a decoded "create" command is the create type of its domain |
| Registry.CreatedIsKeyedByDomain | apps/shopping/init.go:6-21 | the event tag "created" maps to three different types in cart, user and product |
| Registry.CreateIsNoEventTag | apps/shopping/init.go:6-29 | no event is registered under "create" |
| Registry.CreatedIsNoCommandTag | apps/shopping/init.go:6-29 | no command is registered under "created" |
| Registry.CartRegistrations | apps/shopping/init.go:6-14 | cart registers exactly four event tags and four command tags |
| Registry.UserRegistrations | apps/shopping/init.go:16-19 | user registers exactly create/add_cart and created/cart_added, with their types |
| Registry.ProductRegistrations | apps/shopping/init.go:21-29 | product registers exactly four event tags and four command tags |
| Registry.ProductEventKinds | apps/shopping/init.go:21-25 | the types of the four product event tags |
| Payloads.DecodeEventAs | apps/shopping/events.go:3-46 | a decoded event has the requested type |
| Payloads.DecodeCommandAs | apps/shopping/commands.go:3-27 | a decoded command has the requested type |
| Payloads.ProductRoundTrip | apps/shopping/models.go:3-8 | a product encodes as an object and reads back unchanged, strictly and leniently |
| Payloads.EventRoundTrip | apps/banking/events.go:3-17 | every event payload decodes back to itself |
| Payloads.CommandRoundTrip | apps/banking/comands.go:9-28 | every command payload decodes back to itself |
| Payloads.CreatedReadsAsZeroCredit | apps/banking/aggregates.go:99-109 | an AccountCreated payload read as AccountCredited has amount 0 and keeps id, ref and timestamp |
| Payloads.AddCartPayloadLosesCartId | apps/shopping/events.go:26-28 | a CartAddToUser payload read as CartAddedToUser has an empty cart id |
| Payloads.ForwardedCreate | apps/shopping/aggregates.go:64-70 | a cart create payload forwarded as the "created" event reads as CartCreated with the same cart id |
| Payloads.ForwardedAdd | apps/shopping/aggregates.go:72-78 | an add_item payload forwarded as "item_added" reads as CartItemAdded with the same product |
| Payloads.ForwardedDiscount | apps/shopping/aggregates.go:93-99 | an apply_discount payload forwarded as "discount_applied" reads as CartDiscountApplied with the same discount |
| Payloads.ForwardedUserCreate | apps/shopping/aggregates.go:149-153 | a user create payload forwarded as "created" reads as UserCreated with the same id, name and email |
| EventLog.HaltedFoldIsStable | apps/banking/service.go:17-18 | under `Halt`, once a prefix fails, the rest of the history changes nothing |
| EventLog.ContinueFoldAppend | apps/banking/service.go:17-18 | under `Continue`, replaying a + b is replaying b after a |
| EventLog.FoldSnoc | apps/banking/service.go:17-18 | after an error-free prefix, one more event is one more step |
| EventLog.ContinueFoldErrorFree | apps/banking/service.go:17-18 | on an error-free history the two policies agree |
| EventLog.FoldPreserves | apps/banking/service.go:17-18 | a property every step keeps holds after any replay |
| EventLog.Stream | apps/banking/service.go:17-18 | the selected stream holds only events of the selected type and id |
| EventLog.StreamAppend | apps/banking/service.go:17-18 | the stream of a concatenation is the concatenation of the streams |
| EventLog.StreamMembers | apps/banking/service.go:17-18 | an event is in the stream iff it is in the log with the selected type and id |
| EventLog.StampAll | apps/shopping/aggregates.go:65-70 | stamps each returned event with the command's type and id where they are empty |
| TestBuilders.CreateAccount | apps/test/commands.go:30-46 | addressed to AccountId, "accounts", "create"; the payload decodes to the four arguments; "create" is not registered for "accounts" |
| TestBuilders.DebitAccount | apps/test/commands.go:48-64 | addressed to FromAccountId, "debit"; the envelope decodes to the arguments |
| TestBuilders.CreditAccount | apps/test/commands.go:66-82 | addressed to ToAccountId, "credit"; the payload decodes to the arguments; "credit" is not registered for "accounts" |
| TestBuilders.AccountCreatedEvent | apps/test/events.go:33-49 | "accounts", no aggregate id, "created", no metadata; the payload decodes to the five arguments |
| TestBuilders.AccountDebitedEvent | apps/test/events.go:51-67 | "accounts", no aggregate id, "debited", no metadata; the envelope decodes to the five arguments |
| TestBuilders.AccountCreditedEvent | apps/test/events.go:69-85 | "accounts", no aggregate id, "credited", no metadata; the envelope decodes to the five arguments |
| ProtocGenBee.GoType | protoc-gen-bee/main.go:132-147 | 1 → float64, 2 → float32, 3/4/5/17/18 → int, 8 → bool, every other kind → string, in both directions |
| ProtocGenBee.IndexOf | protoc-gen-bee/main.go:100 | the first position where the pattern occurs, or none when it occurs nowhere |
| ProtocGenBee.ReplaceFirstOfPrefix | protoc-gen-bee/main.go:100 | replacing the first occurrence of a leading pattern removes that prefix |
| ProtocGenBee.Classify | protoc-gen-bee/main.go:95-105 | a command iff the name starts with "Create" or ends with "Command"; otherwise an event iff it ends with "Created" or "Event" |
| ProtocGenBee.EventTypeOf | protoc-gen-bee/main.go:92-101 | "CreateX" gives "XCreated", every other name gets "ed" appended |
| ProtocGenBee.BuildFields | protoc-gen-bee/main.go:79-87 | one field per proto field, in source order |
| ProtocGenBee.MessageOf | protoc-gen-bee/main.go:80-103 | the message built from one proto message (fields in order, default or "Create" event type) and the class that decides its list |
| ProtocGenBee.ProcessFile | protoc-gen-bee/main.go:74-106 | the events and commands lists are the file's messages of each class, in order, with the file's aggregate name |
| ProtocGenBee.OfClassIsOfClass | protoc-gen-bee/main.go:95-105 | every listed message has its list's class and the file's aggregate name |
| ProtocGenBee.ListsAreDisjoint | protoc-gen-bee/main.go:95-105 | no message is in both lists |
| ProtocGenBee.OfClassKeepsOrder | protoc-gen-bee/main.go:102-104 | two messages of one class appear in their list in source order |
| ProtocGenBee.OfClassContains | protoc-gen-bee/main.go:102-104 | every message of a class is in that class's list |

## Left out

- I/O and concurrency are not part of this model: HTTP routing, the embedded NATS/JetStream server, SSE
  rendering, the goroutines and channels of `cmd/app/main.go`, live subscriptions with cancellation,
  and the race between replay and append.
- `ProductProjection.ApplyEvent` (cmd/app/projections.go:60-98) is left out because its effect is database writes.
- The envelope library is not part of this model. Replay is a fold over the selected stream with an explicit
  halt-or-continue policy, since the library's own policy is not visible. Its command loop is assumed to stamp
  an empty aggregate type or id of a returned event with the command's, then append (`EventLog.Publish`).
- `bee.Replay`'s return value is discarded by every service, as in the source, so a replay error never reaches the caller.
- JSON is reduced to null, strings, integers, objects and a malformed value; arrays are not represented.
  A cart create payload's items list is therefore not modelled; the cart create command ignores it anyway.
- Go's case-insensitive matching of JSON keys is left out: keys match exactly. The user test's payload keys
  "Name" and "Email" are written to match.
- Floating-point prices, totals and discounts are integers (minor units); no rounding is modelled.
- int64 overflow of balances is not modelled: balances are unbounded integers.
- Timestamps are opaque inputs. The envelope timestamp of a banking event is not modelled; debit and credit events carry timestamp 0, as the source leaves them unset.
- ShoppingService.CartIdPayload: the hand-concatenated `cart_id` payload is modelled as a valid object exactly when the id has no quote, backslash or control character; otherwise it is malformed JSON. Go's exact escaping rules are not modelled.
- The structpb conversion of the product snapshot is the identity; its error path (service.go:40-42) cannot fail for a product and is not modelled.
- `CartService.Handle` assigns the snapshot into the incoming envelope in place. The model passes a new envelope value, so the caller-visible aliasing is not captured.
- ShoppingAggregates.CartDecide and ShoppingAggregates.UserDecide: the source discards the command decode error and switches on what the envelope library returns; the model assumes a command that does not decode reaches the switch's default branch (`UnknownCommandType`), since that library is not part of this model. `UndecodableCreateStillAddsCart` rests on this.
- A cart removal without a product snapshot is a Go panic (a failed type assertion); the model returns the error `MissingProductSnapshot` instead.
- The Go type `AccountCreated` of the banking package is not part of this model. Its payload has the fields of the test helpers' `AccountCreatedEvent`: account_id, currency, balance, ref, timestamp.
- The create, update and delete product command structs are not part of this model. Their fields are the ones `ProductService.Handle` reads.
- In protoc-gen-bee, the `isAggregateID` proto-extension lookup is a field of the input. Template rendering, file output, the package name and the skip of files not marked for generation are left out.
- `OverrideMethodByHeader` in `cmd/app/main.go` is left out with the rest of that file.
- pkg/utils, pkg/appctx and pkg/collection are not part of this model.
