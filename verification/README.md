# Restaurant OS: a verified model

A Dafny model of the parts of the restaurant platform where a mistake is
expensive: the notification pipeline, orders and the alarms around them, money,
and the WhatsApp conversation.

`dafny verify dfyconfig.toml` checks everything.

## What is modelled

**Notifications.** `NotificationRules`, `NotificationTable` and
`NotificationPlan` are the rules: which event tells whom, on which channel, when
to retry. `NotificationPipeline` is the protocol: an outbox that grows, any
number of dispatchers with one cursor between them, a sender that reads a
tenant's due rows, claims them and may die holding one, receipts that come late.
Each database transaction is one step and a run is any list of steps.
`DeliveryRules` says what becomes of one row. `DispatchSafety`, `SenderSafety`,
`SenderProgress` and `SenderLiveness` prove what every run keeps and where it
ends. `NotificationWorkers` has the dispatcher and the sender as classes
updating a shared database row by row; their methods are proved to be runs of
the protocol.

**Orders.** `OrderStates` is the transition table. `Orders` is the shop as a
state machine: carts edited, checked out into numbered orders, moved from status
to status, counted on their customers. `OrderSafety` proves what every run
keeps, `OrderTimes` that stage times are what they say, `CartEdits` what an
accepted edit amounts to. `OrdersService` has checkout, transition and cart
edits as transactions over mutable tables, tied to the machine.
`EscalationLadder`, `Escalation`, `EscalationTiming` and `EscalationMonitor` are
the alarm for orders nobody accepts: any number of sweeps interleaved with the
shop, query by query. `EscalationBacklog` and `BacklogReached` are what too many
open alarms do to it. `Idempotency` is the protocol around a retried request.

**Pricing.** `Money` and `MoneyText` are amounts in minor units and their
decimal text, `Pricing` the totals of an order, `CartPricing` the pricing of a
cart in its strict and its preview mode, `CartRules` what a cart is charged for
delivery and what blocks it, `CartPricingService` the same as the loop that
runs.

**Conversation.** `Replies` is what a tapped id, a typed number or typed words
mean. `Messages` and `Browsing` are lists within the provider's limits and paging
through the menu. `Handoff` is one conversation as a state machine: redelivered
messages, turns, people replying, alarm sweeps; `HandoffRules` says what its turns
and sweeps come to, `HandoffAlarms` is about the alarms. `ConversationDesk` has the
same as methods on a mutable session. `Phone` is the normalisation that makes a
customer one customer.

`Outcomes` and `Decimals` are shared vocabulary.

## Where the code and its own words differ

The model follows the code; each of these is proved with a concrete run or an
exact condition.

- `packages/notifications/src/sender.ts:508-513` says a consistently crashing
  notification cannot retry for ever. The reclaim of a stale row (lines 135-157)
  does not look at its attempts, so it can (`AttemptsHaveNoFixedBound`). Attempts
  are bounded by six plus the row's mishaps, and that bound is exact
  (`AttemptsAreBounded`, `AttemptsBoundIsReached`).
- The one-hour cap on the retry delay (`packages/domain/src/notifications.ts:117`)
  never applies: the longest window the budget allows is eight minutes
  (`RetryWindow`).
- The notification cursor can move back when two dispatchers overlap
  (`CursorMayMoveBack`), and only then (`CursorFallsIff`, `CursorIsMonotone`). Only
  replay follows.
- `packages/domain/src/menu.ts:205` promises that negative modifiers never make a
  negative line. Cart pricing clamps the unit price before the modifiers are
  added, so a line can be negative, exactly when the chosen options take off more
  than the dish is listed at (`NegativeLineIff`, `NegativeLineExists`). The bill never is
  (`CartNeverOwesMoney`).
- `apps/api/src/common/idempotency.service.ts:37` says work runs at most once per
  key. It can finish once more each time recording its response fails, and no
  oftener (`WorkFinishesOnceUnlessUnrecorded`, `DoneOnceIff`, `WorkMayFinishTwice`).
- Phone normalisation is not idempotent on numbers whose digits begin with four
  zeros, and on no others (`NormalizeTwice`).
- A typed number means the thing at that position on the screen, except in a cart,
  where it is always a quantity: with "Add more", "Checkout" and "Cancel" shown, a
  typed 2 is not a checkout (`TypedIsTapped`, `CartButtonsAreNotNumbered`).
- Sections after the ninth cannot be reached by tapping, nor can dishes without a
  section while any section has something to order (`SectionReachableIff`,
  `LooseReachableIff`). "Show more" tapped again on an old list runs past the end,
  to a list the provider refuses (`PagePastTheEnd`).
- The handoff alarm is claimed in one write and announced in another: a sweep that
  dies between them leaves the conversation marked as escalated with nobody told
  (`AlarmCanBeLost`); every claim is announced exactly when none does
  (`ClaimsAreAnnouncedOrLost`). The claim does not check that the conversation still
  waits (`AlarmAfterResolve`), and falls on one that does not exactly when its
  handoff ended after the sweep's read (`ClaimFallsOnEndedHandoffIff`). A reply
  between the two writes lets two alarm events follow one another
  (`EventsMayFollowOneAnother`); exactly when that can happen is
  `SecondAlarmMayFollowIff`.
- The read of open escalations has a limit and no order, so acknowledged orders can
  keep their alarms: one is sure to lose its alarm exactly when the other open rows
  are fewer than a batch, and a sweep is sure to clear any at all exactly when the
  rows of waiting orders are (`SureToBeClearedIff`, `SureToClearSomethingIff`,
  `BacklogComesAbout`).

## Model

| member | source | states |
|---|---|---|
| NotificationRules.RetryWindow | packages/domain/src/notifications.ts:113-139 | a retry is refused exactly when six attempts are spent; otherwise it falls in the upper half of a doubling window that stays at or below eight minutes, so the hour's cap never applies |
| NotificationRules.WhoIsTold | packages/domain/src/notifications.ts:179-246 | which statuses tell anyone, on which channels and whether the staff too, and that no two tell the same |
| NotificationTable.InsertAllAdds | packages/notifications/src/dispatcher.ts:164-191 | skipping duplicates adds exactly the missing keys, each with a row that was offered |
| NotificationTable.SuppressEffect | packages/notifications/src/sender.ts:431-493 | a suppression changes its own row, and adds at most the row of the spec's next channel, fresh and due, only for a first-available spec with an adapter |
| NotificationTable.OneWinner | packages/notifications/src/sender.ts:174-182 | however many senders race for a pending row, and for others besides, exactly one claim of it wins: the first |
| NotificationPlan.StaffIff | packages/notifications/src/dispatcher.ts:448-507 | the staff told of a branch's orders are exactly the users with an active membership of the tenant that sees orders, there or organization-wide |
| NotificationPlan.PlannedExactly | packages/notifications/src/dispatcher.ts:193-507 | a row is planned for an event exactly when it is untried, due now and for a recipient the event concerns (the order's customer, or somebody on the branch's staff), on the first enabled channel of the spec that reaches them, or every one for an alarm, written to their number or user there |
| DeliveryRules.SentOrSuppressed | packages/notifications/src/sender.ts:184-258 | a delivered row is sent, fails or is suppressed: suppressed exactly when its channel has no adapter, it has no destination, or it is for WhatsApp and no account is connected or the customer last wrote a day ago or more and the template is not approved |
| DeliveryRules.PromotedOnly | packages/notifications/src/sender.ts:431-506 | and nothing else changes but that a suppressed update gets a row, fresh and due, on the spec's next channel if that has an adapter and no row, written to the customer's phone |
| DeliveryRules.FailedOrRetried | packages/notifications/src/sender.ts:515-557 | a failed row is given up exactly when the failure was final or six attempts are spent, and otherwise waits between fifteen seconds and eight minutes |
| DeliveryRules.ReceiptReaches | apps/api/src/notifications/whatsapp-webhook.service.ts:333-376 | a receipt changes exactly the rows that quote its id: a delivery makes them delivered, a failure makes those still sent due again |
| DeliveryRules.TakenUpIff | packages/notifications/src/sender.ts:135-157 | with room in its batch a pass takes up exactly its tenant's rows that are waiting and due, or held past the stale-claim delay |
| NotificationPlan.PlanLosesOnly | packages/notifications/src/dispatcher.ts:210-464 | planned again at any later time an event names no row it did not name before, while its order or conversation, the tenant's preferences and the staff's having a phone stand as they were or have gone |
| DispatchSafety.NothingBehindTheCursorIsMissing | packages/notifications/src/dispatcher.ts:109-161 | with any number of dispatchers, overlaps and crashes, every event behind the stored cursor has every row it implied when dispatched |
| DispatchSafety.ImpliedRecordsThePlan | packages/notifications/src/dispatcher.ts:164-191 | what an event implied is every key of its plan at the time it was dispatched, and nothing is forgotten |
| DispatchSafety.ReplayInsertsNothing | packages/notifications/src/dispatcher.ts:137-141 | replaying dispatched events leaves the table exactly as it was, over runs in which orders, customers, conversations and tenants come and go, as long as what the plans of dispatched events were made from stands or goes |
| DispatchSafety.CursorFallsIff | packages/notifications/src/dispatcher.ts:155-161 | a step lowers the cursor exactly when it is the cursor write of a dispatcher whose batch ends behind it |
| DispatchSafety.CursorIsMonotone | packages/notifications/src/dispatcher.ts:109-161 | over a whole run the cursor never falls if no dispatcher starts while another is under way, crashes and all |
| DispatchSafety.CursorMayMoveBack | packages/notifications/src/dispatcher.ts:155-161 | with two under way it can: a run in which it does |
| SenderSafety.ProviderIdOnlyOnceSent | packages/notifications/src/sender.ts:184-258 | in every reachable world a provider message id is only on a row that was sent or delivered |
| SenderSafety.LateReceiptTouchesNoRetry | apps/api/src/notifications/whatsapp-webhook.service.ts:333-376 | a receipt, however late, leaves every waiting, failed or suppressed row exactly as it is |
| SenderSafety.OneLiveRow | packages/notifications/src/sender.ts:431-493 | with preferences and staff unchanged, an event has at most one row per recipient of an update that is not suppressed, through crashes, replays, promotions and receipts |
| SenderSafety.StraightDownTheChannels | packages/notifications/src/sender.ts:431-493 | the rows of such a chain fill the spec's channels from the chosen one down without a gap, all but the last suppressed |
| SenderProgress.AttemptsAreBounded | packages/notifications/src/sender.ts:135-182 | a row is attempted at most six times plus once for each crash while it was held, unrecorded failure and failed receipt |
| SenderProgress.CrashingRowIsReclaimedForever | packages/notifications/src/sender.ts:135-157 | n crashes in a row give n more attempts, whatever the budget, and the row still waits |
| SenderProgress.AttemptsHaveNoFixedBound | packages/notifications/src/sender.ts:508-513 | for every n there is a run from the start in which a row has been attempted n times and is neither sent nor given up |
| SenderProgress.AttemptsBoundIsReached | packages/notifications/src/sender.ts:135-182 | and that bound is exact: for every number of mishaps there is a run from the start that reaches it |
| SenderLiveness.AttemptsAreClaims | packages/notifications/src/sender.ts:174-182 | in every run a row's attempts are the number of times it was claimed |
| SenderLiveness.PassClaims | packages/notifications/src/sender.ts:135-172 | a pass that nothing disturbs claims every row of its batch, full or not |
| SenderLiveness.ServingPassesAreBounded | packages/notifications/src/sender.ts:135-182 | in any run of passes among arbitrary steps, the undisturbed passes that hold a row of an event and recipient are at most six a channel plus their mishaps |
| SenderLiveness.ServedRowsAreBounded | packages/notifications/src/sender.ts:135-182 | and the batches of all undisturbed passes add up to at most the budgets of all rows |
| SenderLiveness.EveryNotificationSettles | packages/notifications/src/sender.ts:135-182 | whatever happens among them (events, dispatches, edits, receipts, crashes, backlogs that fill every batch), once the undisturbed passes that come after the recipient's due times outnumber those budgets, the recipient was settled at the start of one: every row sent, failed or suppressed, promoted ones included |
| SenderLiveness.StaysSettled | packages/notifications/src/sender.ts:135-182 | a settled recipient stays so until its event is dispatched again or a receipt reports one of its messages failed |
| SenderLiveness.EveryNotificationEnds | packages/notifications/src/sender.ts:135-182 | so without those two it is settled at the end of the run |
| NotificationWorkers.Database.CreateMany | packages/notifications/src/dispatcher.ts:164-191 | the insert loop is insert-all of the specification and counts exactly the rows added |
| NotificationWorkers.NotificationSender.Claim | packages/notifications/src/sender.ts:174-182 | the conditional update takes the row only from the status it was read in, counting the attempt |
| NotificationWorkers.NotificationSender.Suppress | packages/notifications/src/sender.ts:431-493 | the code that suppresses and promotes does what the specification says, early returns included |
| NotificationWorkers.NotificationSender.RecordFailure | packages/notifications/src/sender.ts:515-557 | the failed row goes back to the ladder or is given up, as specified |
| NotificationWorkers.NotificationSender.Deliver | packages/notifications/src/sender.ts:184-258 | one delivery, its failure record included, is two steps of the protocol |
| NotificationWorkers.NotificationSender.SendOne | packages/notifications/src/sender.ts:164-170 | one row of a pass, in whatever state it is by then, is a turn of the protocol: claimed and attempted, or passed over when the claim is lost |
| NotificationWorkers.NotificationSender.SendForTenant | packages/notifications/src/sender.ts:135-172 | a pass over any read, stale or not, is a run of the protocol and counts the claims it won |
| NotificationWorkers.NotificationSender.SendUndisturbed | packages/notifications/src/sender.ts:135-172 | undisturbed, it attempts every row that was due |
| NotificationWorkers.NotificationDispatcher.PlanHandoffNotifications | packages/notifications/src/dispatcher.ts:361-446 | the staff of the branch get the handoff rows and nobody else does |
| NotificationWorkers.NotificationDispatcher.PlanNotifications | packages/notifications/src/dispatcher.ts:210-352 | planning one event inserts exactly its plan and counts what was new |
| NotificationWorkers.NotificationDispatcher.DispatchForTenant | packages/notifications/src/dispatcher.ts:164-191 | a tenant's events are inserted one after another, in one transaction |
| NotificationWorkers.NotificationDispatcher.GroupByTenant | packages/notifications/src/dispatcher.ts:109-135 | the batch is split by tenant with every event in it once and in order |
| NotificationWorkers.NotificationDispatcher.DispatchOnce | packages/notifications/src/dispatcher.ts:109-146 | an undisturbed round is a run of the protocol that moves the cursor by what it read, and an empty one changes nothing |
| OrderSafety.EveryRunIsSound | apps/api/src/orders/orders.service.ts:88-420 | in every reachable shop: each order's history is a legal path from its checkout status to its current one; cash and card are paid exactly on handover and online orders stay pending; stage times cover the stages reached; carts match orders one to one; numbers are gap-free; lifetime figures are the count and sum of received orders; one customer per number; the outbox announces each order once and tells its history |
| OrderSafety.NoStatusComesBack | packages/domain/src/order-state-machine.ts:19-59 | no status occurs twice in a history but out-for-delivery and delivery-failed |
| OrderSafety.CartBecomesOneOrder | apps/api/src/orders/orders.service.ts:88-304 | at every later time exactly one order comes from a checked-out cart |
| OrderSafety.CheckedOutCartIsFrozen | apps/api/src/cart/cart.service.ts:272-285 | a checked-out cart never changes again |
| OrderSafety.RetryPlacesNothing | apps/api/src/whatsapp/conversation.service.ts:652-685 | checking a placed cart out again, whatever came between and under whatever key, is refused, so a crash before the conversation was saved places no second order |
| OrderSafety.ReceiptsAreForever | apps/api/src/orders/orders.service.ts:193-228 | nothing later rewrites an order's lines, total, number, customer, type or payment method |
| OrderSafety.PrintedNumbersDiffer | apps/api/src/orders/orders.service.ts:490-506 | two orders of one branch and day never print the same number, even across a change of slug |
| OrderSafety.CheckoutChargesThePreview | apps/api/src/orders/orders.service.ts:88-142 | a cart is checked out exactly when it is active, its customer's number is readable and not blocked, a delivery has an address written out or saved as theirs, and its preview, with the zones seen from that address where it is on the map, shows no blocker; the order bears the preview's lines and total |
| OrderSafety.CheckoutWrites | apps/api/src/orders/orders.service.ts:144-304 | what a checkout writes: the order's type, day, payment, status and history, its number as counted and as printed, the counter, the cart closed and the events announced |
| OrderSafety.CheckoutIsWarranted | apps/api/src/orders/orders.service.ts:88-161 | a placed order has at least one line, belongs to the unblocked customer with the normalised number, and if delivered goes to a saved address of that customer or one written out |
| OrderSafety.FirstOrderIsForever | apps/api/src/orders/orders.service.ts:251-257 | the time of a customer's first order is written once |
| OrderSafety.PhoneChangedIff | apps/api/src/customers/customers.service.ts:108-125 | a customer's number is changed to any readable one that nobody has, and nothing else of anybody's is |
| OrderSafety.MoveAllowedIff | apps/api/src/orders/orders.service.ts:319-340 | a transition is made exactly when the order exists, the table allows it, and a cancellation has a reason and, once the kitchen has started, an actor with the right to cancel |
| OrderStates.ComesFrom | packages/domain/src/order-state-machine.ts:19-128 | which statuses an order may enter each status from, and of which type it must be |
| OrderTimes.MoveTimesItsStage | apps/api/src/orders/orders.service.ts:341-363 | a transition writes its own clock in the column of the status it enters, and no other column and no other order |
| OrderTimes.CheckoutTimesConfirmation | apps/api/src/orders/orders.service.ts:159-192 | a checkout times the confirmation by its own clock unless payment is online, and nothing else |
| OrderTimes.StageTimesAreEntries | apps/api/src/orders/orders.service.ts:41-51 | in every run each stage time is the clock of the last step that entered that stage, and absent if none did |
| OrderSafety.StageTimesAreOrdered | apps/api/src/orders/orders.service.ts:345-363 | under a clock that does not go back, the stage times of every order are in order and cover every earlier stage |
| CartEdits.OptionsAreChosenOnce | apps/api/src/cart/cart.service.ts:163-200 | a line's options are accepted exactly when the item offers each, and are stored once each under a group that offers them |
| CartEdits.RemovedIsGone | apps/api/src/cart/cart.service.ts:212-253 | removing a line, or a quantity of zero, takes out that line and no other |
| CartEdits.QuantityIsSet | apps/api/src/cart/cart.service.ts:212-240 | setting a quantity changes that line's quantity and nothing else, zero removes it, and a line that is not there is refused |
| CartEdits.AddedIff | apps/api/src/cart/cart.service.ts:129-200 | an item is added, as a line at the end, exactly when it is on the menu, on sale at the branch, and has the variant and every option asked for |
| CartEdits.AddedItemsFailOnlyOnChoices | apps/api/src/cart/cart.service.ts:129-200 | on an unchanged menu a line that was accepted can fail pricing only on its modifier choices |
| OrdersService.OrdersService.FindOrCreateCustomer | apps/api/src/customers/customers.service.ts:158-184 | the customer with that normalised number, added only if there is none |
| OrdersService.OrdersService.AllocateOrderNumber | apps/api/src/orders/orders.service.ts:490-506 | the counter's upsert hands out the next number and stores it |
| OrdersService.OrdersService.Admit | apps/api/src/orders/orders.service.ts:88-142 | the refusals of a checkout, in their order |
| OrdersService.OrdersService.Checkout | apps/api/src/orders/orders.service.ts:88-304 | the transaction is the machine's checkout, table by table, or leaves every table as it was; soundness is kept |
| OrdersService.OrdersService.TransitionOrder | apps/api/src/orders/orders.service.ts:319-420 | the transaction is the machine's transition, or leaves every table as it was; soundness is kept |
| OrdersService.CartService.ChooseOptions | apps/api/src/cart/cart.service.ts:163-200 | the loop over asked-for options stores what the specification says or refuses |
| OrdersService.CartService.PriceAndPresent | apps/api/src/cart/cart.service.ts:314-336 | an edited cart is written and priced, and put back when pricing fails |
| OrdersService.CartService.Change | apps/api/src/cart/cart.service.ts:93-261 | every edit is the machine's, on an active cart only, or changes nothing |
| EscalationLadder.NormalizeLadder | packages/domain/src/kitchen.ts:145-178 | succeeds exactly on non-empty ladders of distinct positive whole levels and distinct positive whole delays, and returns a permutation strictly increasing in delay |
| EscalationLadder.LadderFor | apps/worker/src/escalation-monitor.ts:346-362 | a tenant always has a well-formed ladder: its own if acceptable, the default otherwise |
| Escalation.EveryRunIsConsistent | apps/worker/src/escalation-monitor.ts:90-337 | in every interleaving of sweeps with the shop: rows belong to orders that were confirmed, resolved ones to orders that moved on, each row has its one event, and each sweep has raised what it passed |
| Escalation.ResolvedNeverWaits | apps/worker/src/escalation-monitor.ts:311-337 | a resolved escalation never belongs to an order that is still confirmed |
| Escalation.OneAlertPerRung | apps/worker/src/escalation-monitor.ts:247-308 | each order and level has exactly one timeout event when its row exists, and none otherwise |
| Escalation.NothingDueIsLeft | apps/worker/src/escalation-monitor.ts:125-146 | a sweep that has been through its orders leaves none with a due rung unraised, and each has its one event |
| EscalationTiming.NoAlarmTooEarly | apps/worker/src/escalation-monitor.ts:80-166 | in every run, with any number of sweeps and crashes, an order's alarm at a level was raised by a sweep that found the order confirmed, within twelve hours, and waiting as long as a rung of that level asks |
| EscalationTiming.NoAlarmTooLate | apps/worker/src/escalation-monitor.ts:80-166 | and an order so found, not kept out of a full batch, has every such alarm once that sweep has been through its orders |
| Escalation.AcknowledgedAreCleared | apps/worker/src/escalation-monitor.ts:311-337 | with the shop and other sweeps at work in between, a sweep resolves exactly the rows it read open whose orders had moved on when it looked, and that is all of them when fewer than a batch are open |
| EscalationBacklog.SureToBeClearedIff | apps/worker/src/escalation-monitor.ts:311-337 | the alarm of an acknowledged order is sure to be cleared at the end of a sweep, whatever its read returns and others do meanwhile, exactly when the other open rows are fewer than a batch |
| EscalationBacklog.SureToClearSomethingIff | apps/worker/src/escalation-monitor.ts:311-337 | while some open row is of an acknowledged order, a sweep is sure to clear a row exactly when the open rows of waiting orders are fewer than a batch |
| BacklogReached.BacklogComesAbout | apps/worker/src/escalation-monitor.ts:311-337 | a run from the start, through two checkouts and a long ladder, in which they are not and a sweep may clear nothing |
| Escalation.RungsRaisedAreAPrefix | apps/worker/src/escalation-monitor.ts:125-146 | under a fixed ladder the levels raised for an order are those of its first few rungs, with any number of sweeps and crashes |
| EscalationMonitor.EscalationMonitor.Raise | apps/worker/src/escalation-monitor.ts:247-308 | row and event are written together, or neither when the row is there |
| EscalationMonitor.EscalationMonitor.RaiseAll | apps/worker/src/escalation-monitor.ts:125-146 | the loop over one order's due rungs is a run of the machine and counts the events written |
| EscalationMonitor.EscalationMonitor.ResolveAcknowledged | apps/worker/src/escalation-monitor.ts:311-337 | reading, comparing and resolving is a run of the machine |
| EscalationMonitor.EscalationMonitor.SweepOnce | apps/worker/src/escalation-monitor.ts:90-152 | one pass is a run of the machine, counts the events it wrote, and leaves every due rung of every order it read raised |
| Idempotency.EveryRunIsSound | apps/api/src/common/idempotency.service.ts:48-171 | in every run an active request alone holds its key, successes match the recorded response, and finished work that was not lost keeps the key taken |
| Idempotency.OneWorkerPerKey | apps/api/src/common/idempotency.service.ts:105-157 | at most one request at a time is inside the work of a key |
| Idempotency.SuccessesAgree | apps/api/src/common/idempotency.service.ts:48-99 | every success under a key has the same response for the same body, and at most one is fresh, however recording and releasing fail |
| Idempotency.ResponsesAreForever | apps/api/src/common/idempotency.service.ts:159-166 | a recorded response is never released or replaced |
| Idempotency.ClaimAnswers | apps/api/src/common/idempotency.service.ts:48-72 | what claiming a key comes to: work when it is free, the recorded response for the same body, and a refusal for another body or one still in progress |
| Idempotency.LaterRequestsAreAnswered | apps/api/src/common/idempotency.service.ts:48-72 | in every run, whatever came between, a recorded response answers every later request of its body and refuses every other |
| Idempotency.ReleaseFrees | apps/api/src/common/idempotency.service.ts:159-166 | a release frees a key still in progress and nothing else |
| Idempotency.WorkFinishesOnceUnlessUnrecorded | apps/api/src/common/idempotency.service.ts:74-98 | work under a key finishes as often as recording it fails, or once more |
| Idempotency.DoneOnceIff | apps/api/src/common/idempotency.service.ts:74-98 | for a key with a recorded response the work was done just once exactly when no recording failed |
| Idempotency.WorkMayFinishTwice | apps/api/src/common/idempotency.service.ts:92-98 | a run in which work under one key finishes twice, after one failed recording |
| Idempotency.IdempotencyService.RunOnce | apps/api/src/common/idempotency.service.ts:48-99 | the result and the row after a whole request, for every way its work, its recording and its release can go |
| Money.Allocate | packages/domain/src/money.ts:132-147 | the loop hands each share the truncated quotient and the remainder one unit at a time to the earliest |
| Money.AllocationIsFair | packages/domain/src/money.ts:132-147 | shares add up exactly, negative amounts included; they differ by at most one unit, the larger magnitudes first, none over the amount or of the other sign |
| Money.RoundIff | packages/domain/src/money.ts:27-29 | a number rounds to the nearest whole one, and a half away from zero |
| Money.ArithmeticIff | packages/domain/src/money.ts:81-101 | amounts are added, subtracted and compared exactly when they are of one currency or one is zero and the result is a safe integer, in the currency of the one that is not zero |
| MoneyText.ParsePrinted | packages/domain/src/money.ts:61-71 | parsing a printed amount gives back the same amount |
| MoneyText.PrintParsed | packages/domain/src/money.ts:181-186 | printing a parsed string gives its canonical two-place form |
| MoneyText.MatchIff | packages/domain/src/money.ts:61-71 | what is read are exactly an optional minus, digits, and at most two decimals after a point |
| MoneyText.ReadsAs | packages/domain/src/money.ts:61-71 | as the number written, in hundredths |
| Pricing.TotalsAreExact | packages/domain/src/pricing.ts:69-109 | totals that succeed are the bill computed on plain integers |
| Pricing.RefusedFor | packages/domain/src/pricing.ts:69-109 | a bill is refused for a quantity exactly when a line has none, and otherwise, in one currency, only for a negative discount or fee or a figure too large to hold exactly |
| Pricing.TotalNeverNegative | packages/domain/src/pricing.ts:69-109 | with non-negative rates no bill, charge or tax is negative, nor is a discount more than the subtotal, even with negative lines |
| Pricing.RoundingIsBounded | packages/domain/src/pricing.ts:69-109 | a bill is within 1 + taxPercent/200 minor units of the unrounded one, however many lines |
| Pricing.LargerDiscountNeverCosts | packages/domain/src/pricing.ts:69-109 | at a fixed fee a larger discount never raises the bill |
| CartPricing.ValidSelectionIff | packages/domain/src/menu.ts:128-178 | a selection is accepted exactly when its options are distinct, on offer in the group, at least its minimum and at least one if it is required, and at most its maximum |
| CartPricing.StrictAgreesWithPreview | apps/api/src/pricing/cart-pricing.service.ts:130-342 | strict pricing succeeds exactly when the preview shows no line problem, and then they are the same cart; otherwise it fails on the first line problem the preview shows |
| CartPricing.FreeDeliverySeesTheBill | apps/api/src/pricing/cart-pricing.service.ts:275-309 | the figure the free-delivery threshold is compared with is the discounted subtotal that is billed |
| CartRules.FeeIs | apps/api/src/pricing/delivery-zone.service.ts:163-182 | the fee of every priced cart: nothing unless it is a delivery whose discounted subtotal does not reach the threshold, if one is set; otherwise that of the first zone with a radius that reaches the point, or the default |
| CartRules.BlockersAre | apps/api/src/pricing/cart-pricing.service.ts:311-330 | a preview says the cart is empty exactly when it has no line, below minimum exactly when a delivery's subtotal is under its zone's minimum or the default one, and outside the area exactly when no zone reaches the point |
| CartRules.LineProblemIff | apps/api/src/pricing/cart-pricing.service.ts:130-234 | a line cannot be priced exactly when its dish is gone or off sale, its variant is gone, or an active group's choices are not acceptable |
| CartRules.LineCosts | apps/api/src/pricing/cart-pricing.service.ts:170-273 | a line costs its quantity times the dish's listed price, the variant's or the branch's where there is one and never below zero, and the sum of its options |
| CartRules.EveryItemIsPriced | apps/api/src/pricing/cart-pricing.service.ts:130-273 | a cart priced for checkout has a line for every item, in order |
| CartRules.OrderableIff | packages/domain/src/menu.ts:75-109 | a dish is on sale exactly when it is active and available, and available at the branch where the branch says anything |
| CartRules.TheStricterWins | packages/domain/src/menu.ts:75-86 | of the dish's availability and its branch's the stricter counts |
| CartPricing.CartNeverOwesMoney | apps/api/src/pricing/cart-pricing.service.ts:277-309 | no priced cart totals below zero, whatever its modifiers do |
| CartPricing.NegativeLineIff | apps/api/src/pricing/cart-pricing.service.ts:191-273 | a line is negative exactly when the options the customer chose in the dish's active groups take off more than the dish is listed at, for its variant, at its branch, clamped at zero |
| CartPricing.NegativeLineExists | packages/domain/src/menu.ts:205-206 | a menu and a line that price to minus 2.00 |
| CartPricing.OnlyWarrantedOptions | apps/api/src/pricing/cart-pricing.service.ts:184-234 | a line charges only for options the customer chose, on offer now in an active group of the dish, at their own price |
| CartPricing.NoChoiceIsForgotten | apps/api/src/pricing/cart-pricing.service.ts:184-234 | no choice made in an attached active group goes uncharged |
| CartPricingService.PushOptions | apps/api/src/pricing/cart-pricing.service.ts:224-234 | after validation the option lookup never misses |
| CartPricingService.SelectAllOptions | apps/api/src/pricing/cart-pricing.service.ts:191-234 | the loop over groups stops at the first one not satisfied, as specified |
| CartPricingService.PriceAllLines | apps/api/src/pricing/cart-pricing.service.ts:130-273 | the loop over lines, in either mode, is the specification |
| CartPricingService.PriceTheCart | apps/api/src/pricing/cart-pricing.service.ts:75-342 | the whole pricing method is the specification, failures included |
| Replies.ParseEncoded | packages/domain/src/conversation.ts:179-193 | a built id reads back as its action and value, colons included; an empty value reads as none |
| Replies.EncodeParsed | packages/domain/src/conversation.ts:179-193 | what an id reads as builds that id again, exactly unless it is an action with a bare colon |
| Replies.FirstMatchIff | packages/domain/src/conversation.ts:383-390 | the intent of typed words is that of the first table entry with a word among them |
| Replies.WordsAre | packages/domain/src/conversation.ts:383-390 | a word was said exactly when it stands in the message as a whole run of letters and digits |
| Replies.TapMeans | packages/domain/src/conversation.ts:267-280 | what tapping each kind of button means, in every state and whatever its title says |
| Replies.WordsMean | packages/domain/src/conversation.ts:348-370 | what typed words mean, state by state: the first command among them, else agreement, else a search, else nothing |
| Replies.AddressMeans | packages/domain/src/conversation.ts:313-321 | at the address any text is the address, unless it calls off or asks for a person |
| Replies.ConfirmsIff | packages/domain/src/conversation.ts:302-370 | a message confirms an order exactly when it is a tap on confirm, the number of a confirm button shown typed outside the cart and address states, or, once the customer was asked to confirm, words that conclude or agree and carry no command read before those |
| Replies.TypedIsTapped | packages/domain/src/conversation.ts:302-346 | typing the number of something shown means what tapping it means, exactly outside the address state and, in a cart, only on the quantity button that says it |
| Replies.CartButtonsAreNotNumbered | apps/api/src/whatsapp/conversation.service.ts:467-488 | with the cart buttons shown, a typed 2 is a quantity while a tap is a checkout |
| Messages.ListMessage | packages/whatsapp/src/messages.ts:87-118 | the loop that spends the row budget builds what the specification says |
| Messages.FirstTenRowsAreKept | packages/whatsapp/src/messages.ts:87-118 | a list keeps exactly the first ten rows across all its sections, in order |
| Messages.RowsAreKept | packages/whatsapp/src/messages.ts:87-118 | and those rows are as they were but for their texts being cut to size |
| Messages.RowAsSent | packages/whatsapp/src/messages.ts:94-100 | a row goes out under its own id, its title whole where it fits 24 characters and else its beginning and an ellipsis, its description likewise in 72 |
| Messages.ButtonsAsSent | packages/whatsapp/src/messages.ts:55-69 | of the buttons the first three go out, in order, each under its own id |
| Messages.EverySectionIsSendable | packages/whatsapp/src/messages.ts:87-118 | no section of a built list is empty and no title or description is too long |
| Messages.ShownAreTheLastOffered | apps/api/src/whatsapp/conversation.service.ts:998-1010 | the ids remembered are those of the last interactive message |
| Messages.NothingOfferedNothingShown | apps/api/src/whatsapp/conversation.service.ts:998-1010 | after a turn of plain sentences no typed number means anything, whatever is still on the screen |
| Messages.TypingAfterASavedTurn | apps/api/src/whatsapp/conversation.service.ts:143-155 | after a saved turn, typing k means tapping the kth thing of its last interactive message, outside the two states that read numbers their own way |
| Browsing.PageKeepsEveryRow | apps/api/src/whatsapp/conversation.service.ts:326-355 | a page is its dishes and "Show more" exactly when dishes remain, and loses no row to the ten-row budget |
| Browsing.FirstScreen | apps/api/src/whatsapp/conversation.service.ts:265-356 | asking for the menu shows the sections, or the dishes at once when there is one section or none |
| Browsing.OrderableItemsIff | apps/api/src/whatsapp/conversation.service.ts:771-786 | a dish can be ordered in conversation exactly when it is visible, in stock and has no modifier group that needs a choice |
| Browsing.OpenCategoriesIff | apps/api/src/whatsapp/conversation.service.ts:277-279 | a section is offered exactly when something in it can be ordered |
| Browsing.DishRowSays | apps/api/src/whatsapp/conversation.service.ts:326-339 | the kth row of a page carries the kth dish's number, name and price and adds that dish when tapped |
| Browsing.TypingARowsNumber | apps/api/src/whatsapp/conversation.service.ts:986-990 | every row of a list sent while browsing starts with its number, however it is clipped, and typing that number does what tapping the row does |
| Browsing.SectionPages | apps/api/src/whatsapp/conversation.service.ts:269-356 | choosing a section and tapping "Show more" n times shows its page n |
| Browsing.SectionIsShownInFull | apps/api/src/whatsapp/conversation.service.ts:291-356 | so a section is shown in full, each dish once and in order, "Show more" being offered on every page but the last |
| Browsing.SectionReachableIff | apps/api/src/whatsapp/conversation.service.ts:295-324 | a section can be reached by tapping exactly when it is among the first nine with anything to order |
| Browsing.LooseReachableIff | apps/api/src/whatsapp/conversation.service.ts:295-326 | dishes without a section can be reached exactly when no section has anything to order |
| Handoff.EveryRunIsSound | apps/api/src/whatsapp/conversation.service.ts:128-172 | in every run each entry of the conversation's log was allowed by those before it, and the stored state, alarm and expiry agree with the log |
| Handoff.OneTurnPerMessage | apps/api/src/notifications/whatsapp-webhook.service.ts:146-213 | however often a message is delivered it starts at most one turn and is answered at most once |
| Handoff.SilentUntilResolved | apps/api/src/whatsapp/conversation.service.ts:128-140 | after a handoff the bot says nothing but the rest of that turn until a person ends it or it restarts a full day after the customer last wrote |
| Handoff.AlarmsAreSeparated | apps/worker/src/escalation-monitor.ts:183-228 | two claims of the unanswered-handoff alarm have a handoff entry, staff reply or resolve between them, with any number of sweeps |
| HandoffRules.AnsweredUnlessWithAPerson | apps/api/src/whatsapp/conversation.service.ts:128-172 | a message waiting for its turn is answered by the next one that is not lost, saving where the answer leads and another day, unless a person has the conversation and it has not expired |
| HandoffRules.FoundIff | apps/worker/src/escalation-monitor.ts:168-196 | a sweep takes an interest exactly when the conversation is with a person, has no alarm, and the customer has waited as long as the threshold |
| HandoffAlarms.NoAlarmTooEarly | apps/worker/src/escalation-monitor.ts:190-196 | no alarm is raised about a customer who has waited less than the shortest threshold in force |
| HandoffAlarms.AlarmEventsAreSeparated | apps/worker/src/escalation-monitor.ts:183-228 | two alarm events come from two claims with such an entry between them, and have one between themselves when the first is that of the first claim and was written before its alarm was cleared |
| HandoffAlarms.SecondAlarmMayFollowIff | apps/worker/src/escalation-monitor.ts:183-228 | in every run, another alarm event may follow the one a sweep is about to write, with no such entry in between, exactly when another sweep has claimed too, or the alarm has been cleared since and the conversation waits again or another sweep had already found it waiting |
| HandoffAlarms.EventsMayFollowOneAnother | apps/worker/src/escalation-monitor.ts:198-222 | such a run: a reply comes between a claim and its event, and the next alarm event follows with nothing in between |
| HandoffAlarms.ClaimsAreAnnouncedOrLost | apps/worker/src/escalation-monitor.ts:198-222 | in every run the alarms claimed are those announced, those about to be, and those whose sweep died in between; so all were announced exactly when none died there |
| HandoffAlarms.AlarmCanBeLost | apps/worker/src/escalation-monitor.ts:198-222 | a sweep that dies between claim and event leaves the alarm set, no event, and nothing for a later sweep to find |
| HandoffAlarms.ClaimFallsOnEndedHandoffIff | apps/worker/src/escalation-monitor.ts:183-203 | in every run a claim falls on a conversation not handed off exactly when, between that sweep's read and its claim, the handoff was ended or restarted and no new one began |
| HandoffAlarms.AlarmAfterResolve | apps/worker/src/escalation-monitor.ts:198-203 | a handoff ended after the sweep's read still has its alarm claimed |
| ConversationDesk.Conversation.LoadSession | apps/api/src/whatsapp/conversation.service.ts:865-906 | a session is created, reset when expired with its alarm left as it was, or found as it was |
| ConversationDesk.Conversation.SaveSession | apps/api/src/whatsapp/conversation.service.ts:937-964 | a save restarts the day and clears the alarm exactly when it enters a handoff |
| ConversationDesk.Conversation.TakeTurn | apps/api/src/whatsapp/conversation.service.ts:128-172 | a turn is a run of the machine and answers exactly when the conversation is not handed off |
| ConversationDesk.Conversation.HandleItem | apps/api/src/notifications/whatsapp-webhook.service.ts:146-213 | a delivered item is a run of the machine; a duplicate touches nothing |
| ConversationDesk.Conversation.SweepUnanswered | apps/worker/src/escalation-monitor.ts:168-228 | an undisturbed sweep raises one alarm exactly when the conversation has waited long enough unanswered |
| Phone.StoredForm | apps/api/src/common/phone.ts:73-96 | a stored number is a plus and 8 to 15 digits that the plan accepts |
| Phone.NormalizeTwice | apps/api/src/common/phone.ts:30-71 | normalising a stored number changes nothing, exactly unless the original's digits began with four zeros |
| Phone.SeparatorsDoNotMatter | apps/api/src/common/phone.ts:36-40 | a separator between two digits never matters |
| Phone.FiveFormsOneNumber | apps/api/src/common/phone.ts:46-71 | the five ways a ten-digit national number is written are one stored number |
| Phone.InternationalIff | apps/api/src/common/phone.ts:46-96 | a number written with its country code is accepted exactly when it has that country's length, or 8 to 15 digits for a country not listed, and kept as written |
| Phone.DomesticIff | apps/api/src/common/phone.ts:55-71 | one written without, with or without the trunk zero, is accepted exactly when it has ten digits |

## Left out

- Transactions are atomic, their commits are unambiguous, and the checks and writes of one checkout or one transition happen with nothing in between.
- Outbox rows become visible in sequence order, and an event's sequence is its position: the cursor relies on it.
- The sender is one process at a time, with crashes anywhere; of several senders only the race for a pending row is modelled, not two of them reclaiming the same stale row.
- The turns of one contact run one at a time: two messages of one customer handled at the same moment are not modelled.
- Which tenant the sender turns to is any: the unordered query that names at most a hundred of them is not modelled, and could pass one over.
- Query results whose order or limit matters are inputs of the step that reads them, constrained to be a possible answer of the query.
- Uniqueness constraints are map keys; ids are numbers or positions, and option ids belong to one group.
- Tenants, branch access, permissions other than the right to cancel, authentication and row-level security.
- Escalation is modelled for one tenant; a sweep visits others in between, which touches nothing here.
- Idempotency: keys do not expire, and a failed insert and the reading of the row it met are one step. Request hashes have no collisions.
- Percentages are exact rationals; the binary floating point of `percent / 100` is not modelled. JSON ladder values are real numbers.
- Distance to a delivery zone is an input; great-circle arithmetic, business dates and time zones are not part of the model.
- A cart edit is given the customer's default address as the zones seen from it; cart creation and its expiry time are reduced to a fresh active cart. `ABANDONED` is never written by the code.
- Text is sequences of characters, where the provider's limits count UTF-16 code units: a character outside the basic plane counts once here and twice there. Lower-casing is ASCII, which is all the keyword table and branch slugs need.
- Malformed provider payloads, signature checks, message logs and the wording and variables of messages.
- Conversation handlers other than browsing: the state a turn leads to is any state. Search, tracking and address entry only add easy members.
- The transition matrix of `packages/domain/src/conversation.ts:39-116` is not consulted by the conversation service, so no conformance to it is claimed.
- A conversation's expiry and last-inbound time are written from one clock reading where the code takes two a moment apart.
- Real-time fan-out over Redis and SSE, kitchen screens, CRUD of menus, customers and settings, and audit rows.
- Handoff.AlarmsAreSeparated: speaks of claims; the events that announce them may follow one another, exactly when `HandoffAlarms.SecondAlarmMayFollowIff` says.
- SenderLiveness.EveryNotificationSettles: counts only passes over the event's tenant that nothing disturbs and that come after the recipient's due times and the stale-claim delay; that such passes keep coming is the scheduler's part.
- SenderSafety.OneLiveRow: needs preferences and staff numbers to stay as they are, because changing them moves the chosen channel of later replays.
