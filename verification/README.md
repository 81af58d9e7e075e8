# QuickBite: the reliable-messaging protocol, verified

A Dafny model of how QuickBite carries an order from `POST /orders` through payment, restaurant,
delivery and notification, and proofs of what it guarantees when workers crash, calls fail and
messages are duplicated at every point. `dafny verify dfyconfig.toml` checks the whole project.

## What is modelled

The system is one state machine (`Protocol.dfy`): the API's open transactions, the `orders`,
`processed_events` and `notifications` tables, and a log of message copies, each with the place it has
reached (a work queue, a retry queue, the dead-letter queue, or a point in the code of the instance
that holds it). Each copy in hand is one busy instance, so any number of instances of each worker run
side by side. An instance may die or an exception may escape at every such point, a publish may raise
although the broker routed it, and a commit may raise although it became durable.

| file | contents |
|---|---|
| `Schemas.dfy` | records, events, idempotency keys as strings |
| `Protocol.dfy`, `Steps.dfy` | state, the four `process` functions, routing, retries, steps, runs, what a step can change |
| `Invariant.dfy` | the properties the invariants are made of |
| `Unconditional.dfy`, `Stages.dfy` | the inductive invariant of every configuration: shapes and tables, then order stages and what still carries each order |
| `Preservation.dfy` | the stronger invariant with the permanent-failure hook kept apart, and that every step keeps it |
| `Guarantees.dfy` | what holds in every reachable state and over every run |
| `Serial.dfy` | interleaved transactions equal their serial execution in commit order |
| `Termination.dfy`, `Lineage.dfy`, `Liveness.dfy` | a decreasing weight, deliveries per message, absence of deadlock, completion |
| `Exclusion.dfy`, `Outcome.dfy` | when hook and payment never meet by themselves; the outcome of fault-free runs |
| `Scenarios.dfy`, `Limits.dfy`, `Hooks.dfy`, `DeadLetters.dfy` | where the guarantees end, with exact conditions |
| `Exact.dfy` | what statuses tell, serial execution and current reads, each with the exact settings under which it holds |
| `Topology.dfy` | topic matching, `declare_topology`, routing and dead-lettering |
| `Backoff.dfy` | retry delays and head-of-line waiting in a retry queue |
| `Patterns.dfy` | which ends each payment behaviour can lead to, with exact settings |
| `Handling.dfy` | one undisturbed delivery as a function, and redelivery |
| `Deliveries.dfy` | what that delivery leaves behind, worker by worker and column by column |
| `Runtime.dfy` | the shared world: every await lets others act, and may raise |
| `Workers.dfy`, `Api.dfy` | the workers and `create_order` as imperative code over that world |

The imperative layer performs its actions on a `World` whose validity says that its state is the result
of a legal run of the state machine. At each await a script, universally quantified, lets other
instances and requests take any enabled steps and decides whether the awaited call fails. The methods
are proved for every script. Whatever happens, the copy ends where the outcome says, is settled the
stated number of times, and is acknowledged only for one of the three allowed reasons. Every step that a
healthy instance would not take (a crash, an escaping exception, a failing publish, `process` raising
before it has read anything, a hook that gives up: `Runtime.Sound` says which) is paid for by a failing
call of that same delivery: `World.Troubles`, the steps of that kind plus the failing calls to come, never
grows. So where no call fails, every step is sound, however others interleave, and the trace of actions
that the world keeps shows which ones have been taken. With an empty script the new state is exactly the
function `Handling.Handled`, and `Deliveries.dfy` says what that is for each worker: rows, guard, notes and
new copies, field by field.

## Assumptions

- Inserting a guard row conflicts, or waits, while another open transaction holds the same key
  (composite primary key, `src/quickbite/common/models.py:75-76`).
- `Config.exclusive`: the permanent-failure hook's transaction does not overlap an open payment
  transaction on the same order. The code does not enforce it, and no result in `Guarantees.dfy` about
  reachable states, `Termination.dfy`, `Liveness.dfy` or `Api.dfy` needs it. Without it a status can be
  overwritten with FAILED, or FAILED with PAID. `Exact.dfy` and `Hooks.dfy` prove for every result that
  this affects that it holds exactly under the settings `Hooks.Harmless`: kept apart, a hook that never
  runs, or no second payment copy. These are the settings under which keeping hook and payment apart
  forbids no run (`Hooks.RunsExclusiveExactly`). `Exclusion.OneInstanceIsExclusive` proves that a single
  payment instance brings the exclusion about, and `Outcome.dfy` that fault-free runs need no such
  assumption.
- An instance that loses its message has lost its work: a crash rolls back the open transaction and only
  then is the message delivered again. A broker connection that drops while its instance keeps working
  would hand the message to a second instance beside the first, which is not modelled; the case of
  `Hooks.Harmless` without main retries (`Hooks.OneShot`) rests on this.
- Publishing to the topic exchange reaches all matching queues at once, and so does the expiry of a
  retry. Order identifiers are fresh. `ack` and `nack` do not raise.
- Delays are integer milliseconds. Results that need retries to expire say so (`Guarantees.Delays`).
  `Limits.ExpiryExactly` and `Liveness.CompletionExactly` show that they fail otherwise.

## Where the code and its documentation disagree

The model follows the code.

- `docs/REPORT.md:19` bounds a message to `MAX_RETRIES` + 1 attempts. A main retry resets the not-ready
  counter (`src/quickbite/workers/base.py:328-332`), so the bound is (R + 1) * (N + 1), and it is attained
  (`Limits.RetryBoundAttained`).
- `docs/REPORT.md:28` and `:32`, and the reason text of the failure event, place the original message of
  a FAILED order in the dead-letter queue. A crash between the hook's commit and the nack loses it
  (`DeadLetters.OriginalLostExactly`); without such a crash it is there (`DeadLetters.FailedIsDeadLettered`).
- `docs/REPORT.md:28` ties `order.payment.failed` to FAILED. The hook publishes it for any order, before its
  commit (`Hooks.NoticeExactly`); in fault-free runs the two agree, for every payment behaviour
  (`Outcome.NoticeMeansFailed`).
- `docs/ARCHITECTURE.md:107` calls several payment instances safe because of the guard alone. The guard does
  prevent a second charge (`Guarantees.ChargedOnce`), but the hook does not take it
  (`Hooks.HookSafeExactly`, `Hooks.FailureFinalExactly`).
- A retry delay of zero is published without an expiration (`src/quickbite/common/messaging.py:149`) and
  strands the message for good (`Limits.ExpiryExactly`, `Limits.StuckForever`).

## Model

| member | source | states |
|---|---|---|
| Schemas.KeysCollideExactly | src/quickbite/common/schemas.py:122-124 | two idempotency keys are equal iff order id and event agree, or one id contains a colon that swallows the front of the other event name |
| Schemas.KeyRoundTrip | src/quickbite/common/schemas.py:122-124 | an id without a colon and the event name are both recovered from the key |
| Schemas.EventKeys | src/quickbite/common/schemas.py:122-124 | the key of each event is the order id, a colon and that event's own name |
| Schemas.KeyStringInjective | src/quickbite/api/routes.py:53-57 | keys of generated order ids are equal iff order and event kind are equal |
| Unconditional.ActionCore | src/quickbite/workers/base.py:160-367 | for all settings and overlaps, every enabled action keeps the basic invariant and the ids, guard rows and notes already in the tables |
| Unconditional.RunCore | src/quickbite/workers/base.py:160-367 | so does every run |
| Unconditional.NoSuppress | src/quickbite/workers/base.py:238-244 | past the guard a notification key is free, so the suppression is never enabled |
| Stages.ActionBase | src/quickbite/workers/base.py:160-367 | for all settings and overlaps, every enabled action keeps: the guard rows each status rests on, reads that are what the event announces or a final FAILED, and a live message behind every order |
| Stages.RunBase | src/quickbite/workers/base.py:160-367 | so does every run |
| Preservation.InitInv | src/quickbite/common/models.py:26-80 | the empty system satisfies the stronger invariant |
| Preservation.ActionInv | src/quickbite/workers/base.py:160-367 | with the hook kept apart, every enabled action of API, broker and workers, failures and crashes included, keeps the stronger invariant |
| Preservation.RunInv | src/quickbite/workers/base.py:160-367 | so does every run |
| Guarantees.NoOrderStranded | src/quickbite/workers/base.py:186-281 | whatever overlaps, in every reachable state an accepted order has the event that moves it on, or republishes what did, queued, in hand, in a retry queue or dead-lettered |
| Guarantees.NoNotificationLost | src/quickbite/workers/base.py:263-281 | whatever overlaps, every event ever published has its notification stored, or a copy still live at or dead-lettered from the notification worker |
| Guarantees.DuplicatesIdentical | src/quickbite/workers/base.py:212-230 | all copies of one event, first or republished, are equal to the single event stored on the producer's guard row and carry the id on the order row, and the order has reached the announced state or is FAILED |
| Guarantees.NotificationsMatchGuard | src/quickbite/workers/notification.py:36-51 | whatever overlaps, notification rows and notification guard rows hold the same keys, each once, and the IntegrityError suppression never runs |
| Guarantees.NotesTellTruth | src/quickbite/workers/notification.py:20-27 | whatever overlaps, in every reachable state each stored notification carries exactly the text of the event whose key it has |
| Guarantees.CommitWrites | src/quickbite/workers/delivery.py:52-61 | whatever overlaps, a commit writes the drawn payment id over PENDING, CONFIRMED over PAID, the drawn driver over CONFIRMED, stores the event with the same id and time, and otherwise writes no column and stores none |
| Guarantees.SkipsOnlyFailed | src/quickbite/workers/restaurant.py:28-39 | whatever overlaps, an event that passes the guard finds its order PENDING (payment, if it exists), PAID (restaurant) or CONFIRMED (delivery), or else FAILED, so nothing but a FAILED order is ever skipped |
| Guarantees.RetryBound | src/quickbite/workers/base.py:297-338 | whatever overlaps, counters stay within their budgets and a copy has gone through fewer than (R + 1) * (N + 1) retries |
| Guarantees.RetryExpires | src/quickbite/common/messaging.py:129-150 | given non-zero delays every copy in a retry queue can expire, and its TTL is the not-ready delay or base * 2^(retry - 1) |
| Guarantees.QuiescenceIsCompletion | src/quickbite/workers/base.py:160-367 | whatever overlaps, with nothing in flight every order is DRIVER_ASSIGNED, FAILED, or has one of its own messages in the dead-letter queue |
| Guarantees.QuiescentNotifications | src/quickbite/workers/base.py:160-367 | whatever overlaps, each milestone of a delivered order has exactly one notification unless a copy of it, or the message that would republish it, is dead-lettered |
| Guarantees.RunExtends | src/quickbite/workers/base.py:258-261 | with the hook kept apart, over any run ids never change, statuses only move forward, committed guard rows and notes are never rewritten |
| Guarantees.TablesAreKept | src/quickbite/common/models.py:63-80 | without any assumption, ids, guard rows and notes never change over any run |
| Guarantees.EffectsHappenOnce | src/quickbite/workers/payment.py:63-82 | over any run, with any overlap of payments and hooks, the number of committed charges, confirmations or assignments of an order is what the guard row has newly recorded, so at most one |
| Guarantees.ChargedOnce | src/quickbite/workers/delivery.py:39-53 | over any run from the start each order is charged and assigned at most once, and exactly once iff the payment or driver id is on its row |
| Serial.WorkIsAtomic | src/quickbite/workers/base.py:190-261 | a commit has the effect of running guard insert, read, decision and write without a break at that moment |
| Serial.RunsAreSerial | src/quickbite/workers/base.py:190-261 | with the hook kept apart, any interleaving leaves the tables that its committed transactions leave when executed alone in commit order |
| Termination.ProgressDecreases | src/quickbite/workers/base.py:258-338 | in every reachable state every step but a requeue strictly lowers a weight over all copies, although expiries and publications add copies |
| Termination.RedeliveryGain | src/quickbite/workers/base.py:219-234 | a requeue or crash raises the weight by no more than a fixed quota |
| Termination.WorkIsBounded | src/quickbite/common/messaging.py:37-66 | steps plus remaining weight are at most the initial weight plus the quota per published order and per redelivery |
| Termination.RunsDown | src/quickbite/workers/base.py:160-367 | from the start the number of steps is at most that quota times published orders plus redeliveries |
| Lineage.LineageBound | src/quickbite/workers/base.py:297-338 | counted along a lineage of retries and expiries over any run, and apart from redeliveries of the same copy, a message is delivered at most (R + 1) * (N + 1) times, and a copy in hand once more than it was retried |
| Liveness.NoDeadlock | src/quickbite/workers/base.py:186-281 | while any copy is unsettled some fault-free step is enabled, although guard keys and hooks make instances wait for each other; only a copy in a retry queue needs delays that are not zero |
| Liveness.Completes | src/quickbite/workers/base.py:160-367 | from every reachable state fault-free steps lead to a state with nothing in flight |
| Liveness.ForwardRunsEnd | src/quickbite/workers/base.py:160-367 | every fault-free run is at most as long as the weight of the state it starts from |
| Liveness.HaltedIsQuiet | src/quickbite/workers/base.py:160-367 | a fault-free run cannot be extended without a fault iff nothing is in flight any more |
| Liveness.CompletionExactly | src/quickbite/common/messaging.py:108-150 | everything in flight can always be finished iff no retry that the settings allow has a zero delay |
| Liveness.OrdersComplete | src/quickbite/workers/base.py:160-367 | whatever overlaps, and given non-zero delays, every accepted order can still be brought to DRIVER_ASSIGNED, FAILED, or a dead-lettered message of its own |
| Outcome.OutcomeIsDetermined | src/quickbite/workers/payment.py:38-52 | fault-free and quiet, every order is delivered or FAILED, whatever the interleaving; if the order, or for auto the configuration, says never_fail it is delivered, always_fail FAILED, fail_twice delivered iff R >= 2 |
| Outcome.OutcomeAttempt | src/quickbite/workers/base.py:181-183 | a fault-free charge never happens for always_fail, on attempt 1 for never_fail and 3 for fail_twice, and the hook runs only after attempt R + 1 of an order that cannot succeed |
| Outcome.NoticeMeansFailed | src/quickbite/workers/payment.py:96-115 | fault-free and quiet, for every behaviour, random failures included, a failure notice exists iff the order is FAILED |
| Outcome.CleanNotifications | src/quickbite/workers/notification.py:33-51 | fault-free and quiet, every event published has exactly one notification |
| Patterns.DeliveredExactly | src/quickbite/workers/payment.py:38-52 | for all settings, an order with a given behaviour can end delivered without any fault iff never_fail is in force, the attempt is left to chance, or fail_twice is in force with R >= 2 and a delay that is not zero |
| Patterns.FailedExactly | src/quickbite/workers/payment.py:38-52 | for all settings, it can end FAILED iff always_fail is in force, the attempts are left to chance, or fail_twice with R < 2, and main retries do not exist or come back |
| Limits.RetryBoundAttained | src/quickbite/workers/base.py:328-332 | a copy that is or can be delivered with (R + 1) * (N + 1) - 1 retries behind it is reachable iff no retry that the settings allow has a zero delay |
| Limits.StuckForever | src/quickbite/common/messaging.py:148-149 | a copy retried without expiration stays where it is over every run |
| Limits.ExpiryExactly | src/quickbite/common/messaging.py:148-149 | no copy is ever stranded in a retry queue iff no retry that the settings allow has a zero delay |
| Hooks.NoticeWithoutFailure | src/quickbite/workers/payment.py:100-115 | unless main retries exist and never come back, a PAID order with an order.payment.failed notice is reachable |
| Hooks.NoticeExactly | src/quickbite/workers/payment.py:100-115 | for all settings, a notice for an order that is not FAILED is reachable iff there are no main retries or their delay is not zero |
| Hooks.HookSafeExactly | src/quickbite/workers/payment.py:96-102 | for all settings, no charged order is ever marked FAILED iff hook and payments on one order never overlap, the hook can never run, or no payment message is ever doubled |
| Hooks.FailureFinalExactly | src/quickbite/workers/payment.py:63-82 | under exactly the same condition no step takes an order out of FAILED |
| Hooks.RunsExclusiveExactly | src/quickbite/workers/payment.py:96-115 | keeping hook and payments apart forbids no run at all iff the settings satisfy that condition |
| Exact.OutboxAgrees | src/quickbite/workers/base.py:258-261 | in every reachable state guard rows exist and are non-empty iff the order status says so, and payment and driver ids are set iff the status says so; this holds exactly under the same condition |
| Exact.FailureExclusiveAndAnnounced | src/quickbite/workers/payment.py:96-115 | likewise exactly then is a FAILED order always uncharged, without any order.paid, and its failure notice stored, live or dead-lettered |
| Exact.EventsTellExactly | src/quickbite/workers/base.py:263-281 | likewise exactly then has the order of every event in circulation reached, with the same ids, the state which that event announces |
| Exact.TablesOnlyGrow | src/quickbite/common/models.py:63-80 | likewise exactly then do ids, guard rows and notes stay and statuses only move forward over any run from any reachable state |
| Exact.SkipsUnreachable | src/quickbite/workers/restaurant.py:28-39 | likewise exactly then does an event that passes the guard always find its order PAID, or CONFIRMED for delivery, so that the skip is never taken |
| Exact.ReadsStayCurrent | src/quickbite/workers/base.py:236-261 | likewise exactly then is the row that an open transaction has read still the current one until it commits |
| Exact.CommitDecides | src/quickbite/workers/payment.py:57-94 | likewise exactly then does every commit charge a PENDING order, confirm a PAID one, assign a CONFIRMED one, or write nothing for a FAILED one, and store the matching events |
| Exact.StatusTellsEffects | src/quickbite/workers/payment.py:63-82 | likewise exactly then has over every run each effect been committed once iff the status is past it, and otherwise never |
| Exact.SystemIsSerial | src/quickbite/workers/base.py:190-261 | likewise exactly then does every run of the system leave the tables that its committed transactions, the hook's included, leave when executed alone in commit order |
| Exclusion.OneInstanceIsExclusive | src/quickbite/workers/base.py:141-146 | runs in which one payment message is held at a time are runs of the exclusive system |
| DeadLetters.FailedIsDeadLettered | src/quickbite/workers/base.py:355-367 | whatever overlaps, if no instance dies between hook commit and nack, every FAILED order ends with its order.created in the dead-letter queue |
| DeadLetters.FailedWithoutDeadLetter | src/quickbite/workers/base.py:355-367 | unless main retries exist and never come back, a FAILED order is reachable of which payment has no live or dead-lettered copy left |
| DeadLetters.OriginalLostExactly | src/quickbite/workers/base.py:355-367 | for all settings, such an order is reachable iff there are no main retries or their delay is not zero |
| Topology.OrderHashExactly | src/quickbite/common/messaging.py:56-61 | `order.#` matches exactly the keys whose first word is order |
| Topology.OrderStarExactly | src/quickbite/common/messaging.py:58-60 | `order.*` matches exactly the two-word ones |
| Topology.DeclareTopology | src/quickbite/common/messaging.py:82-126 | adds exactly the listed exchanges, queues, bindings and dead-letter settings, and returns each worker's queue |
| Topology.DeclareWorkerQueue | src/quickbite/common/messaging.py:94-118 | adds one worker's queue, retry queue, bindings and dead-letter settings and nothing else |
| Topology.TopicRouting | src/quickbite/common/messaging.py:37-66 | under the declared bindings a key reaches notification.queue iff its first word is order, and each other work queue iff it is that queue's own key |
| Topology.RoutesAgree | src/quickbite/common/messaging.py:94-106 | events are routed to exactly the queues the state machine sends them to |
| Topology.RetryRoutesAgree | src/quickbite/common/messaging.py:108-117 | an expired retry returns to its own queue and otherwise reaches only notifications; `order.retry` reaches only notifications |
| Topology.DeadLettersAgree | src/quickbite/common/messaging.py:89-106 | what a work queue rejects reaches the dead-letter queue and no other queue |
| Topology.DeadLettersDeclared | src/quickbite/common/messaging.py:96-117 | each work queue and each retry queue keeps its own dead-letter setting after all declarations |
| Topology.FeedForward | src/quickbite/common/messaging.py:37-66 | through the declared bindings, what a worker returns reaches later stages only, and an expired retry reaches its own queue and notifications only: no event returns to an earlier stage |
| Backoff.BackoffSums | src/quickbite/common/messaging.py:77-79 | the delays of the first k retries sum to base * (2^k - 1) |
| Backoff.TtlBound | src/quickbite/workers/base.py:299-338 | no copy waits with a TTL above the larger of base * 2^(R - 1) and the not-ready delay |
| Backoff.DrainReleases | src/quickbite/common/messaging.py:108-117 | expiring only heads, and never a message without expiration, releases a message exactly once the slowest message up to it is due, and never if one up to it has no expiration |
| Backoff.LeavesExactly | src/quickbite/common/messaging.py:148-149 | a message in a retry queue ever leaves it iff no message up to it was published with delay zero |
| Backoff.WaitBounds | src/quickbite/common/messaging.py:108-117 | the release moment lies no earlier than the message's own TTL and no later than the longest TTL after its arrival |
| Backoff.RetryWait | src/quickbite/common/messaging.py:108-150 | in every reachable state, given non-zero delays, a retry behind any others is not back before its own delay and back at the latest after the larger of base * 2^(R - 1) and the not-ready delay |
| Handling.DoneIsPublished | src/quickbite/workers/base.py:258-281 | an undisturbed delivery after which the guard row exists is acknowledged and has published exactly the stored events |
| Handling.RedeliveryRepublishes | src/quickbite/workers/base.py:198-230 | handling the message once more changes no table and publishes exactly the same events again |
| Deliveries.PaymentLaw | src/quickbite/workers/payment.py:54-94 | a PENDING order whose attempt passes becomes PAID with the drawn id, its guard row stores that order.paid, and the event is queued for restaurant and customer; a missing order is rechecked, a failing attempt handled as a failure, any other order skipped |
| Deliveries.RestaurantLaw | src/quickbite/workers/restaurant.py:23-52 | a PAID order becomes CONFIRMED, with order.confirmed stored and queued for delivery and customer; any other is skipped with an empty guard row |
| Deliveries.DriverLaw | src/quickbite/workers/delivery.py:31-61 | a CONFIRMED order becomes DRIVER_ASSIGNED with the drawn driver, with order.driver.assigned stored and queued for the customer; any other is skipped |
| Deliveries.NotificationLaw | src/quickbite/workers/notification.py:33-51 | one note with the event's key and text is added, or the message only acknowledged if the key is taken |
| Deliveries.AfterFailureLaw | src/quickbite/workers/base.py:283-367 | the retry copy has the raised counter and the not-ready delay, or base * 2^retries with the not-ready counter reset; once the budget is spent the message is dead-lettered, for a failed payment with the hook |
| Deliveries.HookedLaw | src/quickbite/workers/payment.py:96-115 | the hook marks exactly a PENDING order FAILED and queues one order.payment.failed for the customer |
| Deliveries.HandledLaw | src/quickbite/workers/base.py:160-281 | an undisturbed handling republishes what a committed guard row stores, requeues if the key is held, and otherwise does the work of its worker as above, changing nothing else |
| Deliveries.ConsumeLaw | src/quickbite/workers/base.py:141-152 | the same from the queue on |
| Runtime.FaultsCount | src/quickbite/workers/base.py:141-281 | a stretch of a run in which the count of unsound steps of a message has not risen contains none: each of its steps was sound in the state in which it was taken |
| Workers.ProcessPayment | src/quickbite/workers/payment.py:54-94 | payment in place: NotReady without a row, nothing unless PENDING; always_fail in force raises, never_fail does not, fail_twice raises on attempts 1 and 2, and an auto order under random mode raises iff the draw says so; otherwise PAID with the drawn id in row and event, and nothing is assigned when it raises |
| Workers.ProcessRestaurant | src/quickbite/workers/restaurant.py:23-52 | a PAID row becomes CONFIRMED in place with one order.confirmed, any other is left as it is |
| Workers.ProcessDelivery | src/quickbite/workers/delivery.py:31-61 | a CONFIRMED row becomes DRIVER_ASSIGNED in place with the drawn driver, which the one event carries too; any other is left as it is |
| Workers.ProcessNotification | src/quickbite/workers/notification.py:33-51 | exactly one notification with the event's key and the text of that event is added to the session, or an IntegrityError is raised and nothing added iff the key is taken |
| Workers.BaseWorker.PublishAll | src/quickbite/workers/base.py:267-278 | all stored events have gone out since entry, or the delivery is requeued (duplicate) or failing (first time) after the first failing publish |
| Workers.BaseWorker.HandleDuplicate | src/quickbite/workers/base.py:198-234 | a duplicate is acknowledged only after every stored event has gone out to all its queues since the delivery began, and requeued if a publish fails or the winner has not committed |
| Workers.BaseWorker.SuppressDuplicate | src/quickbite/workers/base.py:238-244 | a taken notification key is rolled back and acknowledged because the notification exists |
| Workers.BaseWorker.CommitSession | src/quickbite/workers/base.py:258-261 | after the commit the tables hold the columns written, the notes added and the guard row with the outgoing events; with the hook kept apart, the whole row as assigned in place |
| Workers.CommittedRow | src/quickbite/workers/base.py:236-261 | the columns are written to the current row, which with the hook kept apart is the row that was read |
| Workers.BaseWorker.ProcessAndCommit | src/quickbite/workers/base.py:236-281 | work in the guard's transaction ends acknowledged and published, escaped, or rolled back and failing; unless a call fails it raises only over what it has read, or for a hook it is kept apart from |
| Workers.BaseWorker.RetryLater | src/quickbite/workers/base.py:297-347 | within budget the message is acknowledged only after this delivery itself has put its replacement, with the raised counter and the delay, into the retry queue |
| Workers.BaseWorker.RunHook | src/quickbite/workers/base.py:355-365 | whatever the hook meets, the message is still held for the nack; unless a call fails, notice and then commit have been done; undisturbed, a PENDING order is FAILED, no other row changed, and the notice queued |
| Workers.BaseWorker.HandleFailure | src/quickbite/workers/base.py:283-367 | within budget acknowledged after the retry copy is out, or escaped; otherwise dead-lettered, and for a failed payment, unless a call fails, after notice and commit of the hook; one settlement unless an exception escapes |
| Workers.BaseWorker.HandleMessage | src/quickbite/workers/base.py:160-281 | for every interleaving and failure one settlement unless an exception escapes, an ack only if since entry the stored events went out or a replacement was queued, or the notification is stored; steps that are not sound are no more than the failing calls; a requeue without one means that the key was held; undisturbed, the result is that of `Deliveries.HandledLaw` |
| Workers.BaseWorker.Deliver | src/quickbite/workers/base.py:141-152 | every delivery that does not crash is settled exactly once; unless a call fails, nothing escapes, every step is sound, and a dead-lettered message has had its budget spent and been rejected; undisturbed, the result is that of `Deliveries.ConsumeLaw` |
| Workers.BaseWorker.Run | src/quickbite/workers/base.py:141-152 | for every interleaving and failure, each poll that yields a message takes that copy and settles it exactly once before the next poll, with no more unsound steps than failing calls in that stretch and, without any, for the reasons the trace shows; undisturbed, it is one whole delivery after the other |
| Api.CreateOrder | src/quickbite/api/routes.py:74-94 | the answer is 201 or 503; a 201 means the PENDING row is committed and order.created is out and still accounted for; the row exists iff this request committed it, which it did only after publishing; no failing call means 201; no transaction stays open |
| Api.PublishAndCommit | src/quickbite/api/routes.py:79-86 | no commit without an earlier publish of this request, and the row exists iff the commit was done: a failure before it leaves none |

## Left out

- Workers.BaseWorker.HandleMessage: an instance that finds the guard key held is taken to see the conflict at once; the state machine also allows the database to let it wait.
- Workers.BaseWorker.Run: a poll yields a ready copy or nothing; the stop flag, polling timeouts and the order in which a queue delivers are not modelled.
- Workers.BaseWorker.RunHook: under `Config.exclusive` the hook is aborted when it meets an open payment on the order, which is the stated exclusion and not something the code does; without it the two overlap as in the code.
- Workers.BaseWorker.ProcessAndCommit: likewise under `Config.exclusive` a payment that meets a hook on its order is aborted and handled as a failure, as `Handling.Worked` says.
- Api.CreateOrder: what a 503 leaves behind is only bounded, since a commit that raises late may have stored the order.
- DeadLetters.FailedIsDeadLettered: one direction, because after such a crash a later failure may still dead-letter the redelivered message.
- Topology.DeclareTopology: the declared arguments are the dead-letter ones; durability flags and declaration conflicts are not modelled.
- The subclasses of the base worker are one class with a worker name, since dispatch is all that inheritance does here.
- A lost broker connection that requeues a message while its instance keeps working: a crash always ends the instance's transaction (see the assumptions).
- Connections, channels, `prefetch_count`, signals, logging and the fields of `EventPublisher`: only their effects (redelivery after a crash, one message in hand per instance) are kept.
- SQLAlchemy sessions, `common/db.py` and health checks: library wrappers.
- `GET /orders`, `GET /orders/{id}` and `/health`: single-branch reads.
- Request validation, the float total, and payload fields that no worker decides on (items, amounts, restaurant id, failure reason).
- JSON: a body is either poison or one of the typed events. Poison among the published messages does not arise, so it is an input of the consume loop only.
- Wall-clock time, sleeps and random draws are inputs; time is explicit only in `Backoff.dfy`. The FIFO order of a retry queue is used there and not in the state machine, which allows any order of expiry.
- `timedelta` and float delays are integer milliseconds.
- Operator replay from the dead-letter queue, and messages not published by this code.
- Liveness under unlimited crashes or requeues: the code provides no fairness; the weight bounds everything else.
