// The whole system as one state machine: the API, four workers, three tables, the topic
// exchange with its work and retry queues, and the dead-letter queue.
//
// A message copy is an entry of an append-only log and its index is its identity; its
// `place` says in which queue it waits or how far the instance that holds it has got.
// Each held copy is one busy worker instance, so any number of instances may run.
module Protocol {
  import opened Schemas

  // ---------------------------------------------------------------------
  // State
  // ---------------------------------------------------------------------

  datatype Worker = Payment | Restaurant | Delivery | Notification

  /** `failureMode` is `Auto` for the random simulation. `exclusive` states the assumption
      that a permanent-failure hook and a payment transaction never overlap on one order. */
  datatype Config = Config(maxRetries: nat, notreadyMax: nat, baseMs: nat, notreadyMs: nat,
                           failureMode: Behavior, exclusive: bool)

  datatype Fault = NotReady | Other

  datatype Place =
    | Ready                                        // in the work queue
    | Waiting(ttl: nat)                            // in the retry queue; 0 never expires
    | Dead                                         // in the dead-letter queue
    | Gone                                         // acknowledged, or expired and re-routed
    | Taken                                        // delivered, guard not yet inserted
    | Open                                         // guard row inserted, not committed
    | Seen(row: Option<Row>)                       // process has read the order
    | Publishing(todo: seq<Event>, again: bool)    // committed; `again` for a duplicate
    | Suppressed                                   // duplicate side effect, rolled back
    | Failing(fault: Fault)                        // rolled back, failure being handled
    | Retried                                      // republished to the retry queue
    | HookOpen(pending: bool)                      // hook has read the order status
    | HookAnnounced(pending: bool)                 // hook has published its notice
    | Rejecting                                    // about to be dead-lettered

  /** `hops` counts how many times this lineage has been put into a retry queue. */
  datatype Copy = Copy(queue: Worker, ev: Event, rc: nat, nr: nat, hops: nat, place: Place)

  datatype Slot = Slot(key: Key, worker: Worker)

  datatype Note = Note(key: Key, text: string)

  datatype State = State(
    born: map<OrderId, Behavior>,      // every id create_order has generated
    api: map<OrderId, bool>,           // open create_order transactions; true once published
    orders: map<OrderId, Row>,
    guard: map<Slot, seq<Event>>,      // processed_events with its stored outgoing events
    notes: seq<Note>,
    log: seq<Copy>)

  const Init := State(map[], map[], map[], map[], [], [])

  predicate InHand(p: Place) {
    !(p.Ready? || p.Waiting? || p.Dead? || p.Gone?)
  }

  /** An open `process` transaction: its guard row is inserted but not committed. */
  predicate InTxn(p: Place) {
    p.Open? || p.Seen?
  }

  predicate InHook(p: Place) {
    p.HookOpen? || p.HookAnnounced?
  }

  function SlotOf(m: Copy): Slot {
    Slot(KeyOf(m.ev), m.queue)
  }

  // ---------------------------------------------------------------------
  // The workers' units of work
  // ---------------------------------------------------------------------

  /** What one execution draws from its surroundings: a random number, tokens, the clock. */
  datatype Choice = Choice(draw: bool, payment: nat, driver: nat, at: int)

  datatype Effect = NoWrite | Charge(payment: nat) | Confirm | Assign(driver: nat)

  datatype Result = Returned(effect: Effect, outgoing: seq<Event>) | Raised(fault: Fault)

  /** The behaviour in force: the order's own, or the configured mode for `auto`. */
  function Pattern(c: Config, b: Behavior): Behavior {
    if b.Auto? then c.failureMode else b
  }

  predicate ShouldFail(c: Config, b: Behavior, attempt: nat, draw: bool) {
    match Pattern(c, b)
    case AlwaysFail => true
    case FailTwice => attempt <= 2
    case NeverFail => false
    case Auto => draw
  }

  /** The order asks for this pattern, or leaves it to a configuration that does. */
  predicate InForce(c: Config, b: Behavior, pattern: Behavior) {
    b == pattern || (b.Auto? && c.failureMode == pattern)
  }

  /** Neither order nor configuration fixes the pattern: the attempt is left to chance. */
  predicate LeftToChance(c: Config, b: Behavior) {
    b.Auto? && c.failureMode.Auto?
  }

  /** The attempts that a simulated payment fails. */
  predicate AttemptFails(c: Config, b: Behavior, attempt: nat, draw: bool) {
    InForce(c, b, AlwaysFail) || (InForce(c, b, FailTwice) && attempt <= 2) || (LeftToChance(c, b) && draw)
  }

  function Process(c: Config, w: Worker, ev: Event, attempt: nat, row: Option<Row>, ch: Choice): Result {
    var o := ev.order;
    match w
    case Payment =>
      if row.None? then Raised(NotReady)
      else if row.value.status != Pending then Returned(NoWrite, [])
      else if ShouldFail(c, BehaviorOf(ev), attempt, ch.draw) then Raised(Other)
      else Returned(Charge(ch.payment), [OrderPaid(o, ch.payment, ch.at)])
    case Restaurant =>
      if row.None? || row.value.status != Paid then Returned(NoWrite, [])
      else Returned(Confirm, [OrderConfirmed(o, ch.at)])
    case Delivery =>
      if row.None? || row.value.status != Confirmed then Returned(NoWrite, [])
      else Returned(Assign(ch.driver), [OrderDriverAssigned(o, ch.driver, ch.at)])
    case Notification => Returned(NoWrite, [])
  }

  /** `event.get("payment_behavior") or "auto"`: only order.created carries the field. */
  function BehaviorOf(ev: Event): Behavior {
    if ev.OrderCreated? then ev.behavior else Auto
  }

  /** The columns an UPDATE sets; it writes to the current row, not to the one read. */
  function Write(row: Row, e: Effect): Row {
    match e
    case NoWrite => row
    case Charge(p) => row.(status := Paid, payment := Some(p))
    case Confirm => row.(status := Confirmed)
    case Assign(d) => row.(status := DriverAssigned, driver := Some(d))
  }

  function Update(orders: map<OrderId, Row>, o: OrderId, e: Effect): map<OrderId, Row> {
    if o in orders then orders[o := Write(orders[o], e)] else orders
  }

  function TextFor(k: Kind): string {
    match k
    case CreatedKind => "Your order has been received."
    case PaidKind => "Payment successful."
    case ConfirmedKind => "Restaurant confirmed your order."
    case AssignedKind => "Driver has been assigned."
    case FailedKind => "Payment failed. Please try again or use a different payment method."
  }

  /** What the customer is told about an event. */
  predicate Tells(e: Event, text: string) {
    match e
    case OrderCreated(_, _) => text == "Your order has been received."
    case OrderPaid(_, _, _) => text == "Payment successful."
    case OrderConfirmed(_, _) => text == "Restaurant confirmed your order."
    case OrderDriverAssigned(_, _, _) => text == "Driver has been assigned."
    case OrderPaymentFailed(_, _) => text == "Payment failed. Please try again or use a different payment method."
  }

  predicate HasNote(s: State, k: Key) {
    exists n | 0 <= n < |s.notes| :: s.notes[n].key == k
  }

  // ---------------------------------------------------------------------
  // Routing and retries
  // ---------------------------------------------------------------------

  /** The queue other than notification.queue that an event's routing key reaches. */
  function Direct(k: Kind): Option<Worker> {
    match k
    case CreatedKind => Some(Payment)
    case PaidKind => Some(Restaurant)
    case ConfirmedKind => Some(Delivery)
    case _ => None
  }

  /** The same for the fixed key with which a worker's retry queue dead-letters. */
  function RetryDirect(w: Worker): Option<Worker> {
    if w.Notification? then None else Some(w)
  }

  /** The copies one publication to the topic exchange makes: all matching queues at once. */
  function Fanout(direct: Option<Worker>, e: Event, rc: nat, nr: nat, hops: nat): seq<Copy> {
    (if direct.Some? then [Copy(direct.value, e, rc, nr, hops, Ready)] else [])
    + [Copy(Notification, e, rc, nr, hops, Ready)]
  }

  function Published(e: Event): seq<Copy> {
    Fanout(Direct(KindOf(e)), e, 0, 0, 0)
  }

  function Pow2(n: nat): (r: nat)
    ensures r >= 1
  {
    if n == 0 then 1 else 2 * Pow2(n - 1)
  }

  /** Exponential backoff in milliseconds; `attempt` counts from 1. */
  function RetryDelayMs(attempt: nat, base: nat): nat
    requires attempt >= 1
  {
    base * Pow2(attempt - 1)
  }

  predicate Budget(c: Config, m: Copy, f: Fault) {
    if f.NotReady? then m.nr < c.notreadyMax else m.rc < c.maxRetries
  }

  function RetryCopy(c: Config, m: Copy, f: Fault): Copy {
    match f
    case NotReady => Copy(m.queue, m.ev, m.rc, m.nr + 1, m.hops + 1, Waiting(c.notreadyMs))
    case Other => Copy(m.queue, m.ev, m.rc + 1, 0, m.hops + 1, Waiting(RetryDelayMs(m.rc + 1, c.baseMs)))
  }

  // ---------------------------------------------------------------------
  // Steps
  // ---------------------------------------------------------------------

  datatype Step =
    | Expire                        // the broker's TTL fires and re-routes the copy
    | Take                          // delivery to an idle instance
    | Duplicate                     // guard conflict, the winner's row is committed
    | Conflict                      // guard conflict, no committed row: nack(requeue=True)
    | Insert                        // guard row flushed
    | Read                          // process reads the order, or flushes the notification
    | Suppress                      // the notification key exists already: rollback
    | Raise(ch: Choice)             // process raises: rollback
    | Commit(ch: Choice)            // process returns: outgoing events stored, commit
    | PublishNext                   // one outgoing event reaches the exchange
    | PublishRaise(routed: bool)    // publish raises, although the broker may have routed it
    | RetryPublish                  // copy republished to the retry queue
    | GiveUp                        // budget spent, no hook to run
    | HookRead
    | HookPublish(at: int)
    | HookCommit
    | HookAbort                     // the hook raises: rollback
    | Ack
    | Reject                        // nack(requeue=False)
    | Crash                         // the instance dies: rollback, broker requeues
    | Escape                        // an exception reaches `run`, which dead-letters

  datatype Action =
    | ApiBegin(o: OrderId, b: Behavior)    // row added and flushed; any fresh id, see GeneratedId
    | ApiPublish(o: OrderId)               // the broker routes order.created
    | ApiCommit(o: OrderId)
    | ApiAbort(o: OrderId)                 // any failure before the commit: rollback
    | At(i: nat, step: Step)

  /** Another open transaction has inserted this guard key. */
  predicate Held(s: State, sl: Slot) {
    exists j | 0 <= j < |s.log| :: InTxn(s.log[j].place) && SlotOf(s.log[j]) == sl
  }

  predicate HookRuns(s: State, o: OrderId) {
    exists j | 0 <= j < |s.log| :: InHook(s.log[j].place) && s.log[j].ev.order == o
  }

  predicate PaymentRuns(s: State, o: OrderId) {
    exists j | 0 <= j < |s.log| ::
      s.log[j].queue.Payment? && s.log[j].place.Seen? && s.log[j].ev.order == o
  }

  predicate Enabled(c: Config, s: State, a: Action) {
    match a
    case ApiBegin(o, _) => o !in s.born
    case ApiPublish(o) => o in s.api && !s.api[o]
    case ApiCommit(o) => o in s.api && s.api[o]
    case ApiAbort(o) => o in s.api
    case At(i, step) => i < |s.log| && StepEnabled(c, s, i, step)
  }

  predicate StepEnabled(c: Config, s: State, i: nat, step: Step)
    requires i < |s.log|
  {
    var m := s.log[i];
    var p := m.place;
    match step
    case Expire => p.Waiting? && p.ttl > 0
    case Take => p.Ready?
    case Duplicate => p.Taken? && SlotOf(m) in s.guard
    case Conflict => p.Taken? && SlotOf(m) !in s.guard
    case Insert => p.Taken? && SlotOf(m) !in s.guard && !Held(s, SlotOf(m))
    case Read =>
      p.Open? &&
      (m.queue.Notification? ==> !HasNote(s, KeyOf(m.ev))) &&
      (m.queue.Payment? && c.exclusive ==> !HookRuns(s, m.ev.order))
    case Suppress => p.Open? && m.queue.Notification? && HasNote(s, KeyOf(m.ev))
    case Raise(ch) => p.Open? || (p.Seen? && Process(c, m.queue, m.ev, m.rc + 1, p.row, ch).Raised?)
    case Commit(ch) => p.Seen? && Process(c, m.queue, m.ev, m.rc + 1, p.row, ch).Returned?
    case PublishNext => p.Publishing? && p.todo != []
    case PublishRaise(_) => p.Publishing? && p.todo != []
    case RetryPublish => p.Failing? && Budget(c, m, p.fault)
    case GiveUp => p.Failing? && !Budget(c, m, p.fault) && !(m.queue.Payment? && p.fault.Other?)
    case HookRead =>
      p == Failing(Other) && !Budget(c, m, p.fault) && m.queue.Payment? &&
      (c.exclusive ==> !PaymentRuns(s, m.ev.order))
    case HookPublish(_) => p.HookOpen?
    case HookCommit => p.HookAnnounced?
    case HookAbort => InHook(p) || (p == Failing(Other) && !Budget(c, m, p.fault) && m.queue.Payment?)
    case Ack => p.Suppressed? || p.Retried? || (p.Publishing? && p.todo == [])
    case Reject => p.Rejecting?
    case Crash => InHand(p)
    case Escape => InHand(p)
  }

  function Move(s: State, i: nat, p: Place): State
    requires i < |s.log|
  {
    s.(log := s.log[i := s.log[i].(place := p)])
  }

  function Emit(s: State, copies: seq<Copy>): State {
    s.(log := s.log + copies)
  }

  function Apply(c: Config, s: State, a: Action): State
    requires Enabled(c, s, a)
  {
    match a
    case ApiBegin(o, b) => s.(born := s.born[o := b], api := s.api[o := false])
    case ApiPublish(o) =>
      if o in s.born then Emit(s.(api := s.api[o := true]), Published(OrderCreated(o, s.born[o]))) else s
    case ApiCommit(o) => s.(api := s.api - {o}, orders := s.orders[o := Row(Pending, None, None)])
    case ApiAbort(o) => s.(api := s.api - {o})
    case At(i, step) => ApplyStep(c, s, i, step)
  }

  function ApplyStep(c: Config, s: State, i: nat, step: Step): State
    requires i < |s.log| && StepEnabled(c, s, i, step)
  {
    var m := s.log[i];
    var p := m.place;
    match step
    case Expire => Move(Emit(s, Fanout(RetryDirect(m.queue), m.ev, m.rc, m.nr, m.hops)), i, Gone)
    case Take => Move(s, i, Taken)
    case Duplicate => Move(s, i, Publishing(s.guard[SlotOf(m)], true))
    case Conflict => Move(s, i, Ready)
    case Insert => Move(s, i, Open)
    case Read =>
      var seen := if m.queue.Notification? || m.ev.order !in s.orders then None else Some(s.orders[m.ev.order]);
      Move(s, i, Seen(seen))
    case Suppress => Move(s, i, Suppressed)
    case Raise(ch) =>
      Move(s, i, Failing(if p.Open? then Other else Process(c, m.queue, m.ev, m.rc + 1, p.row, ch).fault))
    case Commit(ch) =>
      var r := Process(c, m.queue, m.ev, m.rc + 1, p.row, ch);
      Move(CommitTables(s, m, r), i, Publishing(r.outgoing, false))
    case PublishNext => Move(Emit(s, Published(p.todo[0])), i, Publishing(p.todo[1..], p.again))
    case PublishRaise(routed) =>
      Move(if routed then Emit(s, Published(p.todo[0])) else s, i, if p.again then Ready else Failing(Other))
    case RetryPublish => Move(Emit(s, [RetryCopy(c, m, p.fault)]), i, Retried)
    case GiveUp => Move(s, i, Rejecting)
    case HookRead =>
      var o := m.ev.order;
      Move(s, i, HookOpen(o in s.orders && s.orders[o].status == Pending))
    case HookPublish(at) =>
      Move(Emit(s, Published(OrderPaymentFailed(m.ev.order, at))), i, HookAnnounced(p.pending))
    case HookCommit => Move(if p.pending then MarkFailed(s, m.ev.order) else s, i, Rejecting)
    case HookAbort => Move(s, i, Rejecting)
    case Ack => Move(s, i, Gone)
    case Reject => Move(s, i, Dead)
    case Crash => Move(s, i, Ready)
    case Escape => Move(s, i, Dead)
  }

  /** The rows one `process` transaction makes durable, all or nothing. */
  function CommitTables(s: State, m: Copy, r: Result): State
    requires r.Returned?
  {
    s.(orders := Update(s.orders, m.ev.order, r.effect),
       guard := s.guard[SlotOf(m) := r.outgoing],
       notes := if m.queue.Notification? then s.notes + [Note(KeyOf(m.ev), TextFor(KindOf(m.ev)))] else s.notes)
  }

  function MarkFailed(s: State, o: OrderId): State {
    if o in s.orders then s.(orders := s.orders[o := s.orders[o].(status := Failed)]) else s
  }

  // ---------------------------------------------------------------------
  // Runs
  // ---------------------------------------------------------------------

  predicate Legal(c: Config, s: State, run: seq<Action>)
    decreases |run|
  {
    run == [] || (Enabled(c, s, run[0]) && Legal(c, Apply(c, s, run[0]), run[1..]))
  }

  function Exec(c: Config, s: State, run: seq<Action>): State
    requires Legal(c, s, run)
    decreases |run|
  {
    if run == [] then s else Exec(c, Apply(c, s, run[0]), run[1..])
  }
}
