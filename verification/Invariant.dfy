// The properties of rows, guard rows, copies and the whole log from which the invariants are made.
module Invariant {
  import opened Schemas
  import opened Protocol

  // ---------------------------------------------------------------------
  // What a copy still promises
  // ---------------------------------------------------------------------

  /** The copy has yet to take effect, or is kept for manual review. */
  predicate Carries(p: Place) {
    !(p.Gone? || p.Suppressed? || p.Retried? || (p.Publishing? && p.todo == []))
  }

  predicate Holds(m: Copy, w: Worker, o: OrderId) {
    m.queue == w && m.ev.order == o && Carries(m.place)
  }

  predicate Somewhere(s: State, w: Worker, o: OrderId) {
    exists i | 0 <= i < |s.log| :: Holds(s.log[i], w, o)
  }

  /** Some copy of an event with this key was once published. */
  predicate Logged(s: State, k: Key) {
    exists i | 0 <= i < |s.log| :: KeyOf(s.log[i].ev) == k
  }

  predicate Informs(m: Copy, k: Key) {
    m.queue.Notification? && KeyOf(m.ev) == k && Carries(m.place)
  }

  /** The customer has been told, or the telling is still queued or dead-lettered. */
  predicate Announced(s: State, k: Key) {
    HasNote(s, k) || exists i | 0 <= i < |s.log| :: Informs(s.log[i], k)
  }

  /** Orders the API has committed, and those it has published but not yet committed. */
  predicate Tracked(s: State, o: OrderId) {
    o in s.orders || (o in s.api && s.api[o])
  }

  predicate Backed(s: State, o: OrderId) {
    match (if o in s.orders then s.orders[o].status else Pending)
    case Pending => Somewhere(s, Payment, o)
    case Paid => Somewhere(s, Payment, o) || Somewhere(s, Restaurant, o)
    case Confirmed => Somewhere(s, Restaurant, o) || Somewhere(s, Delivery, o)
    case DriverAssigned => Somewhere(s, Delivery, o) || Logged(s, Key(o, AssignedKind))
    case Failed => Logged(s, Key(o, FailedKind))
  }

  // ---------------------------------------------------------------------
  // Tables
  // ---------------------------------------------------------------------

  predicate Ids(s: State) {
    s.orders.Keys <= s.born.Keys && s.api.Keys <= s.born.Keys && s.orders.Keys !! s.api.Keys
  }

  function PaidSlot(o: OrderId): Slot { Slot(Key(o, CreatedKind), Payment) }
  function ConfirmedSlot(o: OrderId): Slot { Slot(Key(o, PaidKind), Restaurant) }
  function AssignedSlot(o: OrderId): Slot { Slot(Key(o, ConfirmedKind), Delivery) }

  /** What a committed guard row stores: nothing, or the one event that its worker produces,
      with the id that is on the order row. */
  predicate GuardShape(s: State, sl: Slot)
    requires sl in s.guard
  {
    var o, out := sl.key.order, s.guard[sl];
    match sl.worker
    case Payment =>
      sl.key.kind.CreatedKind? && o in s.orders &&
      (out == [] || (|out| == 1 && out[0].OrderPaid? && out[0].order == o && s.orders[o].payment == Some(out[0].payment)))
    case Restaurant =>
      sl.key.kind.PaidKind? && (out == [] || (|out| == 1 && out[0].OrderConfirmed? && out[0].order == o))
    case Delivery =>
      sl.key.kind.ConfirmedKind? &&
      (out == [] || (|out| == 1 && out[0].OrderDriverAssigned? && out[0].order == o &&
                     o in s.orders && s.orders[o].driver == Some(out[0].driver)))
    case Notification => out == [] && HasNote(s, sl.key)
  }

  predicate NotesOk(s: State) {
    && (forall i, j | 0 <= i < j < |s.notes| :: s.notes[i].key != s.notes[j].key)
    && (forall i | 0 <= i < |s.notes| :: Slot(s.notes[i].key, Notification) in s.guard)
  }

  // ---------------------------------------------------------------------
  // Copies
  // ---------------------------------------------------------------------

  /** Every event in circulation is what its producer made durable. */
  predicate EventOk(s: State, e: Event) {
    match e
    case OrderCreated(o, b) => o in s.born && s.born[o] == b && (o in s.api ==> s.api[o])
    case OrderPaid(o, _, _) => PaidSlot(o) in s.guard && s.guard[PaidSlot(o)] == [e]
    case OrderConfirmed(o, _) => ConfirmedSlot(o) in s.guard && s.guard[ConfirmedSlot(o)] == [e]
    case OrderDriverAssigned(o, _, _) => AssignedSlot(o) in s.guard && s.guard[AssignedSlot(o)] == [e]
    case OrderPaymentFailed(o, _) => o in s.born
  }

  predicate InputOk(m: Copy) {
    match m.queue
    case Payment => m.ev.OrderCreated?
    case Restaurant => m.ev.OrderPaid?
    case Delivery => m.ev.OrderConfirmed?
    case Notification => true
  }

  predicate CountsOk(c: Config, m: Copy) {
    m.rc <= c.maxRetries && m.nr <= c.notreadyMax && m.hops <= m.rc * (c.notreadyMax + 1) + m.nr
  }

  /** How far a copy has got, against the guard and the notifications. */
  predicate PlaceShape(c: Config, s: State, m: Copy) {
    var sl := SlotOf(m);
    match m.place
    case Waiting(ttl) =>
      (m.nr > 0 && ttl == c.notreadyMs) || (m.rc > 0 && ttl == RetryDelayMs(m.rc, c.baseMs))
    case Open => sl !in s.guard
    case Seen(row) =>
      sl !in s.guard && (row.Some? ==> m.ev.order in s.orders) && (m.queue.Notification? ==> row.None?)
    case Publishing(todo, _) => sl in s.guard && (todo == [] || todo == s.guard[sl])
    case Suppressed => m.queue.Notification? && HasNote(s, sl.key)
    case HookOpen(_) => m.queue.Payment?
    case HookAnnounced(_) => m.queue.Payment?
    case _ => true
  }

  // ---------------------------------------------------------------------
  // Concurrent transactions
  // ---------------------------------------------------------------------

  /** No two open transactions hold the same guard key. */
  predicate TxnsApart(log: seq<Copy>) {
    forall i, j | 0 <= i < j < |log| ::
      InTxn(log[i].place) && InTxn(log[j].place) ==> SlotOf(log[i]) != SlotOf(log[j])
  }

  // ---------------------------------------------------------------------
  // The whole log
  // ---------------------------------------------------------------------

  /** What must still be findable somewhere. */
  ghost predicate Coverage(s: State) {
    && (forall o | Tracked(s, o) :: Backed(s, o) && Logged(s, Key(o, CreatedKind)))
    && (forall i | 0 <= i < |s.log| :: Announced(s, KeyOf(s.log[i].ev)))
    && (forall i | 0 <= i < |s.log| :: s.log[i].place.HookAnnounced? ==> Logged(s, Key(s.log[i].ev.order, FailedKind)))
    && (forall sl | sl in s.guard :: Logged(s, sl.key))
  }
}
