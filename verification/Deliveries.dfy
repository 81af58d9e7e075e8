// What one undisturbed delivery leaves behind, worker by worker and column by column.
module Deliveries {
  import opened Schemas
  import opened Protocol
  import opened Steps
  import opened Handling

  /** A queued first copy of an event. */
  function Queued(w: Worker, e: Event): Copy {
    Copy(w, e, 0, 0, 0, Ready)
  }

  /** The log in which copy i has reached p and the copies have been added. */
  function LogAfter(s: State, i: nat, p: Place, added: seq<Copy>): seq<Copy>
    requires i < |s.log|
  {
    s.log[i := s.log[i].(place := p)] + added
  }

  /** The hook: the customer is told, and an order still PENDING is FAILED. */
  predicate HookLaw(s: State, t: State, i: nat, at: int, p: Place)
    requires i < |s.log|
  {
    var o := s.log[i].ev.order;
    t == s.(orders := if o in s.orders && s.orders[o].status.Pending?
                      then s.orders[o := s.orders[o].(status := Failed)] else s.orders,
            log := LogAfter(s, i, p, [Queued(Notification, OrderPaymentFailed(o, at))]))
  }

  /** An order that is not there yet is waited for, cheaply; anything else is tried again after a
      doubling delay. Once that budget is spent the message is dead-lettered, for a failed payment
      with the hook. Only a hook that is kept apart from a payment gives way. */
  predicate FailureLaw(c: Config, s: State, t: State, i: nat, f: Fault, at: int)
    requires i < |s.log|
  {
    var m := s.log[i];
    if f.NotReady? then
      t == s.(log := if m.nr < c.notreadyMax
                     then LogAfter(s, i, Gone, [Copy(m.queue, m.ev, m.rc, m.nr + 1, m.hops + 1, Waiting(c.notreadyMs))])
                     else LogAfter(s, i, Dead, []))
    else if m.rc < c.maxRetries then
      t == s.(log := LogAfter(s, i, Gone,
                             [Copy(m.queue, m.ev, m.rc + 1, 0, m.hops + 1, Waiting(c.baseMs * Pow2(m.rc)))]))
    else if m.queue.Payment? && !(c.exclusive && PaymentRuns(s, m.ev.order)) then HookLaw(s, t, i, at, Dead)
    else t == s.(log := LogAfter(s, i, Dead, []))
  }

  /** An attempt that passes charges the order, and the event goes to restaurant and customer. */
  predicate ChargeDone(s: State, t: State, i: nat, o: OrderId, ch: Choice)
    requires i < |s.log| && o in s.orders
  {
    var e := OrderPaid(o, ch.payment, ch.at);
    t == s.(orders := s.orders[o := Row(Paid, Some(ch.payment), s.orders[o].driver)],
            guard := s.guard[SlotOf(s.log[i]) := [e]],
            log := LogAfter(s, i, Gone, [Queued(Restaurant, e), Queued(Notification, e)]))
  }

  /** Nothing is left to do: the guard row stores no event. */
  predicate Skipped(s: State, t: State, i: nat)
    requires i < |s.log|
  {
    t == s.(guard := s.guard[SlotOf(s.log[i]) := []], log := LogAfter(s, i, Gone, []))
  }

  /** A missing order is rechecked, one that is no longer PENDING skipped, and a PENDING one charged
      unless the attempt fails. Only a payment that is kept apart from a hook gives way. */
  predicate PaymentDone(c: Config, s: State, t: State, i: nat, ch: Choice)
    requires i < |s.log|
  {
    var m := s.log[i]; var o := m.ev.order;
    var b := if m.ev.OrderCreated? then m.ev.behavior else Auto;
    if c.exclusive && HookRuns(s, o) then FailureLaw(c, s, t, i, Other, ch.at)
    else if o !in s.orders then FailureLaw(c, s, t, i, NotReady, ch.at)
    else if !s.orders[o].status.Pending? then Skipped(s, t, i)
    else if AttemptFails(c, b, m.rc + 1, ch.draw) then FailureLaw(c, s, t, i, Other, ch.at)
    else ChargeDone(s, t, i, o, ch)
  }

  predicate RestaurantDone(s: State, t: State, i: nat, ch: Choice)
    requires i < |s.log|
  {
    var o := s.log[i].ev.order;
    if o in s.orders && s.orders[o].status.Paid? then
      var e := OrderConfirmed(o, ch.at);
      t == s.(orders := s.orders[o := s.orders[o].(status := Confirmed)],
              guard := s.guard[SlotOf(s.log[i]) := [e]],
              log := LogAfter(s, i, Gone, [Queued(Delivery, e), Queued(Notification, e)]))
    else Skipped(s, t, i)
  }

  predicate DeliveryDone(s: State, t: State, i: nat, ch: Choice)
    requires i < |s.log|
  {
    var o := s.log[i].ev.order;
    if o in s.orders && s.orders[o].status.Confirmed? then
      var e := OrderDriverAssigned(o, ch.driver, ch.at);
      t == s.(orders := s.orders[o := Row(DriverAssigned, s.orders[o].payment, Some(ch.driver))],
              guard := s.guard[SlotOf(s.log[i]) := [e]],
              log := LogAfter(s, i, Gone, [Queued(Notification, e)]))
    else Skipped(s, t, i)
  }

  predicate NotificationDone(s: State, t: State, i: nat)
    requires i < |s.log|
  {
    var m := s.log[i];
    if HasNote(s, KeyOf(m.ev)) then
      t == s.(log := LogAfter(s, i, Gone, []))
    else
      |t.notes| == |s.notes| + 1 && t.notes[|s.notes|].key == KeyOf(m.ev) && Tells(m.ev, t.notes[|s.notes|].text) &&
      t == s.(guard := s.guard[SlotOf(m) := []], notes := s.notes + [t.notes[|s.notes|]],
              log := LogAfter(s, i, Gone, []))
  }

  /** A committed guard row is answered with its events once more, a held one with a requeue, and
      a new event with the work of its worker. */
  predicate DeliveryLaw(c: Config, s: State, t: State, i: nat, ch: Choice)
    requires i < |s.log|
  {
    var m := s.log[i];
    if SlotOf(m) in s.guard then
      (s.guard[SlotOf(m)] == [] ==> t == s.(log := LogAfter(s, i, Gone, []))) &&
      (|s.guard[SlotOf(m)]| == 1 ==> t == s.(log := LogAfter(s, i, Gone, Published(s.guard[SlotOf(m)][0]))))
    else if Held(s, SlotOf(m)) then t == s.(log := LogAfter(s, i, Ready, []))
    else
      match m.queue
      case Payment => PaymentDone(c, s, t, i, ch)
      case Restaurant => RestaurantDone(s, t, i, ch)
      case Delivery => DeliveryDone(s, t, i, ch)
      case Notification => NotificationDone(s, t, i)
  }

  // ---------------------------------------------------------------------
  // Handling obeys the law
  // ---------------------------------------------------------------------

  lemma SettleTables(s: State, i: nat, copies: seq<Copy>, p: Place)
    requires i < |s.log|
    ensures Settle(s, i, copies, p) == s.(log := LogAfter(s, i, p, copies))
    ensures Move(s, i, p) == s.(log := LogAfter(s, i, p, []))
  {
    MoveIsSettle(s, i, p);
  }

  lemma HookedLaw(s: State, i: nat, at: int, p: Place)
    requires i < |s.log|
    ensures HookLaw(s, Hooked(s, i, at, p), i, at, p)
  {
    var o := s.log[i].ev.order;
    SettleTables(if o in s.orders && s.orders[o].status == Pending then MarkFailed(s, o) else s, i,
                 [Queued(Notification, OrderPaymentFailed(o, at))], p);
    assert Published(OrderPaymentFailed(o, at)) == [Queued(Notification, OrderPaymentFailed(o, at))];
  }

  lemma AfterFailureLaw(c: Config, s: State, i: nat, f: Fault, at: int)
    requires i < |s.log|
    ensures FailureLaw(c, s, AfterFailure(c, s, i, f, at), i, f, at)
  {
    hide PaymentRuns, Hooked, HookLaw, Settle, LogAfter;
    HookedLaw(s, i, at, Dead);
    SettleTables(s, i, [], Dead);
    SettleTables(s, i, [RetryCopy(c, s.log[i], f)], Gone);
  }

  /** A unit of work that returns: its columns, guard row and notes, and its events out. */
  lemma ReturnedLaw(c: Config, s: State, i: nat, r: Result, at: int)
    requires i < |s.log| && r.Returned?
    ensures Decided(c, s, i, r, at) ==
            CommitTables(s, s.log[i], r).(log := LogAfter(s, i, Gone, PublishedAll(r.outgoing)))
  {
    hide PublishedAll, TextFor, Update;
    SettleTables(CommitTables(s, s.log[i], r), i, PublishedAll(r.outgoing), Gone);
  }

  /** At most one event, at most two queues. */
  lemma OnePublished(e: Event)
    ensures PublishedAll([]) == [] && PublishedAll([e]) == Published(e)
  {
    assert [e][..0] == [];
    assert PublishedAll([]) + Published(e) == Published(e);
  }

  lemma QueuedCopies(o: OrderId, n: nat, at: int)
    ensures var e := OrderPaid(o, n, at); Published(e) == [Queued(Restaurant, e), Queued(Notification, e)]
    ensures var e := OrderConfirmed(o, at); Published(e) == [Queued(Delivery, e), Queued(Notification, e)]
    ensures var e := OrderDriverAssigned(o, n, at); Published(e) == [Queued(Notification, e)]
  {
  }

  lemma PaymentLaw(c: Config, s: State, i: nat, ch: Choice)
    requires i < |s.log| && s.log[i].queue.Payment?
    ensures PaymentDone(c, s, Worked(c, s, i, ch), i, ch)
  {
    hide AfterFailure, FailureLaw, HookRuns, PublishedAll, Published, LogAfter, Decided;
    var m := s.log[i]; var o := m.ev.order;
    forall f: Fault ensures FailureLaw(c, s, AfterFailure(c, s, i, f, ch.at), i, f, ch.at) {
      AfterFailureLaw(c, s, i, f, ch.at);
    }
    var r := Process(c, m.queue, m.ev, m.rc + 1, ReadRow(s, m), ch);
    if r.Returned? { ReturnedLaw(c, s, i, r, ch.at); } else { RaisedLaw(c, s, i, r, ch.at); }
    OnePublished(OrderPaid(o, ch.payment, ch.at));
    QueuedCopies(o, ch.payment, ch.at);
  }

  lemma RaisedLaw(c: Config, s: State, i: nat, r: Result, at: int)
    requires i < |s.log| && r.Raised?
    ensures Decided(c, s, i, r, at) == AfterFailure(c, s, i, r.fault, at)
  {
  }

  lemma RestaurantLaw(c: Config, s: State, i: nat, ch: Choice)
    requires i < |s.log| && s.log[i].queue.Restaurant?
    ensures RestaurantDone(s, Worked(c, s, i, ch), i, ch)
  {
    hide AfterFailure, HookRuns, PublishedAll, Published, LogAfter, Decided;
    var m := s.log[i]; var o := m.ev.order;
    ReturnedLaw(c, s, i, Process(c, m.queue, m.ev, m.rc + 1, ReadRow(s, m), ch), ch.at);
    OnePublished(OrderConfirmed(o, ch.at));
    QueuedCopies(o, 0, ch.at);
  }

  lemma DriverLaw(c: Config, s: State, i: nat, ch: Choice)
    requires i < |s.log| && s.log[i].queue.Delivery?
    ensures DeliveryDone(s, Worked(c, s, i, ch), i, ch)
  {
    hide AfterFailure, HookRuns, PublishedAll, Published, LogAfter, Decided;
    var m := s.log[i]; var o := m.ev.order;
    ReturnedLaw(c, s, i, Process(c, m.queue, m.ev, m.rc + 1, ReadRow(s, m), ch), ch.at);
    OnePublished(OrderDriverAssigned(o, ch.driver, ch.at));
    QueuedCopies(o, ch.driver, ch.at);
  }

  lemma NotificationLaw(c: Config, s: State, i: nat, ch: Choice)
    requires i < |s.log| && s.log[i].queue.Notification?
    ensures NotificationDone(s, Worked(c, s, i, ch), i)
  {
    hide AfterFailure, HookRuns, PublishedAll, Published, LogAfter, Decided, HasNote;
    var m := s.log[i];
    SettleTables(s, i, [], Gone);
    ReturnedLaw(c, s, i, Process(c, m.queue, m.ev, m.rc + 1, ReadRow(s, m), ch), ch.at);
    OnePublished(m.ev);
    NoColumns(s, m.ev.order);
  }

  lemma NoColumns(s: State, o: OrderId)
    ensures Update(s.orders, o, NoWrite) == s.orders
  {
  }

  /** An undisturbed delivery, from the moment at which its instance has it. */
  lemma HandledLaw(c: Config, s: State, i: nat, ch: Choice)
    requires i < |s.log|
    ensures DeliveryLaw(c, s, Handled(c, s, i, ch), i, ch)
  {
    hide Worked, PaymentDone, RestaurantDone, DeliveryDone, NotificationDone, Held, Published, LogAfter, Settle;
    var m := s.log[i];
    SettleTables(s, i, [], Ready);
    if SlotOf(m) in s.guard {
      var out := s.guard[SlotOf(m)];
      SettleTables(s, i, PublishedAll(out), Gone);
      if |out| == 1 { assert out == [out[0]]; OnePublished(out[0]); }
    } else {
      match m.queue {
        case Payment => PaymentLaw(c, s, i, ch);
        case Restaurant => RestaurantLaw(c, s, i, ch);
        case Delivery => DriverLaw(c, s, i, ch);
        case Notification => NotificationLaw(c, s, i, ch);
      }
    }
  }

  /** And from the queue on. */
  lemma ConsumeLaw(c: Config, s: State, i: nat, ch: Choice)
    requires i < |s.log| && s.log[i].place.Ready?
    ensures DeliveryLaw(c, s, Consume(c, s, i, true, ch), i, ch)
  {
    hide Handled, DeliveryLaw;
    HandledElsewhere(c, s, i, Taken, ch);
    HandledLaw(c, s, i, ch);
  }

  lemma HandledElsewhere(c: Config, s: State, i: nat, p: Place, ch: Choice)
    requires i < |s.log| && !InTxn(p) && !InTxn(s.log[i].place) && !InHook(p) && !InHook(s.log[i].place)
    ensures Handled(c, Move(s, i, p), i, ch) == Handled(c, s, i, ch)
  {
    hide Worked, Settle, PublishedAll;
    var t := Move(s, i, p); var sl := SlotOf(s.log[i]);
    WorkedElsewhere(c, s, i, p, ch);
    if sl in s.guard { SettleAnyway(s, i, p, PublishedAll(s.guard[sl]), Gone); }
    assert Move(t, i, Ready) == Move(s, i, Ready);
    assert forall j | 0 <= j < |s.log| && j != i :: t.log[j] == s.log[j];
    if Held(s, sl) {
      var j :| 0 <= j < |s.log| && InTxn(s.log[j].place) && SlotOf(s.log[j]) == sl;
      assert t.log[j] == s.log[j];
    }
  }
}
