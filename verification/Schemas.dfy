// The records the services exchange and the key on which all deduplication rests.
module Schemas {
  datatype Option<+T> = None | Some(value: T)

  // ---------------------------------------------------------------------
  // Orders and events
  // ---------------------------------------------------------------------

  datatype OrderId = OrderId(text: string)

  datatype Status = Pending | Paid | Confirmed | DriverAssigned | Failed

  datatype Behavior = Auto | NeverFail | AlwaysFail | FailTwice

  /** The columns of an order row that a worker reads or writes. */
  datatype Row = Row(status: Status, payment: Option<nat>, driver: Option<nat>)

  /** One message body per event class; `at` is the timestamp the body carries. */
  datatype Event =
    | OrderCreated(order: OrderId, behavior: Behavior)
    | OrderPaid(order: OrderId, payment: nat, at: int)
    | OrderConfirmed(order: OrderId, at: int)
    | OrderDriverAssigned(order: OrderId, driver: nat, at: int)
    | OrderPaymentFailed(order: OrderId, at: int)

  datatype Kind = CreatedKind | PaidKind | ConfirmedKind | AssignedKind | FailedKind

  /** An idempotency key as a value; KeyString is the string on the wire. */
  datatype Key = Key(order: OrderId, kind: Kind)

  function KindOf(e: Event): Kind {
    match e
    case OrderCreated(_, _) => CreatedKind
    case OrderPaid(_, _, _) => PaidKind
    case OrderConfirmed(_, _) => ConfirmedKind
    case OrderDriverAssigned(_, _, _) => AssignedKind
    case OrderPaymentFailed(_, _) => FailedKind
  }

  function KeyOf(e: Event): Key {
    Key(e.order, KindOf(e))
  }

  /** True of an order whose customer has been charged. */
  predicate Charged(st: Status) {
    st.Paid? || st.Confirmed? || st.DriverAssigned?
  }

  /** The status graph: PENDING-PAID-CONFIRMED-DRIVER_ASSIGNED, or PENDING-FAILED. */
  predicate StatusReaches(a: Status, b: Status) {
    || a == b
    || a.Pending?
    || (a.Paid? && (b.Confirmed? || b.DriverAssigned?))
    || (a.Confirmed? && b.DriverAssigned?)
  }

  // ---------------------------------------------------------------------
  // Idempotency keys as strings
  // ---------------------------------------------------------------------

  function IdempotencyKeyFor(orderId: string, event: string): string {
    orderId + ":" + event
  }

  function KindName(k: Kind): string {
    match k
    case CreatedKind => "created"
    case PaidKind => "paid"
    case ConfirmedKind => "confirmed"
    case AssignedKind => "driver.assigned"
    case FailedKind => "payment.failed"
  }

  function KeyString(k: Key): string {
    IdempotencyKeyFor(k.order.text, KindName(k.kind))
  }

  /** The keys as they are sent. */
  lemma EventKeys(e: Event)
    ensures KeyString(KeyOf(e)) ==
            match e
            case OrderCreated(o, _) => o.text + ":created"
            case OrderPaid(o, _, _) => o.text + ":paid"
            case OrderConfirmed(o, _) => o.text + ":confirmed"
            case OrderDriverAssigned(o, _, _) => o.text + ":driver.assigned"
            case OrderPaymentFailed(o, _) => o.text + ":payment.failed"
  {
    var o, name := e.order.text, KindName(KindOf(e));
    assert o + ":" + name == o + (":" + name);
    assert ":created" == ":" + "created" && ":paid" == ":" + "paid" && ":confirmed" == ":" + "confirmed";
    assert ":driver.assigned" == ":" + "driver.assigned" && ":payment.failed" == ":" + "payment.failed";
  }

  /** Position of the first ':' in s, or |s| if there is none. */
  function FirstColon(s: string): (n: nat)
    ensures n <= |s|
    ensures ':' !in s[..n]
    ensures n < |s| ==> s[n] == ':'
  {
    if s == "" || s[0] == ':' then 0
    else
      var n := 1 + FirstColon(s[1..]);
      assert s[..n] == [s[0]] + s[1..][..n - 1];
      n
  }

  /** Exactly when two keys collide: never with equal ids, and otherwise only if one id
      contains a ':' that lets it swallow the front of the other event name. */
  lemma KeysCollideExactly(o1: string, e1: string, o2: string, e2: string)
    requires |o1| <= |o2|
    ensures IdempotencyKeyFor(o1, e1) == IdempotencyKeyFor(o2, e2) <==>
            (o1 == o2 && e1 == e2) ||
            (|o1| < |o2| && o2[..|o1|] == o1 && o2[|o1|] == ':' &&
             e1 == o2[|o1| + 1..] + ":" + e2)
  {
    var k1, k2 := IdempotencyKeyFor(o1, e1), IdempotencyKeyFor(o2, e2);
    var n := |o1|;
    assert k1[..n] == o1 && k1[n] == ':' && k1[n + 1..] == e1;
    assert k2[..|o2|] == o2 && k2[|o2|] == ':' && k2[|o2| + 1..] == e2;
    if n < |o2| {
      assert k2[..n] == o2[..n] && k2[n] == o2[n];
      assert k2[n + 1..] == o2[n + 1..] + ":" + e2;
      assert k1 == k1[..n] + [k1[n]] + k1[n + 1..];
      assert k2 == k2[..n] + [k2[n]] + k2[n + 1..];
    }
  }

  /** An order id without ':' is recovered from its key, whatever the event name. */
  lemma KeyRoundTrip(o: string, e: string)
    requires ':' !in o
    ensures var k := IdempotencyKeyFor(o, e);
            var n := FirstColon(k);
            n < |k| && k[..n] == o && k[n + 1..] == e
  {
    var k := IdempotencyKeyFor(o, e);
    var n := FirstColon(k);
    assert k[|o|] == ':' && forall j | 0 <= j < |o| :: k[j] == o[j] && o[j] in o;
    assert forall j | 0 <= j < n :: k[j] == k[..n][j];
    assert n == |o|;
    assert k[..|o|] == o && k[|o| + 1..] == e;
  }

  /** The ids `create_order` makes: a fixed prefix and eight hexadecimal digits. */
  ghost predicate GeneratedId(o: OrderId) {
    exists hex: string ::
      o.text == "order_" + hex && |hex| == 8 && forall c | c in hex :: c in "0123456789abcdef"
  }

  /** Keys of generated ids never collide, so the protocol may use Key values as keys. */
  lemma KeyStringInjective(a: Key, b: Key)
    requires GeneratedId(a.order) && GeneratedId(b.order)
    ensures KeyString(a) == KeyString(b) <==> a == b
  {
    GeneratedIdHasNoColon(a.order);
    GeneratedIdHasNoColon(b.order);
    KeyRoundTrip(a.order.text, KindName(a.kind));
    KeyRoundTrip(b.order.text, KindName(b.kind));
    KindNameInjective(a.kind, b.kind);
  }

  lemma GeneratedIdHasNoColon(o: OrderId)
    requires GeneratedId(o)
    ensures ':' !in o.text
  {
    var hex: string :| o.text == "order_" + hex && |hex| == 8 &&
                       forall c | c in hex :: c in "0123456789abcdef";
    forall k | 0 <= k < |o.text| ensures o.text[k] != ':' {
      if k >= 6 {
        assert o.text[k] == hex[k - 6] && hex[k - 6] in hex;
      }
    }
  }

  lemma KindNameInjective(a: Kind, b: Kind)
    ensures KindName(a) == KindName(b) <==> a == b
  {
    assert KindName(CreatedKind)[0] == KindName(ConfirmedKind)[0] == 'c';
    assert KindName(PaidKind)[0] == KindName(FailedKind)[0] == 'p';
    assert KindName(AssignedKind)[0] == 'd';
    assert |KindName(CreatedKind)| != |KindName(ConfirmedKind)|;
    assert |KindName(PaidKind)| != |KindName(FailedKind)|;
  }
}
