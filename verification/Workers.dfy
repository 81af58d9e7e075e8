// The workers as the program runs them: message handling step by step over the shared world,
// proved against the state machine for every interleaving and every pattern of failing calls.
module Workers {
  import opened Schemas
  import opened Protocol
  import opened Steps
  import opened Invariant
  import opened Unconditional
  import opened Stages
  import opened Preservation
  import opened Guarantees
  import opened Handling
  import opened Deliveries
  import opened Runtime

  // ---------------------------------------------------------------------
  // Units of work on session rows
  // ---------------------------------------------------------------------

  /** The order row a session has loaded; `process` assigns to it in place. */
  class OrderRecord {
    var status: Status
    var paymentId: Option<nat>
    var driverId: Option<nat>

    constructor (row: Row)
      ensures Value() == row
    {
      status, paymentId, driverId := row.status, row.payment, row.driver;
    }

    function Value(): Row
      reads this
    {
      Row(status, paymentId, driverId)
    }
  }

  function RowOf(order: OrderRecord?): Option<Row>
    reads order
  {
    if order == null then None else Some(order.Value())
  }

  method Load(row: Option<Row>) returns (order: OrderRecord?)
    ensures RowOf(order) == row
    ensures order != null ==> fresh(order)
  {
    order := null;
    if row.Some? { order := new OrderRecord(row.value); }
  }

  /** The columns as `process` leaves them: written on success, untouched when it raises. */
  function Left(row: Option<Row>, r: Result): Option<Row> {
    if row.Some? && r.Returned? then Some(Write(row.value, r.effect)) else row
  }

  method ProcessPayment(c: Config, order: OrderRecord?, ev: Event, attempt: nat, ch: Choice) returns (r: Result)
    modifies order
    ensures r == Process(c, Payment, ev, attempt, old(RowOf(order)), ch)
    ensures RowOf(order) == Left(old(RowOf(order)), r)
    ensures order == null ==> r == Raised(NotReady)
    ensures order != null && old(order.status) != Pending ==>
              r == Returned(NoWrite, []) && order.Value() == old(order.Value())
    ensures order != null && old(order.status) == Pending ==>
              var b := if ev.OrderCreated? then ev.behavior else Auto;
              (InForce(c, b, AlwaysFail) ==> r.Raised?) && (InForce(c, b, NeverFail) ==> r.Returned?) &&
              (InForce(c, b, FailTwice) ==> (r.Raised? <==> attempt <= 2)) &&
              (LeftToChance(c, b) ==> (r.Raised? <==> ch.draw)) &&
              (r.Raised? ==> r == Raised(Other) && order.Value() == old(order.Value())) &&
              (r.Returned? ==> r.outgoing == [OrderPaid(ev.order, ch.payment, ch.at)] &&
                               order.Value() == Row(Paid, Some(ch.payment), old(order.driverId)))
  {
    if order == null {
      return Raised(NotReady);
    }
    if order.status != Pending {
      return Returned(NoWrite, []);
    }
    if ShouldFail(c, BehaviorOf(ev), attempt, ch.draw) {
      return Raised(Other);
    }
    order.paymentId := Some(ch.payment);
    order.status := Paid;
    r := Returned(Charge(ch.payment), [OrderPaid(ev.order, ch.payment, ch.at)]);
  }

  method ProcessRestaurant(c: Config, order: OrderRecord?, ev: Event, attempt: nat, ch: Choice) returns (r: Result)
    modifies order
    ensures r == Process(c, Restaurant, ev, attempt, old(RowOf(order)), ch)
    ensures RowOf(order) == Left(old(RowOf(order)), r)
    ensures r.Returned?
    ensures if order != null && old(order.status) == Paid
            then r.outgoing == [OrderConfirmed(ev.order, ch.at)] &&
                 order.Value() == Row(Confirmed, old(order.paymentId), old(order.driverId))
            else r.outgoing == [] && RowOf(order) == old(RowOf(order))
  {
    if order == null || order.status != Paid {
      return Returned(NoWrite, []);
    }
    order.status := Confirmed;
    r := Returned(Confirm, [OrderConfirmed(ev.order, ch.at)]);
  }

  method ProcessDelivery(c: Config, order: OrderRecord?, ev: Event, attempt: nat, ch: Choice) returns (r: Result)
    modifies order
    ensures r == Process(c, Delivery, ev, attempt, old(RowOf(order)), ch)
    ensures RowOf(order) == Left(old(RowOf(order)), r)
    ensures r.Returned?
    ensures if order != null && old(order.status) == Confirmed
            then r.outgoing == [OrderDriverAssigned(ev.order, ch.driver, ch.at)] &&
                 order.Value() == Row(DriverAssigned, old(order.paymentId), Some(ch.driver))
            else r.outgoing == [] && RowOf(order) == old(RowOf(order))
  {
    if order == null || order.status != Confirmed {
      return Returned(NoWrite, []);
    }
    order.driverId := Some(ch.driver);
    order.status := DriverAssigned;
    r := Returned(Assign(ch.driver), [OrderDriverAssigned(ev.order, ch.driver, ch.at)]);
  }

  /** The notification row a session has added and flushed. */
  class NoteSession {
    var added: seq<Note>

    constructor ()
      ensures added == []
    {
      added := [];
    }
  }

  /** What flushing a notification yields: the worker's result, or a violated unique key. */
  datatype Flush = Flushed(result: Result) | IntegrityError

  /** `taken` holds the keys in the table; a row whose key is among them cannot be flushed. */
  method ProcessNotification(session: NoteSession, taken: set<Key>, ev: Event) returns (r: Flush)
    modifies session
    ensures r == if KeyOf(ev) in taken then IntegrityError else Flushed(Returned(NoWrite, []))
    ensures session.added ==
            old(session.added) + if KeyOf(ev) in taken then [] else [Note(KeyOf(ev), TextFor(KindOf(ev)))]
    ensures KeyOf(ev) !in taken ==>
              |session.added| == |old(session.added)| + 1 && Tells(ev, session.added[|session.added| - 1].text)
  {
    var row := Note(KeyOf(ev), TextFor(KindOf(ev)));
    if row.key in taken {
      return IntegrityError;
    }
    session.added := session.added + [row];
    r := Flushed(Returned(NoWrite, []));
  }

  function NoteKeys(s: State): set<Key> {
    set n | 0 <= n < |s.notes| :: s.notes[n].key
  }

  // ---------------------------------------------------------------------
  // Contracts
  // ---------------------------------------------------------------------

  /** A body is poison (bad JSON or schema) or one of the typed events. */
  datatype Body = Poison | Typed(ev: Event)

  /** The stretch of the trace that one poll of a consume loop takes, how many calls fail in it, and
      how the delivery ends, if there is one. */
  datatype Window = Window(from: nat, to: nat, failed: nat, end: Outcome)

  /** How handling ends; `Escaped` is an exception that reaches `run`. */
  datatype Outcome = Acked | Requeued | DeadLettered | Escaped

  /** The three reasons for which a message may be acknowledged. What counts has happened since the
      log had `from` entries. */
  predicate AckJustified(s: State, m: Copy, from: nat) {
    || (SlotOf(m) in s.guard && AllOut(s, from, s.guard[SlotOf(m)]))
    || Replaced(s, m, from)
    || (m.queue.Notification? && HasNote(s, KeyOf(m.ev)))
  }

  predicate AllOut(s: State, from: nat, out: seq<Event>) {
    forall n | 0 <= n < |out| :: IsOut(s, from, out[n])
  }

  /** The event has reached every queue it is routed to. */
  predicate IsOut(s: State, from: nat, e: Event) {
    exists j | from <= j < |s.log| :: PublishedAt(s, j, e)
  }

  predicate PublishedAt(s: State, j: nat, e: Event) {
    j + |Published(e)| <= |s.log| &&
    forall k | 0 <= k < |Published(e)| :: s.log[j + k] == Published(e)[k].(place := s.log[j + k].place)
  }

  /** The copy has been put into its retry queue again. */
  predicate Replaced(s: State, m: Copy, from: nat) {
    exists j | from <= j < |s.log| :: Replaces(s.log[j], m)
  }

  /** Copy r is m after one more retry of either kind. */
  predicate Replaces(r: Copy, m: Copy) {
    r.queue == m.queue && r.ev == m.ev && r.hops == m.hops + 1 &&
    ((r.rc == m.rc + 1 && r.nr == 0) || (r.rc == m.rc && r.nr == m.nr + 1))
  }

  lemma OutLater(s: State, t: State, from: nat, e: Event)
    requires Later(s, t) && IsOut(s, from, e)
    ensures IsOut(t, from, e)
  {
    hide Keeps, Published;
    var j :| from <= j < |s.log| && PublishedAt(s, j, e);
    assert PublishedAt(t, j, e);
  }

  lemma AllOutLater(s: State, t: State, from: nat, out: seq<Event>)
    requires Later(s, t) && AllOut(s, from, out)
    ensures AllOut(t, from, out)
  {
    hide Keeps, IsOut;
    forall n | 0 <= n < |out| ensures IsOut(t, from, out[n]) { OutLater(s, t, from, out[n]); }
  }

  lemma JustifiedLater(s: State, t: State, m: Copy, from: nat)
    requires Later(s, t) && AckJustified(s, m, from)
    ensures AckJustified(t, m, from)
  {
    hide IsOut, HasNote;
    NotesGrow(s, t);
    if SlotOf(m) in s.guard && AllOut(s, from, s.guard[SlotOf(m)]) { AllOutLater(s, t, from, s.guard[SlotOf(m)]); }
    if Replaced(s, m, from) {
      var j :| from <= j < |s.log| && Replaces(s.log[j], m);
      assert Replaces(t.log[j], m);
    }
  }

  /** What has happened since a later moment has happened since an earlier one. */
  lemma JustifiedSince(s: State, m: Copy, from: nat, earlier: nat)
    requires AckJustified(s, m, from) && earlier <= from
    ensures AckJustified(s, m, earlier)
  {
    hide PublishedAt, HasNote, Replaces;
    forall e | IsOut(s, from, e) ensures IsOut(s, earlier, e) {
      var j :| from <= j < |s.log| && PublishedAt(s, j, e);
    }
  }

  predicate PlaceFits(p: Place, r: Outcome) {
    match r
    case Acked => p.Gone?
    case Requeued => p.Ready?
    case DeadLettered => p.Dead?
    case Escaped => InHand(p)
  }

  /** Handling copy i took the world from s to t and ended as r: the copy is where r puts it,
      and an acknowledgement is justified by what has happened in between. `Later` says that it is
      still the same copy. */
  predicate Ended(s: State, t: State, i: nat, r: Outcome) {
    Later(s, t) && i < |s.log| && i < |t.log| && PlaceFits(t.log[i].place, r) &&
    (r.Acked? ==> AckJustified(t, t.log[i], |s.log|))
  }

  /** The hook's notice and then its commit, unless hook and payment are kept apart and it gave way. */
  predicate HookDone(c: Config, before: seq<Action>, now: seq<Action>, i: nat, at: int) {
    DoneInOrder(before, now, At(i, HookPublish(at)), At(i, HookCommit)) ||
    (c.exclusive && DoneSince(before, now, At(i, HookAbort)))
  }

  /** Dead-lettered with a retry budget spent, and for a payment, unless a call has failed, after its hook. */
  predicate GaveUp(c: Config, m: Copy, spared: bool, before: seq<Action>, now: seq<Action>, i: nat, at: int) {
    DoneSince(before, now, At(i, Reject)) && (m.rc >= c.maxRetries || m.nr >= c.notreadyMax) &&
    (spared && m.queue.Payment? && m.nr < c.notreadyMax ==> HookDone(c, before, now, i, at))
  }

  /** What the actions since the delivery of m show for the way it has ended: acknowledged after a
      commit, a republication, a suppression or a retry; dead-lettered only once given up. Unless a
      call has failed, it is this attempt of `process` that has raised. */
  predicate Traced(c: Config, m: Copy, r: Outcome, spared: bool, before: seq<Action>, now: seq<Action>,
                   i: nat, ch: Choice)
  {
    match r
    case Acked =>
      DoneSince(before, now, At(i, Commit(ch))) || DoneSince(before, now, At(i, Duplicate)) ||
      DoneSince(before, now, At(i, Suppress)) ||
      (DoneSince(before, now, At(i, RetryPublish)) && (spared ==> DoneSince(before, now, At(i, Raise(ch)))))
    case DeadLettered =>
      GaveUp(c, m, spared, before, now, i, ch.at) && (spared ==> DoneSince(before, now, At(i, Raise(ch))))
    case Requeued => true
    case Escaped => true
  }

  lemma Rejected(c: Config, m: Copy, hooked: bool, spared: bool, before: seq<Action>, mid: seq<Action>,
                 now: seq<Action>, i: nat, at: int)
    requires before <= mid && DoneSince(mid, now, At(i, Reject)) && (spared ==> hooked)
    requires m.place.Failing? && !Budget(c, m, m.place.fault)
    requires hooked && m.queue.Payment? && m.place.fault.Other? ==> HookDone(c, before, mid, i, at)
    ensures GaveUp(c, m, spared, before, now, i, at)
  {
    hide DoneSince, DoneInOrder;
    DoneEarlier(before, mid, now, At(i, Reject));
    assert mid <= now by { DoneOnward(mid, now, At(i, Reject)); }
    if HookDone(c, before, mid, i, at) {
      if DoneSince(before, mid, At(i, HookAbort)) { DoneLater(before, mid, now, At(i, HookAbort)); }
      InOrderLater(before, mid, now, At(i, HookPublish(at)), At(i, HookCommit));
    }
  }

  /** What the end of a delivery shows, the whole of it shows. */
  lemma TracedEarlier(c: Config, m: Copy, later: Copy, r: Outcome, spared: bool, last: bool, before: seq<Action>,
                      mid: seq<Action>, now: seq<Action>, i: nat, ch: Choice)
    requires before <= mid && later == m.(place := later.place) && (spared ==> last)
    requires Traced(c, later, r, last, mid, now, i, ch)
    ensures Traced(c, m, r, spared, before, now, i, ch)
  {
  }

  lemma FailureTraced(c: Config, m: Copy, r: Outcome, spared: bool, last: bool, before: seq<Action>,
                      mid: seq<Action>, now: seq<Action>, i: nat, ch: Choice)
    requires before <= mid <= now && (spared ==> last && DoneSince(before, mid, At(i, Raise(ch)))) && !r.Requeued?
    requires r.Acked? ==> DoneSince(mid, now, At(i, RetryPublish))
    requires r.DeadLettered? ==> GaveUp(c, m, last, mid, now, i, ch.at)
    ensures Traced(c, m, r, spared, before, now, i, ch)
  {
    hide DoneSince, DoneInOrder;
    if spared { DoneLater(before, mid, now, At(i, Raise(ch))); }
    forall a | DoneSince(mid, now, a) ensures DoneSince(before, now, a) { DoneEarlier(before, mid, now, a); }
    if DoneInOrder(mid, now, At(i, HookPublish(ch.at)), At(i, HookCommit)) {
      InOrderEarlier(before, mid, now, At(i, HookPublish(ch.at)), At(i, HookCommit));
    }
  }

  lemma GuardStays(s: State, t: State, sl: Slot)
    requires Later(s, t) && sl in s.guard
    ensures sl in t.guard
  {
  }

  lemma EndedEarlier(s: State, t: State, u: State, i: nat, r: Outcome)
    requires Later(s, t) && i < |s.log| && Ended(t, u, i, r)
    ensures Ended(s, u, i, r)
  {
    hide AckJustified, Keeps;
    LaterTransitive(s, t, u);
    if r.Acked? { JustifiedSince(u, u.log[i], |t.log|, |s.log|); }
  }

  lemma Longer(s: State, t: State)
    requires Later(s, t)
    ensures |s.log| <= |t.log|
  {
  }

  lemma SameCopy(s: State, t: State, i: nat)
    requires Later(s, t) && i < |s.log|
    ensures i < |t.log| && t.log[i] == s.log[i].(place := t.log[i].place)
  {
  }

  /** The hook's transaction ends after it saw `pending`. */
  function HookEnded(s: State, i: nat, pending: bool): State
    requires i < |s.log|
  {
    Move(if pending then MarkFailed(s, s.log[i].ev.order) else s, i, Rejecting)
  }

  function HookTaken(s: State, i: nat, pending: bool, at: int): State
    requires i < |s.log|
  {
    var o := s.log[i].ev.order;
    Settle(if pending then MarkFailed(s, o) else s, i, Published(OrderPaymentFailed(o, at)), Rejecting)
  }

  /** If the poll has found a ready copy of the worker's queue, the stretch begins with its delivery
      and contains exactly one settlement of it; otherwise the loop does nothing. */
  ghost predicate Handles(c: Config, start: State, trace: seq<Action>, name: Worker, w: Window, get: Get) {
    && w.from <= w.to <= |trace|
    && Legal(c, start, trace[..w.from])
    && Legal(c, start, trace[..w.to])
    && var s := Exec(c, start, trace[..w.from]);
       if get.Got? && get.i < |s.log| && s.log[get.i].queue == name && s.log[get.i].place.Ready?
       then w.from < w.to && trace[w.from] == At(get.i, Take) &&
            Settlements(c, start, trace[..w.to], get.i) == Settlements(c, start, trace[..w.from], get.i) + 1 &&
            (get.typed ==> HandlesEvent(c, start, trace, w, get.i, get.ch))
       else w.from == w.to
  }

  /** Steps that only a failing call explains are no more than the failing calls; without any, the
      copy is where the outcome says and the trace shows why. */
  ghost predicate HandlesEvent(c: Config, start: State, trace: seq<Action>, w: Window, i: nat, ch: Choice)
    requires w.from <= w.to <= |trace| && Legal(c, start, trace[..w.from]) && Legal(c, start, trace[..w.to])
  {
    var s, t := Exec(c, start, trace[..w.from]), Exec(c, start, trace[..w.to]);
    i < |s.log| && i < |t.log| &&
    Faults(c, start, trace[..w.to], i) <= Faults(c, start, trace[..w.from], i) + w.failed &&
    (w.failed == 0 ==>
       PlaceFits(t.log[i].place, w.end) && AllSound(c, start, trace[..w.from], trace[..w.to], i) &&
       Traced(c, s.log[i], w.end, true, trace[..w.from], trace[..w.to], i, ch))
  }

  /** The stretches follow each other without a gap. */
  predicate Consecutive(ws: seq<Window>, from: nat, to: nat) {
    if ws == [] then from == to
    else ws[|ws| - 1].to == to && Consecutive(ws[..|ws| - 1], from, ws[|ws| - 1].from)
  }

  function FailedIn(ws: seq<Window>): nat {
    if ws == [] then 0 else FailedIn(ws[..|ws| - 1]) + ws[|ws| - 1].failed
  }

  lemma HandlesStays(c: Config, start: State, before: seq<Action>, now: seq<Action>, name: Worker, w: Window, get: Get)
    requires before <= now && Handles(c, start, before, name, w, get)
    ensures Handles(c, start, now, name, w, get)
  {
    SamePrefix(before, now, w.from);
    SamePrefix(before, now, w.to);
  }

  // ---------------------------------------------------------------------
  // The base worker
  // ---------------------------------------------------------------------

  class BaseWorker {
    const name: Worker
    const world: World

    constructor (name: Worker, world: World)
      ensures this.name == name && this.world == world
    {
      this.name, this.world := name, world;
    }

    /** This instance has copy i of its own queue in hand. */
    ghost predicate Holds(i: nat)
      reads world
    {
      world.Valid() && i < |world.s.log| && world.s.log[i].queue == name && InHand(world.s.log[i].place)
    }

    ghost predicate HoldsAt(i: nat, p: Place)
      reads world
    {
      Holds(i) && world.s.log[i].place == p
    }

    ghost predicate HoldsFailing(i: nat)
      reads world
    {
      Holds(i) && world.s.log[i].place.Failing?
    }

    /** Some retry budget is left for the fault that copy i is failing with. */
    ghost predicate Retries(i: nat)
      reads world
    {
      HoldsFailing(i) && Budget(world.c, world.s.log[i], world.s.log[i].place.fault)
    }

    /** The copy's outgoing events are committed and wait to be published. */
    ghost predicate HoldsStored(i: nat, again: bool)
      reads world
    {
      Holds(i) && SlotOf(world.s.log[i]) in world.s.guard &&
      world.s.log[i].place == Publishing(world.s.guard[SlotOf(world.s.log[i])], again)
    }

    // -------------------------------------------------------------------
    // Single steps
    // -------------------------------------------------------------------

    method Advance(i: nat, step: Step)
      requires Holds(i) && StepEnabled(world.c, world.s, i, step)
      modifies world
      ensures world.Valid() && world.s == ApplyStep(world.c, old(world.s), i, step) && Later(old(world.s), world.s)
      ensures i < |world.s.log| && world.script == old(world.script) && world.trace == old(world.trace) + [At(i, step)]
      ensures world.Settled(i) == old(world.Settled(i)) + Bit(!InHand(world.s.log[i].place))
      ensures world.Troubles(i) == old(world.Troubles(i)) + Bit(!Sound(world.c, old(world.s), i, step))
    {
      hide World.Valid, World.Settled, World.Troubles, Inv, Base, Core, Keeps, StepEnabled, ApplyStep;
      world.Do(At(i, step));
    }

    /** An await in the middle of handling copy i. */
    method Pause(i: nat) returns (end: Trouble)
      requires Holds(i)
      modifies world
      ensures Holds(i) && Later(old(world.s), world.s) && world.s.log[i] == old(world.s).log[i]
      ensures old(world.trace) <= world.trace && Failures(world.script) <= Failures(old(world.script))
      ensures Spared(old(world.script), world.script) ==> end.Fine?
      ensures old(world.script) == [] ==> world.script == [] && world.s == old(world.s)
      ensures world.Settled(i) == old(world.Settled(i))
      ensures world.Troubles(i) + Bit(!end.Fine?) == old(world.Troubles(i))
    {
      hide World.Valid, World.Settled, World.Troubles, Inv, Extends;
      end := world.Await(Instance(i));
    }

    /** Acknowledges copy i, which this instance has handled since the world was in s0. */
    method Ack(i: nat, ghost s0: State)
      requires Holds(i) && StepEnabled(world.c, world.s, i, Step.Ack)
      requires Later(s0, world.s) && i < |s0.log| && AckJustified(world.s, world.s.log[i], |s0.log|)
      modifies world
      ensures world.Valid() && Ended(s0, world.s, i, Acked) && Later(old(world.s), world.s)
      ensures old(world.script) == [] ==> world.script == [] && world.s == Move(old(world.s), i, Gone)
      ensures old(world.trace) <= world.trace && Failures(world.script) <= Failures(old(world.script))
      ensures world.Settled(i) == old(world.Settled(i)) + 1
      ensures world.Troubles(i) <= old(world.Troubles(i))
    {
      hide World.Valid, World.Settled, World.Troubles, Inv, Base, Core, Keeps, Grows, AckJustified;
      ghost var m, s1 := world.s.log[i], world.s;
      var _ := Pause(i);
      ghost var s2 := world.s;
      Advance(i, Step.Ack);
      LaterTransitive(s1, s2, world.s);
      LaterTransitive(s0, s1, world.s);
      JustifiedLater(s1, world.s, m, |s0.log|);
      JustifiedSame(world.s, m, Gone, |s0.log|);
    }

    /** nack(requeue=False): the queue's dead-letter exchange takes the message. */
    method DeadLetter(i: nat)
      requires HoldsAt(i, Rejecting)
      modifies world
      ensures old(world.trace) <= world.trace && Failures(world.script) <= Failures(old(world.script))
      ensures world.Valid() && Ended(old(world.s), world.s, i, DeadLettered)
      ensures old(world.script) == [] ==> world.script == [] && world.s == Move(old(world.s), i, Dead)
      ensures world.Settled(i) == old(world.Settled(i)) + 1
      ensures world.Troubles(i) <= old(world.Troubles(i))
      ensures DoneSince(old(world.trace), world.trace, At(i, Reject))
    {
      hide World.Valid, World.Settled, World.Troubles, Inv, Base, Core, Keeps, Grows;
      ghost var s0 := world.s;
      var _ := Pause(i);
      ghost var s1, steps := world.s, world.trace;
      Advance(i, Reject);
      DoneLast(old(world.trace), steps, world.trace, At(i, Reject));
      LaterTransitive(s0, s1, world.s);
    }

    // -------------------------------------------------------------------
    // Publishing
    // -------------------------------------------------------------------

    /** One publish: the event is out, or the delivery is requeued or left to fail. */
    method PublishOne(i: nat) returns (ok: bool)
      requires Holds(i) && world.s.log[i].place.Publishing? && world.s.log[i].place.todo != []
      modifies world
      ensures old(world.trace) <= world.trace && Failures(world.script) <= Failures(old(world.script))
      ensures world.Valid() && Later(old(world.s), world.s)
      ensures var p := old(world.s.log[i].place);
              if ok then HoldsAt(i, Publishing(p.todo[1..], p.again)) && IsOut(world.s, |old(world.s.log)|, p.todo[0])
              else if p.again then Ended(old(world.s), world.s, i, Requeued) else HoldsFailing(i)
      ensures Spared(old(world.script), world.script) ==> ok
      ensures old(world.script) == [] ==> world.script == [] && (var p := old(world.s.log[i].place);
              world.s == Settle(old(world.s), i, Published(p.todo[0]), Publishing(p.todo[1..], p.again)))
      ensures world.Settled(i) == old(world.Settled(i)) + Bit(!ok && old(world.s.log[i].place.again))
      ensures world.Troubles(i) <= old(world.Troubles(i))
    {
      hide World.Valid, World.Settled, World.Troubles, Inv, Base, Core, Keeps, Grows, Published;
      ghost var s0 := world.s;
      var end := Pause(i);
      ghost var s1 := world.s;
      ok := end == Fine;
      if ok {
        Advance(i, PublishNext);
        PublishedIsOut(s0, s1, i, Publishing(s1.log[i].place.todo[1..], s1.log[i].place.again));
      } else {
        Advance(i, PublishRaise(end == RaisesLate));
      }
      LaterTransitive(s0, s1, world.s);
    }

    /** Publishes the stored events in order and stops at the first failing publish. */
    method PublishAll(i: nat, again: bool) returns (ok: bool)
      requires HoldsStored(i, again)
      modifies world
      ensures old(world.trace) <= world.trace && Failures(world.script) <= Failures(old(world.script))
      ensures world.Valid() && Later(old(world.s), world.s)
      ensures ok ==> HoldsAt(i, Publishing([], again))
      ensures ok ==> AllOut(world.s, |old(world.s.log)|, old(world.s.guard[SlotOf(world.s.log[i])]))
      ensures !ok && !again ==> HoldsFailing(i)
      ensures !ok && again ==> Ended(old(world.s), world.s, i, Requeued)
      ensures Spared(old(world.script), world.script) ==> ok
      ensures old(world.script) == [] ==>
                world.script == [] && world.s ==
                Settle(old(world.s), i, PublishedAll(old(world.s.log[i].place.todo)), Publishing([], again))
      ensures world.Settled(i) == old(world.Settled(i)) + Bit(!ok && again)
      ensures world.Troubles(i) <= old(world.Troubles(i))
    {
      hide World.Valid, World.Settled, World.Troubles, Inv, Base, Core, Keeps, Grows, AllOut, IsOut, AckJustified,
           Settle, PublishedAll, Published;
      ghost var s0 := world.s;
      ghost var todo := world.s.log[i].place.todo;
      ghost var n := 0;
      ghost var alone := world.script == [];
      NothingOut(world.s, |s0.log|, todo);
      LaterReflexive(s0);
      NothingSettled(s0, i, todo);
      while world.s.log[i].place.todo != []
        invariant n <= |todo| && HoldsAt(i, Publishing(todo[n..], again)) && Later(s0, world.s)
        invariant AllOut(world.s, |s0.log|, todo[..n])
        invariant world.Settled(i) == old(world.Settled(i)) && old(world.trace) <= world.trace
        invariant world.Troubles(i) <= old(world.Troubles(i))
        invariant Failures(world.script) <= Failures(old(world.script))
        invariant alone ==> world.script == []
        invariant alone ==> world.s == Settle(s0, i, PublishedAll(todo[..n]), Publishing(todo[n..], again))
        decreases |todo| - n
      {
        ghost var s1 := world.s;
        ok := PublishOne(i);
        LaterTransitive(s0, s1, world.s);
        if !ok { return; }
        AllOutLater(s1, world.s, |s0.log|, todo[..n]);
        OneMoreOut(s0, s1, world.s, todo, n);
        if alone { OneMoreSettled(s0, i, todo, n, again); }
        n := n + 1;
      }
      assert todo[..n] == todo && todo[n..] == [];
      ok := true;
    }

    // -------------------------------------------------------------------
    // Failure handling
    // -------------------------------------------------------------------

    /** Republishes to the retry queue with its counter raised, then acknowledges. */
    method RetryLater(i: nat) returns (r: Outcome)
      requires Retries(i)
      modifies world
      ensures old(world.trace) <= world.trace && Failures(world.script) <= Failures(old(world.script))
      ensures world.Valid() && r in {Acked, Escaped} && Ended(old(world.s), world.s, i, r)
      ensures Spared(old(world.script), world.script) ==> r.Acked?
      ensures r.Acked? ==> DoneSince(old(world.trace), world.trace, At(i, RetryPublish))
      ensures r.Acked? ==>
                var m := old(world.s.log[i]);
                InRetryQueue(world.s, |old(world.s.log)|, RetryCopy(world.c, m, m.place.fault))
      ensures old(world.script) == [] ==>
                var m := old(world.s.log[i]);
                world.script == [] && world.s == Settle(old(world.s), i, [RetryCopy(world.c, m, m.place.fault)], Gone)
      ensures world.Settled(i) == old(world.Settled(i)) + Bit(!r.Escaped?)
      ensures world.Troubles(i) + Bit(r.Escaped?) <= old(world.Troubles(i))
    {
      hide World.Valid, World.Settled, World.Troubles, Inv, Base, Core, Keeps, Grows, AckJustified, RetryDelayMs,
           Settle, Budget, InRetryQueue, DoneSince;
      ghost var s0 := world.s;
      var end := Pause(i);
      if end == Raises { return Escaped; }
      ghost var s1, steps := world.s, world.trace;
      Advance(i, RetryPublish);
      ghost var s2 := world.s;
      LaterTransitive(s0, s1, s2);
      if end == RaisesLate { return Escaped; }
      RetriedIsReplaced(world.c, s0, s1, i);
      Ack(i, s0);
      RetryStays(s2, world.s, |s0.log|, RetryCopy(world.c, s1.log[i], s1.log[i].place.fault));
      DoneLast(old(world.trace), steps, world.trace, At(i, RetryPublish));
      r := Acked;
    }

    /** The optional hook, in its own transaction; whatever it raises is logged and dropped. */
    method RunHook(i: nat, at: int)
      requires HoldsAt(i, Failing(Other)) && !Retries(i) && name.Payment?
      modifies world
      ensures old(world.trace) <= world.trace && Failures(world.script) <= Failures(old(world.script))
      ensures HoldsAt(i, Rejecting) && Later(old(world.s), world.s)
      ensures old(world.script) == [] ==>
                world.script == [] && world.s ==
                if world.c.exclusive && PaymentRuns(old(world.s), old(world.s.log[i].ev.order))
                then Move(old(world.s), i, Rejecting)
                else Hooked(old(world.s), i, at, Rejecting)
      ensures world.Settled(i) == old(world.Settled(i))
      ensures world.Troubles(i) <= old(world.Troubles(i))
      ensures Spared(old(world.script), world.script) ==> HookDone(world.c, old(world.trace), world.trace, i, at)
      ensures old(world.script) == [] &&
              !(world.c.exclusive && PaymentRuns(old(world.s), old(world.s.log[i].ev.order))) ==>
                HookLaw(old(world.s), world.s, i, at, Rejecting)
    {
      hide World.Valid, World.Settled, World.Troubles, Inv, Base, Core, Keeps, Grows, Published, HookRuns,
           PaymentRuns, MarkFailed, Budget, HookTaken, Hooked, HookLaw;
      HookedLaw(world.s, i, at, Rejecting);
      ghost var s0 := world.s;
      var end := Pause(i);
      ghost var s1, steps := world.s, world.trace;
      if end != Fine || (world.c.exclusive && PaymentRuns(world.s, world.s.log[i].ev.order)) {
        Advance(i, HookAbort);
        DoneLast(old(world.trace), steps, world.trace, At(i, HookAbort));
        LaterTransitive(s0, s1, world.s);
        return;
      }
      Advance(i, HookRead);
      ghost var s2 := world.s;
      LaterTransitive(s0, s1, s2);
      AnnounceFailure(i, at);
      LaterTransitive(s0, s2, world.s);
      HookedAfterRead(s1, i, at);
    }

    /** The notice is published first; the status change is committed after it. */
    method AnnounceFailure(i: nat, at: int)
      requires Holds(i) && world.s.log[i].place.HookOpen?
      modifies world
      ensures old(world.trace) <= world.trace && Failures(world.script) <= Failures(old(world.script))
      ensures HoldsAt(i, Rejecting) && Later(old(world.s), world.s)
      ensures old(world.script) == [] ==>
                world.script == [] && world.s ==
                HookTaken(old(world.s), i, old(world.s.log[i].place.pending), at)
      ensures world.Settled(i) == old(world.Settled(i))
      ensures world.Troubles(i) <= old(world.Troubles(i))
      ensures Spared(old(world.script), world.script) ==>
                DoneInOrder(old(world.trace), world.trace, At(i, HookPublish(at)), At(i, HookCommit))
    {
      hide World.Valid, World.Settled, World.Troubles, Inv, Base, Core, Keeps, Grows, Published, MarkFailed,
           HookTaken, HookEnded, HookRuns, PaymentRuns,
           Fanout, RetryCopy, Budget, Process, TextFor, CommitTables, SlotOf;
      ghost var s0 := world.s;
      var end := Pause(i);
      ghost var s1, steps := world.s, world.trace;
      if end == Raises {
        Advance(i, HookAbort);
        LaterTransitive(s0, s1, world.s);
        return;
      }
      Advance(i, HookPublish(at));
      ghost var s2 := world.s;
      LaterTransitive(s0, s1, s2);
      EndHook(i, end);
      if Spared(old(world.script), world.script) {
        InOrder(old(world.trace), steps, world.trace, At(i, HookPublish(at)), At(i, HookCommit));
      }
      LaterTransitive(s0, s2, world.s);
      AnnouncedThenEnded(s1, i, at);
    }

    /** After the publish: roll back if it raised although the broker routed it, else commit. */
    method EndHook(i: nat, published: Trouble)
      requires Holds(i) && world.s.log[i].place.HookAnnounced?
      modifies world
      ensures old(world.trace) <= world.trace && Failures(world.script) <= Failures(old(world.script))
      ensures HoldsAt(i, Rejecting) && Later(old(world.s), world.s)
      ensures old(world.script) == [] && published.Fine? ==>
                world.script == [] && world.s == HookEnded(old(world.s), i, old(world.s.log[i].place.pending))
      ensures world.Settled(i) == old(world.Settled(i))
      ensures world.Troubles(i) <= old(world.Troubles(i)) + Bit(!published.Fine?)
      ensures published.Fine? && Spared(old(world.script), world.script) ==>
                DoneSince(old(world.trace), world.trace, At(i, HookCommit))
    {
      hide World.Valid, World.Settled, World.Troubles, Inv, Base, Core, Keeps, Grows;
      ghost var s0 := world.s;
      var end := Pause(i);
      ghost var s1, steps := world.s, world.trace;
      if published != Fine || end == Raises {
        Advance(i, HookAbort);
      } else {
        Advance(i, HookCommit);
        DoneLast(old(world.trace), steps, world.trace, At(i, HookCommit));
      }
      LaterTransitive(s0, s1, world.s);
    }

    /** A retry while the budget lasts, the dead-letter queue once it is spent. */
    method HandleFailure(i: nat, at: int) returns (r: Outcome)
      requires HoldsFailing(i)
      modifies world
      ensures old(world.trace) <= world.trace && Failures(world.script) <= Failures(old(world.script))
      ensures world.Valid() && Ended(old(world.s), world.s, i, r)
      ensures if old(Retries(i)) then r in {Acked, Escaped} else r.DeadLettered?
      ensures Spared(old(world.script), world.script) ==> !r.Escaped?
      ensures old(world.script) == [] ==>
                world.script == [] &&
                world.s == AfterFailure(world.c, old(world.s), i, old(world.s.log[i].place.fault), at)
      ensures world.Settled(i) == old(world.Settled(i)) + Bit(!r.Escaped?)
      ensures world.Troubles(i) + Bit(r.Escaped?) <= old(world.Troubles(i))
      ensures r.Acked? ==> DoneSince(old(world.trace), world.trace, At(i, RetryPublish))
      ensures r.DeadLettered? ==>
                GaveUp(world.c, old(world.s.log[i]), Spared(old(world.script), world.script),
                       old(world.trace), world.trace, i, at)
      ensures old(world.script) == [] ==>
                FailureLaw(world.c, old(world.s), world.s, i, old(world.s.log[i].place.fault), at)
    {
      hide World.Valid, World.Settled, World.Troubles, Inv, Base, Core, Keeps, Grows, AckJustified, DoneSince,
           GaveUp, FailureLaw;
      AfterFailureLaw(world.c, world.s, i, world.s.log[i].place.fault, at);
      LaterReflexive(world.s);
      var m := world.s.log[i];
      if Budget(world.c, m, m.place.fault) {
        r := RetryLater(i);
      } else {
        Abandon(i, at);
        r := DeadLettered;
      }
    }

    /** The budget is spent: the hook, for payment, and then the dead-letter queue. */
    method Abandon(i: nat, at: int)
      requires HoldsFailing(i) && !Retries(i)
      modifies world
      ensures old(world.trace) <= world.trace && Failures(world.script) <= Failures(old(world.script))
      ensures world.Valid() && Ended(old(world.s), world.s, i, DeadLettered)
      ensures old(world.script) == [] ==>
                world.script == [] &&
                world.s == AfterFailure(world.c, old(world.s), i, old(world.s.log[i].place.fault), at)
      ensures world.Settled(i) == old(world.Settled(i)) + 1
      ensures world.Troubles(i) <= old(world.Troubles(i))
      ensures GaveUp(world.c, old(world.s.log[i]), Spared(old(world.script), world.script),
                     old(world.trace), world.trace, i, at)
    {
      hide World.Valid, World.Settled, World.Troubles, Inv, Base, Core, Keeps, Grows, AckJustified, Budget, HookDone,
           Hooked, PaymentRuns, DoneSince, GaveUp;
      ghost var s0 := world.s;
      var m := world.s.log[i];
      if name.Payment? && m.place.fault.Other? {
        RunHook(i, at);
      } else {
        Advance(i, GiveUp);
      }
      ghost var s1, steps, left := world.s, world.trace, world.script;
      DeadLetter(i);
      EndedEarlier(s0, s1, world.s, i, DeadLettered);
      DeadAfterHook(s0, i, at);
      Rejected(world.c, m, Spared(old(world.script), left), Spared(old(world.script), world.script),
               old(world.trace), steps, world.trace, i, at);
    }

    // -------------------------------------------------------------------
    // Message handling
    // -------------------------------------------------------------------

    /** The guard row exists: republish what it stores, or requeue if it is not committed. */
    method HandleDuplicate(i: nat) returns (r: Outcome)
      requires HoldsAt(i, Taken)
      modifies world
      ensures old(world.trace) <= world.trace && Failures(world.script) <= Failures(old(world.script))
      ensures world.Valid() && !r.DeadLettered? && Ended(old(world.s), world.s, i, r)
      ensures r.Acked? ==> StoredOut(world.s, i, |old(world.s.log)|)
      ensures Spared(old(world.script), world.script) ==> !r.Escaped?
      ensures old(world.script) == [] ==>
                var g, slot := old(world.s.guard), SlotOf(old(world.s.log[i]));
                world.script == [] &&
                world.s == if slot in g then Settle(old(world.s), i, PublishedAll(g[slot]), Gone)
                           else Move(old(world.s), i, Ready)
      ensures world.Settled(i) == old(world.Settled(i)) + Bit(!r.Escaped?)
      ensures world.Troubles(i) + Bit(r.Escaped?) <= old(world.Troubles(i))
      ensures r.Acked? ==> DoneSince(old(world.trace), world.trace, At(i, Duplicate))
      ensures Spared(old(world.script), world.script) && SlotOf(old(world.s.log[i])) in old(world.s.guard) ==> r.Acked?
    {
      hide World.Valid, World.Settled, World.Troubles, Inv, Base, Core, Keeps, Grows, AckJustified, Held, StoredOut,
           Settle, PublishedAll;
      ghost var s0 := world.s;
      var end := Pause(i);
      if end != Fine { return Escaped; }
      ghost var s1 := world.s;
      if SlotOf(s0.log[i]) in s0.guard { GuardStays(s0, s1, SlotOf(s0.log[i])); }
      r := Resolve(i);
      EndedEarlier(s0, s1, world.s, i, r);
      Longer(s0, s1);
      if r.Acked? { StoredSince(world.s, i, |s1.log|, |s0.log|); }
    }

    /** The winner's row decides: if there is none yet, the loser is requeued. */
    method Resolve(i: nat) returns (r: Outcome)
      requires HoldsAt(i, Taken)
      modifies world
      ensures old(world.trace) <= world.trace && Failures(world.script) <= Failures(old(world.script))
      ensures world.Valid() && r in {Acked, Requeued} && Ended(old(world.s), world.s, i, r)
      ensures r.Acked? ==> StoredOut(world.s, i, |old(world.s.log)|)
      ensures old(world.script) == [] ==>
                var g, slot := old(world.s.guard), SlotOf(old(world.s.log[i]));
                world.script == [] &&
                world.s == if slot in g then Settle(old(world.s), i, PublishedAll(g[slot]), Gone)
                           else Move(old(world.s), i, Ready)
      ensures world.Settled(i) == old(world.Settled(i)) + 1
      ensures world.Troubles(i) <= old(world.Troubles(i))
      ensures r.Acked? ==> DoneSince(old(world.trace), world.trace, At(i, Duplicate))
      ensures Spared(old(world.script), world.script) && SlotOf(old(world.s.log[i])) in old(world.s.guard) ==> r.Acked?
    {
      hide World.Valid, World.Settled, World.Troubles, Inv, Base, Core, Keeps, Grows, AckJustified, Held, StoredOut,
           Settle, PublishedAll;
      if SlotOf(world.s.log[i]) !in world.s.guard {
        Advance(i, Conflict);
        return Requeued;
      }
      r := Republish(i);
    }

    /** The winner has committed. */
    method Republish(i: nat) returns (r: Outcome)
      requires HoldsAt(i, Taken) && SlotOf(world.s.log[i]) in world.s.guard
      modifies world
      ensures old(world.trace) <= world.trace && Failures(world.script) <= Failures(old(world.script))
      ensures world.Valid() && r in {Acked, Requeued} && Ended(old(world.s), world.s, i, r)
      ensures r.Acked? ==> StoredOut(world.s, i, |old(world.s.log)|)
      ensures Spared(old(world.script), world.script) ==> r.Acked?
      ensures old(world.script) == [] ==>
                world.script == [] &&
                world.s == Settle(old(world.s), i, PublishedAll(old(world.s.guard[SlotOf(world.s.log[i])])), Gone)
      ensures world.Settled(i) == old(world.Settled(i)) + 1
      ensures world.Troubles(i) <= old(world.Troubles(i))
      ensures r.Acked? ==> DoneSince(old(world.trace), world.trace, At(i, Duplicate))
    {
      hide World.Valid, World.Settled, World.Troubles, Inv, Base, Core, Keeps, Grows, AckJustified, StoredOut,
           Settle, PublishedAll;
      ghost var s0 := world.s;
      Advance(i, Duplicate);
      ghost var s1 := world.s;
      StoredElsewhere(s0, i, true);
      r := PublishThenAck(i);
      DoneLast(old(world.trace), old(world.trace), world.trace, At(i, Duplicate));
      EndedEarlier(s0, s1, world.s, i, r);
      if r.Acked? { StoredSince(world.s, i, |s1.log|, |s0.log|); }
    }

    /** A duplicate's stored events go out again; it is requeued if a publish fails. */
    method PublishThenAck(i: nat) returns (r: Outcome)
      requires HoldsStored(i, true)
      modifies world
      ensures old(world.trace) <= world.trace && Failures(world.script) <= Failures(old(world.script))
      ensures world.Valid() && r in {Acked, Requeued} && Ended(old(world.s), world.s, i, r)
      ensures r.Acked? ==> StoredOut(world.s, i, |old(world.s.log)|)
      ensures Spared(old(world.script), world.script) ==> r.Acked?
      ensures old(world.script) == [] ==>
                world.script == [] &&
                world.s == Settle(old(world.s), i, PublishedAll(old(world.s.log[i].place.todo)), Gone)
      ensures world.Settled(i) == old(world.Settled(i)) + 1
      ensures world.Troubles(i) <= old(world.Troubles(i))
    {
      hide World.Valid, World.Settled, World.Troubles, Inv, Base, Core, Keeps, Grows, AckJustified, AllOut, Settle,
           PublishedAll, Move;
      ghost var s0 := world.s;
      var ok := PublishAll(i, true);
      if !ok { return Requeued; }
      ghost var s1 := world.s;
      StoredIsOut(s0, s1, i);
      PublishedThenGone(s0, i, true);
      Ack(i, s0);
      StoredStays(s1, world.s, i, |s0.log|);
      r := Acked;
    }

    /** The notification's unique key is taken: the side effect exists, so roll back and ack. */
    method SuppressDuplicate(i: nat)
      requires HoldsAt(i, Open) && name.Notification? && HasNote(world.s, KeyOf(world.s.log[i].ev))
      modifies world
      ensures old(world.trace) <= world.trace && Failures(world.script) <= Failures(old(world.script))
      ensures world.Valid() && Ended(old(world.s), world.s, i, Acked)
      ensures old(world.script) == [] ==> world.script == [] && world.s == Move(old(world.s), i, Gone)
      ensures world.Settled(i) == old(world.Settled(i)) + 1
      ensures world.Troubles(i) <= old(world.Troubles(i))
      ensures DoneSince(old(world.trace), world.trace, At(i, Suppress))
    {
      hide World.Valid, World.Settled, World.Troubles, Inv, Base, Core, Keeps, Grows, AckJustified, HasNote;
      ghost var s0 := world.s;
      Advance(i, Suppress);
      ghost var s1 := world.s;
      SuppressJustified(s0, s1, i);
      MoveTwice(s0, i, Suppressed, Gone);
      Ack(i, s0);
      DoneLast(old(world.trace), old(world.trace), world.trace, At(i, Suppress));
    }

    /** Works in the transaction that holds the guard row. `failed` says that the attempt was
        rolled back or could not be published, and is left to `HandleFailure`. */
    method ProcessAndCommit(i: nat, ch: Choice) returns (r: Outcome, failed: bool)
      requires HoldsAt(i, Open)
      modifies world
      ensures old(world.trace) <= world.trace && Failures(world.script) <= Failures(old(world.script))
      ensures world.Valid() && Later(old(world.s), world.s)
      ensures failed ==> HoldsFailing(i)
      ensures !failed ==> r in {Acked, Escaped} && Ended(old(world.s), world.s, i, r)
      ensures Spared(old(world.script), world.script) ==> (failed || r.Acked?)
      ensures old(world.script) == [] ==>
                world.script == [] &&
                if failed then var f := world.s.log[i].place.fault;
                               world.s == Move(old(world.s), i, Failing(f)) &&
                               Worked(world.c, old(world.s), i, ch) == AfterFailure(world.c, old(world.s), i, f, ch.at)
                else world.s == Worked(world.c, old(world.s), i, ch)
      ensures world.Settled(i) == old(world.Settled(i)) + Bit(!failed && !r.Escaped?)
      ensures world.Troubles(i) + Bit(!failed && r.Escaped?) <= old(world.Troubles(i))
      ensures !failed && r.Acked? ==> DoneSince(old(world.trace), world.trace, At(i, Commit(ch))) ||
                                      DoneSince(old(world.trace), world.trace, At(i, Suppress))
      ensures failed && Spared(old(world.script), world.script) ==>
                DoneSince(old(world.trace), world.trace, At(i, Raise(ch)))
    {
      hide World.Valid, World.Settled, World.Troubles, Inv, Base, Core, Keeps, Grows, AckJustified, HookRuns,
           HasNote, Process, Settle, AfterFailure, CommitTables, TextFor;
      ghost var s0 := world.s;
      var end := Pause(i);
      ghost var s1, steps := world.s, world.trace;
      var m := world.s.log[i];
      failed, r := false, Escaped;
      if m.queue.Notification? && end == Fine && HasNote(world.s, KeyOf(m.ev)) {
        SuppressDuplicate(i);
        r := Acked;
        EndedEarlier(s0, s1, world.s, i, r);
        LaterTransitive(s0, s1, world.s);
        return;
      }
      if end != Fine || (world.c.exclusive && m.queue.Payment? && HookRuns(world.s, m.ev.order)) ||
         (m.queue.Notification? && HasNote(world.s, KeyOf(m.ev))) {
        Advance(i, Raise(ch));
        DoneLast(old(world.trace), steps, world.trace, At(i, Raise(ch)));
        LaterTransitive(s0, s1, world.s);
        failed := true;
        return;
      }
      r, failed := ReadAndDecide(i, ch);
      LaterTransitive(s0, s1, world.s);
      if !failed { EndedEarlier(s0, s1, world.s, i, r); }
    }

    /** `process` reads its order, or flushes the notification whose key is free. */
    method ReadAndDecide(i: nat, ch: Choice) returns (r: Outcome, failed: bool)
      requires HoldsAt(i, Open) && StepEnabled(world.c, world.s, i, Read)
      modifies world
      ensures old(world.trace) <= world.trace && Failures(world.script) <= Failures(old(world.script))
      ensures world.Valid() && Later(old(world.s), world.s)
      ensures failed ==> HoldsFailing(i)
      ensures !failed ==> r in {Acked, Escaped} && Ended(old(world.s), world.s, i, r)
      ensures Spared(old(world.script), world.script) ==> (failed || r.Acked?)
      ensures old(world.script) == [] ==>
                var m := old(world.s.log[i]);
                var res := Process(world.c, name, m.ev, m.rc + 1, ReadRow(old(world.s), m), ch);
                world.script == [] && failed == res.Raised? && world.s ==
                if failed then Move(old(world.s), i, Failing(res.fault)) else Decided(world.c, old(world.s), i, res, ch.at)
      ensures world.Settled(i) == old(world.Settled(i)) + Bit(!failed && !r.Escaped?)
      ensures world.Troubles(i) + Bit(!failed && r.Escaped?) <= old(world.Troubles(i))
      ensures !failed && r.Acked? ==> DoneSince(old(world.trace), world.trace, At(i, Commit(ch)))
      ensures failed && Spared(old(world.script), world.script) ==>
                DoneSince(old(world.trace), world.trace, At(i, Raise(ch)))
    {
      hide World.Valid, World.Settled, World.Troubles, Inv, Base, Core, Keeps, Grows, AckJustified, HookRuns,
           HasNote, Process, Settle, AfterFailure, CommitTables, TextFor;
      ghost var s0 := world.s;
      Advance(i, Read);
      ghost var s1 := world.s;
      ReadThenDecided(world.c, s0, i, ch);
      r, failed := DecideAndCommit(i, ch);
      LaterTransitive(s0, s1, world.s);
      if !failed { EndedEarlier(s0, s1, world.s, i, r); }
    }

    /** The session holds what `process` has left in it for copy i. */
    ghost predicate SessionHolds(i: nat, order: OrderRecord?, session: NoteSession, result: Result, ch: Choice)
      reads world, order, session
    {
      i < |world.s.log| &&
      var m := world.s.log[i];
      m.place.Seen? && result == Process(world.c, name, m.ev, m.rc + 1, m.place.row, ch) &&
      RowOf(order) == Left(m.place.row, result) &&
      session.added == if name.Notification? then [Note(KeyOf(m.ev), TextFor(KindOf(m.ev)))] else []
    }

    /** Runs this worker's `process` on the rows the session has loaded. */
    method Work(i: nat, ch: Choice) returns (order: OrderRecord?, session: NoteSession, result: Result)
      requires Holds(i) && world.s.log[i].place.Seen?
      ensures order != null ==> fresh(order)
      ensures fresh(session)
      ensures SessionHolds(i, order, session, result, ch)
    {
      hide World.Valid, InForce, LeftToChance, Process, TextFor, Inv, Base, Core;
      var m := world.s.log[i];
      order := Load(m.place.row);
      session := new NoteSession();
      match name {
        case Payment => result := ProcessPayment(world.c, order, m.ev, m.rc + 1, ch);
        case Restaurant => result := ProcessRestaurant(world.c, order, m.ev, m.rc + 1, ch);
        case Delivery => result := ProcessDelivery(world.c, order, m.ev, m.rc + 1, ch);
        case Notification => result := Notify(i, session, ch);
      }
    }

    /** Adds the notification whose key is free. */
    method Notify(i: nat, session: NoteSession, ch: Choice) returns (result: Result)
      requires Holds(i) && world.s.log[i].place.Seen? && name.Notification? && session.added == []
      modifies session
      ensures var m := world.s.log[i];
              result == Process(world.c, name, m.ev, m.rc + 1, m.place.row, ch) == Returned(NoWrite, []) &&
              session.added == [Note(KeyOf(m.ev), TextFor(KindOf(m.ev)))]
    {
      hide Inv, Base, Core, Process, TextFor, NoteKeys, Tells;
      var m := world.s.log[i];
      NoteIsFree(world.c, world.s, i) by { CoreOfBase(world.c, world.s); }
      var flush := ProcessNotification(session, NoteKeys(world.s), m.ev);
      result := flush.result;
      NotificationResult(world.c, m.ev, m.rc + 1, m.place.row, ch);
    }

    /** Commits the session: the tables then hold the notes it added, the guard row with the events
        to publish, and the columns `process` wrote. With the hook kept apart that is the whole row as
        `process` left it in place; without it, the status may have changed under the transaction. */
    method CommitSession(i: nat, order: OrderRecord?, session: NoteSession, result: Result, ch: Choice)
      requires Holds(i) && world.s.log[i].place.Seen? && result.Returned?
      requires SessionHolds(i, order, session, result, ch)
      modifies world
      ensures old(world.trace) <= world.trace && Failures(world.script) <= Failures(old(world.script))
      ensures HoldsStored(i, false) && Later(old(world.s), world.s)
      ensures world.s == Move(CommitTables(old(world.s), old(world.s.log[i]), result), i, Publishing(result.outgoing, false))
      ensures world.script == old(world.script)
      ensures world.s.notes == old(world.s.notes) + session.added
      ensures order != null ==>
                var o := old(world.s.log[i].ev.order);
                o in old(world.s.orders) && o in world.s.orders &&
                world.s.orders[o] == Write(old(world.s.orders)[o], result.effect) &&
                (world.c.exclusive ==> world.s.orders[o] == order.Value())
      ensures world.Settled(i) == old(world.Settled(i))
      ensures world.Troubles(i) <= old(world.Troubles(i))
      ensures world.trace == old(world.trace) + [At(i, Commit(ch))]
    {
      hide World.Settled, World.Troubles, Inv, Base, Core, Keeps, Grows, Process, TextFor;
      ghost var s0 := world.s;
      CommittedRow(world.c, s0, i, ch) by { CoreOfBase(world.c, s0); }
      Advance(i, Commit(ch));
    }

    /** Decides, commits, and publishes only then. */
    method DecideAndCommit(i: nat, ch: Choice) returns (r: Outcome, failed: bool)
      requires Holds(i) && world.s.log[i].place.Seen?
      modifies world
      ensures old(world.trace) <= world.trace && Failures(world.script) <= Failures(old(world.script))
      ensures world.Valid() && Later(old(world.s), world.s)
      ensures failed ==> HoldsFailing(i)
      ensures !failed ==> r in {Acked, Escaped} && Ended(old(world.s), world.s, i, r)
      ensures Spared(old(world.script), world.script) ==> (failed || r.Acked?)
      ensures old(world.script) == [] ==>
                var m := old(world.s.log[i]);
                var res := Process(world.c, name, m.ev, m.rc + 1, m.place.row, ch);
                world.script == [] && failed == res.Raised? && world.s ==
                if failed then Move(old(world.s), i, Failing(res.fault))
                else Settle(CommitTables(old(world.s), m, res), i, PublishedAll(res.outgoing), Gone)
      ensures world.Settled(i) == old(world.Settled(i)) + Bit(!failed && !r.Escaped?)
      ensures world.Troubles(i) + Bit(!failed && r.Escaped?) <= old(world.Troubles(i))
      ensures !failed && r.Acked? ==> DoneSince(old(world.trace), world.trace, At(i, Commit(ch)))
      ensures failed && Spared(old(world.script), world.script) ==>
                DoneSince(old(world.trace), world.trace, At(i, Raise(ch)))
    {
      hide World.Valid, World.Settled, World.Troubles, Inv, Base, Core, Keeps, Grows, AckJustified, Process, TextFor,
           CommitTables, Settle, PublishedAll, Held, HookRuns, PaymentRuns, HasNote, AllOut, Published, Fanout;
      ghost var s0 := world.s;
      var order, session, result := Work(i, ch);
      var end := Pause(i);
      ghost var s1, steps := world.s, world.trace;
      failed, r := false, Escaped;
      if result.Raised? {
        Advance(i, Raise(ch));
        DoneLast(old(world.trace), steps, world.trace, At(i, Raise(ch)));
        failed := true;
        LaterTransitive(s0, s1, world.s);
        return;
      }
      if end == Raises { return; }
      r, failed := CommitAndPublish(i, order, session, result, ch, end);
      LaterTransitive(s0, s1, world.s);
      if !failed { EndedEarlier(s0, s1, world.s, i, r); }
    }

    /** The commit takes effect, even if it raises late; only then are the events published. */
    method CommitAndPublish(i: nat, order: OrderRecord?, session: NoteSession, result: Result, ch: Choice, end: Trouble)
      returns (r: Outcome, failed: bool)
      requires Holds(i) && world.s.log[i].place.Seen? && result.Returned?
      requires SessionHolds(i, order, session, result, ch)
      modifies world
      ensures old(world.trace) <= world.trace && Failures(world.script) <= Failures(old(world.script))
      ensures world.Valid() && Later(old(world.s), world.s)
      ensures failed ==> HoldsFailing(i)
      ensures !failed ==> r in {Acked, Escaped} && Ended(old(world.s), world.s, i, r)
      ensures Spared(old(world.script), world.script) && end.Fine? ==> !failed && r.Acked?
      ensures old(world.script) == [] && end.Fine? ==>
                world.script == [] && !failed && world.s ==
                Settle(CommitTables(old(world.s), old(world.s.log[i]), result), i, PublishedAll(result.outgoing), Gone)
      ensures world.Settled(i) == old(world.Settled(i)) + Bit(!failed && !r.Escaped?)
      ensures world.Troubles(i) + Bit(!failed && r.Escaped?) <= old(world.Troubles(i)) + Bit(!end.Fine?)
      ensures !failed && r.Acked? ==> DoneSince(old(world.trace), world.trace, At(i, Commit(ch)))
    {
      hide World.Valid, World.Settled, World.Troubles, Inv, Base, Core, Keeps, Grows, AckJustified, Process, TextFor,
           CommitTables, Settle, PublishedAll, Held, HookRuns, PaymentRuns, HasNote, AllOut, Published, Fanout;
      ghost var s1 := world.s;
      CommitSession(i, order, session, result, ch);
      ghost var s2 := world.s;
      CommittedThenGone(s1, i, result);
      failed, r := false, Escaped;
      if end == RaisesLate { return; }
      r, failed := PublishOutgoing(i);
      LaterTransitive(s1, s2, world.s);
      DoneLast(old(world.trace), old(world.trace), world.trace, At(i, Commit(ch)));
      if !failed { EndedEarlier(s1, s2, world.s, i, r); }
    }

    /** After the commit: publish, then ack; a failing publish is handled as a failure. */
    method PublishOutgoing(i: nat) returns (r: Outcome, failed: bool)
      requires HoldsStored(i, false)
      modifies world
      ensures old(world.trace) <= world.trace && Failures(world.script) <= Failures(old(world.script))
      ensures world.Valid() && Later(old(world.s), world.s)
      ensures failed ==> HoldsFailing(i)
      ensures !failed ==> r.Acked? && Ended(old(world.s), world.s, i, r)
      ensures Spared(old(world.script), world.script) ==> !failed
      ensures old(world.script) == [] ==>
                world.script == [] &&
                world.s == Settle(old(world.s), i, PublishedAll(old(world.s.log[i].place.todo)), Gone)
      ensures world.Settled(i) == old(world.Settled(i)) + Bit(!failed)
      ensures world.Troubles(i) <= old(world.Troubles(i))
    {
      hide World.Valid, World.Settled, World.Troubles, Inv, Base, Core, Keeps, Grows, AckJustified, AllOut, Settle,
           PublishedAll, Move;
      ghost var s0 := world.s;
      var ok := PublishAll(i, false);
      r := Acked;
      if !ok { return r, true; }
      ghost var s1 := world.s;
      StoredIsOut(s0, s1, i);
      PublishedThenGone(s0, i, false);
      Ack(i, s0);
      failed := false;
      LaterTransitive(s0, s1, world.s);
    }

    /** The guard row goes in: do the work, and let a failure be retried or given up. */
    method HandleNew(i: nat, ch: Choice) returns (r: Outcome)
      requires HoldsAt(i, Taken) && StepEnabled(world.c, world.s, i, Insert)
      modifies world
      ensures old(world.trace) <= world.trace && Failures(world.script) <= Failures(old(world.script))
      ensures world.Valid() && Ended(old(world.s), world.s, i, r)
      ensures Spared(old(world.script), world.script) ==> !r.Escaped?
      ensures old(world.script) == [] ==> world.script == [] && world.s == Worked(world.c, old(world.s), i, ch)
      ensures world.Settled(i) == old(world.Settled(i)) + Bit(!r.Escaped?)
      ensures world.Troubles(i) + Bit(r.Escaped?) <= old(world.Troubles(i))
      ensures Traced(world.c, old(world.s.log[i]), r, Spared(old(world.script), world.script),
                     old(world.trace), world.trace, i, ch)
      ensures !r.Requeued?
    {
      hide World.Valid, World.Settled, World.Troubles, Inv, Base, Core, Keeps, Grows, AckJustified, Held, Worked,
           AfterFailure, DoneSince, GaveUp;
      ghost var s0 := world.s;
      Advance(i, Insert);
      ghost var s1, begun := world.s, world.trace;
      WorkedElsewhere(world.c, s0, i, Open, ch);
      var failed;
      r, failed := ProcessAndCommit(i, ch);
      ghost var s2, steps, left := world.s, world.trace, world.script;
      LaterTransitive(s0, s1, s2);
      if failed {
        if s2 == Move(s1, i, s2.log[i].place) {
          FailedAfterInsert(world.c, s0, i, s2.log[i].place.fault, ch.at);
        }
        r := HandleFailure(i, ch.at);
        EndedEarlier(s0, s2, world.s, i, r);
        SameCopy(s0, s2, i);
        FailureTraced(world.c, s2.log[i], r, Spared(old(world.script), world.script), Spared(left, world.script),
                      begun, steps, world.trace, i, ch);
        TracedEarlier(world.c, s0.log[i], s2.log[i], r, Spared(old(world.script), world.script),
                      Spared(old(world.script), world.script), old(world.trace), begun, world.trace, i, ch);
      } else {
        EndedEarlier(s0, s1, s2, i, r);
        TracedEarlier(world.c, s0.log[i], s1.log[i], r, Spared(old(world.script), world.script),
                      Spared(old(world.script), world.script), old(world.trace), begun, world.trace, i, ch);
      }
    }

    /** One delivery: exactly one settlement unless an exception escapes to `run`, and an ack
        only when the work is committed and published, known to be done, or replaced. Without a
        failing call the instance takes sound steps only and nothing escapes. */
    method HandleMessage(i: nat, body: Body, ch: Choice) returns (r: Outcome)
      requires HoldsAt(i, Taken) && (body.Typed? ==> body.ev == world.s.log[i].ev)
      modifies world
      ensures old(world.trace) <= world.trace && Failures(world.script) <= Failures(old(world.script))
      ensures world.Valid() && Ended(old(world.s), world.s, i, r)
      ensures body.Poison? ==> r.DeadLettered? && world.s == Move(old(world.s), i, Dead)
      ensures Spared(old(world.script), world.script) ==> !r.Escaped?
      ensures old(world.script) == [] ==>
                world.script == [] && (body.Typed? ==> world.s == Handled(world.c, old(world.s), i, ch))
      ensures world.Settled(i) == old(world.Settled(i)) + Bit(!r.Escaped?)
      ensures body.Typed? ==> world.Troubles(i) + Bit(r.Escaped?) <= old(world.Troubles(i))
      ensures body.Typed? && Spared(old(world.script), world.script) && r.Requeued? ==>
                KeyHeld(world.c, world.start, old(world.trace), world.trace, SlotOf(old(world.s.log[i])))
      ensures body.Typed? ==>
              Traced(world.c, old(world.s.log[i]), r, Spared(old(world.script), world.script),
                     old(world.trace), world.trace, i, ch)
      ensures old(world.script) == [] && body.Typed? ==> DeliveryLaw(world.c, old(world.s), world.s, i, ch)
    {
      hide World.Valid, World.Settled, World.Troubles, Inv, Base, Core, Keeps, Grows, AckJustified, Held, DoneSince,
           GaveUp, KeyHeld, Handled, Traced, DeliveryLaw;
      HandledLaw(world.c, world.s, i, ch);
      if body.Poison? {
        Advance(i, Escape);
        return DeadLettered;
      }
      r := HandleEvent(i, ch);
    }

    /** The guard row decides whether the event is new. */
    method HandleEvent(i: nat, ch: Choice) returns (r: Outcome)
      requires HoldsAt(i, Taken)
      modifies world
      ensures old(world.trace) <= world.trace && Failures(world.script) <= Failures(old(world.script))
      ensures world.Valid() && Ended(old(world.s), world.s, i, r)
      ensures Spared(old(world.script), world.script) ==> !r.Escaped?
      ensures old(world.script) == [] ==> world.script == [] && world.s == Handled(world.c, old(world.s), i, ch)
      ensures world.Settled(i) == old(world.Settled(i)) + Bit(!r.Escaped?)
      ensures world.Troubles(i) + Bit(r.Escaped?) <= old(world.Troubles(i))
      ensures Spared(old(world.script), world.script) && r.Requeued? ==>
                KeyHeld(world.c, world.start, old(world.trace), world.trace, SlotOf(old(world.s.log[i])))
      ensures Traced(world.c, old(world.s.log[i]), r, Spared(old(world.script), world.script),
                     old(world.trace), world.trace, i, ch)
    {
      hide World.Valid, World.Settled, World.Troubles, Inv, Base, Core, Keeps, Grows, AckJustified, Held, DoneSince,
           GaveUp, KeyHeld, HasNote;
      ghost var s0 := world.s;
      var end := Pause(i);
      ghost var s1, steps, left := world.s, world.trace, world.script;
      if end != Fine { return Escaped; }
      var slot := SlotOf(world.s.log[i]);
      if slot in world.s.guard || Held(world.s, slot) {
        world.Current();
        r := HandleDuplicate(i);
        if r.Requeued? && slot !in s1.guard {
          HeldThen(world.c, world.start, old(world.trace), steps, world.trace, slot);
        }
      } else {
        r := HandleNew(i, ch);
      }
      EndedEarlier(s0, s1, world.s, i, r);
      TracedEarlier(world.c, s0.log[i], s1.log[i], r, Spared(old(world.script), world.script),
                    Spared(left, world.script), old(world.trace), steps, world.trace, i, ch);
    }

    /** The body of the consume loop: what escapes is dead-lettered, so every delivery that does
        not crash is settled exactly once. */
    method Deliver(i: nat, body: Body, ch: Choice) returns (r: Outcome)
      requires world.Valid() && i < |world.s.log| && world.s.log[i].queue == name && world.s.log[i].place.Ready?
      requires body.Typed? ==> body.ev == world.s.log[i].ev
      modifies world
      ensures old(world.trace) + [At(i, Take)] <= world.trace && Failures(world.script) <= Failures(old(world.script))
      ensures world.Valid() && !r.Escaped? && Ended(old(world.s), world.s, i, r)
      ensures old(world.script) == [] ==>
                world.script == [] && world.s == Consume(world.c, old(world.s), i, body.Typed?, ch)
      ensures world.Settled(i) == old(world.Settled(i)) + 1
      ensures body.Typed? ==> world.Troubles(i) <= old(world.Troubles(i))
      ensures body.Typed? && Spared(old(world.script), world.script) ==>
                AllSound(world.c, world.start, old(world.trace), world.trace, i)
      ensures body.Typed? && (Spared(old(world.script), world.script) || !r.DeadLettered?) ==>
              Traced(world.c, old(world.s.log[i]), r, Spared(old(world.script), world.script),
                     old(world.trace), world.trace, i, ch)
      ensures body.Typed? && Spared(old(world.script), world.script) && r.Requeued? ==>
                KeyHeld(world.c, world.start, old(world.trace), world.trace, SlotOf(old(world.s.log[i])))
      ensures old(world.script) == [] && body.Typed? ==> DeliveryLaw(world.c, old(world.s), world.s, i, ch)
    {
      hide World.Valid, World.Settled, World.Troubles, Inv, Base, Core, Keeps, Grows, AckJustified, Handled,
           DoneSince, GaveUp, KeyHeld, Traced, AllSound, DeliveryLaw;
      ghost var s0 := world.s;
      ConsumeLaw(world.c, world.s, i, ch);
      world.Reckon(i);
      world.Do(At(i, Take));
      ghost var s1, steps := world.s, world.trace;
      r := HandleMessage(i, body, ch);
      ghost var ended := r;
      if r.Escaped? {
        ghost var s2 := world.s;
        SameCopy(s1, s2, i);
        Advance(i, Escape);
        LaterTransitive(s1, s2, world.s);
        r := DeadLettered;
      }
      EndedEarlier(s0, s1, world.s, i, r);
      if body.Typed? && !ended.Escaped? {
        TracedEarlier(world.c, s0.log[i], s1.log[i], r, Spared(old(world.script), world.script),
                      Spared(old(world.script), world.script), old(world.trace), steps, world.trace, i, ch);
      }
      if body.Typed? && Spared(old(world.script), world.script) {
        world.Reckon(i);
        FaultsCount(world.c, world.start, old(world.trace), world.trace, i);
      }
      if r.Requeued? { KeyHeldEarlier(world.c, world.start, old(world.trace), steps, world.trace, SlotOf(s0.log[i])); }
    }

    /** The consume loop over what `queue.get` yields, nothing or a ready copy of this queue. Each
        delivery it starts is settled exactly once before the next poll. Undisturbed, it is one
        whole delivery after the other. */
    method Run(gets: seq<Get>) returns (ghost polls: seq<Window>)
      requires world.Valid()
      modifies world
      ensures world.Valid() && Later(old(world.s), world.s) && old(world.trace) <= world.trace
      ensures |polls| == |gets|
      ensures forall k | 0 <= k < |gets| :: Handles(world.c, world.start, world.trace, name, polls[k], gets[k])
      ensures Consecutive(polls, |old(world.trace)|, |world.trace|)
      ensures FailedIn(polls) + Failures(world.script) == Failures(old(world.script))
      ensures old(world.script) == [] ==> world.s == Consumed(world.c, old(world.s), name, gets)
    {
      hide World.Valid, World.Settled, World.Troubles, Inv, Base, Core, Keeps, Grows, AckJustified, Consume, Handles,
           Yields;
      LaterReflexive(world.s);
      ghost var alone := world.script == [];
      polls := [];
      for k := 0 to |gets|
        invariant world.Valid() && Later(old(world.s), world.s) && old(world.trace) <= world.trace
        invariant |polls| == k
        invariant forall h | 0 <= h < k :: Handles(world.c, world.start, world.trace, name, polls[h], gets[h])
        invariant Consecutive(polls, |old(world.trace)|, |world.trace|)
        invariant FailedIn(polls) + Failures(world.script) == Failures(old(world.script))
        invariant alone ==> world.script == [] && world.s == Consumed(world.c, old(world.s), name, gets[..k])
      {
        ghost var before, steps := world.s, world.trace;
        assert gets[..k + 1][..k] == gets[..k];
        ghost var w := Poll(gets[k]);
        LaterTransitive(old(world.s), before, world.s);
        ghost var more := polls + [w];
        forall h | 0 <= h <= k ensures Handles(world.c, world.start, world.trace, name, more[h], gets[h]) {
          if h < k { HandlesStays(world.c, world.start, steps, world.trace, name, polls[h], gets[h]); }
        }
        assert more[..k] == polls;
        polls := more;
      }
      assert gets[..|gets|] == gets;
    }

    /** One round of the loop. */
    method Poll(get: Get) returns (ghost w: Window)
      requires world.Valid()
      modifies world
      ensures world.Valid() && Later(old(world.s), world.s) && old(world.trace) <= world.trace
      ensures w.from == |old(world.trace)| && w.to == |world.trace|
      ensures w.failed + Failures(world.script) == Failures(old(world.script))
      ensures Handles(world.c, world.start, world.trace, name, w, get)
      ensures old(world.script) == [] ==>
                world.script == [] &&
                world.s == if Yields(old(world.s), name, get)
                           then Consume(world.c, old(world.s), get.i, get.typed, get.ch) else old(world.s)
      ensures old(world.script) == [] && Yields(old(world.s), name, get) && get.typed ==>
                DeliveryLaw(world.c, old(world.s), world.s, get.i, get.ch)
    {
      hide World.Troubles, Inv, Base, Core, Keeps, Grows, AckJustified, DeliveryLaw, Consume, AllSound, Traced;
      LaterReflexive(world.s);
      ghost var steps, script := world.trace, world.script;
      var end := Acked;
      assert steps[..|steps|] == steps;
      if Yields(world.s, name, get) {
        var body := if get.typed then Typed(world.s.log[get.i].ev) else Poison;
        world.Reckon(get.i);
        end := Deliver(get.i, body, get.ch);
        world.Reckon(get.i);
        assert world.trace[..|steps|] == steps && world.trace[..|world.trace|] == world.trace;
        assert (steps + [At(get.i, Take)])[|steps|] == At(get.i, Take);
      }
      w := Window(|steps|, |world.trace|, Failures(script) - Failures(world.script), end);
    }
  }

  // ---------------------------------------------------------------------
  // Facts the methods use
  // ---------------------------------------------------------------------

  lemma SamePrefix(before: seq<Action>, now: seq<Action>, n: nat)
    requires before <= now && n <= |before|
    ensures now[..n] == before[..n]
  {
  }

  lemma NothingOut(s: State, from: nat, todo: seq<Event>)
    ensures AllOut(s, from, todo[..0])
  {
  }

  /** Every event the guard row of copy i stores has gone out since the log had `from` entries. */
  predicate StoredOut(s: State, i: nat, from: nat) {
    i < |s.log| && SlotOf(s.log[i]) in s.guard && AllOut(s, from, s.guard[SlotOf(s.log[i])])
  }

  lemma StoredStays(s: State, t: State, i: nat, from: nat)
    requires Later(s, t) && StoredOut(s, i, from)
    ensures StoredOut(t, i, from)
  {
    hide AllOut;
    AllOutLater(s, t, from, s.guard[SlotOf(s.log[i])]);
    assert SlotOf(t.log[i]) == SlotOf(s.log[i]);
  }

  lemma StoredSince(s: State, i: nat, from: nat, earlier: nat)
    requires StoredOut(s, i, from) && earlier <= from
    ensures StoredOut(s, i, earlier)
  {
    hide PublishedAt;
    forall e | IsOut(s, from, e) ensures IsOut(s, earlier, e) {
      var j :| from <= j < |s.log| && PublishedAt(s, j, e);
    }
  }

  /** The retry copy r has been added to the log since it had `from` entries. */
  predicate InRetryQueue(s: State, from: nat, r: Copy) {
    exists j | from <= j < |s.log| :: s.log[j] == r.(place := s.log[j].place)
  }

  lemma RetryStays(s: State, t: State, from: nat, r: Copy)
    requires Later(s, t) && InRetryQueue(s, from, r)
    ensures InRetryQueue(t, from, r)
  {
    hide Keeps;
    var j :| from <= j < |s.log| && s.log[j] == r.(place := s.log[j].place);
    assert t.log[j] == r.(place := t.log[j].place);
  }

  lemma NothingSettled(s: State, i: nat, todo: seq<Event>)
    requires i < |s.log|
    ensures s == Settle(s, i, PublishedAll(todo[..0]), s.log[i].place)
    ensures todo[0..] == todo
  {
    SettleInPlace(s, i);
  }

  lemma OneMoreSettled(s: State, i: nat, todo: seq<Event>, n: nat, again: bool)
    requires i < |s.log| && n < |todo|
    ensures var t := Settle(s, i, PublishedAll(todo[..n]), Publishing(todo[n..], again));
            i < |t.log| && Settle(t, i, Published(todo[n..][0]), Publishing(todo[n..][1..], again)) ==
            Settle(s, i, PublishedAll(todo[..n + 1]), Publishing(todo[n + 1..], again))
  {
    hide Published, Settle;
    SettleTwice(s, i, PublishedAll(todo[..n]), Publishing(todo[n..], again), Published(todo[n]),
                Publishing(todo[n + 1..], again));
    assert todo[..n + 1][..n] == todo[..n] && todo[n..][1..] == todo[n + 1..];
  }

  lemma HookedAfterRead(s: State, i: nat, at: int)
    requires i < |s.log|
    ensures var o := s.log[i].ev.order; var pending := o in s.orders && s.orders[o].status == Pending;
            HookTaken(Move(s, i, HookOpen(pending)), i, pending, at) == Hooked(s, i, at, Rejecting)
  {
    hide Published;
    var o := s.log[i].ev.order;
    var pending := o in s.orders && s.orders[o].status == Pending;
    var p := Published(OrderPaymentFailed(o, at));
    SettleAnyway(if pending then MarkFailed(s, o) else s, i, HookOpen(pending), p, Rejecting);
  }

  lemma AnnouncedThenEnded(s: State, i: nat, at: int)
    requires i < |s.log| && s.log[i].place.HookOpen?
    ensures var pending := s.log[i].place.pending;
            var t := Settle(s, i, Published(OrderPaymentFailed(s.log[i].ev.order, at)), HookAnnounced(pending));
            i < |t.log| && HookEnded(t, i, pending) == HookTaken(s, i, pending, at)
  {
    hide Published;
    var o, pending := s.log[i].ev.order, s.log[i].place.pending;
    var p := Published(OrderPaymentFailed(o, at));
    MarkedElsewhere(s, i, p, HookAnnounced(pending), o, Rejecting);
    MoveIsSettle(Settle(s, i, p, HookAnnounced(pending)), i, Rejecting);
    SettleTwice(s, i, p, HookAnnounced(pending), [], Rejecting);
    assert p + [] == p;
  }

  lemma DeadAfterHook(s: State, i: nat, at: int)
    requires i < |s.log|
    ensures Move(Hooked(s, i, at, Rejecting), i, Dead) == Hooked(s, i, at, Dead)
    ensures i < |Move(s, i, Rejecting).log| && Move(Move(s, i, Rejecting), i, Dead) == Move(s, i, Dead)
  {
    hide Published;
    var o := s.log[i].ev.order;
    var p := Published(OrderPaymentFailed(o, at));
    var base := if o in s.orders && s.orders[o].status == Pending then MarkFailed(s, o) else s;
    MoveIsSettle(Settle(base, i, p, Rejecting), i, Dead);
    SettleTwice(base, i, p, Rejecting, [], Dead);
    assert p + [] == p;
  }

  lemma StoredElsewhere(s: State, i: nat, again: bool)
    requires i < |s.log| && SlotOf(s.log[i]) in s.guard
    ensures var out := s.guard[SlotOf(s.log[i])]; var t := Move(s, i, Publishing(out, again));
            t.log[i].place.todo == out && SlotOf(t.log[i]) == SlotOf(s.log[i]) &&
            Settle(t, i, PublishedAll(out), Gone) == Settle(s, i, PublishedAll(out), Gone)
  {
    hide PublishedAll;
    var out := s.guard[SlotOf(s.log[i])];
    SettleAnyway(s, i, Publishing(out, again), PublishedAll(out), Gone);
  }

  lemma PublishedThenGone(s: State, i: nat, again: bool)
    requires i < |s.log| && s.log[i].place.Publishing?
    ensures var out := PublishedAll(s.log[i].place.todo); var t := Settle(s, i, out, Publishing([], again));
            i < |t.log| && Move(t, i, Gone) == Settle(s, i, out, Gone)
  {
    hide PublishedAll;
    var out := PublishedAll(s.log[i].place.todo);
    MoveIsSettle(Settle(s, i, out, Publishing([], again)), i, Gone);
    SettleTwice(s, i, out, Publishing([], again), [], Gone);
    assert out + [] == out;
  }

  lemma MoveTwice(s: State, i: nat, p: Place, q: Place)
    requires i < |s.log|
    ensures i < |Move(s, i, p).log| && Move(Move(s, i, p), i, q) == Move(s, i, q)
  {
  }

  lemma CommittedThenGone(s: State, i: nat, r: Result)
    requires i < |s.log| && r.Returned?
    ensures i < |CommitTables(s, s.log[i], r).log|
    ensures var t := CommitTables(s, s.log[i], r); var u := Move(t, i, Publishing(r.outgoing, false));
            i < |u.log| && u.log[i].place.todo == r.outgoing &&
            Settle(u, i, PublishedAll(r.outgoing), Gone) == Settle(t, i, PublishedAll(r.outgoing), Gone)
  {
    hide PublishedAll, TextFor, Update;
    SettleAnyway(CommitTables(s, s.log[i], r), i, Publishing(r.outgoing, false), PublishedAll(r.outgoing), Gone);
  }

  /** What the rows read decide is what they decide without the read in between. */
  lemma ReadThenDecided(c: Config, s: State, i: nat, ch: Choice)
    requires i < |s.log|
    ensures var m := s.log[i]; var t := Move(s, i, Seen(ReadRow(s, m)));
            var r := Process(c, m.queue, m.ev, m.rc + 1, ReadRow(s, m), ch);
            t.log[i] == m.(place := Seen(ReadRow(s, m))) &&
            (r.Returned? ==> Settle(CommitTables(t, t.log[i], r), i, PublishedAll(r.outgoing), Gone) ==
                             Decided(c, s, i, r, ch.at)) &&
            (r.Raised? ==> Move(t, i, Failing(r.fault)) == Move(s, i, Failing(r.fault)))
  {
    hide PublishedAll, Process, CommitTables, Settle, AfterFailure;
    var m := s.log[i];
    var r := Process(c, m.queue, m.ev, m.rc + 1, ReadRow(s, m), ch);
    if r.Returned? { CommitElsewhere(s, i, Seen(ReadRow(s, m)), r, PublishedAll(r.outgoing), Gone); }
  }

  lemma FailedAfterInsert(c: Config, s: State, i: nat, f: Fault, at: int)
    requires i < |s.log| && s.log[i].place.Taken?
    ensures var t := Move(s, i, Open);
            i < |t.log| && i < |Move(t, i, Failing(f)).log| &&
            AfterFailure(c, Move(t, i, Failing(f)), i, f, at) == AfterFailure(c, t, i, f, at)
  {
    hide AfterFailure;
    FailedElsewhere(c, Move(s, i, Open), i, Failing(f), f, at);
  }

  lemma PublishedIsOut(s0: State, s: State, i: nat, p: Place)
    requires Later(s0, s) && i < |s.log| && s.log[i].place.Publishing? && s.log[i].place.todo != []
    ensures IsOut(Move(Emit(s, Published(s.log[i].place.todo[0])), i, p), |s0.log|, s.log[i].place.todo[0])
  {
    hide Keeps;
    var e := s.log[i].place.todo[0];
    var t := Move(Emit(s, Published(e)), i, p);
    assert PublishedAt(t, |s.log|, e);
  }

  lemma OneMoreOut(s0: State, s1: State, t: State, out: seq<Event>, n: nat)
    requires n < |out| && Later(s0, s1) && AllOut(t, |s0.log|, out[..n]) && IsOut(t, |s1.log|, out[n])
    ensures AllOut(t, |s0.log|, out[..n + 1])
  {
    hide PublishedAt, Keeps;
    var most := out[..n + 1];
    forall k | 0 <= k < |most| ensures IsOut(t, |s0.log|, most[k]) {
      if k < n {
        assert most[k] == out[..n][k];
      } else {
        var j :| |s1.log| <= j < |t.log| && PublishedAt(t, j, out[n]);
      }
    }
  }

  lemma RetriedIsReplaced(c: Config, s0: State, s: State, i: nat)
    requires Later(s0, s) && i < |s.log| && StepEnabled(c, s, i, RetryPublish)
    ensures var t := ApplyStep(c, s, i, RetryPublish);
            i < |t.log| && AckJustified(t, t.log[i], |s0.log|) &&
            InRetryQueue(t, |s0.log|, RetryCopy(c, s.log[i], s.log[i].place.fault)) &&
            Move(t, i, Gone) == Settle(s, i, [RetryCopy(c, s.log[i], s.log[i].place.fault)], Gone)
  {
    hide RetryDelayMs, Budget, Keeps, AllOut, HasNote;
    var r := RetryCopy(c, s.log[i], s.log[i].place.fault);
    var t := ApplyStep(c, s, i, RetryPublish);
    assert t.log[|s.log|] == r && Replaces(r, t.log[i]);
    MoveIsSettle(t, i, Gone);
    SettleTwice(s, i, [r], Retried, [], Gone);
    assert [r] + [] == [r];
  }

  lemma StoredIsOut(s: State, t: State, i: nat)
    requires Later(s, t) && i < |s.log| && SlotOf(s.log[i]) in s.guard
    requires AllOut(t, |s.log|, s.guard[SlotOf(s.log[i])])
    ensures i < |t.log| && AckJustified(t, t.log[i], |s.log|) && StoredOut(t, i, |s.log|)
  {
    hide AllOut;
    assert SlotOf(t.log[i]) == SlotOf(s.log[i]);
  }

  lemma SuppressJustified(s: State, t: State, i: nat)
    requires i < |s.log| && i < |t.log| && t.log[i] == s.log[i].(place := Suppressed) && t.notes == s.notes
    requires s.log[i].queue.Notification? && HasNote(s, KeyOf(s.log[i].ev))
    ensures AckJustified(t, t.log[i], |s.log|)
  {
  }

  /** Past the guard the notification key is free. */
  lemma NoteIsFree(c: Config, s: State, i: nat)
    requires Core(c, s) && i < |s.log| && s.log[i].place.Seen? && s.log[i].queue.Notification?
    ensures KeyOf(s.log[i].ev) !in NoteKeys(s)
  {
    hide Core, EventOk, Announced, GuardShape;
    CopyFacts(c, s, i);
    ShapeFacts(c, s);
    var k := KeyOf(s.log[i].ev);
    assert SlotOf(s.log[i]) == Slot(k, Notification);
    forall n | 0 <= n < |s.notes| ensures s.notes[n].key != k {
      assert Slot(s.notes[n].key, Notification) in s.guard;
    }
  }

  lemma NotificationResult(c: Config, ev: Event, attempt: nat, row: Option<Row>, ch: Choice)
    ensures Process(c, Notification, ev, attempt, row, ch) == Returned(NoWrite, [])
  {
  }

  /** The columns are written to the current row; with the hook kept apart it is the row read. */
  lemma CommittedRow(c: Config, s: State, i: nat, ch: Choice)
    requires Core(c, s) && (c.exclusive ==> Inv(c, s)) && i < |s.log| && StepEnabled(c, s, i, Commit(ch))
    ensures var m := s.log[i]; var t := ApplyStep(c, s, i, Commit(ch)); var r := ResultOf(c, s, i, ch);
            (m.place.row.Some? ==>
               m.ev.order in s.orders && m.ev.order in t.orders &&
               t.orders[m.ev.order] == Write(s.orders[m.ev.order], r.effect) &&
               (c.exclusive ==> s.orders[m.ev.order] == m.place.row.value)) &&
            (m.queue.Notification? ==> t.notes == s.notes + [Note(KeyOf(m.ev), TextFor(KindOf(m.ev)))]) &&
            SlotOf(m) in t.guard && t.guard[SlotOf(m)] == r.outgoing && t.log[i].place == Publishing(r.outgoing, false)
  {
    hide Inv, Base, Core, Process, EventOk, Announced, TextFor, GuardShape;
    CopyFacts(c, s, i);
    if c.exclusive && s.log[i].place.row.Some? { ReadIsCurrent(c, s, i); }
  }

  lemma ReadIsCurrent(c: Config, s: State, i: nat)
    requires Inv(c, s) && i < |s.log| && s.log[i].place.Seen? && s.log[i].place.row.Some?
    ensures s.log[i].ev.order in s.orders && s.orders[s.log[i].ev.order] == s.log[i].place.row.value
  {
    hide Inv, Backed, Announced, EventOk, RowOk, GuardOk;
    Facts(c, s, i);
  }

  lemma JustifiedSame(s: State, m: Copy, p: Place, from: nat)
    ensures AckJustified(s, m, from) <==> AckJustified(s, m.(place := p), from)
  {
    hide AllOut, HasNote;
    assert SlotOf(m.(place := p)) == SlotOf(m);
    assert forall r :: Replaces(r, m) <==> Replaces(r, m.(place := p));
    assert Replaced(s, m.(place := p), from) <==> Replaced(s, m, from);
  }
}
