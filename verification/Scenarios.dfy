// Runs built step by step: an order is accepted, fails, is retried, and meets the hook.
module Scenarios {
  import opened Schemas
  import opened Protocol
  import opened Steps
  import opened Invariant

  // ---------------------------------------------------------------------
  // Accepting an order
  // ---------------------------------------------------------------------

  /** An order id as `create_order` draws it. */
  const ORDER := OrderId("order_00000000")

  lemma OrderIsGenerated()
    ensures GeneratedId(ORDER)
  {
    var hex := "00000000";
    assert ORDER.text == "order_" + hex && |hex| == 8 && forall c | c in hex :: c == '0';
  }

  /** An order the API has published but not committed. */
  function Submitted(o: OrderId): State {
    Init.(born := map[o := NeverFail], api := map[o := true], log := Published(OrderCreated(o, NeverFail)))
  }

  function AcceptedOrder(o: OrderId): State {
    Submitted(o).(api := map[], orders := map[o := Row(Pending, None, None)])
  }

  lemma Submit(c: Config, o: OrderId)
    ensures Reachable(c, Submitted(o)) && Reachable(c, AcceptedOrder(o))
    ensures Idle(Submitted(o), o, 0) && Idle(AcceptedOrder(o), o, 0) && NoHooks(Submitted(o)) && NoHooks(AcceptedOrder(o))
    ensures Submitted(o).log[0] == Copy(Payment, OrderCreated(o, NeverFail), 0, 0, 0, Ready)
  {
    hide Reachable;
    assert Reachable(c, Init) by { Start(c); }
    var s1 := Init.(born := map[o := NeverFail], api := map[o := false]);
    assert Apply(c, Init, ApiBegin(o, NeverFail)) == s1;
    ReachStep(c, Init, ApiBegin(o, NeverFail));
    assert [] + Published(OrderCreated(o, NeverFail)) == Published(OrderCreated(o, NeverFail));
    assert Apply(c, s1, ApiPublish(o)) == Submitted(o);
    ReachStep(c, s1, ApiPublish(o));
    assert Apply(c, Submitted(o), ApiCommit(o)) == AcceptedOrder(o);
    ReachStep(c, Submitted(o), ApiCommit(o));
  }

  // ---------------------------------------------------------------------
  // Attempts
  // ---------------------------------------------------------------------

  /** A state with an unpaid order, a queued order.created copy y and no open transaction. */
  predicate Idle(s: State, o: OrderId, y: nat) {
    y < |s.log| && s.log[y].queue.Payment? && s.log[y].ev == OrderCreated(o, NeverFail) && s.log[y].place.Ready? &&
    PaidSlot(o) !in s.guard && forall j | 0 <= j < |s.log| :: !InTxn(s.log[j].place)
  }

  predicate NoHooks(s: State) {
    forall j | 0 <= j < |s.log| :: !InHook(s.log[j].place)
  }

  lemma NoHookRuns(s: State, o: OrderId)
    requires NoHooks(s)
    ensures !HookRuns(s, o)
  {
  }

  /** Copy y is taken, its guard row inserted, and then the database fails. */
  lemma FailAttempt(c: Config, s: State, o: OrderId, y: nat)
    requires Reachable(c, s) && Idle(s, o, y)
    ensures Reachable(c, Move(s, y, Failing(Other)))
  {
    hide Reachable;
    var ch := Choice(false, 0, 0, 0);
    var s1, s2, s3 := Move(s, y, Taken), Move(s, y, Open), Move(s, y, Failing(Other));
    assert Apply(c, s, At(y, Take)) == s1;
    ReachStep(c, s, At(y, Take));
    assert Apply(c, s1, At(y, Insert)) == s2;
    ReachStep(c, s1, At(y, Insert));
    assert Apply(c, s2, At(y, Raise(ch))) == s3;
    ReachStep(c, s2, At(y, Raise(ch)));
  }

  /** Copy y is taken and finds no order row. */
  lemma FindNothing(c: Config, s: State, o: OrderId, y: nat)
    requires Reachable(c, s) && Idle(s, o, y) && o !in s.orders && !HookRuns(s, o)
    ensures Reachable(c, Move(s, y, Failing(NotReady)))
  {
    hide Reachable;
    var ch := Choice(false, 0, 0, 0);
    var s1, s2, s3 := Move(s, y, Taken), Move(s, y, Open), Move(s, y, Seen(None));
    assert Apply(c, s, At(y, Take)) == s1;
    ReachStep(c, s, At(y, Take));
    assert Apply(c, s1, At(y, Insert)) == s2;
    ReachStep(c, s1, At(y, Insert));
    assert Apply(c, s2, At(y, Read)) == s3;
    ReachStep(c, s2, At(y, Read));
    assert Apply(c, s3, At(y, Raise(ch))) == Move(s, y, Failing(NotReady));
    ReachStep(c, s3, At(y, Raise(ch)));
  }

  /** Copy x is taken, its guard row inserted, and the order read. */
  lemma ReadOrder(c: Config, s: State, o: OrderId, x: nat)
    requires Reachable(c, s) && Idle(s, o, x) && o in s.orders && (c.exclusive ==> !HookRuns(s, o))
    ensures Reachable(c, Move(s, x, Seen(Some(s.orders[o]))))
  {
    hide Reachable;
    var s1, s2, s3 := Move(s, x, Taken), Move(s, x, Open), Move(s, x, Seen(Some(s.orders[o])));
    assert Apply(c, s, At(x, Take)) == s1;
    ReachStep(c, s, At(x, Take));
    assert Apply(c, s1, At(x, Insert)) == s2;
    ReachStep(c, s1, At(x, Insert));
    assert Apply(c, s2, At(x, Read)) == s3 by { PayReads(c, s, o, x); }
    ReachStep(c, s2, At(x, Read));
  }

  lemma PayReads(c: Config, s: State, o: OrderId, x: nat)
    requires Idle(s, o, x) && o in s.orders && (c.exclusive ==> !HookRuns(s, o))
    ensures Enabled(c, Move(s, x, Open), At(x, Read))
    ensures Apply(c, Move(s, x, Open), At(x, Read)) == Move(s, x, Seen(Some(s.orders[o])))
  {
    if c.exclusive {
      assert forall j | 0 <= j < |s.log| :: !(InHook(s.log[j].place) && s.log[j].ev.order == o);
    }
  }

  /** Copy x is taken and pays; nothing about the other copies matters but the guard key. */
  lemma Pay(c: Config, s: State, o: OrderId, x: nat) returns (t: State)
    requires Reachable(c, s) && Idle(s, o, x) && o in s.orders && s.orders[o].status.Pending?
    requires c.exclusive ==> !HookRuns(s, o)
    ensures Reachable(c, t) && o in t.orders && t.orders[o].status.Paid? && t.orders[o].payment == Some(7)
    ensures |t.log| == |s.log| && forall j | 0 <= j < |s.log| && j != x :: t.log[j] == s.log[j]
    ensures t.log[x] == s.log[x].(place := Publishing([OrderPaid(o, 7, 0)], false))
    ensures t.guard == s.guard[PaidSlot(o) := [OrderPaid(o, 7, 0)]]
  {
    hide Reachable, TextFor;
    var ch := Choice(false, 7, 0, 0);
    ReadOrder(c, s, o, x);
    var s1 := Move(s, x, Seen(Some(s.orders[o])));
    t := Apply(c, s1, At(x, Commit(ch)));
    ReachStep(c, s1, At(x, Commit(ch)));
  }

  // ---------------------------------------------------------------------
  // One round through the retry queue
  // ---------------------------------------------------------------------

  lemma Parked(c: Config, s: State, y: nat)
    requires Reachable(c, s) && y < |s.log| && s.log[y].place.Failing? && Budget(c, s.log[y], s.log[y].place.fault)
    ensures Reachable(c, Move(Emit(s, [RetryCopy(c, s.log[y], s.log[y].place.fault)]), y, Retried))
  {
    hide Reachable, Budget, RetryCopy;
    ReachStep(c, s, At(y, RetryPublish));
  }

  lemma Crashed(c: Config, s: State, y: nat)
    requires Reachable(c, s) && y < |s.log| && InHand(s.log[y].place)
    ensures Reachable(c, Move(s, y, Ready))
  {
    hide Reachable;
    ReachStep(c, s, At(y, Crash));
  }

  lemma Expired(c: Config, s: State, n: nat)
    requires Reachable(c, s) && n < |s.log| && s.log[n].place.Waiting? && s.log[n].place.ttl > 0
    ensures var r := s.log[n];
            Reachable(c, Move(Emit(s, Fanout(RetryDirect(r.queue), r.ev, r.rc, r.nr, r.hops)), n, Gone))
  {
    hide Reachable, Fanout;
    ReachStep(c, s, At(n, Expire));
  }

  /** The state after a failed copy y has gone through its retry queue and come back. */
  function Bounced(c: Config, s: State, y: nat, f: Fault, left: Place): State
    requires y < |s.log|
  {
    var r := RetryCopy(c, s.log[y], f);
    s.(log := s.log[y := s.log[y].(place := left)] + [r.(place := Gone)]
              + Fanout(RetryDirect(r.queue), r.ev, r.rc, r.nr, r.hops))
  }

  lemma BouncedTables(c: Config, s: State, y: nat, f: Fault, left: Place)
    requires y < |s.log|
    ensures var t := Bounced(c, s, y, f, left);
            t == s.(log := t.log)
  {
  }

  /** Republished, and acknowledged or not: a crash before the ack leaves y in its queue too. */
  lemma ComeBack(c: Config, s: State, y: nat, f: Fault, left: Place)
    requires y < |s.log| && Reachable(c, Move(s, y, Failing(f))) && Budget(c, s.log[y], f)
    requires (if f.Other? then c.baseMs >= 1 else c.notreadyMs >= 1) && (left.Retried? || left.Ready?)
    ensures Reachable(c, Bounced(c, s, y, f, left))
  {
    hide Reachable, Fanout;
    var n := |s.log|;
    var r := RetryCopy(c, s.log[y], f);
    assert r.place.ttl >= 1 by { if f.Other? { assert c.baseMs * Pow2(s.log[y].rc) >= 1; } }
    Parked(c, Move(s, y, Failing(f)), y);
    var s2 := s.(log := s.log[y := s.log[y].(place := Retried)] + [r]);
    assert Move(Emit(Move(s, y, Failing(f)), [r]), y, Retried).log == s2.log;
    if left.Ready? { Crashed(c, s2, y); }
    var s3 := s.(log := s.log[y := s.log[y].(place := left)] + [r]);
    assert left.Ready? ==> Move(s2, y, Ready).log == s3.log;
    Expired(c, s3, n);
    var out := Fanout(RetryDirect(r.queue), r.ev, r.rc, r.nr, r.hops);
    assert Move(Emit(s3, out), n, Gone).log == Bounced(c, s, y, f, left).log;
  }

  /** The copy that comes back is idle again, and so is every copy that was left alone. */
  lemma StillIdle(c: Config, s: State, o: OrderId, y: nat, f: Fault, left: Place)
    requires Idle(s, o, y) && (left.Retried? || left.Ready?)
    ensures var t := Bounced(c, s, y, f, left); var n := |s.log| + 1;
            n < |t.log| && Idle(t, o, n) && t.log[n] == RetryCopy(c, s.log[y], f).(place := Ready) &&
            (left.Ready? ==> Idle(t, o, y)) &&
            (forall x: nat | x != y :: Idle(s, o, x) ==> Idle(t, o, x)) &&
            (NoHooks(s) ==> NoHooks(t)) && (left.Retried? && Spent(s, y) ==> Spent(t, n))
  {
    hide RetryDelayMs;
    var t := Bounced(c, s, y, f, left);
    var r := RetryCopy(c, s.log[y], f);
    assert t.log[|s.log| + 1] == r.(place := Ready);
    assert forall j | 0 <= j < |s.log| && j != y :: t.log[j] == s.log[j];
    assert forall j | |s.log| <= j < |t.log| :: t.log[j].place.Gone? || t.log[j].place.Ready?;
  }

  /** Every payment copy but y has been replaced or settled. */
  predicate Spent(s: State, y: nat) {
    forall j | 0 <= j < |s.log| && j != y :: s.log[j].queue.Payment? ==> s.log[j].place.Retried? || s.log[j].place.Gone?
  }

  // ---------------------------------------------------------------------
  // The last attempt
  // ---------------------------------------------------------------------

  /** Main retries alone take a copy to its last attempt and leave everything else in place. */
  lemma {:induction false} ClimbMain(c: Config, s: State, o: OrderId, y: nat) returns (t: State, z: nat)
    requires c.maxRetries == 0 || c.baseMs >= 1
    requires Reachable(c, s) && Idle(s, o, y) && NoHooks(s) && s.log[y].rc <= c.maxRetries
    ensures Reachable(c, t) && Idle(t, o, z) && NoHooks(t) && t.log[z].rc == c.maxRetries
    ensures Spent(s, y) ==> Spent(t, z)
    ensures t == s.(log := t.log)
    ensures forall x: nat | x != y && Idle(s, o, x) :: x != z && Idle(t, o, x)
    decreases c.maxRetries - s.log[y].rc
  {
    hide Reachable, Bounced, RetryDelayMs;
    if s.log[y].rc < c.maxRetries {
      FailAttempt(c, s, o, y);
      ComeBack(c, s, y, Other, Retried);
      StillIdle(c, s, o, y, Other, Retried);
      BouncedTables(c, s, y, Other, Retried);
      t, z := ClimbMain(c, Bounced(c, s, y, Other, Retried), o, |s.log| + 1);
    } else {
      t, z := s, y;
    }
  }

  /** The last attempt fails and the hook reads a PENDING order. */
  lemma HookStarts(c: Config, s: State, o: OrderId, z: nat)
    requires Reachable(c, s) && Idle(s, o, z) && s.log[z].rc == c.maxRetries
    requires o in s.orders && s.orders[o].status.Pending?
    ensures Reachable(c, Move(s, z, HookOpen(true)))
  {
    hide Reachable;
    FailAttempt(c, s, o, z);
    var s1 := Move(s, z, Failing(Other));
    assert Apply(c, s1, At(z, HookRead)) == Move(s, z, HookOpen(true));
    ReachStep(c, s1, At(z, HookRead));
  }

  /** The state once the hook through z has published its notice and committed. */
  function Finished(s: State, o: OrderId, z: nat): State
    requires z < |s.log|
  {
    Move(MarkFailed(Emit(s, Published(OrderPaymentFailed(o, 0))), o), z, Rejecting)
  }

  lemma HookFinishes(c: Config, s: State, o: OrderId, z: nat)
    requires Reachable(c, s) && z < |s.log| && s.log[z].place == HookOpen(true) && s.log[z].ev.order == o
    ensures Reachable(c, Finished(s, o, z))
  {
    hide Reachable, Published;
    var s1 := Move(Emit(s, Published(OrderPaymentFailed(o, 0))), z, HookAnnounced(true));
    ReachStep(c, s, At(z, HookPublish(0)));
    ReachStep(c, s1, At(z, HookCommit));
    assert Move(MarkFailed(s1, o), z, Rejecting).log == Finished(s, o, z).log;
  }
}
