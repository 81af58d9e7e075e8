// What statuses tell, and exactly when: under the settings in which hook and payment cannot overwrite
// each other, and under no others.
module Exact {
  import opened Schemas
  import opened Protocol
  import opened Steps
  import opened Invariant
  import opened Unconditional
  import opened Stages
  import opened Preservation
  import opened Guarantees
  import opened Exclusion
  import opened Scenarios
  import opened Hooks
  import opened Serial

  // ---------------------------------------------------------------------
  // Runs in which they do overwrite each other
  // ---------------------------------------------------------------------

  /** A charged order is FAILED: the tables contradict each other. */
  lemma Contradiction(c: Config) returns (s: State, o: OrderId)
    requires !Harmless(c)
    ensures Reachable(c, s) && o in s.orders && s.orders[o].status.Failed? && s.orders[o].payment.Some?
  {
    hide Reachable, Harmless, Idle;
    var t, x, z := TwoCopies(c);
    NotExclusive(c);
    Race(c, t, ORDER, x, z);
    s :| Reachable(c, s) && ChargeLost(s);
    o :| o in s.orders && s.orders[o].status.Failed? && s.orders[o].payment.Some?;
  }

  /** A payment has read PENDING and is about to charge an order that is FAILED by now. */
  lemma Stale(c: Config) returns (s: State, x: nat)
    requires !Harmless(c)
    ensures Reachable(c, s) && x < |s.log| && s.log[x].queue.Payment? && s.log[x].ev == OrderCreated(ORDER, NeverFail)
    ensures s.log[x].place == Seen(Some(Row(Pending, None, None)))
    ensures ORDER in s.orders && s.orders[ORDER].status.Failed?
  {
    hide Reachable, Harmless, Published;
    var t, z;
    t, x, z := TwoCopies(c);
    NotExclusive(c);
    BothRead(c, t, ORDER, x, z);
    var u := Move(Move(t, x, Seen(Some(t.orders[ORDER]))), z, HookOpen(true));
    HookFinishes(c, u, ORDER, z);
    s := Finished(u, ORDER, z);
  }

  /** Copy x has paid and published order.paid while z's hook is open. */
  lemma PaidMeanwhile(c: Config) returns (s: State, z: nat, n: nat)
    requires !Harmless(c)
    ensures Reachable(c, s) && z < |s.log| && s.log[z].place == HookOpen(true) && s.log[z].ev.order == ORDER
    ensures n < |s.log| && n != z && s.log[n] == Copy(Restaurant, OrderPaid(ORDER, 7, 0), 0, 0, 0, Ready)
    ensures ORDER in s.orders && ConfirmedSlot(ORDER) !in s.guard
    ensures forall j | 0 <= j < |s.log| :: !InTxn(s.log[j].place)
  {
    hide Reachable, Harmless, HookRuns, PaymentRuns;
    var t, x;
    t, x, z := TwoCopies(c);
    NotExclusive(c);
    HookStarts(c, t, ORDER, z);
    var s1 := Move(t, z, HookOpen(true));
    assert Idle(s1, ORDER, x);
    var s2 := Pay(c, s1, ORDER, x);
    n := |s2.log|;
    s := PublishPaid(c, s2, x);
  }

  lemma PublishPaid(c: Config, s: State, x: nat) returns (t: State)
    requires Reachable(c, s) && x < |s.log| && s.log[x].place == Publishing([OrderPaid(ORDER, 7, 0)], false)
    ensures Reachable(c, t) && t.orders == s.orders && t.guard == s.guard && |t.log| == |s.log| + 2
    ensures t.log[|s.log|] == Copy(Restaurant, OrderPaid(ORDER, 7, 0), 0, 0, 0, Ready)
    ensures t.log[|s.log| + 1].place.Ready?
    ensures t.log[x].place.Publishing? && forall j | 0 <= j < |s.log| && j != x :: t.log[j] == s.log[j]
  {
    hide Reachable;
    ReachStep(c, s, At(x, PublishNext));
    t := Apply(c, s, At(x, PublishNext));
  }

  /** A restaurant has its transaction open on an order that is FAILED although it was paid. */
  lemma Skipping(c: Config) returns (s: State, n: nat)
    requires !Harmless(c)
    ensures Reachable(c, s) && n < |s.log| && s.log[n].queue.Restaurant? && s.log[n].place.Open? && s.log[n].ev.OrderPaid?
    ensures s.log[n].ev.order in s.orders && s.orders[s.log[n].ev.order].status.Failed?
  {
    hide Reachable, Harmless, Finished;
    var t, z;
    t, z, n := PaidMeanwhile(c);
    HookFinishes(c, t, ORDER, z);
    FinishedShape(t, ORDER, z);
    s := StartWork(c, Finished(t, ORDER, z), n);
  }

  lemma FinishedShape(s: State, o: OrderId, z: nat)
    requires z < |s.log| && o in s.orders
    ensures var t := Finished(s, o, z);
            t.guard == s.guard && o in t.orders && t.orders[o].status.Failed? && |s.log| <= |t.log| &&
            (forall j | 0 <= j < |s.log| && j != z :: t.log[j] == s.log[j]) && t.log[z].place.Rejecting? &&
            (forall j | |s.log| <= j < |t.log| :: t.log[j].place.Ready?)
  {
  }

  lemma StartWork(c: Config, s: State, n: nat) returns (t: State)
    requires Reachable(c, s) && n < |s.log| && s.log[n].place.Ready? && SlotOf(s.log[n]) !in s.guard
    requires forall j | 0 <= j < |s.log| :: !InTxn(s.log[j].place)
    ensures Reachable(c, t) && t == Move(s, n, Open)
  {
    hide Reachable;
    var s1 := Move(s, n, Taken);
    ReachStep(c, s, At(n, Take));
    ReachStep(c, s1, At(n, Insert));
    t := Move(s, n, Open);
    assert Move(s1, n, Open).log == t.log;
  }

  // ---------------------------------------------------------------------
  // Statuses
  // ---------------------------------------------------------------------

  /** Guard rows, order statuses and ids say the same thing. */
  predicate Agree(s: State, o: OrderId) {
    (ConfirmedSlot(o) in s.guard <==> o in s.orders && (s.orders[o].status.Confirmed? || s.orders[o].status.DriverAssigned?)) &&
    (AssignedSlot(o) in s.guard <==> o in s.orders && s.orders[o].status.DriverAssigned?) &&
    (PaidSlot(o) in s.guard ==> o in s.orders && !s.orders[o].status.Pending?) &&
    (Stores(s, PaidSlot(o)) <==> o in s.orders && Charged(s.orders[o].status)) &&
    (o in s.orders ==> (s.orders[o].payment.Some? <==> Charged(s.orders[o].status))) &&
    (o in s.orders ==> (s.orders[o].driver.Some? <==> s.orders[o].status.DriverAssigned?))
  }

  lemma HarmlessAgree(c: Config, s: State, o: OrderId)
    requires Harmless(c) && Reachable(c, s)
    ensures Agree(s, o)
  {
    hide Inv, Reachable, Harmless, HasNote;
    HarmlessReach(c, s);
    OrderOk(Exclusive(c), s, o);
  }

  lemma OutboxAgrees(c: Config)
    ensures (forall s, o | Reachable(c, s) :: Agree(s, o)) <==> Harmless(c)
  {
    hide Reachable, Harmless, Stores;
    if Harmless(c) {
      hide Agree;
      forall s, o | Reachable(c, s) ensures Agree(s, o) { HarmlessAgree(c, s, o); }
    } else {
      var s, o := Contradiction(c);
      assert !Agree(s, o);
    }
  }

  /** A FAILED order was never charged, no order.paid of it exists anywhere, and the customer's
      notice of the failure is stored, live or dead-lettered. */
  predicate FailedCleanly(s: State, o: OrderId) {
    o in s.orders && s.orders[o].status.Failed? ==>
      s.orders[o].payment.None? && Announced(s, Key(o, FailedKind)) &&
      forall i | 0 <= i < |s.log| :: !(s.log[i].ev.OrderPaid? && s.log[i].ev.order == o)
  }

  lemma HarmlessFailure(c: Config, s: State, o: OrderId)
    requires Harmless(c) && Reachable(c, s)
    ensures FailedCleanly(s, o)
  {
    hide Inv, Reachable, Harmless, Announced;
    var e := Exclusive(c);
    HarmlessReach(c, s);
    if o in s.orders && s.orders[o].status.Failed? {
      TrackedFacts(e, s, o);
      forall i | 0 <= i < |s.log| ensures !(s.log[i].ev.OrderPaid? && s.log[i].ev.order == o) {
        InputFacts(e, s, i);
      }
      var i :| 0 <= i < |s.log| && KeyOf(s.log[i].ev) == Key(o, FailedKind);
      Facts(e, s, i);
    }
  }

  lemma FailureExclusiveAndAnnounced(c: Config)
    ensures (forall s, o | Reachable(c, s) :: FailedCleanly(s, o)) <==> Harmless(c)
  {
    hide Reachable, Harmless, Announced;
    if Harmless(c) {
      hide FailedCleanly;
      forall s, o | Reachable(c, s) ensures FailedCleanly(s, o) { HarmlessFailure(c, s, o); }
    } else {
      var s, o := Contradiction(c);
      assert !FailedCleanly(s, o);
    }
  }

  /** Every event in circulation, delivered or not, tells how far its order has come. */
  predicate EventsTell(s: State) {
    forall i | 0 <= i < |s.log| :: EventProgress(s, s.log[i].ev)
  }

  lemma EventsTellExactly(c: Config)
    ensures (forall s | Reachable(c, s) :: EventsTell(s)) <==> Harmless(c)
  {
    hide Reachable, Harmless, Inv;
    if Harmless(c) {
      forall s | Reachable(c, s) ensures EventsTell(s) {
        HarmlessReach(c, s);
        hide EventProgress;
        forall i | 0 <= i < |s.log| ensures EventProgress(s, s.log[i].ev) { InputFacts(Exclusive(c), s, i); }
      }
    } else {
      var s, n := Skipping(c);
      assert !EventProgress(s, s.log[n].ev);
      assert !EventsTell(s);
    }
  }

  lemma TablesOnlyGrow(c: Config)
    ensures (forall s, run | Reachable(c, s) && Legal(c, s, run) :: Extends(s, Exec(c, s, run))) <==> Harmless(c)
  {
    hide Reachable, Harmless, Extends, Inv, Enabled, Apply;
    if Harmless(c) {
      forall s, run | Reachable(c, s) && Legal(c, s, run) ensures Extends(s, Exec(c, s, run)) {
        HarmlessReach(c, s);
        HarmlessRun(c, s, run);
        RunExtends(Exclusive(c), s, run);
      }
    } else {
      var s, x, z := TwoCopies(c);
      NotExclusive(c);
      RaceBack(c, s, ORDER, x, z);
      var t, a :| Reachable(c, t) && Enabled(c, t, a) && FailureUndone(t, Apply(c, t, a));
      OneStepRun(c, t, a);
      UndoneIsNotExtended(t, Apply(c, t, a));
    }
  }

  lemma OneStepRun(c: Config, s: State, a: Action)
    requires Enabled(c, s, a)
    ensures Legal(c, s, [a]) && Exec(c, s, [a]) == Apply(c, s, a)
  {
    hide Enabled, Apply;
    assert [a][1..] == [];
  }

  lemma UndoneIsNotExtended(s: State, t: State)
    requires FailureUndone(s, t)
    ensures !Extends(s, t)
  {
  }

  // ---------------------------------------------------------------------
  // Units of work
  // ---------------------------------------------------------------------

  /** An event that passes the guard finds its order exactly in the status it announces. */
  predicate NoSkips(s: State) {
    forall i | 0 <= i < |s.log| && InTxn(s.log[i].place) ::
      var m := s.log[i]; var o := m.ev.order;
      (m.queue.Restaurant? ==> o in s.orders && s.orders[o].status.Paid?) &&
      (m.queue.Delivery? ==> o in s.orders && s.orders[o].status.Confirmed?)
  }

  lemma HarmlessSkips(c: Config, s: State)
    requires Harmless(c) && Reachable(c, s)
    ensures NoSkips(s)
  {
    hide Inv, Base, Reachable, Harmless;
    var e := Exclusive(c);
    HarmlessReach(c, s);
    InvFacts(e, s);
    forall i | 0 <= i < |s.log| && InTxn(s.log[i].place) && !s.log[i].queue.Notification?
      ensures s.log[i].ev.order in s.orders && s.orders[s.log[i].ev.order].status.Failed? ==> s.log[i].queue.Payment?
    {
      WorkStage(e, s, i);
      OrderOk(e, s, s.log[i].ev.order);
      if !s.log[i].queue.Payment? { PaidIsNotFailed(s, s.log[i].ev.order); }
    }
    forall i | 0 <= i < |s.log| && InTxn(s.log[i].place) && !s.log[i].queue.Notification?
      ensures var m := s.log[i]; var o := m.ev.order;
              (m.queue.Restaurant? ==> o in s.orders && (s.orders[o].status.Paid? || s.orders[o].status.Failed?)) &&
              (m.queue.Delivery? ==> o in s.orders && (s.orders[o].status.Confirmed? || s.orders[o].status.Failed?))
    {
      WorkStage(e, s, i);
    }
  }

  lemma PaidIsNotFailed(s: State, o: OrderId)
    requires PaidSlot(o) in s.guard && GuardOk(s, PaidSlot(o)) && Stores(s, PaidSlot(o))
    ensures o in s.orders && !s.orders[o].status.Failed?
  {
  }

  lemma SkipsUnreachable(c: Config)
    ensures (forall s | Reachable(c, s) :: NoSkips(s)) <==> Harmless(c)
  {
    hide Reachable, Harmless;
    if Harmless(c) {
      hide NoSkips;
      forall s | Reachable(c, s) ensures NoSkips(s) { HarmlessSkips(c, s); }
    } else {
      var s, n := Skipping(c);
      assert !NoSkips(s);
    }
  }

  /** What an open transaction has read stays current until it commits. */
  predicate ReadsCurrent(s: State) {
    forall i | 0 <= i < |s.log| && s.log[i].place.Seen? && s.log[i].place.row.Some? ::
      s.log[i].ev.order in s.orders && s.orders[s.log[i].ev.order] == s.log[i].place.row.value
  }

  lemma ReadsStayCurrent(c: Config)
    ensures (forall s | Reachable(c, s) :: ReadsCurrent(s)) <==> Harmless(c)
  {
    hide Reachable, Harmless, Inv, Base;
    if Harmless(c) {
      forall s | Reachable(c, s) ensures ReadsCurrent(s) {
        HarmlessReach(c, s);
        InvFacts(Exclusive(c), s);
        forall i | 0 <= i < |s.log| && s.log[i].place.Seen? ensures PlaceNow(s, s.log[i]) { assert PlacesNow(s); }
      }
    } else {
      var s, x := Stale(c);
      assert !ReadsCurrent(s);
    }
  }

  /** What each commit writes and publishes, worker by worker. */
  ghost predicate AllDecided(c: Config, s: State) {
    forall i: nat, ch | i < |s.log| && Deciding(c, s, i, ch) :: CommitCase(s, s.log[i], ResultOf(c, s, i, ch))
  }

  lemma CommitDecides(c: Config)
    ensures (forall s | Reachable(c, s) :: AllDecided(c, s)) <==> Harmless(c)
  {
    hide Reachable, Harmless, Inv, Process, CommitCase;
    if Harmless(c) {
      forall s | Reachable(c, s) ensures AllDecided(c, s) {
        HarmlessReach(c, s);
        forall i: nat, ch | i < |s.log| && Deciding(c, s, i, ch) ensures CommitCase(s, s.log[i], ResultOf(c, s, i, ch)) {
          SameProcess(c, s.log[i]);
          CommitFacts(Exclusive(c), s, i, ch);
        }
      }
    } else {
      var s, x := Stale(c);
      StaleDecides(c, s, x);
    }
  }

  lemma StaleDecides(c: Config, s: State, x: nat)
    requires x < |s.log| && s.log[x].queue.Payment? && s.log[x].ev == OrderCreated(ORDER, NeverFail)
    requires s.log[x].place == Seen(Some(Row(Pending, None, None)))
    requires ORDER in s.orders && s.orders[ORDER].status.Failed?
    ensures !AllDecided(c, s)
  {
    var ch := Choice(false, 7, 0, 0);
    assert Deciding(c, s, x, ch) && !CommitCase(s, s.log[x], ResultOf(c, s, x, ch));
  }

  // ---------------------------------------------------------------------
  // Effects
  // ---------------------------------------------------------------------

  /** The worker's visible effect on an order: a charge, a confirmation, a driver. */
  predicate Reached(s: State, w: Worker, o: OrderId) {
    o in s.orders &&
    match w
    case Payment => Charged(s.orders[o].status)
    case Restaurant => s.orders[o].status.Confirmed? || s.orders[o].status.DriverAssigned?
    case Delivery => s.orders[o].status.DriverAssigned?
    case Notification => false
  }

  lemma HarmlessEffects(c: Config, run: seq<Action>, w: Worker, o: OrderId)
    requires Harmless(c) && Legal(c, Init, run)
    ensures Effects(c, Init, run, w, o) == Bit(Reached(Exec(c, Init, run), w, o))
  {
    hide Inv, Reachable, Harmless, HasNote;
    var s := Exec(c, Init, run);
    assert Reachable(c, s) by { Start(c); ReachRun(c, Init, run); }
    ChargedOnce(c, run, w, o);
    HarmlessAgree(c, s, o);
    HarmlessReach(c, s);
    OrderOk(Exclusive(c), s, o);
  }

  /** The status alone tells how often each effect has been taken. */
  lemma StatusTellsEffects(c: Config)
    ensures (forall run, w, o | Legal(c, Init, run) ::
               Effects(c, Init, run, w, o) == Bit(Reached(Exec(c, Init, run), w, o))) <==> Harmless(c)
  {
    hide Harmless, Enabled, Apply;
    if Harmless(c) {
      hide Effects;
      forall run, w, o | Legal(c, Init, run)
        ensures Effects(c, Init, run, w, o) == Bit(Reached(Exec(c, Init, run), w, o))
      {
        HarmlessEffects(c, run, w, o);
      }
    } else {
      var s, o := Contradiction(c);
      var run :| Legal(c, Init, run) && Exec(c, Init, run) == s;
      ChargedOnce(c, run, Payment, o);
      assert Effects(c, Init, run, Payment, o) != Bit(Reached(Exec(c, Init, run), Payment, o));
    }
  }

  // ---------------------------------------------------------------------
  // Serial execution
  // ---------------------------------------------------------------------

  /** The run leaves the tables that its committed transactions leave when executed alone. */
  predicate ActsSerially(c: Config, run: seq<Action>)
    requires Legal(c, Init, run)
  {
    TablesOf(Exec(c, Init, run)) == RunAlone(c, Tables(map[], map[], []), CommitOrder(c, Init, run))
  }

  lemma HarmlessSerial(c: Config, run: seq<Action>)
    requires Harmless(c) && Legal(c, Init, run)
    ensures ActsSerially(c, run)
  {
    hide Inv, Harmless, Atomic, Enabled, Apply;
    var e := Exclusive(c);
    Start(c);
    HarmlessRun(c, Init, run);
    InitInv(e);
    RunsAreSerial(e, Init, run);
    SameOrderOfCommits(c, Init, run);
    SameAlone(c, Tables(map[], map[], []), CommitOrder(c, Init, run));
  }

  lemma {:induction false} SameOrderOfCommits(c: Config, s: State, run: seq<Action>)
    requires Harmless(c) && Reachable(c, s) && Legal(c, s, run) && Legal(Exclusive(c), s, run)
    ensures CommitOrder(Exclusive(c), s, run) == CommitOrder(c, s, run)
    decreases |run|
  {
    hide Harmless, Enabled, Apply, Reachable;
    if run != [] {
      HarmlessAction(c, s, run[0]);
      ReachStep(c, s, run[0]);
      SameOrderOfCommits(c, Apply(c, s, run[0]), run[1..]);
    }
  }

  lemma {:induction false} SameAlone(c: Config, t: Tables, xs: seq<Txn>)
    ensures RunAlone(Exclusive(c), t, xs) == RunAlone(c, t, xs)
    decreases |xs|
  {
    if xs != [] {
      assert Atomic(Exclusive(c), t, xs[0]) == Atomic(c, t, xs[0]);
      SameAlone(c, Atomic(c, t, xs[0]), xs[1..]);
    }
  }

  lemma SystemIsSerial(c: Config)
    ensures (forall run | Legal(c, Init, run) :: ActsSerially(c, run)) <==> Harmless(c)
  {
    hide Reachable, Harmless, ActsSerially, Enabled, Apply;
    if Harmless(c) {
      forall run | Legal(c, Init, run) ensures ActsSerially(c, run) { HarmlessSerial(c, run); }
    } else {
      var s, x, z := TwoCopies(c);
      NotExclusive(c);
      var t := Overtaken(c, s, ORDER, x, z);
      LostUpdate(c, t, z);
    }
  }

  /** If the run up to the hook's commit acts serially, the run with it does not: executed alone, the
      hook would have found PAID. */
  lemma LostUpdate(c: Config, t: State, z: nat)
    requires Reachable(c, t) && z < |t.log| && t.log[z].place == HookAnnounced(true) && t.log[z].ev.order == ORDER
    requires ORDER in t.orders && t.orders[ORDER].status.Paid?
    ensures exists run :: Legal(c, Init, run) && !ActsSerially(c, run)
  {
    hide Apply, Enabled, RunAlone, CommitOrder;
    var run :| Legal(c, Init, run) && Exec(c, Init, run) == t;
    var a := At(z, HookCommit);
    assert Enabled(c, t, a) by { HookCanCommit(c, t, z); }
    LegalConcat(c, Init, run, a);
    if ActsSerially(c, run) {
      var empty := Tables(map[], map[], []);
      CommitOrderConcat(c, Init, run, a);
      RunAloneConcat(c, empty, CommitOrder(c, Init, run), [Fail(ORDER)]);
      FailAlone(c, t, z);
      assert !ActsSerially(c, run + [a]);
    }
  }

  lemma HookCanCommit(c: Config, t: State, z: nat)
    requires z < |t.log| && t.log[z].place == HookAnnounced(true)
    ensures Enabled(c, t, At(z, HookCommit))
  {
  }

  lemma FailAlone(c: Config, t: State, z: nat)
    requires z < |t.log| && t.log[z].place == HookAnnounced(true) && t.log[z].ev.order == ORDER
    requires ORDER in t.orders && t.orders[ORDER].status.Paid? && Enabled(c, t, At(z, HookCommit))
    ensures Commits(c, t, At(z, HookCommit)) == [Fail(ORDER)]
    ensures RunAlone(c, TablesOf(t), [Fail(ORDER)]) == TablesOf(t) != TablesOf(Apply(c, t, At(z, HookCommit)))
  {
    assert RunAlone(c, TablesOf(t), [Fail(ORDER)]) == RunAlone(c, Atomic(c, TablesOf(t), Fail(ORDER)), []);
    assert Apply(c, t, At(z, HookCommit)).orders[ORDER].status.Failed?;
  }

  lemma {:induction false} CommitOrderConcat(c: Config, s: State, run: seq<Action>, a: Action)
    requires Legal(c, s, run) && Enabled(c, Exec(c, s, run), a) && Legal(c, s, run + [a])
    ensures CommitOrder(c, s, run + [a]) == CommitOrder(c, s, run) + Commits(c, Exec(c, s, run), a)
    decreases |run|
  {
    hide Enabled, Apply, Commits;
    if run == [] {
      assert run + [a] == [a] && [a][1..] == [];
    } else {
      assert (run + [a])[0] == run[0] && (run + [a])[1..] == run[1..] + [a];
      CommitOrderConcat(c, Apply(c, s, run[0]), run[1..], a);
    }
  }
}
