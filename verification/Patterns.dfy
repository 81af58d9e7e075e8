// Which ends a payment behaviour can lead to without any fault, and under exactly which settings.
module Patterns {
  import opened Schemas
  import opened Protocol
  import opened Steps
  import opened Invariant
  import opened Unconditional
  import opened Preservation
  import opened Guarantees
  import opened Exclusion
  import opened Outcome
  import Hooks
  import Limits
  import Liveness
  import Scenarios
  import Termination

  const O := Scenarios.ORDER

  // ---------------------------------------------------------------------
  // Fault-free reachability
  // ---------------------------------------------------------------------

  lemma {:induction false} CleanConcat(c: Config, s: State, run: seq<Action>, a: Action)
    requires CleanRun(c, s, run) && Legal(c, s, run) && Enabled(c, Exec(c, s, run), a) && Clean(Exec(c, s, run), a)
    ensures CleanRun(c, s, run + [a]) && Legal(c, s, run + [a])
    ensures Exec(c, s, run + [a]) == Apply(c, Exec(c, s, run), a)
    decreases |run|
  {
    hide Enabled, Apply, Clean;
    if run == [] {
      assert run + [a] == [a] && [a][1..] == [];
    } else {
      assert (run + [a])[0] == run[0] && (run + [a])[1..] == run[1..] + [a];
      CleanConcat(c, Apply(c, s, run[0]), run[1..], a);
    }
  }

  lemma CleanStep(c: Config, s: State, a: Action)
    requires CleanlyReachable(c, s) && Enabled(c, s, a) && Clean(s, a)
    ensures CleanlyReachable(c, Apply(c, s, a))
  {
    hide Enabled, Apply, Clean;
    var run :| CleanRun(c, Init, run) && Legal(c, Init, run) && Exec(c, Init, run) == s;
    CleanConcat(c, Init, run, a);
  }

  lemma CleanStart(c: Config)
    ensures CleanlyReachable(c, Init)
  {
    assert CleanRun(c, Init, []) && Legal(c, Init, []) && Exec(c, Init, []) == Init;
  }

  lemma CleanIsReachable(c: Config, s: State)
    requires CleanlyReachable(c, s)
    ensures Reachable(c, s)
  {
    hide Enabled, Apply, Clean;
  }

  // ---------------------------------------------------------------------
  // Once every payment is decided, the rest finishes by itself
  // ---------------------------------------------------------------------

  predicate Decided(p: Place) {
    p.Publishing? || p.Retried? || p.Rejecting? || p.Dead? || p.Gone?
  }

  predicate AllDecided(s: State) {
    forall i | 0 <= i < |s.log| && s.log[i].queue.Payment? :: Decided(s.log[i].place)
  }

  /** Only payments fail without a fault, so nothing is left to be retried. */
  lemma OthersClean(c: Config, s: State, i: nat)
    requires CleanlyReachable(c, s) && AllDecided(s) && i < |s.log|
    ensures !s.log[i].place.Waiting? && !s.log[i].place.Failing? && !InHook(s.log[i].place)
  {
    hide CleanInv, CleanlyReachable;
    CleanReachableInv(c, s);
    CleanFacts(Exclusive(c), s, i);
  }

  lemma DecidedStays(c: Config, s: State, i: nat, step: Step)
    requires CleanlyReachable(c, s) && AllDecided(s)
    requires i < |s.log| && StepEnabled(c, s, i, step) && Clean(s, At(i, step))
    ensures AllDecided(ApplyStep(c, s, i, step))
  {
    hide CleanlyReachable, ApplyStep, StepEnabled, Added, Clean;
    var t := ApplyStep(c, s, i, step);
    StepLog(c, s, i, step);
    OwnDecided(c, s, i, step);
    NoPaymentAdded(c, s, i, step);
    forall j | |s.log| <= j < |t.log| ensures !t.log[j].queue.Payment? {
      assert t.log[j] == Added(c, s, i, step)[j - |s.log|];
    }
    assert forall j | 0 <= j < |s.log| && j != i :: t.log[j] == s.log[j];
  }

  lemma OwnDecided(c: Config, s: State, i: nat, step: Step)
    requires AllDecided(s) && i < |s.log| && StepEnabled(c, s, i, step) && Clean(s, At(i, step))
    ensures i < |ApplyStep(c, s, i, step).log|
    ensures s.log[i].queue.Payment? ==> Decided(ApplyStep(c, s, i, step).log[i].place)
  {
    hide Process, Held, HookRuns, PaymentRuns, HasNote, Published, Fanout, RetryCopy, Update, TextFor;
  }

  lemma NoPaymentAdded(c: Config, s: State, i: nat, step: Step)
    requires CleanlyReachable(c, s) && AllDecided(s) && i < |s.log| && StepEnabled(c, s, i, step)
    ensures forall m | m in Added(c, s, i, step) :: !m.queue.Payment?
  {
    hide Core, CleanlyReachable, Reachable, Process, HasNote, Held, PaymentRuns, HookRuns, EventOk, Announced, GuardShape;
    OthersClean(c, s, i);
    CleanIsReachable(c, s);
    ReachableCore(c, s);
    if s.log[i].place.Publishing? && s.log[i].place.todo != [] { OneStored(c, s, i); }
  }

  lemma {:induction false} SettleDown(c: Config, s: State) returns (t: State)
    requires CleanlyReachable(c, s) && AllDecided(s) && s.api == map[]
    ensures CleanlyReachable(c, t) && Quiet(t) && Extends(s, t) && t.born == s.born
    decreases Termination.Weight(c, s.log)
  {
    hide CleanlyReachable, Reachable, Enabled, Apply, Extends, AllDecided, CleanInv, Inv;
    ExtendsItself(s);
    if Quiet(s) { return s; }
    CleanIsReachable(c, s);
    var i :| 0 <= i < |s.log| && !s.log[i].place.Dead? && !s.log[i].place.Gone?;
    OthersClean(c, s, i);
    var a := Liveness.NoDeadlock(c, s, i);
    ForwardIsClean(c, s, a);
    Liveness.ForwardWeighs(c, s, a);
    CleanExtends(c, s, a);
    var u := Apply(c, s, a);
    CleanStep(c, s, a);
    assert AllDecided(u) && u.born == s.born by { DecidedAfter(c, s, a); }
    t := SettleDown(c, u);
    ExtendsTransitive(s, u, t);
  }

  lemma DecidedAfter(c: Config, s: State, a: Action)
    requires CleanlyReachable(c, s) && AllDecided(s) && Enabled(c, s, a) && Clean(s, a) && a.At?
    ensures AllDecided(Apply(c, s, a)) && Apply(c, s, a).born == s.born
  {
    hide CleanlyReachable, ApplyStep, StepEnabled, AllDecided;
    DecidedStays(c, s, a.i, a.step);
    StepsLeaveRequests(c, s, a.i, a.step);
  }

  lemma ForwardIsClean(c: Config, s: State, a: Action)
    requires AllDecided(s) && Enabled(c, s, a) && Liveness.Forward(s, a)
    ensures Clean(s, a)
  {
    hide Process, Held, HookRuns, PaymentRuns, HasNote;
  }

  lemma CleanExtends(c: Config, s: State, a: Action)
    requires CleanlyReachable(c, s) && Enabled(c, s, a) && Clean(s, a)
    ensures Extends(s, Apply(c, s, a))
  {
    hide CleanlyReachable, Enabled, Apply, Extends, CleanInv, Inv, Clean;
    CleanReachableInv(c, s);
    CleanNeverMeets(c, s);
    ActionWithoutMeeting(c, s, a);
    StepExtends(Exclusive(c), s, a);
  }

  lemma ExtendsItself(s: State)
    ensures Extends(s, s)
  {
  }

  lemma ExtendsTransitive(s: State, t: State, u: State)
    requires Extends(s, t) && Extends(t, u)
    ensures Extends(s, u)
  {
  }

  // ---------------------------------------------------------------------
  // One order, attempt by attempt
  // ---------------------------------------------------------------------

  /** The order has just been accepted. */
  function Accepted(b: Behavior): State {
    Init.(born := map[O := b], orders := map[O := Row(Pending, None, None)], log := Published(OrderCreated(O, b)))
  }

  lemma Accept(c: Config, b: Behavior)
    ensures CleanlyReachable(c, Accepted(b)) && Waits(Accepted(b), b, 0) && Accepted(b).log[0].rc == 0
  {
    hide CleanlyReachable;
    CleanStart(c);
    var s1 := Init.(born := map[O := b], api := map[O := false]);
    assert Apply(c, Init, ApiBegin(O, b)) == s1;
    CleanStep(c, Init, ApiBegin(O, b));
    var s2 := s1.(api := map[O := true], log := Published(OrderCreated(O, b)));
    assert [] + Published(OrderCreated(O, b)) == Published(OrderCreated(O, b));
    assert Apply(c, s1, ApiPublish(O)) == s2;
    CleanStep(c, s1, ApiPublish(O));
    assert Apply(c, s2, ApiCommit(O)) == Accepted(b);
    CleanStep(c, s2, ApiCommit(O));
  }

  /** Copy y is the one payment message of the order that is still to be handled. */
  predicate Waits(s: State, b: Behavior, y: nat) {
    y < |s.log| && s == Accepted(b).(log := s.log) &&
    s.log[y] == Copy(Payment, OrderCreated(O, b), s.log[y].rc, 0, s.log[y].hops, Ready) &&
    forall j | 0 <= j < |s.log| && j != y ::
      s.log[j].place.Gone? || (s.log[j].place.Ready? && s.log[j].queue.Notification?)
  }

  /** An attempt is made and reads the order. */
  lemma Tries(c: Config, s: State, b: Behavior, y: nat)
    requires CleanlyReachable(c, s) && Waits(s, b, y)
    ensures CleanlyReachable(c, Move(s, y, Seen(Some(Row(Pending, None, None)))))
  {
    hide CleanlyReachable;
    var s1, s2, s3 := Move(s, y, Taken), Move(s, y, Open), Move(s, y, Seen(Some(Row(Pending, None, None))));
    assert Apply(c, s, At(y, Take)) == s1;
    CleanStep(c, s, At(y, Take));
    assert Apply(c, s1, At(y, Insert)) == s2;
    CleanStep(c, s1, At(y, Insert));
    assert !HookRuns(s2, O) by { assert forall j | 0 <= j < |s2.log| :: !InHook(s2.log[j].place); }
    assert Apply(c, s2, At(y, Read)) == s3;
    CleanStep(c, s2, At(y, Read));
  }

  lemma Fails(c: Config, s: State, b: Behavior, y: nat)
    requires CleanlyReachable(c, s) && Waits(s, b, y) && AttemptFails(c, b, s.log[y].rc + 1, true)
    ensures CleanlyReachable(c, Move(s, y, Failing(Other)))
  {
    hide CleanlyReachable;
    Tries(c, s, b, y);
    var ch := Choice(true, 0, 0, 0);
    var s1 := Move(s, y, Seen(Some(Row(Pending, None, None))));
    assert Apply(c, s1, At(y, Raise(ch))) == Move(s, y, Failing(Other));
    CleanStep(c, s1, At(y, Raise(ch)));
  }

  /** A failed attempt is retried and comes back. */
  lemma ComesBack(c: Config, s: State, b: Behavior, y: nat) returns (t: State, z: nat)
    requires CleanlyReachable(c, s) && Waits(s, b, y) && AttemptFails(c, b, s.log[y].rc + 1, true)
    requires s.log[y].rc < c.maxRetries && c.baseMs >= 1
    ensures CleanlyReachable(c, t) && Waits(t, b, z) && t.log[z].rc == s.log[y].rc + 1
  {
    hide CleanlyReachable, Fanout;
    Fails(c, s, b, y);
    var m := s.log[y];
    var r := RetryCopy(c, m, Other);
    assert r.place.ttl >= 1 by { assert c.baseMs * Pow2(m.rc) >= 1; }
    var s1 := Move(s, y, Failing(Other));
    var s2 := s.(log := s.log[y := m.(place := Retried)] + [r]);
    assert Apply(c, s1, At(y, RetryPublish)) == s2;
    CleanStep(c, s1, At(y, RetryPublish));
    var s3 := s.(log := s.log[y := m.(place := Gone)] + [r]);
    assert Apply(c, s2, At(y, Ack)).log == s3.log;
    CleanStep(c, s2, At(y, Ack));
    var n := |s.log|;
    CleanStep(c, s3, At(n, Expire));
    t, z := Apply(c, s3, At(n, Expire)), n + 1;
    BackInQueue(c, s, b, y);
    assert t.log == s.log[y := m.(place := Gone)] + [r.(place := Gone)] +
                    Fanout(Some(Payment), r.ev, r.rc, r.nr, r.hops);
  }

  lemma BackInQueue(c: Config, s: State, b: Behavior, y: nat)
    requires Waits(s, b, y)
    ensures var m := s.log[y]; var r := RetryCopy(c, m, Other);
            var log := s.log[y := m.(place := Gone)] + [r.(place := Gone)] +
                       Fanout(Some(Payment), r.ev, r.rc, r.nr, r.hops);
            Waits(s.(log := log), b, |s.log| + 1) && log[|s.log| + 1].rc == m.rc + 1
  {
    hide RetryDelayMs;
    var m := s.log[y]; var r := RetryCopy(c, m, Other);
    var log := s.log[y := m.(place := Gone)] + [r.(place := Gone)] + Fanout(Some(Payment), r.ev, r.rc, r.nr, r.hops);
    assert log[|s.log| + 1] == r.(place := Ready);
    assert forall j | 0 <= j < |s.log| && j != y :: log[j] == s.log[j];
  }

  lemma {:induction false} Climb(c: Config, b: Behavior, n: nat) returns (s: State, y: nat)
    requires n <= c.maxRetries && (n == 0 || c.baseMs >= 1)
    requires forall k | 1 <= k <= n :: AttemptFails(c, b, k, true)
    ensures CleanlyReachable(c, s) && Waits(s, b, y) && s.log[y].rc == n
  {
    hide CleanlyReachable, AttemptFails, Waits, Accepted;
    if n == 0 {
      s, y := Accepted(b), 0;
      Accept(c, b);
    } else {
      var t, x := Climb(c, b, n - 1);
      s, y := ComesBack(c, t, b, x);
    }
  }

  /** An attempt that passes: the order is paid, and in the end delivered. */
  lemma Passes(c: Config, s: State, b: Behavior, y: nat) returns (t: State)
    requires CleanlyReachable(c, s) && Waits(s, b, y) && !AttemptFails(c, b, s.log[y].rc + 1, false)
    ensures Ends(c, t, O, b) && t.orders[O].status.DriverAssigned?
  {
    hide CleanlyReachable, TextFor, Extends, Quiet;
    Tries(c, s, b, y);
    var ch := Choice(false, 7, 0, 0);
    var s1 := Move(s, y, Seen(Some(Row(Pending, None, None))));
    CleanStep(c, s1, At(y, Commit(ch)));
    var u := Apply(c, s1, At(y, Commit(ch)));
    assert u.orders == map[O := Row(Paid, Some(7), None)] && u.born == map[O := b] && u.api == map[];
    assert AllDecided(u);
    t := SettleDown(c, u);
    assert O in t.orders && StatusReaches(Paid, t.orders[O].status) by { StatusMoves(u, t); }
    OutcomeIsDetermined(c, t, O);
  }

  lemma StatusMoves(s: State, t: State)
    requires Extends(s, t) && O in s.orders
    ensures O in t.orders && StatusReaches(s.orders[O].status, t.orders[O].status)
  {
  }

  /** The hook has marked the order FAILED and told the customer. */
  function Marked(s: State, y: nat): State
    requires y < |s.log|
  {
    s.(orders := map[O := Row(Failed, None, None)],
       log := s.log[y := s.log[y].(place := Rejecting)] + Published(OrderPaymentFailed(O, 0)))
  }

  lemma HookMarks(c: Config, s: State, y: nat)
    requires CleanlyReachable(c, s) && y < |s.log| && s.log[y].place == HookOpen(true) && s.log[y].ev.order == O
    requires s.orders == map[O := Row(Pending, None, None)]
    ensures CleanlyReachable(c, Marked(s, y))
  {
    hide CleanlyReachable, Published;
    var m := s.log[y];
    var s3 := s.(log := s.log[y := m.(place := HookAnnounced(true))] + Published(OrderPaymentFailed(O, 0)));
    assert Apply(c, s, At(y, HookPublish(0))).log == s3.log;
    CleanStep(c, s, At(y, HookPublish(0)));
    assert s.orders[O := Row(Failed, None, None)] == map[O := Row(Failed, None, None)];
    assert Apply(c, s3, At(y, HookCommit)) == Marked(s, y) by {
      assert Apply(c, s3, At(y, HookCommit)).log == Marked(s, y).log;
    }
    CleanStep(c, s3, At(y, HookCommit));
  }

  /** The last attempt fails too, and the hook marks the order. */
  lemma GivesUp(c: Config, s: State, b: Behavior, y: nat)
    requires CleanlyReachable(c, s) && Waits(s, b, y) && AttemptFails(c, b, s.log[y].rc + 1, true)
    requires s.log[y].rc == c.maxRetries
    ensures CleanlyReachable(c, Marked(s, y))
  {
    hide CleanlyReachable, AttemptFails, Published;
    Fails(c, s, b, y);
    var s1, s2 := Move(s, y, Failing(Other)), Move(s, y, HookOpen(true));
    assert Apply(c, s1, At(y, HookRead)) == s2;
    CleanStep(c, s1, At(y, HookRead));
    HookMarks(c, s2, y);
    assert Marked(s2, y).log == Marked(s, y).log;
  }

  lemma MarkedDecided(s: State, b: Behavior, y: nat)
    requires Waits(s, b, y)
    ensures var u := Marked(s, y);
            AllDecided(u) && u.api == map[] && u.born == map[O := b] && u.orders == map[O := Row(Failed, None, None)]
  {
  }

  lemma LastFails(c: Config, s: State, b: Behavior, y: nat) returns (t: State)
    requires CleanlyReachable(c, s) && Waits(s, b, y) && AttemptFails(c, b, s.log[y].rc + 1, true)
    requires s.log[y].rc == c.maxRetries
    ensures Ends(c, t, O, b) && t.orders[O].status.Failed?
  {
    hide CleanlyReachable, Extends, Quiet, AttemptFails, AllDecided, Marked;
    GivesUp(c, s, b, y);
    MarkedDecided(s, b, y);
    var u := Marked(s, y);
    t := SettleDown(c, u);
    StatusMoves(u, t);
  }

  // ---------------------------------------------------------------------
  // The possible ends
  // ---------------------------------------------------------------------

  /** A fault-free run has finished everything, and the order was placed with this behaviour. */
  ghost predicate Ends(c: Config, s: State, o: OrderId, b: Behavior) {
    CleanlyReachable(c, s) && Quiet(s) && o in s.orders && o in s.born && s.born[o] == b
  }

  ghost predicate CanBeDelivered(c: Config, b: Behavior) {
    exists s, o :: Ends(c, s, o, b) && s.orders[o].status.DriverAssigned?
  }

  ghost predicate CanFail(c: Config, b: Behavior) {
    exists s, o :: Ends(c, s, o, b) && s.orders[o].status.Failed?
  }

  /** Without a delay a main retry never comes back, so nothing is charged at a later attempt. */
  predicate Unpaid(c: Config, s: State) {
    forall o | o in s.orders && o in s.born && InForce(c, s.born[o], FailTwice) :: s.orders[o].payment.None?
  }

  lemma UnpaidStep(c: Config, s: State, a: Action)
    requires Core(c, s) && Limits.AllHalt(c, s) && Unpaid(c, s) && c.baseMs == 0 && Enabled(c, s, a)
    ensures Unpaid(c, Apply(c, s, a))
  {
    hide Core, ApplyStep, StepEnabled, Limits.AllHalt, Process;
    if a.At? && a.step.Commit? {
      UnpaidCommit(c, s, a.i, a.step.ch);
    } else if a.At? && a.step.HookCommit? {
      UnpaidHook(c, s, a.i);
    } else if a.At? {
      OnlyCommitsWrite(c, s, a.i, a.step);
    } else {
      assert Ids(s) by { ShapeFacts(c, s); }
    }
  }

  lemma UnpaidCommit(c: Config, s: State, i: nat, ch: Choice)
    requires Core(c, s) && Limits.AllHalt(c, s) && Unpaid(c, s) && c.baseMs == 0
    requires i < |s.log| && StepEnabled(c, s, i, Commit(ch))
    ensures Unpaid(c, ApplyStep(c, s, i, Commit(ch)))
  {
    hide Core, Announced, GuardShape, CountsOk, TextFor;
    CopyFacts(c, s, i);
    assert Limits.Halts(c, s.log[i]);
  }

  lemma UnpaidHook(c: Config, s: State, i: nat)
    requires Unpaid(c, s) && i < |s.log| && StepEnabled(c, s, i, HookCommit)
    ensures Unpaid(c, ApplyStep(c, s, i, HookCommit))
  {
    hide InForce;
  }

  lemma {:induction false} UnpaidRun(c: Config, s: State, run: seq<Action>)
    requires Core(c, s) && Limits.AllHalt(c, s) && Unpaid(c, s) && c.baseMs == 0 && Legal(c, s, run)
    ensures Unpaid(c, Exec(c, s, run))
    decreases |run|
  {
    hide Core, Limits.AllHalt, Unpaid, Apply, Enabled, Keeps;
    if run != [] {
      UnpaidStep(c, s, run[0]);
      ActionCore(c, s, run[0]);
      Limits.HaltStep(c, s, run[0]);
      UnpaidRun(c, Apply(c, s, run[0]), run[1..]);
    }
  }

  lemma NeverPaid(c: Config, s: State)
    requires Reachable(c, s) && c.baseMs == 0
    ensures Unpaid(c, s)
  {
    hide Core, Apply, Enabled;
    var run :| Legal(c, Init, run) && Exec(c, Init, run) == s;
    InitCore(c);
    UnpaidRun(c, Init, run);
  }

  lemma DeliveredIsPaid(c: Config, s: State, o: OrderId)
    requires CleanlyReachable(c, s) && o in s.orders && s.orders[o].status.DriverAssigned?
    ensures s.orders[o].payment.Some?
  {
    hide CleanlyReachable, Inv, CleanInv;
    CleanReachableInv(c, s);
    CleanIsInv(Exclusive(c), s);
    TableFacts(Exclusive(c), s);
    assert RowOk(s, o);
  }

  /** For all settings: which payment behaviours allow a fault-free delivery. The third attempt of
      fail_twice needs two retries that come back. */
  lemma DeliveredExactly(c: Config, b: Behavior)
    ensures CanBeDelivered(c, b) <==>
            InForce(c, b, NeverFail) || LeftToChance(c, b) ||
            (InForce(c, b, FailTwice) && c.maxRetries >= 2 && c.baseMs >= 1)
  {
    hide CleanlyReachable, Quiet, Waits;
    if InForce(c, b, NeverFail) || LeftToChance(c, b) {
      var s, y := Climb(c, b, 0);
      var t := Passes(c, s, b, y);
    } else if InForce(c, b, FailTwice) && c.maxRetries >= 2 && c.baseMs >= 1 {
      var s, y := Climb(c, b, 2);
      var t := Passes(c, s, b, y);
    } else {
      forall s, o | Ends(c, s, o, b) ensures !s.orders[o].status.DriverAssigned? {
        OutcomeIsDetermined(c, s, o);
        if s.orders[o].status.DriverAssigned? {
          DeliveredIsPaid(c, s, o);
          CleanIsReachable(c, s);
          if c.baseMs == 0 { NeverPaid(c, s); }
        }
      }
    }
  }

  /** And which allow a fault-free failure: every attempt must be able to fail, and the last one to
      be made. */
  lemma FailedExactly(c: Config, b: Behavior)
    ensures CanFail(c, b) <==>
            (InForce(c, b, AlwaysFail) || LeftToChance(c, b) || (InForce(c, b, FailTwice) && c.maxRetries < 2)) &&
            (c.maxRetries == 0 || c.baseMs >= 1)
  {
    hide CleanlyReachable, Quiet, Waits, Reachable;
    if (InForce(c, b, AlwaysFail) || LeftToChance(c, b) || (InForce(c, b, FailTwice) && c.maxRetries < 2)) &&
       (c.maxRetries == 0 || c.baseMs >= 1) {
      var s, y := Climb(c, b, c.maxRetries);
      var t := LastFails(c, s, b, y);
    } else {
      forall s, o | Ends(c, s, o, b) ensures !s.orders[o].status.Failed? {
        OutcomeIsDetermined(c, s, o);
        CleanIsReachable(c, s);
        if Hooks.HookNeverRuns(c) { Hooks.NeverHooked(c, s); }
      }
    }
  }
}
