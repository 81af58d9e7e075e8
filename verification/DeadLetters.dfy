// The failure event's reason refers to the original message in the dead-letter queue. When it is
// really there, and when it is not.
module DeadLetters {
  import opened Schemas
  import opened Protocol
  import opened Steps
  import opened Invariant
  import opened Unconditional
  import opened Guarantees
  import opened Scenarios
  import Hooks
  import Termination

  // ---------------------------------------------------------------------
  // Without a crash between the hook and the nack
  // ---------------------------------------------------------------------

  /** The instance does not die between the hook's commit and the nack. */
  predicate Nacks(s: State, a: Action) {
    !(a.At? && a.step.Crash? && a.i < |s.log| && s.log[a.i].place.Rejecting?)
  }

  predicate AlwaysNacks(c: Config, s: State, run: seq<Action>)
    requires Legal(c, s, run)
    decreases |run|
  {
    run == [] || (Nacks(s, run[0]) && AlwaysNacks(c, Apply(c, s, run[0]), run[1..]))
  }

  /** The order's original message is dead-lettered from payment, or about to be. */
  predicate SetAside(s: State, o: OrderId) {
    exists i | 0 <= i < |s.log| ::
      s.log[i].queue.Payment? && s.log[i].ev.order == o && (s.log[i].place.Rejecting? || s.log[i].place.Dead?)
  }

  predicate FailedSetAside(s: State) {
    forall o | o in s.orders && s.orders[o].status.Failed? :: SetAside(s, o)
  }

  lemma StaysAside(c: Config, s: State, a: Action, o: OrderId)
    requires Enabled(c, s, a) && Nacks(s, a) && SetAside(s, o)
    ensures SetAside(Apply(c, s, a), o)
  {
    hide ApplyStep, Process;
    var t := Apply(c, s, a);
    var i :| 0 <= i < |s.log| && s.log[i].queue.Payment? && s.log[i].ev.order == o &&
             (s.log[i].place.Rejecting? || s.log[i].place.Dead?);
    if a.At? {
      StepLog(c, s, a.i, a.step);
      if a.i == i { RejectingStep(c, s, i, a.step); }
    }
    assert t.log[i].queue.Payment? && t.log[i].ev.order == o;
  }

  lemma RejectingStep(c: Config, s: State, i: nat, step: Step)
    requires i < |s.log| && StepEnabled(c, s, i, step) && (s.log[i].place.Rejecting? || s.log[i].place.Dead?)
    requires !step.Crash?
    ensures i < |ApplyStep(c, s, i, step).log| && ApplyStep(c, s, i, step).log[i].place.Dead?
  {
  }

  /** Only the hook's commit makes an order FAILED, and it leaves its copy to be rejected. */
  lemma FailsAside(c: Config, s: State, a: Action, o: OrderId)
    requires Core(c, s) && Enabled(c, s, a)
    requires var t := Apply(c, s, a);
             o in t.orders && t.orders[o].status.Failed? && !(o in s.orders && s.orders[o].status.Failed?)
    ensures SetAside(Apply(c, s, a), o)
  {
    hide Core, ApplyStep, StepEnabled, Process, SetAside;
    if a.At? {
      if a.step.Commit? {
        Hooks.CommitFailsNone(c, s, a.i, a.step.ch);
      } else if a.step.HookCommit? {
        HookSetsAside(c, s, a.i, o);
      } else {
        OnlyCommitsWrite(c, s, a.i, a.step);
      }
    }
  }

  lemma HookSetsAside(c: Config, s: State, i: nat, o: OrderId)
    requires Core(c, s) && i < |s.log| && StepEnabled(c, s, i, HookCommit)
    ensures var t := ApplyStep(c, s, i, HookCommit);
            SetAside(t, s.log[i].ev.order) &&
            (o != s.log[i].ev.order ==> (o in t.orders <==> o in s.orders) && (o in s.orders ==> t.orders[o] == s.orders[o]))
  {
    hide Core;
    Termination.HookPlace(c, s, i);
    var t := ApplyStep(c, s, i, HookCommit);
    assert t.log[i] == s.log[i].(place := Rejecting);
  }

  lemma {:induction false} RunSetsAside(c: Config, s: State, run: seq<Action>)
    requires Core(c, s) && FailedSetAside(s) && Legal(c, s, run) && AlwaysNacks(c, s, run)
    ensures FailedSetAside(Exec(c, s, run))
    decreases |run|
  {
    hide Core, Apply, Enabled, Nacks, SetAside, Keeps;
    if run != [] {
      var t := Apply(c, s, run[0]);
      forall o | o in t.orders && t.orders[o].status.Failed? ensures SetAside(t, o) {
        if o in s.orders && s.orders[o].status.Failed? {
          StaysAside(c, s, run[0], o);
        } else {
          FailsAside(c, s, run[0], o);
        }
      }
      ActionCore(c, s, run[0]);
      RunSetsAside(c, t, run[1..]);
    }
  }

  /** If no instance dies between the hook's commit and its nack, every FAILED order has its
      original message in the dead-letter queue once nothing is in flight. */
  lemma FailedIsDeadLettered(c: Config, run: seq<Action>, o: OrderId)
    requires Legal(c, Init, run) && AlwaysNacks(c, Init, run)
    requires var s := Exec(c, Init, run); Quiet(s) && o in s.orders && s.orders[o].status.Failed?
    ensures DeadAt(Exec(c, Init, run), Payment, Key(o, CreatedKind))
  {
    hide Core, EventOk, PlaceShape, Announced, GuardShape, Keeps;
    var s := Exec(c, Init, run);
    InitCore(c);
    RunCore(c, Init, run);
    RunSetsAside(c, Init, run);
    assert SetAside(s, o);
    var i :| 0 <= i < |s.log| && s.log[i].queue.Payment? && s.log[i].ev.order == o &&
             (s.log[i].place.Rejecting? || s.log[i].place.Dead?);
    CopyFacts(c, s, i);
    assert KeyOf(s.log[i].ev) == Key(o, CreatedKind);
  }

  // ---------------------------------------------------------------------
  // With such a crash
  // ---------------------------------------------------------------------

  /** A redelivered copy of a FAILED order skips the payment and is acknowledged. */
  lemma SkipAndAck(c: Config, s: State, o: OrderId, z: nat)
    requires Reachable(c, s) && Idle(s, o, z) && NoHooks(s) && o in s.orders && s.orders[o].status.Failed?
    ensures exists t :: Reachable(c, t) && t.orders == s.orders && t.log == s.log[z := s.log[z].(place := Gone)]
  {
    hide Reachable, HookRuns, TextFor;
    var ch := Choice(false, 0, 0, 0);
    NoHookRuns(s, o);
    ReadOrder(c, s, o, z);
    var s1 := Move(s, z, Seen(Some(s.orders[o])));
    var s2 := Apply(c, s1, At(z, Commit(ch)));
    ReachStep(c, s1, At(z, Commit(ch)));
    assert s2.log == s.log[z := s.log[z].(place := Publishing([], false))];
    assert s2.orders == s.orders;
    ReachStep(c, s2, At(z, Ack));
    var t := Apply(c, s2, At(z, Ack));
    assert t.log == s.log[z := s.log[z].(place := Gone)] && t.orders == s.orders;
  }

  /** The hook has published and committed, and the instance dies before the nack. */
  function Relapsed(s: State, o: OrderId, z: nat): State
    requires z < |s.log|
  {
    Move(MarkFailed(Emit(s, Published(OrderPaymentFailed(o, 0))), o), z, Ready)
  }

  lemma HookThenCrash(c: Config, s: State, o: OrderId, z: nat)
    requires Idle(s, o, z) && o in s.orders && Reachable(c, Move(s, z, HookOpen(true)))
    ensures Reachable(c, Relapsed(s, o, z))
  {
    hide Reachable, Published;
    var s1 := Move(s, z, HookOpen(true));
    HookFinishes(c, s1, o, z);
    var s2 := Finished(s1, o, z);
    Crashed(c, s2, z);
    assert Move(s2, z, Ready).log == Relapsed(s, o, z).log;
  }

  lemma RelapsedIsIdle(s: State, o: OrderId, z: nat)
    requires Idle(s, o, z) && NoHooks(s) && Spent(s, z) && o in s.orders
    ensures var t := Relapsed(s, o, z);
            Idle(t, o, z) && NoHooks(t) && Spent(t, z) && o in t.orders && t.orders[o].status.Failed?
  {
    var t := Relapsed(s, o, z);
    assert forall j | 0 <= j < |s.log| :: t.log[j] == s.log[j];
  }

  /** One crash before the nack loses the original message: the order is FAILED, and no copy of it
      is left at payment, in its retry queue or in the dead-letter queue. */
  lemma FailedWithoutDeadLetter(c: Config)
    requires c.maxRetries == 0 || c.baseMs >= 1
    ensures exists s, o :: GeneratedId(o) && Reachable(c, s) && o in s.orders && s.orders[o].status.Failed? &&
                           !LiveAt(s, Payment, Key(o, CreatedKind))
  {
    hide Reachable, HookRuns, Relapsed, GeneratedId;
    var o := ORDER;
    OrderIsGenerated();
    Submit(c, o);
    FirstIsAlone(o);
    var s, z := ClimbMain(c, AcceptedOrder(o), o, 0);
    HookStarts(c, s, o, z);
    HookThenCrash(c, s, o, z);
    RelapsedIsIdle(s, o, z);
    var u := Relapsed(s, o, z);
    SkipAndAck(c, u, o, z);
    var t :| Reachable(c, t) && t.orders == u.orders && t.log == u.log[z := u.log[z].(place := Gone)];
    assert !LiveAt(t, Payment, Key(o, CreatedKind));
  }

  predicate OriginalLost(s: State) {
    exists o | o in s.orders :: s.orders[o].status.Failed? && !LiveAt(s, Payment, Key(o, CreatedKind))
  }

  /** The original message of a FAILED order can be lost exactly when an order can become FAILED. */
  lemma OriginalLostExactly(c: Config)
    ensures (exists s :: Reachable(c, s) && OriginalLost(s)) <==> (c.maxRetries == 0 || c.baseMs >= 1)
  {
    hide Reachable, LiveAt, GeneratedId;
    if c.maxRetries == 0 || c.baseMs >= 1 {
      FailedWithoutDeadLetter(c);
      var s, o :| Reachable(c, s) && o in s.orders && s.orders[o].status.Failed? &&
                  !LiveAt(s, Payment, Key(o, CreatedKind));
      assert OriginalLost(s);
    } else {
      forall s | Reachable(c, s) ensures !OriginalLost(s) { Hooks.NeverHooked(c, s); }
    }
  }

  lemma FirstIsAlone(o: OrderId)
    ensures Spent(AcceptedOrder(o), 0)
  {
  }
}
