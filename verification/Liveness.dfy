// Nothing ever waits for good: while a message is in flight some instance can go on without a
// fault, and every state has a fault-free continuation that brings all of it to an end.
module Liveness {
  import opened Schemas
  import opened Protocol
  import opened Steps
  import opened Unconditional
  import opened Guarantees
  import Limits
  import Termination

  /** A step that needs no crash, no failing call and no lost race. A payment that is decided to
      fail is no fault. */
  predicate Forward(s: State, a: Action) {
    a.At? && a.i < |s.log| &&
    match a.step
    case Crash => false
    case Escape => false
    case Conflict => false
    case HookAbort => false
    case PublishRaise(_) => false
    case Raise(_) => s.log[a.i].place.Seen?
    case _ => true
  }

  predicate AllForward(c: Config, s: State, run: seq<Action>)
    requires Legal(c, s, run)
    decreases |run|
  {
    run == [] || (Forward(s, run[0]) && AllForward(c, Apply(c, s, run[0]), run[1..]))
  }

  // ---------------------------------------------------------------------
  // No deadlock
  // ---------------------------------------------------------------------

  /** An open transaction can go on, or the hook that keeps it from reading can. */
  lemma TransactionMoves(c: Config, s: State, i: nat) returns (a: Action)
    requires i < |s.log| && InTxn(s.log[i].place)
    ensures Enabled(c, s, a) && Forward(s, a)
  {
    hide HasNote, Process;
    var m := s.log[i];
    if m.place.Seen? {
      var ch := Choice(false, 0, 0, 0);
      a := At(i, if Process(c, m.queue, m.ev, m.rc + 1, m.place.row, ch).Returned? then Commit(ch) else Raise(ch));
    } else if m.queue.Payment? && HookRuns(s, m.ev.order) {
      var j :| 0 <= j < |s.log| && InHook(s.log[j].place) && s.log[j].ev.order == m.ev.order;
      a := At(j, if s.log[j].place.HookOpen? then HookPublish(0) else HookCommit);
    } else {
      a := At(i, if m.queue.Notification? && HasNote(s, KeyOf(m.ev)) then Suppress else Read);
    }
  }

  /** A delivered copy can go on, or the transaction that holds its guard key can. */
  lemma DeliveryMoves(c: Config, s: State, i: nat) returns (a: Action)
    requires i < |s.log| && s.log[i].place.Taken?
    ensures Enabled(c, s, a) && Forward(s, a)
  {
    var slot := SlotOf(s.log[i]);
    if Held(s, slot) && slot !in s.guard {
      var j :| 0 <= j < |s.log| && InTxn(s.log[j].place) && SlotOf(s.log[j]) == slot;
      a := TransactionMoves(c, s, j);
    } else {
      a := At(i, if slot in s.guard then Duplicate else Insert);
    }
  }

  /** A failure can be handled, or the payment that keeps the hook from reading can go on. */
  lemma FailureMoves(c: Config, s: State, i: nat) returns (a: Action)
    requires i < |s.log| && s.log[i].place.Failing?
    ensures Enabled(c, s, a) && Forward(s, a)
  {
    hide Budget;
    var m := s.log[i];
    if Budget(c, m, m.place.fault) {
      a := At(i, RetryPublish);
    } else if !(m.queue.Payment? && m.place.fault.Other?) {
      a := At(i, GiveUp);
    } else if PaymentRuns(s, m.ev.order) {
      var j :| 0 <= j < |s.log| && s.log[j].queue.Payment? && s.log[j].place.Seen? && s.log[j].ev.order == m.ev.order;
      a := TransactionMoves(c, s, j);
    } else {
      a := At(i, HookRead);
    }
  }

  lemma NoDeadlock(c: Config, s: State, i: nat) returns (a: Action)
    requires Reachable(c, s) && i < |s.log| && !s.log[i].place.Dead? && !s.log[i].place.Gone?
    requires s.log[i].place.Waiting? ==> Delays(c)
    ensures Enabled(c, s, a) && Forward(s, a)
  {
    hide Reachable, Held, HookRuns, PaymentRuns, HasNote, Budget, Process;
    match s.log[i].place {
      case Ready => a := At(i, Take);
      case Waiting(_) => RetryExpires(c, s, i); a := At(i, Expire);
      case Taken => a := DeliveryMoves(c, s, i);
      case Open => a := TransactionMoves(c, s, i);
      case Seen(_) => a := TransactionMoves(c, s, i);
      case Publishing(todo, _) => a := At(i, if todo == [] then Ack else PublishNext);
      case Suppressed => a := At(i, Ack);
      case Failing(_) => a := FailureMoves(c, s, i);
      case Retried => a := At(i, Ack);
      case HookOpen(_) => a := At(i, HookPublish(0));
      case HookAnnounced(_) => a := At(i, HookCommit);
      case Rejecting => a := At(i, Reject);
    }
  }

  // ---------------------------------------------------------------------
  // Everything can be brought to an end
  // ---------------------------------------------------------------------

  /** Fault-free steps lead from every reachable state to a quiet one: each lowers the weight,
      and one is always enabled. */
  lemma {:induction false} Completes(c: Config, s: State) returns (run: seq<Action>)
    requires Reachable(c, s) && Delays(c) && s.api == map[]
    ensures Legal(c, s, run) && AllForward(c, s, run) && Quiet(Exec(c, s, run))
    decreases Termination.Weight(c, s.log)
  {
    hide Reachable, Apply, Enabled, Forward, Delays;
    if Quiet(s) { return []; }
    var i :| 0 <= i < |s.log| && !s.log[i].place.Dead? && !s.log[i].place.Gone?;
    var a := NoDeadlock(c, s, i);
    ForwardWeighs(c, s, a);
    ReachStep(c, s, a);
    var rest := Completes(c, Apply(c, s, a));
    run := [a] + rest;
    assert run[1..] == rest;
  }

  lemma ForwardWeighs(c: Config, s: State, a: Action)
    requires Reachable(c, s) && Enabled(c, s, a) && Forward(s, a)
    ensures Termination.Weight(c, Apply(c, s, a).log) < Termination.Weight(c, s.log) && Apply(c, s, a).api == s.api
  {
    hide Core, Reachable, ApplyStep, StepEnabled;
    ReachableCore(c, s);
    Termination.ProgressDecreases(c, s, a.i, a.step);
    StepsLeaveRequests(c, s, a.i, a.step);
  }

  /** And it is not only some choice of steps that does: every fault-free run is at most as long as
      the weight of the state it starts from. */
  lemma {:induction false} ForwardRunsEnd(c: Config, s: State, run: seq<Action>)
    requires Reachable(c, s) && Legal(c, s, run) && AllForward(c, s, run)
    ensures |run| + Termination.Weight(c, Exec(c, s, run).log) <= Termination.Weight(c, s.log)
    ensures Exec(c, s, run).api == s.api
    decreases |run|
  {
    hide Reachable, Apply, Enabled, Forward;
    if run != [] {
      ForwardWeighs(c, s, run[0]);
      ReachStep(c, s, run[0]);
      ForwardRunsEnd(c, Apply(c, s, run[0]), run[1..]);
    }
  }

  /** No fault-free step is left to take. */
  ghost predicate Halted(c: Config, s: State) {
    forall a :: Enabled(c, s, a) ==> !Forward(s, a)
  }

  /** A fault-free run that cannot be extended, whatever steps it has chosen, has finished
      everything, and one can be extended until it has. */
  lemma HaltedIsQuiet(c: Config, s: State, run: seq<Action>)
    requires Reachable(c, s) && Delays(c) && s.api == map[] && Legal(c, s, run) && AllForward(c, s, run)
    ensures Halted(c, Exec(c, s, run)) <==> Quiet(Exec(c, s, run))
  {
    hide Reachable, Enabled, Forward, Delays;
    var t := Exec(c, s, run);
    ForwardRunsEnd(c, s, run);
    ReachRun(c, s, run);
    if !Quiet(t) {
      var i :| 0 <= i < |t.log| && !t.log[i].place.Dead? && !t.log[i].place.Gone?;
      var a := NoDeadlock(c, t, i);
    } else {
      forall a | Enabled(c, t, a) ensures !Forward(t, a) { QuietIsHalted(c, t, a); }
    }
  }

  lemma QuietIsHalted(c: Config, s: State, a: Action)
    requires Quiet(s) && Enabled(c, s, a)
    ensures !Forward(s, a)
  {
    hide Held, HookRuns, PaymentRuns, HasNote, Process, Budget;
  }

  ghost predicate CanFinish(c: Config, s: State) {
    exists run :: Legal(c, s, run) && Quiet(Exec(c, s, run))
  }

  /** With every request answered, the system can always finish what is in flight exactly when
      the retry delays that the settings allow are not zero. */
  lemma CompletionExactly(c: Config)
    ensures (forall s | Reachable(c, s) && s.api == map[] :: CanFinish(c, s)) <==> Delays(c)
  {
    hide Reachable, Delays, Quiet;
    if Delays(c) {
      forall s | Reachable(c, s) && s.api == map[] ensures CanFinish(c, s) {
        var run := Completes(c, s);
      }
    } else {
      var s := Strand(c);
      forall run | Legal(c, s, run) ensures !Quiet(Exec(c, s, run)) { StrandedIsNotQuiet(c, s, run); }
    }
  }

  lemma Strand(c: Config) returns (s: State)
    requires !Delays(c)
    ensures Reachable(c, s) && Limits.Stuck(s) && s.api == map[]
  {
    hide Reachable;
    if c.notreadyMs == 0 && c.notreadyMax > 0 {
      s := Limits.StrandNotReady(c);
    } else {
      s := Limits.StrandFailed(c);
    }
  }

  lemma StrandedIsNotQuiet(c: Config, s: State, run: seq<Action>)
    requires Legal(c, s, run) && Limits.Stuck(s)
    ensures !Quiet(Exec(c, s, run))
  {
    var i :| 0 <= i < |s.log| && s.log[i].place == Waiting(0);
    Limits.StuckForever(c, s, run, i);
  }

  /** Wherever the system is, each accepted order can still be brought to DRIVER_ASSIGNED, to
      FAILED, or to a state in which one of its own messages is in the dead-letter queue. */
  lemma OrdersComplete(c: Config, s: State, o: OrderId) returns (run: seq<Action>)
    requires Reachable(c, s) && Delays(c) && s.api == map[] && o in s.orders
    ensures Legal(c, s, run) && AllForward(c, s, run)
    ensures var t := Exec(c, s, run);
            o in t.orders &&
            (t.orders[o].status.DriverAssigned? || t.orders[o].status.Failed? ||
             DeadAt(t, Payment, Key(o, CreatedKind)) || DeadAt(t, Restaurant, Key(o, PaidKind)) ||
             DeadAt(t, Delivery, Key(o, ConfirmedKind)))
  {
    hide Reachable, Delays, DeadAt, Quiet;
    run := Completes(c, s);
    TablesAreKept(c, s, run);
    ReachRun(c, s, run);
    QuiescenceIsCompletion(c, Exec(c, s, run), o);
  }

}
