// What retries can cost: the bound on deliveries is attained, and a delay of zero strands a message.
module Limits {
  import opened Schemas
  import opened Protocol
  import opened Steps
  import opened Invariant
  import opened Unconditional
  import opened Guarantees
  import opened Scenarios

  // ---------------------------------------------------------------------
  // A zero delay strands a message
  // ---------------------------------------------------------------------

  /** A retry published without a TTL: a delay of zero becomes "no expiration". */
  predicate Stuck(s: State) {
    exists i | 0 <= i < |s.log| :: s.log[i].place == Waiting(0)
  }

  lemma {:induction false} StuckForever(c: Config, s: State, run: seq<Action>, i: nat)
    requires Legal(c, s, run) && i < |s.log| && s.log[i].place == Waiting(0)
    ensures i < |Exec(c, s, run).log| && Exec(c, s, run).log[i] == s.log[i]
    decreases |run|
  {
    hide Apply, Enabled;
    if run != [] {
      StuckStep(c, s, run[0], i);
      StuckForever(c, Apply(c, s, run[0]), run[1..], i);
    }
  }

  lemma StuckStep(c: Config, s: State, a: Action, i: nat)
    requires Enabled(c, s, a) && i < |s.log| && s.log[i].place == Waiting(0)
    ensures i < |Apply(c, s, a).log| && Apply(c, s, a).log[i] == s.log[i]
  {
    hide ApplyStep;
    if a.At? { StepLog(c, s, a.i, a.step); }
  }

  /** No message is ever stranded in a retry queue exactly when each kind of retry that is
      allowed at all has a delay of at least a millisecond. */
  lemma ExpiryExactly(c: Config)
    ensures (forall s | Reachable(c, s) :: !Stuck(s)) <==> Delays(c)
  {
    hide Reachable, Stuck;
    if Delays(c) {
      forall s | Reachable(c, s) ensures !Stuck(s) { NeverStuck(c, s); }
    } else if c.notreadyMs == 0 && c.notreadyMax > 0 {
      var s := StrandNotReady(c);
    } else {
      var s := StrandFailed(c);
    }
  }

  lemma NeverStuck(c: Config, s: State)
    requires Reachable(c, s) && Delays(c)
    ensures !Stuck(s)
  {
    hide Reachable;
    forall i | 0 <= i < |s.log| ensures s.log[i].place != Waiting(0) {
      if s.log[i].place.Waiting? { RetryExpires(c, s, i); }
    }
  }

  lemma StrandNotReady(c: Config) returns (s: State)
    requires c.notreadyMs == 0 && c.notreadyMax > 0
    ensures Reachable(c, s) && Stuck(s) && s.api == map[]
  {
    hide Reachable;
    var o := ORDER;
    Submit(c, o);
    FindNothing(c, Submitted(o), o, 0) by { NoHookRuns(Submitted(o), o); }
    var s1 := Move(Submitted(o), 0, Failing(NotReady));
    Parked(c, s1, 0);
    var s2 := Move(Emit(s1, [RetryCopy(c, s1.log[0], NotReady)]), 0, Retried);
    assert s2.log[|s1.log|].place == Waiting(0);
    ReachStep(c, s2, ApiCommit(o));
    s := Apply(c, s2, ApiCommit(o));
    assert s.api == map[];
  }

  lemma StrandFailed(c: Config) returns (s: State)
    requires c.baseMs == 0 && c.maxRetries > 0
    ensures Reachable(c, s) && Stuck(s) && s.api == map[]
  {
    hide Reachable;
    var o := ORDER;
    Submit(c, o);
    FailAttempt(c, AcceptedOrder(o), o, 0);
    var s1 := Move(AcceptedOrder(o), 0, Failing(Other));
    Parked(c, s1, 0);
    s := Move(Emit(s1, [RetryCopy(c, s1.log[0], Other)]), 0, Retried);
    assert s.log[|s1.log|].place == Waiting(0);
  }

  // ---------------------------------------------------------------------
  // What a zero delay cuts off
  // ---------------------------------------------------------------------

  /** A copy with a retry behind it that had no delay is still in its retry queue. */
  predicate Halts(c: Config, m: Copy) {
    (c.baseMs == 0 && m.rc > 0 ==> m.place == Waiting(0)) &&
    (c.notreadyMs == 0 && m.nr > 0 ==> m.place == Waiting(0)) &&
    (c.notreadyMs == 0 && m.nr == 0 ==> m.hops <= m.rc)
  }

  predicate AllHalt(c: Config, s: State) {
    forall i | 0 <= i < |s.log| :: Halts(c, s.log[i])
  }

  lemma HaltStep(c: Config, s: State, a: Action)
    requires AllHalt(c, s) && Enabled(c, s, a)
    ensures AllHalt(c, Apply(c, s, a))
  {
    hide ApplyStep, StepEnabled, Added;
    if a.At? {
      var t := ApplyStep(c, s, a.i, a.step);
      StepLog(c, s, a.i, a.step);
      StuckStays(c, s, a.i, a.step);
      AddedHalt(c, s, a.i, a.step);
      forall j | 0 <= j < |t.log| ensures Halts(c, t.log[j]) {
        if j >= |s.log| { assert t.log[j] == Added(c, s, a.i, a.step)[j - |s.log|]; }
        else if j != a.i { assert t.log[j] == s.log[j]; }
        else { assert Halts(c, s.log[j]); }
      }
    }
  }

  lemma StuckStays(c: Config, s: State, i: nat, step: Step)
    requires i < |s.log| && StepEnabled(c, s, i, step)
    ensures s.log[i].place != Waiting(0)
  {
    hide Process, Held, HookRuns, PaymentRuns, HasNote, Budget;
  }

  lemma AddedHalt(c: Config, s: State, i: nat, step: Step)
    requires AllHalt(c, s) && i < |s.log| && StepEnabled(c, s, i, step)
    ensures forall m | m in Added(c, s, i, step) :: Halts(c, m)
  {
    hide Process, Held, HookRuns, PaymentRuns, HasNote, Budget, Direct, Pow2;
    StuckStays(c, s, i, step);
    assert Halts(c, s.log[i]);
    if c.baseMs == 0 { assert c.baseMs * Pow2(s.log[i].rc) == 0; }
  }

  lemma {:induction false} HaltRun(c: Config, s: State, run: seq<Action>)
    requires AllHalt(c, s) && Legal(c, s, run)
    ensures AllHalt(c, Exec(c, s, run))
    decreases |run|
  {
    hide Apply, Enabled, AllHalt;
    if run != [] {
      HaltStep(c, s, run[0]);
      HaltRun(c, Apply(c, s, run[0]), run[1..]);
    }
  }

  lemma HaltsAtZero(c: Config, s: State, i: nat)
    requires Reachable(c, s) && i < |s.log|
    ensures Halts(c, s.log[i])
  {
    var run :| Legal(c, Init, run) && Exec(c, Init, run) == s;
    HaltRun(c, Init, run);
  }

  // ---------------------------------------------------------------------
  // The retry bound is attained
  // ---------------------------------------------------------------------

  lemma {:induction false} ClimbBoth(c: Config, s: State, o: OrderId, y: nat) returns (t: State, z: nat)
    requires Delays(c) && Reachable(c, s) && Idle(s, o, y) && NoHooks(s) && o !in s.orders
    requires s.log[y].rc <= c.maxRetries && s.log[y].nr <= c.notreadyMax
    requires s.log[y].hops == s.log[y].rc * (c.notreadyMax + 1) + s.log[y].nr
    ensures Reachable(c, t) && z < |t.log| && t.log[z].place.Ready?
    ensures t.log[z].hops + 1 == (c.maxRetries + 1) * (c.notreadyMax + 1)
    decreases c.maxRetries - s.log[y].rc, c.notreadyMax - s.log[y].nr
  {
    hide Reachable, Bounced, RetryDelayMs;
    var m := s.log[y];
    if m.nr < c.notreadyMax {
      FindNothing(c, s, o, y);
      ComeBack(c, s, y, NotReady, Retried);
      StillIdle(c, s, o, y, NotReady, Retried);
      BouncedTables(c, s, y, NotReady, Retried);
      t, z := ClimbBoth(c, Bounced(c, s, y, NotReady, Retried), o, |s.log| + 1);
    } else if m.rc < c.maxRetries {
      FailAttempt(c, s, o, y);
      ComeBack(c, s, y, Other, Retried);
      StillIdle(c, s, o, y, Other, Retried);
      BouncedTables(c, s, y, Other, Retried);
      OneMoreRound(m.rc, c.notreadyMax + 1);
      t, z := ClimbBoth(c, Bounced(c, s, y, Other, Retried), o, |s.log| + 1);
    } else {
      t, z := s, y;
      OneMoreRound(c.maxRetries, c.notreadyMax + 1);
    }
  }

  lemma OneMoreRound(a: nat, k: nat)
    ensures (a + 1) * k == a * k + k
  {
  }

  /** A copy that is delivered, or can be, after as many hops as the budgets allow together. */
  ghost predicate Exhausts(c: Config, s: State) {
    Reachable(c, s) && exists i | 0 <= i < |s.log| ::
      !s.log[i].place.Waiting? && s.log[i].hops + 1 == (c.maxRetries + 1) * (c.notreadyMax + 1)
  }

  /** The two budgets multiply: one lineage really can be delivered (R + 1) * (N + 1) times, exactly
      when no retry that the settings allow strands it. */
  lemma RetryBoundAttained(c: Config)
    ensures (exists s :: Exhausts(c, s)) <==> Delays(c)
  {
    hide Reachable;
    if Delays(c) {
      Submit(c, ORDER);
      var s, i := ClimbBoth(c, Submitted(ORDER), ORDER, 0);
      assert Exhausts(c, s);
    } else {
      forall s ensures !Exhausts(c, s) { if Reachable(c, s) { CutShort(c, s); } }
    }
  }

  lemma CutShort(c: Config, s: State)
    requires Reachable(c, s) && !Delays(c)
    ensures !Exhausts(c, s)
  {
    hide Reachable;
    forall i | 0 <= i < |s.log| && !s.log[i].place.Waiting?
      ensures s.log[i].hops + 1 < (c.maxRetries + 1) * (c.notreadyMax + 1)
    {
      HaltsAtZero(c, s, i);
      RetryBound(c, s, i);
      HopsWithinCounts(c, s, i);
      var r, n := c.maxRetries, c.notreadyMax;
      if c.notreadyMs == 0 && n > 0 { assert (r + 1) * (n + 1) >= (r + 1) * 2; }
      if c.baseMs == 0 && r > 0 { assert (r + 1) * (n + 1) >= 2 * (n + 1); }
    }
  }

  lemma HopsWithinCounts(c: Config, s: State, i: nat)
    requires Reachable(c, s) && i < |s.log|
    ensures s.log[i].hops <= s.log[i].rc * (c.notreadyMax + 1) + s.log[i].nr
  {
    hide Core, Reachable, PlaceShape, EventOk, Announced, GuardShape;
    ReachableCore(c, s);
    CopyFacts(c, s, i);
  }
}
