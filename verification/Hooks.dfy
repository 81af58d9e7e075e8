// What the permanent-failure hook can do wrong, and exactly when: a notice for an order that is not
// FAILED, FAILED for an order that was charged, and PAID for an order that was FAILED.
module Hooks {
  import opened Schemas
  import opened Protocol
  import opened Steps
  import opened Invariant
  import opened Unconditional
  import opened Preservation
  import opened Guarantees
  import opened Exclusion
  import opened Limits
  import opened Scenarios

  // ---------------------------------------------------------------------
  // A failure notice does not imply a FAILED order
  // ---------------------------------------------------------------------

  /** A crash after the notice lets a redelivered copy succeed. */
  lemma NoticeWithoutFailure(c: Config)
    requires c.maxRetries == 0 || c.baseMs >= 1
    ensures exists s, o :: GeneratedId(o) && Reachable(c, s) && o in s.orders && s.orders[o].status.Paid? &&
                           Logged(s, Key(o, FailedKind))
  {
    hide Reachable, HookRuns, GeneratedId;
    var o := ORDER;
    OrderIsGenerated();
    Submit(c, o);
    var s, z := ClimbMain(c, AcceptedOrder(o), o, 0);
    HookStarts(c, s, o, z);
    var t, n := AnnounceThenPay(c, s, o, z);
    assert KeyOf(t.log[n].ev) == Key(o, FailedKind);
  }

  /** The instance dies after the notice; the redelivered copy then pays. */
  lemma AnnounceThenPay(c: Config, s: State, o: OrderId, z: nat) returns (t: State, n: nat)
    requires Idle(s, o, z) && NoHooks(s) && o in s.orders && s.orders[o].status.Pending?
    requires Reachable(c, Move(s, z, HookOpen(true)))
    ensures Reachable(c, t) && o in t.orders && t.orders[o].status.Paid?
    ensures n < |t.log| && t.log[n].ev == OrderPaymentFailed(o, 0)
  {
    hide Reachable, HookRuns;
    var e := OrderPaymentFailed(o, 0);
    var s1 := Move(s, z, HookOpen(true));
    ReachStep(c, s1, At(z, HookPublish(0)));
    var s2 := Move(Emit(s1, Published(e)), z, HookAnnounced(true));
    Crashed(c, s2, z);
    var s3 := Move(s2, z, Ready);
    n := |s3.log| - 1;
    assert s3.log[n].ev == e && n != z;
    assert Idle(s3, o, z) && NoHooks(s3);
    assert !HookRuns(s3, o) by { NoHookRuns(s3, o); }
    t := Pay(c, s3, o, z);
  }

  /** The hook has not announced anything and no order has failed. */
  predicate NoHookYet(s: State) {
    (forall i | 0 <= i < |s.log| :: !InHook(s.log[i].place) && !s.log[i].ev.OrderPaymentFailed?) &&
    forall o | o in s.orders :: !s.orders[o].status.Failed?
  }

  /** If the last main retry never leaves its queue, the hook never runs. */
  predicate HookNeverRuns(c: Config) {
    c.maxRetries > 0 && c.baseMs == 0
  }

  lemma NoHookStep(c: Config, s: State, i: nat, step: Step)
    requires Core(c, s) && AllHalt(c, s) && NoHookYet(s) && HookNeverRuns(c)
    requires i < |s.log| && StepEnabled(c, s, i, step)
    ensures NoHookYet(ApplyStep(c, s, i, step))
  {
    hide Core, AllHalt, ApplyStep, StepEnabled, Added;
    var t := ApplyStep(c, s, i, step);
    StepLog(c, s, i, step);
    NotHooked(c, s, i, step);
    NoNoticeAdded(c, s, i, step);
    forall j | 0 <= j < |t.log| ensures !InHook(t.log[j].place) && !t.log[j].ev.OrderPaymentFailed? {
      if j >= |s.log| { assert t.log[j] == Added(c, s, i, step)[j - |s.log|]; }
      else if j != i { assert t.log[j] == s.log[j]; }
    }
    if step.Commit? { CommitFailsNone(c, s, i, step.ch); }
    else if !step.HookCommit? { OnlyCommitsWrite(c, s, i, step); }
  }

  lemma NotHooked(c: Config, s: State, i: nat, step: Step)
    requires AllHalt(c, s) && NoHookYet(s) && HookNeverRuns(c) && i < |s.log| && StepEnabled(c, s, i, step)
    ensures var t := ApplyStep(c, s, i, step);
            i < |t.log| && !InHook(t.log[i].place) && !step.HookCommit? && !step.HookPublish?
  {
    hide Process, Held, HookRuns, PaymentRuns, HasNote, Published, Fanout, RetryCopy, Update, TextFor;
    assert Halts(c, s.log[i]);
  }

  lemma NoNoticeAdded(c: Config, s: State, i: nat, step: Step)
    requires Core(c, s) && NoHookYet(s) && i < |s.log| && StepEnabled(c, s, i, step)
    ensures forall m | m in Added(c, s, i, step) :: !InHook(m.place) && !m.ev.OrderPaymentFailed?
  {
    hide Core, Process, Held, HookRuns, PaymentRuns, HasNote, Budget, Direct, RetryDelayMs, EventOk;
    if s.log[i].place.Publishing? && s.log[i].place.todo != [] { OneStored(c, s, i); }
  }

  lemma CommitFailsNone(c: Config, s: State, i: nat, ch: Choice)
    requires i < |s.log| && StepEnabled(c, s, i, Commit(ch))
    ensures var t := ApplyStep(c, s, i, Commit(ch));
            forall o | o in t.orders && t.orders[o].status.Failed? :: o in s.orders && s.orders[o].status.Failed?
  {
    hide Process;
  }

  lemma {:induction false} NoHookRun(c: Config, s: State, run: seq<Action>)
    requires Core(c, s) && AllHalt(c, s) && NoHookYet(s) && HookNeverRuns(c) && Legal(c, s, run)
    ensures NoHookYet(Exec(c, s, run))
    decreases |run|
  {
    hide Core, AllHalt, ApplyStep, StepEnabled, NoHookYet, Keeps, HookNeverRuns;
    if run != [] {
      var t := Apply(c, s, run[0]);
      ActionCore(c, s, run[0]);
      HaltStep(c, s, run[0]);
      if run[0].At? { NoHookStep(c, s, run[0].i, run[0].step); } else { NoHookApi(c, s, run[0]); }
      NoHookRun(c, t, run[1..]);
    }
  }

  lemma NoHookApi(c: Config, s: State, a: Action)
    requires NoHookYet(s) && Enabled(c, s, a) && !a.At?
    ensures NoHookYet(Apply(c, s, a))
  {
  }

  lemma NeverHooked(c: Config, s: State)
    requires Reachable(c, s) && HookNeverRuns(c)
    ensures NoHookYet(s)
  {
    hide Core, HookNeverRuns;
    var run :| Legal(c, Init, run) && Exec(c, Init, run) == s;
    InitCore(c);
    NoHookRun(c, Init, run);
  }

  /** The customer of an order that is not FAILED has been sent a failure notice. */
  predicate FalseNotice(s: State) {
    exists o | o in s.orders :: !s.orders[o].status.Failed? && Logged(s, Key(o, FailedKind))
  }

  /** A failure notice implies FAILED exactly when main retries exist but never come back. */
  lemma NoticeExactly(c: Config)
    ensures (exists s :: Reachable(c, s) && FalseNotice(s)) <==> (c.maxRetries == 0 || c.baseMs >= 1)
  {
    hide Reachable, Logged;
    if c.maxRetries == 0 || c.baseMs >= 1 {
      NoticeWithoutFailure(c);
      hide GeneratedId;
      var s, o :| Reachable(c, s) && o in s.orders && s.orders[o].status.Paid? && Logged(s, Key(o, FailedKind));
      assert FalseNotice(s);
    } else {
      forall s | Reachable(c, s) ensures !FalseNotice(s) {
        NeverHooked(c, s);
        forall o ensures !Logged(s, Key(o, FailedKind)) { NoticesAreLogged(s, o); }
      }
    }
  }

  lemma NoticesAreLogged(s: State, o: OrderId)
    requires NoHookYet(s)
    ensures !Logged(s, Key(o, FailedKind))
  {
  }

  // ---------------------------------------------------------------------
  // When hook and payment can overwrite each other
  // ---------------------------------------------------------------------

  /** An order marked FAILED although its customer was charged. */
  predicate ChargeLost(s: State) {
    exists o | o in s.orders :: s.orders[o].status.Failed? && s.orders[o].payment.Some?
  }

  /** A step takes an order out of FAILED. */
  predicate FailureUndone(s: State, t: State) {
    exists o | o in s.orders && o in t.orders :: s.orders[o].status.Failed? && !t.orders[o].status.Failed?
  }

  /** No payment copy is ever doubled: there are no main retries, and a not-ready retry is either
      not allowed or never comes back. */
  predicate OneShot(c: Config) {
    c.maxRetries == 0 && (c.notreadyMax == 0 || c.notreadyMs == 0)
  }

  predicate Harmless(c: Config) {
    c.exclusive || HookNeverRuns(c) || OneShot(c)
  }

  /** The hook reads PENDING through z, copy x charges the order, and the hook has sent its notice. */
  lemma Overtaken(c: Config, s: State, o: OrderId, x: nat, z: nat) returns (t: State)
    requires !c.exclusive && Reachable(c, s) && Idle(s, o, x) && Idle(s, o, z) && x != z
    requires s.log[z].rc == c.maxRetries && o in s.orders && s.orders[o].status.Pending?
    ensures Reachable(c, t) && z < |t.log| && t.log[z].place == HookAnnounced(true) && t.log[z].ev.order == o
    ensures o in t.orders && t.orders[o].status.Paid? && t.orders[o].payment == Some(7)
  {
    hide Reachable, HookRuns, PaymentRuns;
    HookStarts(c, s, o, z);
    var s1 := Move(s, z, HookOpen(true));
    assert Idle(s1, o, x);
    t := Pay(c, s1, o, x);
    ReachStep(c, t, At(z, HookPublish(0)));
    t := Move(Emit(t, Published(OrderPaymentFailed(o, 0))), z, HookAnnounced(true));
  }

  /** Then the hook overwrites PAID. */
  lemma Race(c: Config, s: State, o: OrderId, x: nat, z: nat)
    requires !c.exclusive && Reachable(c, s) && Idle(s, o, x) && Idle(s, o, z) && x != z
    requires s.log[z].rc == c.maxRetries && o in s.orders && s.orders[o].status.Pending?
    ensures exists t :: Reachable(c, t) && ChargeLost(t)
  {
    hide Reachable;
    var t := Overtaken(c, s, o, x, z);
    var u := Apply(c, t, At(z, HookCommit));
    ReachStep(c, t, At(z, HookCommit));
    assert u.orders[o].status.Failed? && u.orders[o].payment == Some(7);
  }

  /** Copy x reads PENDING, the hook marks the order FAILED through z, x overwrites it with PAID. */
  lemma RaceBack(c: Config, s: State, o: OrderId, x: nat, z: nat)
    requires !c.exclusive && Reachable(c, s) && Idle(s, o, x) && Idle(s, o, z) && x != z
    requires s.log[z].rc == c.maxRetries && o in s.orders && s.orders[o] == Row(Pending, None, None)
    ensures exists t, a :: Reachable(c, t) && Enabled(c, t, a) && FailureUndone(t, Apply(c, t, a))
  {
    hide Reachable, Published, PaymentRuns;
    BothRead(c, s, o, x, z);
    var s1 := Move(Move(s, x, Seen(Some(s.orders[o]))), z, HookOpen(true));
    HookFinishes(c, s1, o, z);
    PaysAnyway(c, Finished(s1, o, z), o, x);
  }

  lemma BothRead(c: Config, s: State, o: OrderId, x: nat, z: nat)
    requires !c.exclusive && Reachable(c, s) && Idle(s, o, x) && Idle(s, o, z) && x != z
    requires s.log[z].rc == c.maxRetries && o in s.orders && s.orders[o].status.Pending?
    ensures Reachable(c, Move(Move(s, x, Seen(Some(s.orders[o]))), z, HookOpen(true)))
  {
    hide Reachable, HookRuns, PaymentRuns;
    FailAttempt(c, s, o, z);
    var s1 := Move(s, z, Failing(Other));
    assert Idle(s1, o, x);
    ReadOrder(c, s1, o, x);
    var seen := Seen(Some(s.orders[o]));
    var s2 := Move(s1, x, seen);
    ReachStep(c, s2, At(z, HookRead));
    var s3 := Move(s2, z, HookOpen(true));
    assert s3.log == Move(Move(s, x, seen), z, HookOpen(true)).log;
  }

  lemma PaysAnyway(c: Config, s: State, o: OrderId, x: nat)
    requires x < |s.log| && s.log[x].queue.Payment? && s.log[x].ev == OrderCreated(o, NeverFail)
    requires s.log[x].place == Seen(Some(Row(Pending, None, None))) && o in s.orders && s.orders[o].status.Failed?
    ensures exists a :: Enabled(c, s, a) && FailureUndone(s, Apply(c, s, a))
  {
    var ch := Choice(false, 7, 0, 0);
    var t := Apply(c, s, At(x, Commit(ch)));
    assert t.orders[o].status.Paid?;
  }

  /** A duplicate of one copy is all it takes, and any retry followed by a crash makes one. */
  lemma TwoCopies(c: Config) returns (s: State, x: nat, z: nat)
    requires !Harmless(c)
    ensures Reachable(c, s) && Idle(s, ORDER, x) && Idle(s, ORDER, z) && x != z && s.log[z].rc == c.maxRetries
    ensures ORDER in s.orders && s.orders[ORDER] == Row(Pending, None, None) && s.guard == map[]
  {
    hide Reachable, Bounced;
    var o := ORDER;
    Submit(c, o);
    if c.maxRetries > 0 {
      var s0 := AcceptedOrder(o);
      FailAttempt(c, s0, o, 0);
      ComeBack(c, s0, 0, Other, Ready);
      StillIdle(c, s0, o, 0, Other, Ready);
      BouncedTables(c, s0, 0, Other, Ready);
      s, z := ClimbMain(c, Bounced(c, s0, 0, Other, Ready), o, |s0.log| + 1);
      x := 0;
    } else {
      var s0 := Submitted(o);
      FindNothing(c, s0, o, 0) by { NoHookRuns(s0, o); }
      ComeBack(c, s0, 0, NotReady, Ready);
      StillIdle(c, s0, o, 0, NotReady, Ready);
      BouncedTables(c, s0, 0, NotReady, Ready);
      var t := Bounced(c, s0, 0, NotReady, Ready);
      s, x, z := Apply(c, t, ApiCommit(o)), 0, |s0.log| + 1;
      ReachStep(c, t, ApiCommit(o));
    }
  }

  // ---------------------------------------------------------------------
  // When they cannot
  // ---------------------------------------------------------------------

  /** Each order has at most one payment copy that is not stranded. */
  predicate Sole(s: State) {
    forall i, j | 0 <= i < j < |s.log| && s.log[i].queue.Payment? && s.log[j].queue.Payment? ::
      s.log[i].place == Waiting(0) || s.log[j].place == Waiting(0) || s.log[i].ev.order != s.log[j].ev.order
  }

  lemma SoleKept(c: Config, s: State, a: Action)
    requires Core(c, s) && Sole(s) && Enabled(c, s, a) && OneShot(c)
    ensures Sole(Apply(c, s, a))
  {
    hide Core, ApplyStep, StepEnabled, Added, OneShot;
    if a.ApiPublish? {
      forall j | 0 <= j < |s.log| && s.log[j].queue.Payment? ensures s.log[j].ev.order != a.o {
        NotYetPublished(c, s, a.o, j);
      }
    } else if a.At? {
      var t := ApplyStep(c, s, a.i, a.step);
      StepLog(c, s, a.i, a.step);
      StuckStays(c, s, a.i, a.step);
      OnlyStrandedAdded(c, s, a.i, a.step);
      forall j | |s.log| <= j < |t.log| ensures t.log[j].queue.Payment? ==> t.log[j].place == Waiting(0) {
        assert t.log[j] == Added(c, s, a.i, a.step)[j - |s.log|];
      }
      assert forall j | 0 <= j < |s.log| :: t.log[j].queue == s.log[j].queue && t.log[j].ev == s.log[j].ev;
      assert forall j | 0 <= j < |s.log| && j != a.i :: t.log[j] == s.log[j];
    }
  }

  lemma NotYetPublished(c: Config, s: State, o: OrderId, j: nat)
    requires Core(c, s) && Enabled(c, s, ApiPublish(o)) && j < |s.log| && s.log[j].queue.Payment?
    ensures s.log[j].ev.order != o
  {
    hide Core, Announced, GuardShape, PlaceShape;
    CopyFacts(c, s, j);
  }

  /** Nothing but order.created, which the API publishes, and stranded retries go to payment. */
  lemma OnlyStrandedAdded(c: Config, s: State, i: nat, step: Step)
    requires Core(c, s) && i < |s.log| && StepEnabled(c, s, i, step) && OneShot(c)
    ensures forall m | m in Added(c, s, i, step) :: m.queue.Payment? ==> m.place == Waiting(0)
  {
    hide Core, Process, HasNote, Held, PaymentRuns, HookRuns, EventOk, Announced, GuardShape;
    CopyFacts(c, s, i);
    if s.log[i].place.Publishing? && s.log[i].place.todo != [] { OneStored(c, s, i); }
  }

  lemma SoleNeverMeet(s: State)
    requires Sole(s)
    ensures NeverMeet(s)
  {
  }

  lemma {:induction false} SoleRuns(c: Config, s: State, run: seq<Action>)
    requires Core(c, s) && Inv(Exclusive(c), s) && Sole(s) && Legal(c, s, run) && OneShot(c)
    ensures Inv(Exclusive(c), Exec(c, s, run)) && NeverMeet(Exec(c, s, run))
    decreases |run|
  {
    hide Inv, Core, Enabled, Apply, Keeps, OneShot;
    SoleNeverMeet(s);
    if run != [] {
      ActionWithoutMeeting(c, s, run[0]);
      ActionInv(Exclusive(c), s, run[0]);
      ActionCore(c, s, run[0]);
      SoleKept(c, s, run[0]);
      SoleRuns(c, Apply(c, s, run[0]), run[1..]);
    }
  }

  lemma InvIsHarmless(c: Config, s: State)
    requires Inv(c, s)
    ensures !ChargeLost(s)
    ensures forall a | Enabled(c, s, a) :: !FailureUndone(s, Apply(c, s, a))
  {
    hide Inv, Enabled, Apply, Keeps;
    TableFacts(c, s);
    forall o | o in s.orders ensures !(s.orders[o].status.Failed? && s.orders[o].payment.Some?) {
      assert RowOk(s, o);
    }
    forall a | Enabled(c, s, a) ensures !FailureUndone(s, Apply(c, s, a)) { StepExtends(c, s, a); }
  }

  lemma OneShotExclusive(c: Config, s: State)
    requires OneShot(c) && Reachable(c, s)
    ensures Inv(Exclusive(c), s) && NeverMeet(s)
  {
    hide Inv, Core, OneShot;
    var run :| Legal(c, Init, run) && Exec(c, Init, run) == s;
    InitInv(Exclusive(c));
    InitCore(c);
    SoleRuns(c, Init, run);
  }

  /** Where the hook never runs, keeping it apart forbids nothing. */
  lemma UnhookedStep(c: Config, s: State, i: nat, step: Step)
    requires HookNeverRuns(c) && NoHookYet(s) && AllHalt(c, s) && i < |s.log| && StepEnabled(c, s, i, step)
    ensures StepEnabled(Exclusive(c), s, i, step)
  {
    hide Process, HasNote, Held, PaymentRuns;
    SameProcess(c, s.log[i]);
    assert Halts(c, s.log[i]);
  }

  lemma HarmlessAction(c: Config, s: State, a: Action)
    requires Harmless(c) && Reachable(c, s) && Enabled(c, s, a)
    ensures Enabled(Exclusive(c), s, a) && Apply(Exclusive(c), s, a) == Apply(c, s, a)
  {
    hide Inv, ApplyStep, StepEnabled, Reachable, OneShot, HookNeverRuns, Halts;
    if c.exclusive {
      assert Exclusive(c) == c;
    } else if HookNeverRuns(c) {
      if a.At? {
        NeverHooked(c, s);
        forall i | 0 <= i < |s.log| ensures Halts(c, s.log[i]) { HaltsAtZero(c, s, i); }
        UnhookedStep(c, s, a.i, a.step);
        SameEffect(c, s, a.i, a.step);
      }
    } else {
      OneShotExclusive(c, s);
      ActionWithoutMeeting(c, s, a);
    }
  }

  lemma {:induction false} HarmlessRun(c: Config, s: State, run: seq<Action>)
    requires Harmless(c) && Reachable(c, s) && Legal(c, s, run)
    ensures Legal(Exclusive(c), s, run) && Exec(Exclusive(c), s, run) == Exec(c, s, run)
    decreases |run|
  {
    hide Enabled, Apply, Reachable, Harmless;
    if run != [] {
      HarmlessAction(c, s, run[0]);
      ReachStep(c, s, run[0]);
      HarmlessRun(c, Apply(c, s, run[0]), run[1..]);
    }
  }

  /** A harmless system is an exclusive one. */
  lemma HarmlessReach(c: Config, s: State)
    requires Harmless(c) && Reachable(c, s)
    ensures Reachable(Exclusive(c), s) && Inv(Exclusive(c), s)
  {
    hide Inv, Enabled, Apply, Harmless;
    var run :| Legal(c, Init, run) && Exec(c, Init, run) == s;
    assert Reachable(c, Init) by { Start(c); }
    HarmlessRun(c, Init, run);
    ReachableInv(Exclusive(c), s);
  }

  lemma NothingLost(c: Config, s: State)
    requires Harmless(c) && Reachable(c, s)
    ensures !ChargeLost(s)
    ensures forall a | Enabled(c, s, a) :: !FailureUndone(s, Apply(c, s, a))
  {
    hide Inv, ChargeLost, FailureUndone, Enabled, Apply, Reachable, Harmless;
    HarmlessReach(c, s);
    InvIsHarmless(Exclusive(c), s);
    forall a | Enabled(c, s, a) ensures !FailureUndone(s, Apply(c, s, a)) { HarmlessAction(c, s, a); }
  }

  lemma {:induction false} SameRun(c: Config, s: State, run: seq<Action>)
    requires Legal(c, s, run) && Legal(Exclusive(c), s, run)
    ensures Exec(Exclusive(c), s, run) == Exec(c, s, run)
    decreases |run|
  {
    hide ApplyStep, StepEnabled;
    if run != [] {
      if run[0].At? { SameEffect(c, s, run[0].i, run[0].step); }
      assert Apply(c, s, run[0]) == Apply(Exclusive(c), s, run[0]);
      SameRun(c, Apply(c, s, run[0]), run[1..]);
    }
  }

  /** Keeping hook and payment apart forbids no run exactly under these settings. */
  lemma RunsExclusiveExactly(c: Config)
    ensures (forall run | Legal(c, Init, run) :: Legal(Exclusive(c), Init, run)) <==> Harmless(c)
  {
    hide Reachable, ChargeLost, Harmless, Enabled, Apply;
    if Harmless(c) {
      forall run | Legal(c, Init, run) ensures Legal(Exclusive(c), Init, run) {
        Start(c);
        HarmlessRun(c, Init, run);
      }
    } else {
      var s, x, z := TwoCopies(c);
      NotExclusive(c);
      Race(c, s, ORDER, x, z);
      var t :| Reachable(c, t) && ChargeLost(t);
      ForbiddenRun(c, t);
    }
  }

  lemma ForbiddenRun(c: Config, t: State)
    requires Reachable(c, t) && ChargeLost(t)
    ensures exists run :: Legal(c, Init, run) && !Legal(Exclusive(c), Init, run)
  {
    hide ChargeLost, Enabled, Apply;
    var run :| Legal(c, Init, run) && Exec(c, Init, run) == t;
    if Legal(Exclusive(c), Init, run) {
      SameRun(c, Init, run);
      assert Reachable(Exclusive(c), t);
      NothingLost(Exclusive(c), t);
      assert false;
    }
  }

  /** The hook never marks a charged order FAILED exactly when it is kept apart from payments on the
      same order, never runs, or never finds a second payment copy. */
  lemma HookSafeExactly(c: Config)
    ensures (forall s | Reachable(c, s) :: !ChargeLost(s)) <==> Harmless(c)
  {
    hide Reachable, ChargeLost, Harmless;
    if Harmless(c) {
      forall s | Reachable(c, s) ensures !ChargeLost(s) {
        NothingLost(c, s);
      }
    } else {
      var s, x, z := TwoCopies(c);
      assert !c.exclusive by { assert !Harmless(c); NotExclusive(c); }
      Race(c, s, ORDER, x, z);
    }
  }

  lemma NotExclusive(c: Config)
    requires !Harmless(c)
    ensures !c.exclusive
  {
  }

  /** A FAILED order stays FAILED under exactly the same condition. */
  lemma FailureFinalExactly(c: Config)
    ensures (forall s, a | Reachable(c, s) && Enabled(c, s, a) :: !FailureUndone(s, Apply(c, s, a))) <==> Harmless(c)
  {
    hide Reachable, FailureUndone, Harmless, Enabled, Apply;
    if Harmless(c) {
      forall s, a | Reachable(c, s) && Enabled(c, s, a) ensures !FailureUndone(s, Apply(c, s, a)) {
        NothingLost(c, s);
      }
    } else {
      var s, x, z := TwoCopies(c);
      NotExclusive(c);
      RaceBack(c, s, ORDER, x, z);
    }
  }
}
