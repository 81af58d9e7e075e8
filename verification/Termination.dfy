// The system runs down: a weight over all copies falls on every step but redelivery, although
// a retry expiry fans out an extra notification copy and a commit adds downstream copies.
module Termination {
  import opened Schemas
  import opened Protocol
  import opened Steps
  import opened Invariant
  import opened Unconditional

  // ---------------------------------------------------------------------
  // Weights
  // ---------------------------------------------------------------------

  function Rank(w: Worker): nat {
    match w
    case Payment => 3
    case Restaurant => 2
    case Delivery => 1
    case Notification => 0
  }

  /** Weight of a copy in a work queue with a main and b not-ready retries left. */
  function ReadyWeight(c: Config, w: Worker, a: nat, b: nat): nat
    decreases Rank(w), a, b, 2
  {
    8 + OutWeight(c, w) + FailWeight(c, w, a, b)
  }

  /** What publishing the worker's outgoing event adds. */
  function OutWeight(c: Config, w: Worker): nat
    decreases Rank(w), 0, 0, 0
  {
    match w
    case Payment =>
      1 + ReadyWeight(c, Restaurant, c.maxRetries, c.notreadyMax) + ReadyWeight(c, Notification, c.maxRetries, c.notreadyMax)
    case Restaurant =>
      1 + ReadyWeight(c, Delivery, c.maxRetries, c.notreadyMax) + ReadyWeight(c, Notification, c.maxRetries, c.notreadyMax)
    case Delivery => 1 + ReadyWeight(c, Notification, c.maxRetries, c.notreadyMax)
    case Notification => 0
  }

  /** What handling a failure may still cost: the hook's notice and either kind of retry. */
  function FailWeight(c: Config, w: Worker, a: nat, b: nat): nat
    decreases Rank(w), a, b, 1
  {
    4 + HookWeight(c, w)
    + (if a > 0 then WaitWeight(c, w, a - 1, c.notreadyMax) else 0)
    + (if b > 0 then WaitWeight(c, w, a, b - 1) else 0)
  }

  function HookWeight(c: Config, w: Worker): nat
    decreases Rank(w), 0, 0, 0
  {
    if w.Payment? then ReadyWeight(c, Notification, c.maxRetries, c.notreadyMax) else 0
  }

  /** An expiring copy becomes one in its own queue and, by fan-out, one for notifications. */
  function WaitWeight(c: Config, w: Worker, a: nat, b: nat): nat
    decreases Rank(w), a, b, 3
  {
    1 + ReadyWeight(c, w, a, b) + (if w.Notification? then 0 else ReadyWeight(c, Notification, a, b))
  }

  function MainLeft(c: Config, m: Copy): nat {
    if m.rc <= c.maxRetries then c.maxRetries - m.rc else 0
  }

  function NotReadyLeft(c: Config, m: Copy): nat {
    if m.nr <= c.notreadyMax then c.notreadyMax - m.nr else 0
  }

  function EventWeight(c: Config, e: Event): nat {
    (match Direct(KindOf(e))
     case Some(w) => ReadyWeight(c, w, c.maxRetries, c.notreadyMax)
     case None => 0)
    + ReadyWeight(c, Notification, c.maxRetries, c.notreadyMax)
  }

  function TodoWeight(c: Config, todo: seq<Event>): nat {
    if todo == [] then 0 else 1 + EventWeight(c, todo[0]) + TodoWeight(c, todo[1..])
  }

  function CopyWeight(c: Config, m: Copy): nat {
    var a, b := MainLeft(c, m), NotReadyLeft(c, m);
    var fail := FailWeight(c, m.queue, a, b);
    match m.place
    case Ready => ReadyWeight(c, m.queue, a, b)
    case Waiting(_) => WaitWeight(c, m.queue, a, b)
    case Taken => 7 + OutWeight(c, m.queue) + fail
    case Open => 6 + OutWeight(c, m.queue) + fail
    case Seen(_) => 5 + OutWeight(c, m.queue) + fail
    case Publishing(todo, _) => 2 + TodoWeight(c, todo) + fail
    case Failing(_) => fail
    case HookOpen(_) => 3 + HookWeight(c, m.queue)
    case HookAnnounced(_) => 2
    case Suppressed => 1
    case Retried => 1
    case Rejecting => 1
    case Dead => 0
    case Gone => 0
  }

  function Weight(c: Config, log: seq<Copy>): nat {
    if log == [] then 0 else CopyWeight(c, log[0]) + Weight(c, log[1..])
  }

  // ---------------------------------------------------------------------
  // Weights of log updates
  // ---------------------------------------------------------------------

  lemma {:induction false} WeightConcat(c: Config, xs: seq<Copy>, ys: seq<Copy>)
    ensures Weight(c, xs + ys) == Weight(c, xs) + Weight(c, ys)
  {
    if xs == [] {
      assert xs + ys == ys;
    } else {
      assert (xs + ys)[0] == xs[0] && (xs + ys)[1..] == xs[1..] + ys;
      WeightConcat(c, xs[1..], ys);
    }
  }

  lemma {:induction false} WeightUpdate(c: Config, log: seq<Copy>, i: nat, m: Copy)
    requires i < |log|
    ensures Weight(c, log[i := m]) + CopyWeight(c, log[i]) == Weight(c, log) + CopyWeight(c, m)
  {
    hide CopyWeight;
    if i == 0 {
      assert log[0 := m][1..] == log[1..];
    } else {
      assert log[i := m][1..] == log[1..][i - 1 := m];
      WeightUpdate(c, log[1..], i - 1, m);
    }
  }

  /** Emitting copies and moving copy i changes the weight by exactly what they weigh. */
  lemma MoveWeight(c: Config, s: State, copies: seq<Copy>, i: nat, p: Place)
    requires i < |s.log|
    ensures Weight(c, Move(Emit(s, copies), i, p).log) + CopyWeight(c, s.log[i]) ==
            Weight(c, s.log) + Weight(c, copies) + CopyWeight(c, s.log[i].(place := p))
  {
    hide CopyWeight, Weight;
    WeightConcat(c, s.log, copies);
    WeightUpdate(c, s.log + copies, i, s.log[i].(place := p));
  }

  lemma Singleton(c: Config, m: Copy)
    ensures Weight(c, [m]) == CopyWeight(c, m)
  {
    assert [m][1..] == [];
  }

  lemma FanoutWeight(c: Config, direct: Option<Worker>, e: Event, rc: nat, nr: nat, hops: nat)
    ensures var m := Copy(Notification, e, rc, nr, hops, Ready);
            Weight(c, Fanout(direct, e, rc, nr, hops)) ==
            (if direct.Some? then ReadyWeight(c, direct.value, MainLeft(c, m), NotReadyLeft(c, m)) else 0)
            + ReadyWeight(c, Notification, MainLeft(c, m), NotReadyLeft(c, m))
  {
    hide ReadyWeight;
    var m := Copy(Notification, e, rc, nr, hops, Ready);
    Singleton(c, m);
    if direct.Some? {
      Singleton(c, m.(queue := direct.value));
      WeightConcat(c, [m.(queue := direct.value)], [m]);
    } else {
      assert [] + [m] == [m];
    }
  }

  // ---------------------------------------------------------------------
  // Steps
  // ---------------------------------------------------------------------

  /** nack(requeue=True) and the broker's requeue after a crash: the code sets no bound. */
  predicate Redelivers(s: State, a: Action) {
    a.At? && a.i < |s.log| &&
    (a.step.Crash? || a.step.Conflict? ||
     (a.step.PublishRaise? && s.log[a.i].place.Publishing? && s.log[a.i].place.again))
  }

  /** The step's copy loses more than the added copies weigh. */
  predicate Loses(c: Config, s: State, i: nat, step: Step)
    requires i < |s.log| && StepEnabled(c, s, i, step)
  {
    var t := ApplyStep(c, s, i, step);
    i < |t.log| && Weight(c, Added(c, s, i, step)) + CopyWeight(c, t.log[i]) < CopyWeight(c, s.log[i])
  }

  lemma StepWeighs(c: Config, s: State, i: nat, step: Step)
    requires Core(c, s) && i < |s.log| && StepEnabled(c, s, i, step) && !Redelivers(s, At(i, step))
    ensures Loses(c, s, i, step)
  {
    hide Core, Loses, StepEnabled;
    match step
    case Expire => ExpireWeighs(c, s, i);
    case Duplicate => DuplicateWeighs(c, s, i);
    case Commit(ch) => CommitWeighs(c, s, i, ch);
    case PublishNext => PublishWeighs(c, s, i, step);
    case PublishRaise(_) => PublishWeighs(c, s, i, step);
    case RetryPublish => RetryWeighs(c, s, i);
    case HookPublish(at) => HookPublishWeighs(c, s, i, at);
    case _ => SilentStepWeighs(c, s, i, step);
  }

  /** Steps that publish nothing and store nothing only lower their copy's own weight. */
  lemma SilentStepWeighs(c: Config, s: State, i: nat, step: Step)
    requires i < |s.log| && StepEnabled(c, s, i, step) && !Redelivers(s, At(i, step))
    requires !(step.Expire? || step.Duplicate? || step.Commit? || step.PublishNext? || step.PublishRaise? ||
               step.RetryPublish? || step.HookPublish?)
    ensures Loses(c, s, i, step)
  {
    hide Process, Held, HookRuns, PaymentRuns, HasNote, ReadyWeight, FailWeight, OutWeight, HookWeight, WaitWeight;
    OpenWeights(c, s.log[i]);
  }

  lemma OpenWeights(c: Config, m: Copy)
    ensures var a, b := MainLeft(c, m), NotReadyLeft(c, m);
            ReadyWeight(c, m.queue, a, b) == 8 + OutWeight(c, m.queue) + FailWeight(c, m.queue, a, b) &&
            FailWeight(c, m.queue, a, b) >= 4 + HookWeight(c, m.queue)
  {
  }

  lemma ExpireWeighs(c: Config, s: State, i: nat)
    requires i < |s.log| && StepEnabled(c, s, i, Expire)
    ensures Loses(c, s, i, Expire)
  {
    hide ReadyWeight, Fanout, Weight;
    var m := s.log[i];
    assert (s.log + Fanout(RetryDirect(m.queue), m.ev, m.rc, m.nr, m.hops))[i] == m;
    FanoutWeight(c, RetryDirect(m.queue), m.ev, m.rc, m.nr, m.hops);
  }

  lemma DuplicateWeighs(c: Config, s: State, i: nat)
    requires Core(c, s) && i < |s.log| && StepEnabled(c, s, i, Duplicate)
    ensures Loses(c, s, i, Duplicate)
  {
    hide Core, ReadyWeight, OutWeight, FailWeight, TodoWeight;
    GuardWeight(c, s, i);
  }

  lemma CommitWeighs(c: Config, s: State, i: nat, ch: Choice)
    requires Core(c, s) && i < |s.log| && StepEnabled(c, s, i, Commit(ch))
    ensures Loses(c, s, i, Commit(ch))
  {
    hide Core, Process, ResultShape, ReadyWeight, OutWeight, FailWeight, TodoWeight, TextFor, Update;
    DecisionShape(c, s, i, ch);
    ResultWeight(c, s, i, ResultOf(c, s, i, ch));
  }

  lemma PublishWeighs(c: Config, s: State, i: nat, step: Step)
    requires i < |s.log| && StepEnabled(c, s, i, step) && (step.PublishNext? || step.PublishRaise?)
    requires !Redelivers(s, At(i, step))
    ensures Loses(c, s, i, step)
  {
    hide ReadyWeight, OutWeight, FailWeight, Published, EventWeight;
    var m := s.log[i];
    assert (s.log + Published(m.place.todo[0]))[i] == m;
    EmitWeight(c, m.place.todo[0]);
  }

  lemma RetryWeighs(c: Config, s: State, i: nat)
    requires Core(c, s) && i < |s.log| && StepEnabled(c, s, i, RetryPublish)
    ensures Loses(c, s, i, RetryPublish)
  {
    hide Core, ReadyWeight, OutWeight, FailWeight, Budget, RetryCopy, Weight, EventOk, PlaceShape, Announced, GuardShape;
    CopyFacts(c, s, i);
    RetryWeight(c, s.log[i]);
  }

  lemma HookPublishWeighs(c: Config, s: State, i: nat, at: int)
    requires Core(c, s) && i < |s.log| && StepEnabled(c, s, i, HookPublish(at))
    ensures Loses(c, s, i, HookPublish(at))
  {
    hide Core, ReadyWeight, OutWeight, FailWeight, HookWeight, Published, Weight;
    var e := OrderPaymentFailed(s.log[i].ev.order, at);
    assert (s.log + Published(e))[i] == s.log[i];
    HookNoticeWeight(c, s, i, at);
  }

  lemma HookNoticeWeight(c: Config, s: State, i: nat, at: int)
    requires Core(c, s) && i < |s.log| && s.log[i].place.HookOpen?
    ensures Weight(c, Published(OrderPaymentFailed(s.log[i].ev.order, at))) == HookWeight(c, s.log[i].queue)
  {
    hide Core, ReadyWeight, Weight, Published;
    EmitWeight(c, OrderPaymentFailed(s.log[i].ev.order, at));
    HookPlace(c, s, i);
  }

  lemma HookPlace(c: Config, s: State, i: nat)
    requires Core(c, s) && i < |s.log| && InHook(s.log[i].place)
    ensures s.log[i].queue.Payment?
  {
    hide Core, EventOk, Announced, GuardShape;
    CopyFacts(c, s, i);
  }

  lemma EmitWeight(c: Config, e: Event)
    ensures Weight(c, Published(e)) == EventWeight(c, e)
  {
    FanoutWeight(c, Direct(KindOf(e)), e, 0, 0, 0);
  }

  lemma RetryWeight(c: Config, m: Copy)
    requires m.place.Failing? && Budget(c, m, m.place.fault) && m.rc <= c.maxRetries && m.nr <= c.notreadyMax
    ensures Weight(c, [RetryCopy(c, m, m.place.fault)]) + 1 < CopyWeight(c, m)
  {
    hide ReadyWeight;
    var r := RetryCopy(c, m, m.place.fault);
    Singleton(c, r);
  }

  lemma GuardWeight(c: Config, s: State, i: nat)
    requires Core(c, s) && i < |s.log| && SlotOf(s.log[i]) in s.guard
    ensures TodoWeight(c, s.guard[SlotOf(s.log[i])]) <= OutWeight(c, s.log[i].queue)
  {
    hide Core, ReadyWeight, EventOk, PlaceShape, Announced, HasNote;
    CopyFacts(c, s, i);
    var out := s.guard[SlotOf(s.log[i])];
    if out != [] { assert out[1..] == []; }
  }

  lemma ResultWeight(c: Config, s: State, i: nat, r: Result)
    requires i < |s.log| && ResultShape(s, s.log[i], r)
    ensures TodoWeight(c, r.outgoing) <= OutWeight(c, s.log[i].queue)
  {
    hide ReadyWeight;
    if r.outgoing != [] { assert r.outgoing[1..] == []; }
  }

  /** Every settlement, publication and expiry strictly lowers the weight. */
  lemma ProgressDecreases(c: Config, s: State, i: nat, step: Step)
    requires Core(c, s) && i < |s.log| && StepEnabled(c, s, i, step) && !Redelivers(s, At(i, step))
    ensures Weight(c, ApplyStep(c, s, i, step).log) < Weight(c, s.log)
  {
    hide Core, ApplyStep, StepEnabled, Weight, CopyWeight, Added;
    StepLog(c, s, i, step);
    StepWeighs(c, s, i, step);
    var t := ApplyStep(c, s, i, step);
    MoveWeight(c, s, Added(c, s, i, step), i, t.log[i].place);
  }

  // ---------------------------------------------------------------------
  // A computable bound
  // ---------------------------------------------------------------------

  /** The most that one fresh copy of every kind can weigh. */
  function Quota(c: Config): nat {
    ReadyWeight(c, Payment, c.maxRetries, c.notreadyMax) + ReadyWeight(c, Restaurant, c.maxRetries, c.notreadyMax)
    + ReadyWeight(c, Delivery, c.maxRetries, c.notreadyMax) + ReadyWeight(c, Notification, c.maxRetries, c.notreadyMax)
  }

  /** Spending budget never raises the weight of a queued copy. */
  lemma {:induction false} ReadyMonotone(c: Config, w: Worker, a: nat, b: nat, a': nat, b': nat)
    requires a <= a' && b <= b' <= c.notreadyMax
    ensures ReadyWeight(c, w, a, b) <= ReadyWeight(c, w, a', b')
    decreases Rank(w), a, b
  {
    hide ReadyWeight, FailWeight, WaitWeight, HookWeight, OutWeight;
    if a > 0 {
      ReadyMonotone(c, w, a - 1, c.notreadyMax, a' - 1, c.notreadyMax);
      if !w.Notification? { ReadyMonotone(c, Notification, a - 1, c.notreadyMax, a' - 1, c.notreadyMax); }
      WaitFollows(c, w, a - 1, c.notreadyMax, a' - 1, c.notreadyMax);
    }
    if b > 0 {
      ReadyMonotone(c, w, a, b - 1, a', b' - 1);
      if !w.Notification? { ReadyMonotone(c, Notification, a, b - 1, a', b' - 1); }
      WaitFollows(c, w, a, b - 1, a', b' - 1);
    }
    ReadyFollows(c, w, a, b, a', b');
  }

  lemma WaitFollows(c: Config, w: Worker, a: nat, b: nat, a': nat, b': nat)
    requires ReadyWeight(c, w, a, b) <= ReadyWeight(c, w, a', b')
    requires !w.Notification? ==> ReadyWeight(c, Notification, a, b) <= ReadyWeight(c, Notification, a', b')
    ensures WaitWeight(c, w, a, b) <= WaitWeight(c, w, a', b')
  {
    hide ReadyWeight;
  }

  lemma ReadyFollows(c: Config, w: Worker, a: nat, b: nat, a': nat, b': nat)
    requires a <= a' && b <= b'
    requires a > 0 ==> WaitWeight(c, w, a - 1, c.notreadyMax) <= WaitWeight(c, w, a' - 1, c.notreadyMax)
    requires b > 0 ==> WaitWeight(c, w, a, b - 1) <= WaitWeight(c, w, a', b' - 1)
    ensures ReadyWeight(c, w, a, b) <= ReadyWeight(c, w, a', b')
  {
    hide WaitWeight, HookWeight, OutWeight;
  }

  /** Redelivery puts one copy back in its queue, with at most its own routed event beside it. */
  lemma RedeliveryGain(c: Config, s: State, i: nat, step: Step)
    requires Core(c, s) && i < |s.log| && StepEnabled(c, s, i, step) && Redelivers(s, At(i, step))
    ensures Weight(c, ApplyStep(c, s, i, step).log) <= Weight(c, s.log) + Quota(c)
  {
    hide Core, ApplyStep, StepEnabled, Weight, Added, Redelivers;
    StepLog(c, s, i, step);
    var t := ApplyStep(c, s, i, step);
    var m := s.log[i];
    MoveWeight(c, s, Added(c, s, i, step), i, t.log[i].place);
    RedeliveryShape(c, s, i, step);
    ReadyMonotone(c, m.queue, MainLeft(c, m), NotReadyLeft(c, m), c.maxRetries, c.notreadyMax);
    assert CopyWeight(c, t.log[i]) <= Quota(c) by { hide ReadyWeight; }
  }

  lemma RedeliveryShape(c: Config, s: State, i: nat, step: Step)
    requires Core(c, s) && i < |s.log| && StepEnabled(c, s, i, step) && Redelivers(s, At(i, step))
    ensures ApplyStep(c, s, i, step).log[i].place.Ready?
    ensures Weight(c, Added(c, s, i, step)) <= CopyWeight(c, s.log[i])
  {
    hide Core, Process, Held, HookRuns, PaymentRuns, HasNote, ReadyWeight, FailWeight;
    if step.PublishRaise? { EmitWeight(c, s.log[i].place.todo[0]); }
  }

  function Count(c: Config, s: State, run: seq<Action>, what: Tally): nat
    requires Legal(c, s, run)
    decreases |run|
  {
    if run == [] then 0
    else Bit(Tallied(s, run[0], what)) + Count(c, Apply(c, s, run[0]), run[1..], what)
  }

  datatype Tally = Accepted | Redeliveries | Progress

  predicate Tallied(s: State, a: Action, what: Tally) {
    match what
    case Accepted => a.ApiPublish?
    case Redeliveries => Redelivers(s, a)
    case Progress => a.At? && !Redelivers(s, a)
  }

  lemma ActionWeight(c: Config, s: State, a: Action)
    requires Core(c, s) && Enabled(c, s, a)
    ensures Bit(Tallied(s, a, Progress)) + Weight(c, Apply(c, s, a).log) <=
            Weight(c, s.log) + (Bit(Tallied(s, a, Accepted)) + Bit(Tallied(s, a, Redeliveries))) * Quota(c)
  {
    hide Core, ApplyStep, StepEnabled, Weight, Quota, Redelivers;
    if a.At? {
      if Redelivers(s, a) { RedeliveryGain(c, s, a.i, a.step); } else { ProgressDecreases(c, s, a.i, a.step); }
    } else if a.ApiPublish? {
      ApiWeight(c, s, a.o);
    }
  }

  lemma ApiWeight(c: Config, s: State, o: OrderId)
    requires Core(c, s) && Enabled(c, s, ApiPublish(o))
    ensures Weight(c, Apply(c, s, ApiPublish(o)).log) <= Weight(c, s.log) + Quota(c)
  {
    hide Core, Weight, ReadyWeight;
    if o in s.born {
      var e := OrderCreated(o, s.born[o]);
      WeightConcat(c, s.log, Published(e));
      EmitWeight(c, e);
    }
  }

  /** However the system is scheduled, finitely many accepted orders and redeliveries allow only
      so many further steps, and the bound can be computed from the settings alone. */
  lemma {:induction false} WorkIsBounded(c: Config, s: State, run: seq<Action>)
    requires Core(c, s) && Legal(c, s, run)
    ensures Count(c, s, run, Progress) + Weight(c, Exec(c, s, run).log) <=
            Weight(c, s.log) + (Count(c, s, run, Accepted) + Count(c, s, run, Redeliveries)) * Quota(c)
    decreases |run|
  {
    hide Core, Apply, Enabled, Weight, Quota, Tallied;
    if run != [] {
      ActionCore(c, s, run[0]);
      ActionWeight(c, s, run[0]);
      var t := Apply(c, s, run[0]);
      WorkIsBounded(c, t, run[1..]);
      var x := Bit(Tallied(s, run[0], Accepted)) + Bit(Tallied(s, run[0], Redeliveries));
      var y := Count(c, t, run[1..], Accepted) + Count(c, t, run[1..], Redeliveries);
      assert (x + y) * Quota(c) == x * Quota(c) + y * Quota(c);
    }
  }

  /** From the empty system: at most Quota steps per published order and per redelivery. */
  lemma RunsDown(c: Config, run: seq<Action>)
    requires Legal(c, Init, run)
    ensures Count(c, Init, run, Progress) <=
            (Count(c, Init, run, Accepted) + Count(c, Init, run, Redeliveries)) * Quota(c)
  {
    hide Core, Quota;
    InitCore(c);
    WorkIsBounded(c, Init, run);
  }
}
