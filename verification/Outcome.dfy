// Without faults the outcome of an order is a function of its payment behaviour and the retry
// budget, whatever the interleaving of orders, workers and retries.
module Outcome {
  import opened Schemas
  import opened Protocol
  import opened Steps
  import opened Invariant
  import opened Unconditional
  import opened Stages
  import opened Preservation
  import opened Guarantees
  import opened Exclusion

  // ---------------------------------------------------------------------
  // Fault-free runs
  // ---------------------------------------------------------------------

  /** No crash, no failing request, database or broker; the API commits before the payment
      worker looks. The simulated payment failure is the only exception left. */
  predicate Clean(s: State, a: Action) {
    match a
    case ApiAbort(_) => false
    case At(i, step) =>
      i < |s.log| &&
      (match step
       case Crash => false
       case Escape => false
       case Conflict => false
       case PublishRaise(_) => false
       case HookAbort => false
       case Raise(_) => s.log[i].place.Seen?
       case Read => s.log[i].queue.Payment? ==> s.log[i].ev.order in s.orders
       case _ => true)
    case _ => true
  }

  predicate CleanRun(c: Config, s: State, run: seq<Action>)
    decreases |run|
  {
    run == [] || (Enabled(c, s, run[0]) && Clean(s, run[0]) && CleanRun(c, Apply(c, s, run[0]), run[1..]))
  }

  lemma {:induction false} CleanIsLegal(c: Config, s: State, run: seq<Action>)
    requires CleanRun(c, s, run)
    ensures Legal(c, s, run)
    decreases |run|
  {
    hide Enabled, Apply, Clean;
    if run != [] { CleanIsLegal(c, Apply(c, s, run[0]), run[1..]); }
  }

  ghost predicate CleanlyReachable(c: Config, s: State) {
    exists run :: CleanRun(c, Init, run) && Legal(c, Init, run) && Exec(c, Init, run) == s
  }

  // ---------------------------------------------------------------------
  // Payment patterns
  // ---------------------------------------------------------------------

  predicate MayFail(p: Behavior, attempt: nat) {
    match p
    case Auto => true
    case AlwaysFail => true
    case FailTwice => attempt <= 2
    case NeverFail => false
  }

  predicate MayPass(p: Behavior, attempt: nat) {
    p.Auto? || !MayFail(p, attempt)
  }

  /** The first n attempts can all have failed. */
  predicate AllFail(p: Behavior, n: nat) {
    forall k | 1 <= k <= n :: MayFail(p, k)
  }

  predicate Succeeds(p: Behavior, maxRetries: nat) {
    p.NeverFail? || (p.FailTwice? && maxRetries >= 2)
  }

  function OrderPattern(c: Config, s: State, o: OrderId): Behavior
    requires o in s.born
  {
    Pattern(c, s.born[o])
  }

  // ---------------------------------------------------------------------
  // The stronger invariant of fault-free runs
  // ---------------------------------------------------------------------

  /** The payment has not been decided: the order is still PENDING, or not yet committed. */
  predicate Undecided(p: Place) {
    p.Ready? || p.Waiting? || p.Taken? || InTxn(p) || p.Failing? || InHook(p)
  }

  predicate PaymentClean(c: Config, s: State, m: Copy) {
    var o, p := m.ev.order, Pattern(c, BehaviorOf(m.ev));
    m.nr == 0 && AllFail(p, m.rc) && (Undecided(m.place) && o in s.orders ==> s.orders[o].status.Pending?) &&
    match m.place
    case Seen(row) => row.Some?
    case Failing(fault) => fault.Other? && o in s.orders && AllFail(p, m.rc + 1)
    case HookOpen(pending) => pending && HookClean(c, s, m)
    case HookAnnounced(pending) => pending && HookClean(c, s, m)
    case Rejecting => FailedClean(c, s, m)
    case Dead => FailedClean(c, s, m)
    case _ => true
  }

  predicate HookClean(c: Config, s: State, m: Copy) {
    m.rc == c.maxRetries && m.ev.order in s.orders && AllFail(Pattern(c, BehaviorOf(m.ev)), m.rc + 1)
  }

  predicate FailedClean(c: Config, s: State, m: Copy) {
    m.ev.order in s.orders && s.orders[m.ev.order].status.Failed? &&
    AllFail(Pattern(c, BehaviorOf(m.ev)), c.maxRetries + 1)
  }

  predicate OtherClean(m: Copy) {
    match m.place
    case Ready => true
    case Taken => true
    case Open => true
    case Seen(_) => true
    case Publishing(_, _) => true
    case Gone => true
    case _ => false
  }

  /** A failure notice is published only after the last attempt has failed. */
  predicate EventClean(c: Config, s: State, e: Event) {
    e.OrderPaymentFailed? ==> e.order in s.born && AllFail(OrderPattern(c, s, e.order), c.maxRetries + 1)
  }

  predicate CopyClean(c: Config, s: State, m: Copy) {
    EventClean(c, s, m.ev) && if m.queue.Payment? then PaymentClean(c, s, m) else OtherClean(m)
  }

  predicate OrderClean(c: Config, s: State, o: OrderId)
    requires o in s.orders && o in s.born
  {
    var p := OrderPattern(c, s, o);
    && (Charged(s.orders[o].status) && !p.Auto? ==> Succeeds(p, c.maxRetries))
    && (s.orders[o].status.Failed? ==> AllFail(p, c.maxRetries + 1))
  }

  /** Not yet acknowledged after being replaced, not yet settled. */
  predicate Live(p: Place) {
    !p.Retried? && !p.Gone?
  }

  /** Without faults nothing doubles a payment message. */
  predicate LiveApart(log: seq<Copy>) {
    forall i, j | 0 <= i < j < |log| && log[i].queue.Payment? && log[j].queue.Payment? ::
      !Live(log[i].place) || !Live(log[j].place) || log[i].ev.order != log[j].ev.order
  }

  /** A notice is out only once its order is FAILED, or while the hook that sent it commits. */
  predicate NoticeBacked(s: State, o: OrderId) {
    (o in s.orders && s.orders[o].status.Failed?) ||
    exists i | 0 <= i < |s.log| ::
      s.log[i].queue.Payment? && s.log[i].ev.order == o && s.log[i].place.HookAnnounced?
  }

  predicate NoticesBacked(s: State) {
    forall i | 0 <= i < |s.log| && s.log[i].ev.OrderPaymentFailed? :: NoticeBacked(s, s.log[i].ev.order)
  }

  ghost predicate CleanInv(c: Config, s: State) {
    && Inv(c, s)
    && (forall i | 0 <= i < |s.log| :: CopyClean(c, s, s.log[i]))
    && (forall o | o in s.orders && o in s.born :: OrderClean(c, s, o))
    && LiveApart(s.log)
    && NoticesBacked(s)
  }

  lemma CleanFacts(c: Config, s: State, i: nat)
    requires CleanInv(c, s) && i < |s.log|
    ensures Inv(c, s) && CopyClean(c, s, s.log[i]) && LiveApart(s.log) && NoticesBacked(s)
    ensures s.log[i].ev.order in s.orders && s.log[i].ev.order in s.born ==> OrderClean(c, s, s.log[i].ev.order)
  {
    hide Inv;
  }

  lemma PaymentsApart(c: Config, s: State, i: nat, j: nat)
    requires CleanInv(c, s) && i < |s.log| && j < |s.log| && i != j && s.log[i].queue.Payment? && s.log[j].queue.Payment?
    ensures !Live(s.log[i].place) || !Live(s.log[j].place) || s.log[i].ev.order != s.log[j].ev.order
  {
    hide Inv, CopyClean, OrderClean;
  }

  lemma CleanOf(c: Config, s: State)
    requires Inv(c, s) && LiveApart(s.log) && NoticesBacked(s)
    requires forall i | 0 <= i < |s.log| :: CopyClean(c, s, s.log[i])
    requires forall o | o in s.orders && o in s.born :: OrderClean(c, s, o)
    ensures CleanInv(c, s)
  {
    hide Inv;
  }

  /** Attempts that all fail and a charge that went through exclude each other. */
  lemma PatternDecides(p: Behavior, maxRetries: nat)
    requires !p.Auto?
    ensures Succeeds(p, maxRetries) <==> !AllFail(p, maxRetries + 1)
  {
    if AllFail(p, maxRetries + 1) {
      assert MayFail(p, 1);
      assert MayFail(p, if maxRetries >= 2 then 3 else 1);
    }
  }

  // ---------------------------------------------------------------------
  // Steps
  // ---------------------------------------------------------------------

  /** A step that changes no table and keeps its copy and its added copies clean. */
  lemma QuietStepClean(c: Config, s: State, i: nat, added: seq<Copy>, p: Place)
    requires CleanInv(c, s) && i < |s.log| && (Live(p) ==> Live(s.log[i].place)) && !s.log[i].place.HookAnnounced?
    requires Inv(c, Move(Emit(s, added), i, p)) && CopyClean(c, s, s.log[i].(place := p))
    requires forall k | 0 <= k < |added| :: CopyClean(c, s, added[k]) && AddedFits(s, i, p, k, added[k])
    ensures CleanInv(c, Move(Emit(s, added), i, p))
  {
    hide Inv, CopyClean, OrderClean;
    var t := Move(Emit(s, added), i, p);
    forall j | 0 <= j < |t.log| ensures CopyClean(c, t, t.log[j]) {
      if j >= |s.log| { assert t.log[j] == added[j - |s.log|]; }
      else if j != i { assert t.log[j] == s.log[j]; }
      SameOrders(c, s, t, t.log[j]);
    }
    forall o | o in t.orders && o in t.born ensures OrderClean(c, t, o) {
      assert OrderClean(c, s, o);
      SameOrder(c, s, t, o);
    }
    StaysApart(c, s, i, added, p);
    NoticesStay(c, s, i, added, p);
    CleanOf(c, t);
  }

  /** Only the first added copy may be a payment, and it replaces copy i; a new notice comes from
      the hook that announces it. */
  predicate AddedFits(s: State, i: nat, p: Place, k: nat, m: Copy)
    requires i < |s.log|
  {
    (m.queue.Payment? ==> k == 0 && s.log[i].queue.Payment? && s.log[i].ev.order == m.ev.order &&
                          Live(s.log[i].place) && !Live(p)) &&
    (m.ev.OrderPaymentFailed? ==>
       m.ev == s.log[i].ev || (p.HookAnnounced? && s.log[i].queue.Payment? && s.log[i].ev.order == m.ev.order))
  }

  lemma SameOrders(c: Config, s: State, t: State, m: Copy)
    requires s.orders == t.orders && s.born == t.born
    ensures CopyClean(c, s, m) <==> CopyClean(c, t, m)
  {
    hide AllFail;
  }

  lemma SameOrder(c: Config, s: State, t: State, o: OrderId)
    requires s.orders == t.orders && s.born == t.born && o in s.orders && o in s.born
    ensures OrderClean(c, s, o) <==> OrderClean(c, t, o)
  {
    hide AllFail;
  }

  lemma StaysApart(c: Config, s: State, i: nat, added: seq<Copy>, p: Place)
    requires CleanInv(c, s) && i < |s.log| && (Live(p) ==> Live(s.log[i].place))
    requires forall k | 0 <= k < |added| :: AddedFits(s, i, p, k, added[k])
    ensures LiveApart(Move(Emit(s, added), i, p).log)
  {
    hide Inv, CopyClean, OrderClean;
    var t := Move(Emit(s, added), i, p);
    forall j, k | 0 <= j < k < |t.log| && t.log[j].queue.Payment? && t.log[k].queue.Payment?
      ensures !Live(t.log[j].place) || !Live(t.log[k].place) || t.log[j].ev.order != t.log[k].ev.order
    {
      if k < |s.log| {
        PaymentsApart(c, s, j, k);
      } else {
        assert t.log[k] == added[k - |s.log|];
        if j < |s.log| && j != i { PaymentsApart(c, s, i, j); }
      }
    }
  }

  lemma NoticesStay(c: Config, s: State, i: nat, added: seq<Copy>, p: Place)
    requires CleanInv(c, s) && i < |s.log| && !s.log[i].place.HookAnnounced?
    requires forall k | 0 <= k < |added| :: AddedFits(s, i, p, k, added[k])
    ensures NoticesBacked(Move(Emit(s, added), i, p))
  {
    hide Inv, CopyClean, OrderClean;
    var t := Move(Emit(s, added), i, p);
    forall o | NoticeBacked(s, o) ensures NoticeBacked(t, o) {
      if !(o in s.orders && s.orders[o].status.Failed?) {
        var j :| 0 <= j < |s.log| && s.log[j].queue.Payment? && s.log[j].ev.order == o && s.log[j].place.HookAnnounced?;
        assert t.log[j] == s.log[j];
      }
    }
    forall j | 0 <= j < |t.log| && t.log[j].ev.OrderPaymentFailed? ensures NoticeBacked(t, t.log[j].ev.order) {
      if j < |s.log| {
        assert t.log[j].ev == s.log[j].ev;
      } else {
        assert t.log[j] == added[j - |s.log|];
        if t.log[j].ev != s.log[i].ev { assert t.log[i].place.HookAnnounced?; }
      }
    }
  }

  lemma FanoutClean(c: Config, s: State, direct: Option<Worker>, e: Event, rc: nat, nr: nat, hops: nat)
    requires EventClean(c, s, e)
    requires direct == Some(Payment) ==>
               nr == 0 && AllFail(Pattern(c, BehaviorOf(e)), rc) && (e.order in s.orders ==> s.orders[e.order].status.Pending?)
    ensures forall k | 0 <= k < |Fanout(direct, e, rc, nr, hops)| ::
              CopyClean(c, s, Fanout(direct, e, rc, nr, hops)[k])
  {
  }

  /** Steps without a table write, case by case. */
  lemma PlainStepClean(c: Config, s: State, i: nat, step: Step)
    requires CleanInv(c, s) && i < |s.log| && StepEnabled(c, s, i, step) && Clean(s, At(i, step))
    requires !step.Commit? && !step.HookCommit? && !step.Suppress?
    requires step.Expire? || step.RetryPublish? || step.PublishNext? || step.HookPublish? || Plain(c, s, i, step)
    ensures CleanInv(c, ApplyStep(c, s, i, step))
  {
    hide Inv, Process, Held, HookRuns, PaymentRuns, HasNote, AllFail, Fanout, RetryDelayMs, CopyClean, CleanInv, AddedFits;
    CleanFacts(c, s, i);
    StepInv(c, s, i, step);
    StaysLive(s, i, step, c);
    var m := s.log[i];
    var t := ApplyStep(c, s, i, step);
    if step.Expire? {
      ExpireClean(c, s, i);
      QuietStepClean(c, s, i, Fanout(RetryDirect(m.queue), m.ev, m.rc, m.nr, m.hops), Gone);
    } else if step.PublishNext? {
      NextClean(c, s, i);
      QuietStepClean(c, s, i, Published(m.place.todo[0]), Publishing(m.place.todo[1..], m.place.again));
    } else if step.RetryPublish? {
      RetryClean(c, s, i);
      QuietStepClean(c, s, i, [RetryCopy(c, m, m.place.fault)], Retried);
    } else if step.HookPublish? {
      var e := OrderPaymentFailed(m.ev.order, step.at);
      NoticeClean(c, s, i, step.at);
      QuietStepClean(c, s, i, Published(e), HookAnnounced(m.place.pending));
    } else {
      assert s.log + [] == s.log;
      QuietStepClean(c, s, i, [], t.log[i].place);
    }
  }

  /** Only a settled or replaced copy is not live, and no fault-free step brings one back. */
  lemma StaysLive(s: State, i: nat, step: Step, c: Config)
    requires i < |s.log| && StepEnabled(c, s, i, step) && Clean(s, At(i, step)) && !step.HookCommit?
    ensures var t := ApplyStep(c, s, i, step); i < |t.log| && (Live(t.log[i].place) ==> Live(s.log[i].place))
    ensures !s.log[i].place.HookAnnounced?
  {
    hide Process, Held, HookRuns, PaymentRuns, HasNote, Published, Fanout, RetryCopy, Update, TextFor;
  }

  predicate Plain(c: Config, s: State, i: nat, step: Step)
    requires i < |s.log| && StepEnabled(c, s, i, step)
  {
    var t := ApplyStep(c, s, i, step);
    i < |t.log| && t == Move(s, i, t.log[i].place) && CopyClean(c, s, t.log[i])
  }

  predicate AddedClean(c: Config, s: State, i: nat, added: seq<Copy>, p: Place)
    requires i < |s.log|
  {
    CopyClean(c, s, s.log[i].(place := p)) &&
    forall k | 0 <= k < |added| :: CopyClean(c, s, added[k]) && AddedFits(s, i, p, k, added[k])
  }

  lemma ExpireClean(c: Config, s: State, i: nat)
    requires CleanInv(c, s) && i < |s.log| && s.log[i].place.Waiting?
    ensures var m := s.log[i]; AddedClean(c, s, i, Fanout(RetryDirect(m.queue), m.ev, m.rc, m.nr, m.hops), Gone)
  {
    hide Inv, AllFail;
    CleanFacts(c, s, i);
    var m := s.log[i];
    FanoutClean(c, s, RetryDirect(m.queue), m.ev, m.rc, m.nr, m.hops);
  }

  lemma NextClean(c: Config, s: State, i: nat)
    requires CleanInv(c, s) && i < |s.log| && s.log[i].place.Publishing? && s.log[i].place.todo != []
    ensures var m := s.log[i];
            AddedClean(c, s, i, Published(m.place.todo[0]), Publishing(m.place.todo[1..], m.place.again))
  {
    hide Inv, Base, Core, AllFail, EventOk, LiveApart, NoticesBacked, OrderClean;
    CleanFacts(c, s, i);
    InvCore(c, s);
    hide CleanInv, Coverage;
    OneStored(c, s, i);
    FanoutClean(c, s, Direct(KindOf(s.log[i].place.todo[0])), s.log[i].place.todo[0], 0, 0, 0);
  }

  lemma RetryClean(c: Config, s: State, i: nat)
    requires CleanInv(c, s) && i < |s.log| && s.log[i].place.Failing?
    ensures AddedClean(c, s, i, [RetryCopy(c, s.log[i], s.log[i].place.fault)], Retried)
  {
    hide Inv, AllFail, RetryDelayMs;
    CleanFacts(c, s, i);
  }

  lemma NoticeClean(c: Config, s: State, i: nat, at: int)
    requires CleanInv(c, s) && i < |s.log| && s.log[i].place.HookOpen?
    ensures var m := s.log[i];
            AddedClean(c, s, i, Published(OrderPaymentFailed(m.ev.order, at)), HookAnnounced(m.place.pending))
  {
    hide Inv, AllFail;
    CleanFacts(c, s, i);
    HookPayment(c, s, i);
    BornEvent(c, s, i);
    var e := OrderPaymentFailed(s.log[i].ev.order, at);
    FanoutClean(c, s, Direct(KindOf(e)), e, 0, 0, 0);
  }

  /** The remaining steps only move their own copy. */
  lemma MoveStepPlain(c: Config, s: State, i: nat, step: Step)
    requires CleanInv(c, s) && i < |s.log| && StepEnabled(c, s, i, step) && Clean(s, At(i, step))
    requires !(step.Commit? || step.HookCommit? || step.Suppress? || step.Expire? || step.RetryPublish? ||
               step.PublishNext? || step.HookPublish?)
    ensures Plain(c, s, i, step)
  {
    hide Inv, Held, HookRuns, PaymentRuns, HasNote, AllFail, Fanout;
    if step.Raise? || step.HookRead? {
      FailStepPlain(c, s, i, step);
    } else {
      CleanFacts(c, s, i);
    }
  }

  lemma FailStepPlain(c: Config, s: State, i: nat, step: Step)
    requires CleanInv(c, s) && i < |s.log| && StepEnabled(c, s, i, step) && Clean(s, At(i, step))
    requires step.Raise? || step.HookRead?
    ensures Plain(c, s, i, step)
  {
    hide Inv, Held, HookRuns, PaymentRuns, HasNote, AllFail, Fanout;
    CleanFacts(c, s, i);
    var m := s.log[i];
    if m.queue.Payment? && m.place.Seen? { RaiseClean(c, s, i); }
    if step.HookRead? { CountsClean(c, s, i); }
  }

  lemma CountsClean(c: Config, s: State, i: nat)
    requires Inv(c, s) && i < |s.log|
    ensures s.log[i].rc <= c.maxRetries
  {
  }

  lemma RaiseClean(c: Config, s: State, i: nat)
    requires CleanInv(c, s) && i < |s.log| && s.log[i].queue.Payment? && s.log[i].place.Seen?
    ensures var m := s.log[i]; var p := Pattern(c, BehaviorOf(m.ev));
            m.place.row.Some? && m.ev.order in s.orders &&
            (MayFail(p, m.rc + 1) ==> AllFail(p, m.rc + 1))
  {
    hide Inv;
    CleanFacts(c, s, i);
    ReadFoundOrder(c, s, i);
  }

  lemma ReadFoundOrder(c: Config, s: State, i: nat)
    requires Inv(c, s) && i < |s.log| && s.log[i].place.Seen? && s.log[i].place.row.Some?
    ensures s.log[i].ev.order in s.orders
  {
  }

  /** Everything but the status of one order stays; other copies keep what they knew. */
  lemma CommitClean(c: Config, s: State, i: nat, ch: Choice)
    requires CleanInv(c, s) && i < |s.log| && StepEnabled(c, s, i, Commit(ch))
    ensures CleanInv(c, ApplyStep(c, s, i, Commit(ch)))
  {
    hide Inv, ApplyStep, StepEnabled, Process, CommitCase, AllFail, CopyClean, OrderClean, CleanInv, LiveApart, NoticesBacked;
    CleanFacts(c, s, i);
    StepInv(c, s, i, Commit(ch));
    CommitShape(c, s, i, ch);
    var r := ResultOf(c, s, i, ch);
    assert r.Returned? by { CommitReturns(c, s, i, ch); }
    var t := Committed(s, i, r);
    forall j | 0 <= j < |t.log| ensures CopyClean(c, t, t.log[j]) { CommitCopyClean(c, s, i, ch, j); }
    forall o | o in t.orders && o in t.born ensures OrderClean(c, t, o) { CommitOrderClean(c, s, i, ch, o); }
    CommitApart(c, s, i, ch);
    CommitNotices(c, s, i, ch);
    CleanOf(c, t);
  }

  lemma CommitApart(c: Config, s: State, i: nat, ch: Choice)
    requires CleanInv(c, s) && i < |s.log| && s.log[i].place.Seen? && ResultOf(c, s, i, ch).Returned?
    ensures LiveApart(Committed(s, i, ResultOf(c, s, i, ch)).log)
  {
    hide Inv, Process, CopyClean, OrderClean, CommitTables;
    var t := Committed(s, i, ResultOf(c, s, i, ch));
    assert t.log == s.log[i := s.log[i].(place := t.log[i].place)] by { CommitLog(s, i, ResultOf(c, s, i, ch)); }
    forall j, k | 0 <= j < k < |t.log| && t.log[j].queue.Payment? && t.log[k].queue.Payment?
      ensures !Live(t.log[j].place) || !Live(t.log[k].place) || t.log[j].ev.order != t.log[k].ev.order
    {
      PaymentsApart(c, s, j, k);
    }
  }

  lemma CommitLog(s: State, i: nat, r: Result)
    requires i < |s.log| && r.Returned?
    ensures i < |Committed(s, i, r).log|
    ensures Committed(s, i, r).log == s.log[i := s.log[i].(place := Publishing(r.outgoing, false))]
  {
  }

  lemma CommitNotices(c: Config, s: State, i: nat, ch: Choice)
    requires CleanInv(c, s) && i < |s.log| && s.log[i].place.Seen?
    requires CommitCase(s, s.log[i], ResultOf(c, s, i, ch))
    ensures NoticesBacked(Committed(s, i, ResultOf(c, s, i, ch)))
  {
    hide Inv, Process, CopyClean, OrderClean, TextFor, LiveApart;
    CleanFacts(c, s, i);
    var t := Committed(s, i, ResultOf(c, s, i, ch));
    forall o | NoticeBacked(s, o) ensures NoticeBacked(t, o) {
      if !(o in s.orders && s.orders[o].status.Failed?) {
        var j :| 0 <= j < |s.log| && s.log[j].queue.Payment? && s.log[j].ev.order == o && s.log[j].place.HookAnnounced?;
        assert t.log[j] == s.log[j];
      }
    }
    assert forall j | 0 <= j < |t.log| :: t.log[j].ev == s.log[j].ev;
  }

  lemma CommitReturns(c: Config, s: State, i: nat, ch: Choice)
    requires i < |s.log| && s.log[i].place.Seen? && CommitCase(s, s.log[i], ResultOf(c, s, i, ch))
    ensures ResultOf(c, s, i, ch).Returned?
  {
  }

  lemma CommitCopyClean(c: Config, s: State, i: nat, ch: Choice, j: nat)
    requires CleanInv(c, s) && i < |s.log| && s.log[i].place.Seen? && j < |s.log|
    requires CommitCase(s, s.log[i], ResultOf(c, s, i, ch))
    ensures var t := Committed(s, i, ResultOf(c, s, i, ch)); CopyClean(c, t, t.log[j])
  {
    hide Inv, Process, AllFail, TextFor, CleanInv, LiveApart, NoticesBacked;
    CleanFacts(c, s, i);
    CleanFacts(c, s, j);
    if j != i && s.log[i].queue.Payment? && s.log[j].queue.Payment? { PaymentsApart(c, s, i, j); }
  }

  lemma CommitOrderClean(c: Config, s: State, i: nat, ch: Choice, o: OrderId)
    requires CleanInv(c, s) && i < |s.log| && s.log[i].place.Seen? && o in s.orders && o in s.born
    requires CommitCase(s, s.log[i], ResultOf(c, s, i, ch)) && InputOk(s.log[i])
    ensures OrderClean(c, Committed(s, i, ResultOf(c, s, i, ch)), o)
  {
    hide Inv, TextFor, AllFail;
    CleanFacts(c, s, i);
    var m := s.log[i];
    assert OrderClean(c, s, o);
    if m.queue.Payment? && m.ev.order == o {
      BornEvent(c, s, i);
      CountsClean(c, s, i);
      RaiseClean(c, s, i);
      if s.orders[o].status.Pending? && !OrderPattern(c, s, o).Auto? {
        PassedAttempt(c, m, ch);
        ThenSucceeds(OrderPattern(c, s, o), m.rc + 1, c.maxRetries);
      }
    }
  }

  lemma PassedAttempt(c: Config, m: Copy, ch: Choice)
    requires m.queue.Payment? && m.place.Seen? && m.place.row.Some?
    requires var r := Process(c, m.queue, m.ev, m.rc + 1, m.place.row, ch); r.Returned? && r.effect.Charge?
    ensures MayPass(Pattern(c, BehaviorOf(m.ev)), m.rc + 1)
  {
  }

  lemma ThenSucceeds(p: Behavior, attempt: nat, maxRetries: nat)
    requires !p.Auto? && MayPass(p, attempt) && attempt <= maxRetries + 1
    ensures Succeeds(p, maxRetries)
  {
  }

  lemma BornEvent(c: Config, s: State, i: nat)
    requires Inv(c, s) && i < |s.log| && s.log[i].queue.Payment?
    ensures s.log[i].ev.order in s.born && BehaviorOf(s.log[i].ev) == s.born[s.log[i].ev.order]
  {
    hide Inv, PlaceNow, Backed, Announced, GuardOk, RowOk;
    Facts(c, s, i);
  }

  lemma HookCommitClean(c: Config, s: State, i: nat)
    requires CleanInv(c, s) && i < |s.log| && StepEnabled(c, s, i, HookCommit)
    ensures CleanInv(c, ApplyStep(c, s, i, HookCommit))
  {
    hide Inv, AllFail, CopyClean, OrderClean, Logged, CleanInv, LiveApart, NoticesBacked, ApplyStep, StepEnabled;
    CleanFacts(c, s, i);
    StepInv(c, s, i, HookCommit);
    HookCommitShape(c, s, i);
    var t := ApplyStep(c, s, i, HookCommit);
    forall j | 0 <= j < |t.log| ensures CopyClean(c, t, t.log[j]) { HookCommitCopyClean(c, s, i, j); }
    forall o | o in t.orders && o in t.born ensures OrderClean(c, t, o) { HookCommitOrderClean(c, s, i, o); }
    HookCommitApart(c, s, i);
    HookCommitNotices(c, s, i);
    CleanOf(c, t);
  }

  /** Without faults the hook has always found PENDING, so its commit fails the order. */
  lemma HookCommitShape(c: Config, s: State, i: nat)
    requires CleanInv(c, s) && i < |s.log| && StepEnabled(c, s, i, HookCommit)
    ensures var t := ApplyStep(c, s, i, HookCommit); var o := s.log[i].ev.order;
            s.log[i].queue.Payment? && o in s.orders && t.born == s.born &&
            t.orders == s.orders[o := s.orders[o].(status := Failed)] &&
            t.log == s.log[i := s.log[i].(place := Rejecting)]
  {
    hide Inv, AllFail, LiveApart, NoticesBacked, OrderClean;
    CleanFacts(c, s, i);
    HookPayment(c, s, i);
  }

  lemma HookCommitApart(c: Config, s: State, i: nat)
    requires CleanInv(c, s) && i < |s.log| && StepEnabled(c, s, i, HookCommit)
    ensures LiveApart(ApplyStep(c, s, i, HookCommit).log)
  {
    hide Inv, CopyClean, OrderClean, ApplyStep;
    HookCommitShape(c, s, i);
    var t := ApplyStep(c, s, i, HookCommit);
    forall j, k | 0 <= j < k < |t.log| && t.log[j].queue.Payment? && t.log[k].queue.Payment?
      ensures !Live(t.log[j].place) || !Live(t.log[k].place) || t.log[j].ev.order != t.log[k].ev.order
    {
      PaymentsApart(c, s, j, k);
    }
  }

  lemma HookCommitNotices(c: Config, s: State, i: nat)
    requires CleanInv(c, s) && i < |s.log| && StepEnabled(c, s, i, HookCommit)
    ensures NoticesBacked(ApplyStep(c, s, i, HookCommit))
  {
    hide Inv, CopyClean, OrderClean, LiveApart, ApplyStep, StepEnabled;
    CleanFacts(c, s, i);
    HookCommitShape(c, s, i);
    var t := ApplyStep(c, s, i, HookCommit);
    forall o | NoticeBacked(s, o) ensures NoticeBacked(t, o) {
      if o != s.log[i].ev.order && !(o in s.orders && s.orders[o].status.Failed?) {
        var j :| 0 <= j < |s.log| && s.log[j].queue.Payment? && s.log[j].ev.order == o && s.log[j].place.HookAnnounced?;
        assert t.log[j] == s.log[j];
      }
    }
    assert forall j | 0 <= j < |t.log| :: t.log[j].ev == s.log[j].ev;
  }

  lemma HookCommitCopyClean(c: Config, s: State, i: nat, j: nat)
    requires CleanInv(c, s) && i < |s.log| && StepEnabled(c, s, i, HookCommit) && j < |s.log|
    ensures var t := ApplyStep(c, s, i, HookCommit); CopyClean(c, t, t.log[j])
  {
    hide Inv, AllFail, MayFail, Succeeds, Published, ApplyStep, CleanInv, LiveApart, NoticesBacked, OrderClean;
    HookCommitShape(c, s, i);
    CleanFacts(c, s, j);
    CleanFacts(c, s, i);
    if j != i && s.log[j].queue.Payment? { PaymentsApart(c, s, i, j); }
  }

  lemma HookPayment(c: Config, s: State, i: nat)
    requires Inv(c, s) && i < |s.log| && InHook(s.log[i].place)
    ensures s.log[i].queue.Payment?
  {
    hide Inv, EventOk, Backed, Announced, RowOk, GuardOk;
    Facts(c, s, i);
  }

  lemma HookCommitOrderClean(c: Config, s: State, i: nat, o: OrderId)
    requires CleanInv(c, s) && i < |s.log| && StepEnabled(c, s, i, HookCommit) && o in s.orders && o in s.born
    ensures var t := ApplyStep(c, s, i, HookCommit); o in t.orders && o in t.born && OrderClean(c, t, o)
  {
    hide Inv, AllFail, ApplyStep, LiveApart, NoticesBacked;
    HookCommitShape(c, s, i);
    CleanFacts(c, s, i);
    BornEvent(c, s, i);
    assert OrderClean(c, s, o);
  }

  lemma ApiClean(c: Config, s: State, a: Action)
    requires CleanInv(c, s) && Enabled(c, s, a) && Clean(s, a) && !a.At?
    ensures CleanInv(c, Apply(c, s, a))
  {
    hide Inv, AllFail, Fanout, CopyClean, OrderClean, LiveApart, NoticesBacked, CleanInv;
    var t := Apply(c, s, a);
    assert Inv(c, s) by { CleanIsInv(c, s); }
    ActionInv(c, s, a);
    forall j | 0 <= j < |t.log| ensures CopyClean(c, t, t.log[j]) { ApiCopyClean(c, s, a, j); }
    forall o | o in t.orders && o in t.born ensures OrderClean(c, t, o) { ApiOrderClean(c, s, a, o); }
    ApiApart(c, s, a);
    ApiNotices(c, s, a);
    CleanOf(c, t);
  }

  lemma CleanIsInv(c: Config, s: State)
    requires CleanInv(c, s)
    ensures Inv(c, s) && LiveApart(s.log) && NoticesBacked(s)
  {
    hide Inv;
  }

  lemma ApiCopyClean(c: Config, s: State, a: Action, j: nat)
    requires CleanInv(c, s) && Enabled(c, s, a) && Clean(s, a) && !a.At? && j < |Apply(c, s, a).log|
    ensures CopyClean(c, Apply(c, s, a), Apply(c, s, a).log[j])
  {
    hide Inv, AllFail, LiveApart, NoticesBacked, OrderClean;
    assert Ids(s) by { CleanIsInv(c, s); TableFacts(c, s); }
    if j < |s.log| {
      CleanFacts(c, s, j);
      assert Apply(c, s, a).log[j] == s.log[j];
      if s.log[j].queue.Payment? { BornEvent(c, s, j); }
    } else {
      assert AllFail(Pattern(c, s.born[a.o]), 0) by { NoneTried(Pattern(c, s.born[a.o])); }
    }
  }

  lemma NoneTried(p: Behavior)
    ensures AllFail(p, 0)
  {
  }

  lemma ApiOrderClean(c: Config, s: State, a: Action, o: OrderId)
    requires CleanInv(c, s) && Enabled(c, s, a) && !a.At? && o in Apply(c, s, a).orders && o in Apply(c, s, a).born
    ensures OrderClean(c, Apply(c, s, a), o)
  {
    hide Inv, AllFail, CopyClean, LiveApart, NoticesBacked;
    assert Ids(s) by { CleanIsInv(c, s); TableFacts(c, s); }
    if o in s.orders { assert OrderClean(c, s, o); }
  }

  /** The first payment copy of an order is the one its request publishes. */
  lemma ApiApart(c: Config, s: State, a: Action)
    requires CleanInv(c, s) && Enabled(c, s, a) && !a.At?
    ensures LiveApart(Apply(c, s, a).log)
  {
    hide Inv, AllFail, CopyClean, OrderClean, NoticesBacked;
    CleanIsInv(c, s);
    if a.ApiPublish? {
      forall j | 0 <= j < |s.log| && s.log[j].queue.Payment? ensures s.log[j].ev.order != a.o {
        PublishedOnce(c, s, a.o, j);
      }
    }
  }

  lemma PublishedOnce(c: Config, s: State, o: OrderId, j: nat)
    requires Inv(c, s) && o in s.api && !s.api[o] && j < |s.log| && s.log[j].queue.Payment?
    ensures s.log[j].ev.order != o
  {
    hide Inv, PlaceNow, Backed, Announced, GuardOk, RowOk;
    Facts(c, s, j);
  }

  lemma ApiNotices(c: Config, s: State, a: Action)
    requires CleanInv(c, s) && Enabled(c, s, a) && !a.At?
    ensures NoticesBacked(Apply(c, s, a))
  {
    hide Inv, AllFail, CopyClean, OrderClean, LiveApart;
    assert Ids(s) by { CleanIsInv(c, s); TableFacts(c, s); }
    var t := Apply(c, s, a);
    forall o | NoticeBacked(s, o) ensures NoticeBacked(t, o) {
      if !(o in s.orders && s.orders[o].status.Failed?) {
        var j :| 0 <= j < |s.log| && s.log[j].queue.Payment? && s.log[j].ev.order == o && s.log[j].place.HookAnnounced?;
        assert t.log[j] == s.log[j];
      }
    }
    assert forall j | 0 <= j < |t.log| && t.log[j].ev.OrderPaymentFailed? :: j < |s.log| && t.log[j] == s.log[j];
  }

  lemma ActionClean(c: Config, s: State, a: Action)
    requires CleanInv(c, s) && Enabled(c, s, a) && Clean(s, a)
    ensures CleanInv(c, Apply(c, s, a))
  {
    hide CleanInv, ApplyStep, StepEnabled, Plain;
    if !a.At? {
      ApiClean(c, s, a);
    } else if a.step.Commit? {
      CommitClean(c, s, a.i, a.step.ch);
    } else if a.step.HookCommit? {
      HookCommitClean(c, s, a.i);
    } else if a.step.Suppress? {
      CleanFacts(c, s, a.i);
      InvCore(c, s);
      NoSuppress(c, s, a.i);
    } else {
      if !(a.step.Expire? || a.step.RetryPublish? || a.step.PublishNext? || a.step.HookPublish?) {
        MoveStepPlain(c, s, a.i, a.step);
      }
      PlainStepClean(c, s, a.i, a.step);
    }
  }

  lemma {:induction false} RunClean(c: Config, s: State, run: seq<Action>)
    requires CleanInv(c, s) && CleanRun(c, s, run) && Legal(c, s, run)
    ensures CleanInv(c, Exec(c, s, run))
    decreases |run|
  {
    hide CleanInv, Apply, Enabled, Clean;
    if run != [] {
      ActionClean(c, s, run[0]);
      RunClean(c, Apply(c, s, run[0]), run[1..]);
    }
  }

  /** No payment and hook ever meet without faults, so the exclusion holds by itself. */
  lemma {:induction false} CleanRunExclusive(c: Config, s: State, run: seq<Action>)
    requires CleanInv(Exclusive(c), s) && CleanRun(c, s, run)
    ensures CleanRun(Exclusive(c), s, run) && Legal(Exclusive(c), s, run) && Legal(c, s, run)
    ensures Exec(Exclusive(c), s, run) == Exec(c, s, run)
    decreases |run|
  {
    hide CleanInv, Inv, Apply, Enabled, Clean;
    if run != [] {
      CleanNeverMeets(c, s);
      ActionWithoutMeeting(c, s, run[0]);
      ActionClean(Exclusive(c), s, run[0]);
      CleanRunExclusive(c, Apply(c, s, run[0]), run[1..]);
    }
  }

  lemma CleanNeverMeets(c: Config, s: State)
    requires CleanInv(Exclusive(c), s)
    ensures NeverMeet(s) && Inv(Exclusive(c), s)
  {
    hide Inv, CopyClean, OrderClean;
    forall i, j | 0 <= i < |s.log| && 0 <= j < |s.log| && i != j && s.log[i].queue.Payment? && s.log[j].queue.Payment?
      ensures Exposed(s.log[i].place) && Exposed(s.log[j].place) ==> s.log[i].ev.order != s.log[j].ev.order
    {
      PaymentsApart(Exclusive(c), s, i, j);
    }
  }

  lemma CleanReachableInv(c: Config, s: State)
    requires CleanlyReachable(c, s)
    ensures CleanInv(Exclusive(c), s) && Reachable(Exclusive(c), s)
  {
    hide Inv, Clean, Apply, Enabled;
    var run :| CleanRun(c, Init, run) && Legal(c, Init, run) && Exec(c, Init, run) == s;
    InitInv(Exclusive(c));
    CleanRunExclusive(c, Init, run);
    RunClean(Exclusive(c), Init, run);
  }

  // ---------------------------------------------------------------------
  // The outcome
  // ---------------------------------------------------------------------

  /** Once a fault-free system is quiet, every order has been delivered or has failed. For a definite
      behaviour, which of the two depends on it and the budget alone: never_fail is delivered,
      always_fail fails, fail_twice is delivered iff R >= 2. */
  lemma OutcomeIsDetermined(c: Config, s: State, o: OrderId)
    requires CleanlyReachable(c, s) && Quiet(s) && o in s.orders
    ensures s.orders[o].status.DriverAssigned? || s.orders[o].status.Failed?
    ensures o in s.born
    ensures InForce(c, s.born[o], NeverFail) ==> s.orders[o].status.DriverAssigned?
    ensures InForce(c, s.born[o], AlwaysFail) ==> s.orders[o].status.Failed?
    ensures InForce(c, s.born[o], FailTwice) ==> (s.orders[o].status.DriverAssigned? <==> c.maxRetries >= 2)
  {
    hide Inv, Reachable, CleanlyReachable, AllFail, LiveApart, NoticesBacked;
    var e := Exclusive(c);
    CleanReachableInv(c, s);
    QuiescenceIsCompletion(e, s, o);
    assert Ids(s) by { CleanIsInv(e, s); TableFacts(e, s); }
    if !OrderPattern(c, s, o).Auto? { PatternDecides(OrderPattern(c, s, o), c.maxRetries); }
    assert OrderClean(e, s, o);
    forall w, k | DeadAt(s, w, k) && k.order == o ensures s.orders[o].status.Failed? {
      var i :| 0 <= i < |s.log| && s.log[i].queue == w && s.log[i].place.Dead? && KeyOf(s.log[i].ev) == k;
      CleanFacts(e, s, i);
    }
  }

  /** There a failure notice has been published iff the order is FAILED, whatever its behaviour. */
  lemma NoticeMeansFailed(c: Config, s: State, o: OrderId)
    requires CleanlyReachable(c, s) && Quiet(s) && o in s.orders
    ensures Logged(s, Key(o, FailedKind)) <==> s.orders[o].status.Failed?
  {
    hide Inv, Reachable, CleanlyReachable, AllFail, LiveApart, CopyClean, OrderClean;
    var e := Exclusive(c);
    CleanReachableInv(c, s);
    CleanIsInv(e, s);
    if s.orders[o].status.Failed? {
      TrackedFacts(e, s, o);
    } else {
      assert !NoticeBacked(s, o);
      assert forall i | 0 <= i < |s.log| :: KeyOf(s.log[i].ev) != Key(o, FailedKind);
    }
  }

  /** Only the payment worker dead-letters then, and only orders that ended as FAILED; every
      notification of every published event is stored exactly once. */
  lemma CleanNotifications(c: Config, s: State, i: nat)
    requires CleanlyReachable(c, s) && Quiet(s) && i < |s.log|
    ensures OneNote(s, KeyOf(s.log[i].ev))
  {
    hide Inv, Reachable, CleanlyReachable, AllFail;
    var e := Exclusive(c);
    CleanReachableInv(c, s);
    var k := KeyOf(s.log[i].ev);
    LoggedIsNoticed(e, s, k);
    NotificationsMatchGuard(e, s);
    forall j | 0 <= j < |s.log| ensures !(s.log[j].queue.Notification? && s.log[j].place.Dead?) {
      CleanFacts(e, s, j);
    }
  }

  lemma PaymentInput(c: Config, s: State, i: nat)
    requires CleanInv(Exclusive(c), s) && i < |s.log| && s.log[i].queue.Payment?
    ensures s.log[i].ev.OrderCreated?
  {
    hide Inv, CleanInv, PlaceNow, Backed, Announced, GuardOk, RowOk;
    CleanIsInv(Exclusive(c), s);
    Facts(Exclusive(c), s, i);
  }

  /** The attempt at which a fault-free charge happens, and at which an order is marked FAILED. */
  lemma OutcomeAttempt(c: Config, s: State, i: nat, ch: Choice)
    requires CleanlyReachable(c, s) && i < |s.log| && s.log[i].queue.Payment?
    ensures var m := s.log[i];
            m.ev.OrderCreated? && var b := m.ev.behavior;
            (Deciding(c, s, i, ch) && ResultOf(c, s, i, ch).effect.Charge? ==>
               !InForce(c, b, AlwaysFail) && (InForce(c, b, NeverFail) ==> m.rc + 1 == 1) &&
               (InForce(c, b, FailTwice) ==> m.rc + 1 == 3)) &&
            (InHook(m.place) ==>
               m.rc + 1 == c.maxRetries + 1 && !InForce(c, b, NeverFail) &&
               (InForce(c, b, FailTwice) ==> c.maxRetries < 2))
  {
    hide Inv, Reachable, CleanlyReachable;
    CleanReachableInv(c, s);
    CleanFacts(Exclusive(c), s, i);
    PaymentInput(c, s, i);
    var m := s.log[i];
    var p := Pattern(c, BehaviorOf(m.ev));
    if m.rc >= 1 { assert AllFail(p, m.rc) && MayFail(p, m.rc); }
    if Deciding(c, s, i, ch) && ResultOf(c, s, i, ch).effect.Charge? { PassedAttempt(c, m, ch); }
    if InHook(m.place) && !p.Auto? { PatternDecides(p, c.maxRetries); }
  }
}
