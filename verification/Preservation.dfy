// The stronger invariant of a system that keeps hook and payment apart: no overwrite ever happens,
// so statuses, guard rows and what transactions have read agree exactly.
module Preservation {
  import opened Schemas
  import opened Protocol
  import opened Steps
  import opened Invariant
  import opened Unconditional
  import opened Stages

  // ---------------------------------------------------------------------
  // The invariant
  // ---------------------------------------------------------------------

  /** A permanent-failure hook and a payment transaction never overlap on one order. */
  predicate HooksApart(log: seq<Copy>) {
    forall i, j | 0 <= i < |log| && 0 <= j < |log| ::
      log[i].queue.Payment? && log[i].place.Seen? && InHook(log[j].place) ==> log[i].ev.order != log[j].ev.order
  }

  predicate HookOk(s: State, m: Copy, pending: bool) {
    var o := m.ev.order;
    pending ==> o in s.orders && (s.orders[o].status.Pending? || s.orders[o].status.Failed?)
  }

  /** What a transaction has read is still the row; a hook that saw PENDING can still fail it. */
  predicate PlaceNow(s: State, m: Copy) {
    match m.place
    case Seen(row) => row.Some? ==> m.ev.order in s.orders && s.orders[m.ev.order] == row.value
    case HookOpen(pending) => HookOk(s, m, pending)
    case HookAnnounced(pending) => HookOk(s, m, pending)
    case _ => true
  }

  predicate FailedUncharged(s: State) {
    forall o | o in s.orders && s.orders[o].status.Failed? :: s.orders[o].payment.None?
  }

  predicate PlacesNow(s: State) {
    forall i | 0 <= i < |s.log| :: PlaceNow(s, s.log[i])
  }

  ghost predicate Inv(c: Config, s: State) {
    c.exclusive && Base(c, s) && FailedUncharged(s) && PlacesNow(s) && HooksApart(s.log)
  }

  // ---------------------------------------------------------------------
  // What the invariant says about particular entries
  // ---------------------------------------------------------------------

  predicate RowOk(s: State, o: OrderId)
    requires o in s.orders
  {
    var r := s.orders[o];
    && (r.payment.Some? <==> Charged(r.status))
    && (r.driver.Some? <==> r.status.DriverAssigned?)
    && (Charged(r.status) ==> PaidSlot(o) in s.guard)
    && (r.status.Confirmed? || r.status.DriverAssigned? ==> ConfirmedSlot(o) in s.guard)
    && (r.status.DriverAssigned? ==> AssignedSlot(o) in s.guard)
  }

  /** What the row says about the order's status. */
  predicate GuardOk(s: State, sl: Slot)
    requires sl in s.guard
  {
    var o, out := sl.key.order, s.guard[sl];
    GuardShape(s, sl) &&
    match sl.worker
    case Payment => if Charged(s.orders[o].status) then out != [] else s.orders[o].status.Failed? && out == []
    case Restaurant =>
      o in s.orders && (s.orders[o].status.Confirmed? || s.orders[o].status.DriverAssigned?) && out != []
    case Delivery => o in s.orders && s.orders[o].status.DriverAssigned? && out != []
    case Notification => true
  }

  predicate CopyOk(c: Config, s: State, m: Copy) {
    CopyShape(c, s, m) && SeenStage(s, m) && PlaceNow(s, m)
  }

  lemma InvFacts(c: Config, s: State)
    requires Inv(c, s)
    ensures c.exclusive && Base(c, s) && FailedUncharged(s) && PlacesNow(s) && HooksApart(s.log)
  {
    hide Base;
  }

  lemma InvCore(c: Config, s: State)
    requires Inv(c, s)
    ensures Core(c, s) && Base(c, s) && Coverage(s)
  {
    hide Core, Coverage;
  }

  /** A charge and a FAILED status exclude each other, so each status fixes its guard rows and ids. */
  lemma OrderOk(c: Config, s: State, o: OrderId)
    requires Inv(c, s)
    ensures o in s.orders ==> RowOk(s, o)
    ensures PaidSlot(o) in s.guard ==> GuardOk(s, PaidSlot(o))
    ensures ConfirmedSlot(o) in s.guard ==> GuardOk(s, ConfirmedSlot(o))
    ensures AssignedSlot(o) in s.guard ==> GuardOk(s, AssignedSlot(o))
  {
    hide Inv, Base, HasNote, NotesOk;
    InvFacts(c, s);
    OrderFacts(c, s, o);
    if o in s.orders { assert RowTrace(s, o) by { BaseFacts(c, s); } }
  }

  lemma TableFacts(c: Config, s: State)
    requires Inv(c, s)
    ensures ShapesOk(s) && forall o | o in s.orders :: RowOk(s, o)
  {
    hide Inv, RowOk;
    assert ShapesOk(s) by { InvCore(c, s); ShapeFacts(c, s); }
    forall o | o in s.orders ensures RowOk(s, o) { OrderOk(c, s, o); }
  }

  lemma GuardFacts(c: Config, s: State, sl: Slot)
    requires Inv(c, s) && sl in s.guard
    ensures GuardOk(s, sl) && Logged(s, sl.key)
  {
    hide Inv, Base, Core, RowOk, Logged, Announced, Backed;
    InvCore(c, s);
    BaseFacts(c, s);
    OrderOk(c, s, sl.key.order);
    SlotIsStage(c, s, sl);
    assert GuardShape(s, sl);
  }

  lemma Facts(c: Config, s: State, i: nat)
    requires Inv(c, s) && i < |s.log|
    ensures CopyOk(c, s, s.log[i]) && Announced(s, KeyOf(s.log[i].ev))
    ensures SlotOf(s.log[i]) in s.guard ==> GuardOk(s, SlotOf(s.log[i]))
    ensures s.log[i].ev.order in s.orders ==> RowOk(s, s.log[i].ev.order)
    ensures Tracked(s, s.log[i].ev.order) ==> Backed(s, s.log[i].ev.order)
  {
    hide Inv, Base, Core, GuardOk, RowOk, Backed, Announced, CopyShape, SeenStage, PlaceNow, TableStages;
    InvFacts(c, s);
    InvCore(c, s);
    TablesOfBase(c, s);
    CopyFacts(c, s, i);
    OrderOk(c, s, s.log[i].ev.order);
    if SlotOf(s.log[i]) in s.guard { GuardFacts(c, s, SlotOf(s.log[i])); }
  }

  lemma TrackedFacts(c: Config, s: State, o: OrderId)
    requires Inv(c, s) && Tracked(s, o)
    ensures Backed(s, o) && Logged(s, Key(o, CreatedKind))
    ensures o in s.orders ==> RowOk(s, o)
  {
    hide Inv, Base, Core, RowOk, Backed, Logged;
    InvCore(c, s);
    OrderOk(c, s, o);
  }

  /** Two copies never share a guard key in open transactions, nor a hook and a payment. */
  lemma Apart(c: Config, s: State, i: nat, j: nat)
    requires Inv(c, s) && i < |s.log| && j < |s.log| && i != j
    ensures InTxn(s.log[i].place) && InTxn(s.log[j].place) ==> SlotOf(s.log[i]) != SlotOf(s.log[j])
    ensures s.log[i].queue.Payment? && s.log[i].place.Seen? && InHook(s.log[j].place) ==>
              s.log[i].ev.order != s.log[j].ev.order
  {
    hide Inv, Base, Core;
    InvFacts(c, s);
    InvCore(c, s);
    ShapeFacts(c, s);
  }

  /** The guard row behind a copy of a worker's event fixes how far its order has come. */
  lemma InputFacts(c: Config, s: State, i: nat)
    requires Inv(c, s) && i < |s.log|
    ensures EventProgress(s, s.log[i].ev)
  {
    hide Inv, Base, Core, PlaceNow, SeenStage, RowOk, Backed, Announced;
    Facts(c, s, i);
    var e := s.log[i].ev;
    if e.OrderPaid? { GuardFacts(c, s, PaidSlot(e.order)); }
    if e.OrderConfirmed? { GuardFacts(c, s, ConfirmedSlot(e.order)); }
    if e.OrderDriverAssigned? { GuardFacts(c, s, AssignedSlot(e.order)); }
  }

  /** An event is in circulation only once its order has reached the state it announces. */
  predicate EventProgress(s: State, e: Event) {
    match e
    case OrderPaid(o, p, _) => o in s.orders && Charged(s.orders[o].status) && s.orders[o].payment == Some(p)
    case OrderConfirmed(o, _) =>
      o in s.orders && (s.orders[o].status.Confirmed? || s.orders[o].status.DriverAssigned?)
    case OrderDriverAssigned(o, d, _) =>
      o in s.orders && s.orders[o].status.DriverAssigned? && s.orders[o].driver == Some(d)
    case _ => true
  }

  lemma HookFacts(c: Config, s: State, i: nat)
    requires Inv(c, s) && i < |s.log| && s.log[i].place == HookAnnounced(true)
    ensures var o := s.log[i].ev.order;
            o in s.orders && (s.orders[o].status.Pending? || s.orders[o].status.Failed?) && Logged(s, Key(o, FailedKind))
  {
    hide Inv, Base, Core, Logged, Backed, Announced;
    InvFacts(c, s);
    InvCore(c, s);
    assert PlaceNow(s, s.log[i]);
  }

  // ---------------------------------------------------------------------
  // The commit of a process transaction
  // ---------------------------------------------------------------------

  /** What a transaction about to commit has found and decided. The guard and the status
      checks leave one case per worker; in particular neither skip branch of the restaurant
      and delivery workers is possible. */
  predicate CommitCase(s: State, m: Copy, r: Result) {
    var o := m.ev.order;
    r.Returned? && SlotOf(m) !in s.guard &&
    match m.queue
    case Payment =>
      o in s.orders &&
      (if s.orders[o].status.Pending?
       then r.effect.Charge? && |r.outgoing| == 1 && r.outgoing[0].OrderPaid? && r.outgoing[0].order == o &&
            r.outgoing[0].payment == r.effect.payment
       else s.orders[o].status.Failed? && r == Returned(NoWrite, []))
    case Restaurant =>
      o in s.orders && s.orders[o].status.Paid? &&
      r.effect.Confirm? && |r.outgoing| == 1 && r.outgoing[0].OrderConfirmed? && r.outgoing[0].order == o
    case Delivery =>
      o in s.orders && s.orders[o].status.Confirmed? &&
      r.effect.Assign? && |r.outgoing| == 1 && r.outgoing[0].OrderDriverAssigned? && r.outgoing[0].order == o &&
      r.outgoing[0].driver == r.effect.driver
    case Notification => r == Returned(NoWrite, [])
  }

  lemma CommitFacts(c: Config, s: State, i: nat, ch: Choice)
    requires Inv(c, s) && i < |s.log| && Deciding(c, s, i, ch)
    ensures var m := s.log[i];
            CommitCase(s, m, Process(c, m.queue, m.ev, m.rc + 1, m.place.row, ch))
  {
    hide Inv, Base, Core, Announced, Backed, GuardOk, RowOk, ShouldFail, EventOk, CountsOk;
    Facts(c, s, i);
    InvCore(c, s);
    if !s.log[i].queue.Notification? { WorkStage(c, s, i); }
    InputFacts(c, s, i);
  }

  function Committed(s: State, i: nat, r: Result): State
    requires i < |s.log| && r.Returned?
  {
    Move(CommitTables(s, s.log[i], r), i, Publishing(r.outgoing, false))
  }

  // ---------------------------------------------------------------------
  // Every step, every run
  // ---------------------------------------------------------------------

  lemma StepUncharged(c: Config, s: State, i: nat, step: Step)
    requires Inv(c, s) && i < |s.log| && StepEnabled(c, s, i, step)
    ensures FailedUncharged(ApplyStep(c, s, i, step))
  {
    hide Inv, Base, Core, ApplyStep, StepEnabled, Process, PlacesNow;
    InvFacts(c, s);
    if step.Commit? {
      CommitUncharged(c, s, i, step.ch);
    } else if step.HookCommit? {
      HookUncharged(c, s, i);
    } else {
      OnlyCommitsWrite(c, s, i, step);
    }
  }

  lemma CommitUncharged(c: Config, s: State, i: nat, ch: Choice)
    requires Inv(c, s) && i < |s.log| && StepEnabled(c, s, i, Commit(ch))
    ensures FailedUncharged(ApplyStep(c, s, i, Commit(ch)))
  {
    hide Inv, Base, Core, ApplyStep, Process, PlacesNow;
    InvFacts(c, s);
    CommitKeepsAll(c, s, i, ch);
  }

  lemma HookUncharged(c: Config, s: State, i: nat)
    requires Inv(c, s) && i < |s.log| && StepEnabled(c, s, i, HookCommit)
    ensures FailedUncharged(ApplyStep(c, s, i, HookCommit))
  {
    hide Inv, Base, Core, PlacesNow, Logged;
    InvFacts(c, s);
    if s.log[i].place.pending {
      HookFacts(c, s, i);
      OrderOk(c, s, s.log[i].ev.order);
    }
  }

  /** Other transactions and hooks find their order as they left it. */
  lemma OthersNow(c: Config, s: State, i: nat, step: Step, j: nat)
    requires Inv(c, s) && i < |s.log| && StepEnabled(c, s, i, step) && j < |s.log| && j != i
    ensures PlaceNow(ApplyStep(c, s, i, step), s.log[j])
  {
    hide Inv, Base, Core, ApplyStep, StepEnabled, Process, HooksApart;
    InvFacts(c, s);
    assert PlaceNow(s, s.log[j]);
    if step.Commit? {
      CommitSparesOthers(c, s, i, step.ch, j);
    } else if step.HookCommit? {
      HookSparesOthers(c, s, i, j);
    } else {
      OnlyCommitsWrite(c, s, i, step);
    }
  }

  lemma CommitSparesOthers(c: Config, s: State, i: nat, ch: Choice, j: nat)
    requires Inv(c, s) && i < |s.log| && StepEnabled(c, s, i, Commit(ch)) && j < |s.log| && j != i
    ensures PlaceNow(ApplyStep(c, s, i, Commit(ch)), s.log[j])
  {
    hide Inv, Base, Core, ApplyStep, StepEnabled, Process, HooksApart;
    InvFacts(c, s);
    assert PlaceNow(s, s.log[j]);
    CommitKeepsAll(c, s, i, ch);
    CommitFacts(c, s, i, ch) by { Decides(c, s, i, ch); }
    if s.log[i].queue.Notification? {
      NotesLeaveOrders(c, s, i, ch);
    } else if s.log[j].place.Seen? {
      if s.log[j].queue.Notification? { NoteSeesNothing(c, s, j); } else { OneWorkPerOrder(c, s, i, j); }
    } else {
      Apart(c, s, i, j);
    }
  }

  lemma Decides(c: Config, s: State, i: nat, ch: Choice)
    requires i < |s.log| && StepEnabled(c, s, i, Commit(ch))
    ensures Deciding(c, s, i, ch)
  {
  }

  lemma NoteSeesNothing(c: Config, s: State, j: nat)
    requires Inv(c, s) && j < |s.log| && s.log[j].place.Seen? && s.log[j].queue.Notification?
    ensures s.log[j].place.row.None?
  {
    hide Inv, Base, Core, Announced, EventOk, GuardShape;
    InvCore(c, s);
    CopyFacts(c, s, j);
  }

  lemma HookSparesOthers(c: Config, s: State, i: nat, j: nat)
    requires Inv(c, s) && i < |s.log| && StepEnabled(c, s, i, HookCommit) && j < |s.log| && j != i
    ensures PlaceNow(ApplyStep(c, s, i, HookCommit), s.log[j])
  {
    hide Inv, Base, Core, HooksApart, Logged, ResultOf;
    InvFacts(c, s);
    assert PlaceNow(s, s.log[j]);
    if s.log[i].place.pending {
      HookFacts(c, s, i);
      if s.log[j].place.Seen? {
        Apart(c, s, j, i);
        if s.log[j].queue.Notification? { NoteSeesNothing(c, s, j); } else { InvCore(c, s); WorkStage(c, s, j); }
      }
    }
  }

  lemma MoverNow(c: Config, s: State, i: nat, step: Step)
    requires Inv(c, s) && i < |s.log| && StepEnabled(c, s, i, step)
    ensures var t := ApplyStep(c, s, i, step); i < |t.log| && PlaceNow(t, t.log[i])
  {
    hide Inv, Base, Core, HooksApart, Process, Held, HookRuns, PaymentRuns, HasNote, Published, Fanout, RetryCopy, Update,
         TextFor, Budget;
    InvFacts(c, s);
    assert PlaceNow(s, s.log[i]);
  }

  lemma StepHooksApart(c: Config, s: State, i: nat, step: Step)
    requires Inv(c, s) && i < |s.log| && StepEnabled(c, s, i, step)
    ensures HooksApart(ApplyStep(c, s, i, step).log)
  {
    hide Inv, Base, Core, ApplyStep, StepEnabled, Added, PlacesNow;
    InvFacts(c, s);
    StepLog(c, s, i, step);
    AddedWaits(c, s, i, step);
    MeetsNone(c, s, i, step);
    var t := ApplyStep(c, s, i, step);
    forall j | |s.log| <= j < |t.log| ensures t.log[j].place.Ready? || t.log[j].place.Waiting? {
      var m := Added(c, s, i, step)[j - |s.log|];
      assert t.log[j] == m && m in Added(c, s, i, step);
    }
    assert forall j | 0 <= j < |s.log| && j != i :: t.log[j] == s.log[j];
    assert t.log[i].queue == s.log[i].queue && t.log[i].ev == s.log[i].ev;
  }

  /** Here the exclusion is used: a payment reads only without a hook, and the other way round. */
  lemma MeetsNone(c: Config, s: State, i: nat, step: Step)
    requires c.exclusive && i < |s.log| && StepEnabled(c, s, i, step)
    ensures var t := ApplyStep(c, s, i, step); var o := s.log[i].ev.order;
            i < |t.log| &&
            (t.log[i].place.Seen? && s.log[i].queue.Payment? ==> !HookRuns(s, o)) &&
            (InHook(t.log[i].place) && !InHook(s.log[i].place) ==> !PaymentRuns(s, o) && s.log[i].place.Failing?)
  {
    hide Process, Held, HookRuns, PaymentRuns, HasNote, Published, Fanout, RetryCopy, Update, TextFor, Budget;
  }

  lemma StepInv(c: Config, s: State, i: nat, step: Step)
    requires Inv(c, s) && i < |s.log| && StepEnabled(c, s, i, step)
    ensures Inv(c, ApplyStep(c, s, i, step))
  {
    hide Inv, Base, Core, ApplyStep, StepEnabled, Added, PlaceNow, HooksApart, FailedUncharged, Keeps;
    var t := ApplyStep(c, s, i, step);
    InvFacts(c, s);
    ActionBase(c, s, At(i, step));
    StepUncharged(c, s, i, step);
    StepHooksApart(c, s, i, step);
    StepLog(c, s, i, step);
    AddedWaits(c, s, i, step);
    forall j | 0 <= j < |t.log| ensures PlaceNow(t, t.log[j]) {
      if j == i {
        MoverNow(c, s, i, step);
      } else if j < |s.log| {
        OthersNow(c, s, i, step, j);
      } else {
        var m := Added(c, s, i, step)[j - |s.log|];
        assert t.log[j] == m && m in Added(c, s, i, step);
        WaitingHoldsNothing(t, m);
      }
    }
    InvOf(c, t);
  }

  lemma WaitingHoldsNothing(s: State, m: Copy)
    requires m.place.Ready? || m.place.Waiting?
    ensures PlaceNow(s, m)
  {
  }

  lemma InvOf(c: Config, s: State)
    requires c.exclusive && Base(c, s) && FailedUncharged(s) && PlacesNow(s) && HooksApart(s.log)
    ensures Inv(c, s)
  {
  }

  lemma ApiInv(c: Config, s: State, a: Action)
    requires Inv(c, s) && Enabled(c, s, a) && !a.At?
    ensures Inv(c, Apply(c, s, a))
  {
    hide Inv, Base, Core, Keeps;
    var t := Apply(c, s, a);
    InvFacts(c, s);
    ActionBase(c, s, a);
    assert Ids(s) by { InvCore(c, s); ShapeFacts(c, s); }
    forall j | 0 <= j < |t.log| ensures PlaceNow(t, t.log[j]) {
      if j < |s.log| { assert t.log[j] == s.log[j] && PlaceNow(s, s.log[j]); }
    }
    assert forall j | 0 <= j < |t.log| ::
      (InTxn(t.log[j].place) || InHook(t.log[j].place)) ==> j < |s.log| && t.log[j] == s.log[j];
    InvOf(c, t);
  }

  lemma ActionInv(c: Config, s: State, a: Action)
    requires Inv(c, s) && Enabled(c, s, a)
    ensures Inv(c, Apply(c, s, a))
  {
    hide Inv, ApplyStep, StepEnabled;
    if a.At? { StepInv(c, s, a.i, a.step); } else { ApiInv(c, s, a); }
  }

  lemma {:induction false} RunInv(c: Config, s: State, run: seq<Action>)
    requires Inv(c, s) && Legal(c, s, run)
    ensures Inv(c, Exec(c, s, run))
    decreases |run|
  {
    hide Inv;
    if run != [] {
      ActionInv(c, s, run[0]);
      RunInv(c, Apply(c, s, run[0]), run[1..]);
    }
  }

  lemma InitInv(c: Config)
    requires c.exclusive
    ensures Inv(c, Init)
  {
    hide Base;
    InitBase(c);
  }
}
