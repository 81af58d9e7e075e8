// How far orders have come and what still carries them, in every run: a hook may overwrite a status
// at any moment, but never what the guard rows record.
module Stages {
  import opened Schemas
  import opened Protocol
  import opened Steps
  import opened Invariant
  import opened Unconditional

  // ---------------------------------------------------------------------
  // The invariant
  // ---------------------------------------------------------------------

  /** The guard rows behind each status. FAILED may hide any of them. */
  predicate RowStage(s: State, o: OrderId)
    requires o in s.orders
  {
    match s.orders[o].status
    case Pending => PaidSlot(o) !in s.guard
    case Paid => Stores(s, PaidSlot(o)) && ConfirmedSlot(o) !in s.guard
    case Confirmed => Stores(s, ConfirmedSlot(o)) && AssignedSlot(o) !in s.guard
    case DriverAssigned => Stores(s, AssignedSlot(o))
    case Failed => true
  }

  /** Each stage rests on the one before, and a unit of work that skipped had found FAILED. */
  predicate SlotStage(s: State, sl: Slot)
    requires sl in s.guard
  {
    var o := sl.key.order;
    (match sl.worker
     case Payment => true
     case Restaurant => Stores(s, PaidSlot(o))
     case Delivery => Stores(s, ConfirmedSlot(o))
     case Notification => true) &&
    (!sl.worker.Notification? && s.guard[sl] == [] ==> o in s.orders && s.orders[o].status.Failed?)
  }

  /** A transaction has read the status its event announces, or a FAILED that is final by now. */
  predicate SeenStage(s: State, m: Copy) {
    m.place.Seen? ==>
      match m.queue
      case Payment => m.place.row.Some? ==> HasRead(s, m, Pending)
      case Restaurant => m.place.row.Some? && HasRead(s, m, Paid)
      case Delivery => m.place.row.Some? && HasRead(s, m, Confirmed)
      case Notification => true
  }

  predicate HasRead(s: State, m: Copy, st: Status)
    requires m.place.Seen? && m.place.row.Some?
  {
    m.place.row.value.status == st ||
    (m.place.row.value.status.Failed? && m.ev.order in s.orders && s.orders[m.ev.order].status.Failed?)
  }

  predicate TableStages(s: State) {
    (forall o | o in s.orders :: RowStage(s, o)) && (forall sl | sl in s.guard :: SlotStage(s, sl))
  }

  predicate SeenStages(s: State) {
    forall i | 0 <= i < |s.log| :: SeenStage(s, s.log[i])
  }

  ghost predicate Base(c: Config, s: State) {
    Core(c, s) && TableStages(s) && SeenStages(s) && Coverage(s)
  }

  lemma BaseFacts(c: Config, s: State)
    requires Base(c, s)
    ensures Core(c, s) && ShapesOk(s) && TableStages(s) && SeenStages(s) && Coverage(s)
  {
    hide CopyShape;
  }

  lemma OrderFacts(c: Config, s: State, o: OrderId)
    requires Base(c, s)
    ensures o in s.orders ==> RowStage(s, o)
    ensures PaidSlot(o) in s.guard ==> GuardShape(s, PaidSlot(o)) && SlotStage(s, PaidSlot(o))
    ensures ConfirmedSlot(o) in s.guard ==> GuardShape(s, ConfirmedSlot(o)) && SlotStage(s, ConfirmedSlot(o))
    ensures AssignedSlot(o) in s.guard ==> GuardShape(s, AssignedSlot(o)) && SlotStage(s, AssignedSlot(o))
  {
    hide CopyShape, Coverage;
  }

  /** An event past the guard finds its order in the status it announces, or FAILED. */
  lemma WorkStage(c: Config, s: State, i: nat)
    requires Base(c, s) && i < |s.log| && InTxn(s.log[i].place) && !s.log[i].queue.Notification?
    ensures var m := s.log[i]; var o := m.ev.order;
            SlotOf(m) == InputSlot(m.queue, o) && SlotOf(m) !in s.guard &&
            match m.queue
            case Payment => o in s.orders ==> s.orders[o].status.Pending? || s.orders[o].status.Failed?
            case Restaurant =>
              Stores(s, PaidSlot(o)) && o in s.orders && (s.orders[o].status.Paid? || s.orders[o].status.Failed?)
            case Delivery =>
              Stores(s, PaidSlot(o)) && Stores(s, ConfirmedSlot(o)) && o in s.orders &&
              (s.orders[o].status.Confirmed? || s.orders[o].status.Failed?)
            case _ => true
  {
    hide Base, Announced, CountsOk;
    BaseFacts(c, s);
    hide Coverage;
    CopyFacts(c, s, i);
    OrderFacts(c, s, s.log[i].ev.order);
  }

  /** No two open transactions work on the same order, even for different workers. */
  lemma OneWorkPerOrder(c: Config, s: State, i: nat, j: nat)
    requires Base(c, s) && i < |s.log| && j < |s.log| && i != j
    requires InTxn(s.log[i].place) && InTxn(s.log[j].place)
    requires !s.log[i].queue.Notification? && !s.log[j].queue.Notification?
    ensures s.log[i].ev.order != s.log[j].ev.order
  {
    hide Base, Core, TableStages, SeenStages, Coverage, ShapesOk, CopyShape;
    BaseFacts(c, s);
    WorkStage(c, s, i);
    WorkStage(c, s, j);
    assert SlotOf(s.log[i]) != SlotOf(s.log[j]) by { ShapeFacts(c, s); }
  }

  // ---------------------------------------------------------------------
  // Commits
  // ---------------------------------------------------------------------

  /** A unit of work that is about to skip has a FAILED order; one that writes has what it needs. */
  predicate ResultStage(s: State, m: Copy, r: Result) {
    var o := m.ev.order;
    ResultShape(s, m, r) &&
    (!m.queue.Notification? && r.effect.NoWrite? ==> o in s.orders && s.orders[o].status.Failed?)
  }

  lemma CommitStage(c: Config, s: State, i: nat, ch: Choice)
    requires Base(c, s) && i < |s.log| && StepEnabled(c, s, i, Commit(ch))
    ensures s.log[i].place.Seen? && ResultOf(c, s, i, ch).Returned? && ResultStage(s, s.log[i], ResultOf(c, s, i, ch))
  {
    hide Base, Core, ShouldFail, ResultShape, Coverage, TableStages;
    BaseFacts(c, s);
    DecisionShape(c, s, i, ch);
    assert SeenStage(s, s.log[i]);
  }

  lemma CommitTablesStage(c: Config, s: State, i: nat, ch: Choice)
    requires Base(c, s) && i < |s.log| && StepEnabled(c, s, i, Commit(ch))
    ensures TableStages(ApplyStep(c, s, i, Commit(ch)))
  {
    hide Base, Core, Process, ResultStage, RowStage, SlotStage, ApplyStep;
    CommitStage(c, s, i, ch);
    CommitKeepsAll(c, s, i, ch);
    var t := ApplyStep(c, s, i, Commit(ch));
    forall o | o in t.orders ensures RowStage(t, o) { CommitRowStage(c, s, i, ch, o); }
    forall sl | sl in t.guard ensures SlotStage(t, sl) { CommitSlotStage(c, s, i, ch, sl); }
  }

  lemma CommitKeepsAll(c: Config, s: State, i: nat, ch: Choice)
    requires i < |s.log| && StepEnabled(c, s, i, Commit(ch))
    ensures s.log[i].place.Seen?
    ensures var t := ApplyStep(c, s, i, Commit(ch));
            t.orders.Keys == s.orders.Keys &&
            t.guard == s.guard[SlotOf(s.log[i]) := ResultOf(c, s, i, ch).outgoing] &&
            (forall o | o in s.orders && o != s.log[i].ev.order :: t.orders[o] == s.orders[o]) &&
            (s.log[i].ev.order in s.orders ==>
               t.orders[s.log[i].ev.order] == Write(s.orders[s.log[i].ev.order], ResultOf(c, s, i, ch).effect))
  {
    hide Process, TextFor, Write;
  }

  lemma CommitRowStage(c: Config, s: State, i: nat, ch: Choice, o: OrderId)
    requires Base(c, s) && i < |s.log| && StepEnabled(c, s, i, Commit(ch)) && o in s.orders
    ensures var t := ApplyStep(c, s, i, Commit(ch)); o in t.orders && RowStage(t, o)
  {
    hide Base, Core, Process, ApplyStep, StepEnabled, GuardShape;
    CommitStage(c, s, i, ch);
    CommitKeepsAll(c, s, i, ch);
    OrderFacts(c, s, o);
    if !s.log[i].queue.Notification? { WorkStage(c, s, i); }
  }

  lemma CommitSlotStage(c: Config, s: State, i: nat, ch: Choice, sl: Slot)
    requires Base(c, s) && i < |s.log| && StepEnabled(c, s, i, Commit(ch))
    requires sl in s.guard || sl == SlotOf(s.log[i])
    ensures var t := ApplyStep(c, s, i, Commit(ch)); sl in t.guard && SlotStage(t, sl)
  {
    hide Base, Core, Process, ApplyStep, StepEnabled, ResultStage, ResultShape, SlotStage, Write, Stores;
    assert SlotOf(s.log[i]) !in s.guard by { CoreOfBase(c, s); DecisionShape(c, s, i, ch); }
    CommitKeepsAll(c, s, i, ch);
    if sl in s.guard { OldSlotStage(c, s, i, ch, sl); } else { OwnSlotStage(c, s, i, ch); }
  }

  lemma CoreOfBase(c: Config, s: State)
    requires Base(c, s)
    ensures Core(c, s)
  {
  }

  lemma OwnSlotStage(c: Config, s: State, i: nat, ch: Choice)
    requires Base(c, s) && i < |s.log| && StepEnabled(c, s, i, Commit(ch))
    ensures var t := ApplyStep(c, s, i, Commit(ch)); SlotOf(s.log[i]) in t.guard && SlotStage(t, SlotOf(s.log[i]))
  {
    hide Base, Core, Process, ApplyStep, StepEnabled;
    CommitStage(c, s, i, ch);
    CommitKeepsAll(c, s, i, ch);
    if !s.log[i].queue.Notification? { WorkStage(c, s, i); }
  }

  lemma OldSlotStage(c: Config, s: State, i: nat, ch: Choice, sl: Slot)
    requires Base(c, s) && i < |s.log| && StepEnabled(c, s, i, Commit(ch)) && sl in s.guard && SlotOf(s.log[i]) !in s.guard
    ensures var t := ApplyStep(c, s, i, Commit(ch)); sl in t.guard && SlotStage(t, sl)
  {
    hide Base, Core, Process, ApplyStep, StepEnabled, ResultShape, Write;
    CommitKeepsAll(c, s, i, ch);
    SlotIsStage(c, s, sl);
    if !s.log[i].queue.Notification? && sl.key.order == s.log[i].ev.order && !sl.worker.Notification? {
      WorkStage(c, s, i);
      CommitStage(c, s, i, ch);
      EmptyStaysFailed(c, s, i, ch, sl);
    } else if s.log[i].queue.Notification? {
      NotesLeaveOrders(c, s, i, ch);
    }
  }

  lemma NotesLeaveOrders(c: Config, s: State, i: nat, ch: Choice)
    requires i < |s.log| && StepEnabled(c, s, i, Commit(ch)) && s.log[i].queue.Notification?
    ensures ApplyStep(c, s, i, Commit(ch)).orders == s.orders
  {
  }

  /** After a skip at an earlier or later stage the unit of work at hand can only skip as well. */
  lemma EmptyStaysFailed(c: Config, s: State, i: nat, ch: Choice, sl: Slot)
    requires Base(c, s) && i < |s.log| && StepEnabled(c, s, i, Commit(ch)) && sl in s.guard && s.log[i].place.Seen?
    requires !s.log[i].queue.Notification? && !sl.worker.Notification? && sl.key.order == s.log[i].ev.order
    ensures s.guard[sl] != []
  {
    hide Base, Core, Process, ApplyStep, StepEnabled, ResultShape, Write;
    SlotIsStage(c, s, sl);
    WorkStage(c, s, i);
  }

  /** Every guard row but a notification's is that of its order's stage. */
  lemma SlotIsStage(c: Config, s: State, sl: Slot)
    requires Base(c, s) && sl in s.guard
    ensures SlotStage(s, sl)
    ensures !sl.worker.Notification? ==> sl == InputSlot(sl.worker, sl.key.order)
    ensures sl.worker.Delivery? ==> Stores(s, ConfirmedSlot(sl.key.order)) && Stores(s, PaidSlot(sl.key.order))
  {
    hide Base, Core, HasNote;
    BaseFacts(c, s);
    hide Coverage;
    assert GuardShape(s, sl) && SlotStage(s, sl);
    OrderFacts(c, s, sl.key.order);
  }

  // ---------------------------------------------------------------------
  // Stages over a step
  // ---------------------------------------------------------------------

  /** Only statuses differ, and only towards FAILED. */
  predicate OnlyFails(s: State, t: State) {
    t.guard == s.guard && t.orders.Keys == s.orders.Keys &&
    forall o | o in s.orders :: t.orders[o].status == s.orders[o].status || t.orders[o].status.Failed?
  }

  lemma HookOnlyFails(c: Config, s: State, i: nat)
    requires i < |s.log| && StepEnabled(c, s, i, HookCommit)
    ensures OnlyFails(s, ApplyStep(c, s, i, HookCommit))
  {
  }

  lemma OnlyFailsStage(s: State, t: State)
    requires TableStages(s) && OnlyFails(s, t)
    ensures TableStages(t)
  {
    forall o | o in t.orders ensures RowStage(t, o) { assert RowStage(s, o); }
    forall sl | sl in t.guard ensures SlotStage(t, sl) { assert SlotStage(s, sl); }
  }

  lemma StepTables(c: Config, s: State, i: nat, step: Step)
    requires Base(c, s) && i < |s.log| && StepEnabled(c, s, i, step)
    ensures TableStages(ApplyStep(c, s, i, step))
    ensures !step.Commit? ==> OnlyFails(s, ApplyStep(c, s, i, step))
  {
    hide Base, ApplyStep, StepEnabled, TableStages;
    if step.Commit? {
      CommitTablesStage(c, s, i, step.ch);
    } else {
      if step.HookCommit? { HookOnlyFails(c, s, i); } else { OnlyCommitsWrite(c, s, i, step); }
      TablesOfBase(c, s);
      OnlyFailsStage(s, ApplyStep(c, s, i, step));
    }
  }

  lemma TablesOfBase(c: Config, s: State)
    requires Base(c, s)
    ensures TableStages(s) && SeenStages(s) && Coverage(s)
  {
  }

  /** What a transaction has read stays good under every step of the others. */
  lemma OthersSeen(c: Config, s: State, i: nat, step: Step, j: nat)
    requires Base(c, s) && i < |s.log| && StepEnabled(c, s, i, step) && j < |s.log| && j != i
    ensures SeenStage(ApplyStep(c, s, i, step), s.log[j])
  {
    hide Base, ApplyStep, StepEnabled, TableStages, Coverage, Core, Process;
    assert SeenStage(s, s.log[j]) by { TablesOfBase(c, s); }
    StepTables(c, s, i, step);
    if step.Commit? && s.log[j].place.Seen? && !s.log[j].queue.Notification? {
      CommitKeepsAll(c, s, i, step.ch);
      if s.log[i].queue.Notification? { NotesLeaveOrders(c, s, i, step.ch); } else { OneWorkPerOrder(c, s, i, j); }
    }
  }

  lemma MoverSeen(c: Config, s: State, i: nat, step: Step)
    requires Base(c, s) && i < |s.log| && StepEnabled(c, s, i, step)
    ensures var t := ApplyStep(c, s, i, step); i < |t.log| && SeenStage(t, t.log[i])
  {
    hide Base, Core, TableStages, SeenStages, Coverage, ApplyStep, Stores;
    StepLog(c, s, i, step);
    OnlyReadsSee(c, s, i, step);
    if step.Read? {
      if !s.log[i].queue.Notification? { WorkStage(c, s, i); }
      hide StepEnabled;
      OnlyCommitsWrite(c, s, i, step);
    }
  }

  lemma OnlyReadsSee(c: Config, s: State, i: nat, step: Step)
    requires i < |s.log| && StepEnabled(c, s, i, step)
    ensures var t := ApplyStep(c, s, i, step);
            i < |t.log| && (t.log[i].place.Seen? ==> step.Read? && t.log[i].place == Seen(ReadRow(s, s.log[i])))
    ensures step.Read? ==> s.log[i].place.Open?
  {
    hide Process, Held, HookRuns, PaymentRuns, HasNote, Published, Fanout, RetryCopy, Update, TextFor, Budget;
  }

  lemma StepSeen(c: Config, s: State, i: nat, step: Step)
    requires Base(c, s) && i < |s.log| && StepEnabled(c, s, i, step)
    ensures SeenStages(ApplyStep(c, s, i, step))
  {
    hide Base, ApplyStep, StepEnabled, SeenStage, Added, CopyShape;
    var t := ApplyStep(c, s, i, step);
    StepLog(c, s, i, step);
    assert Core(c, s) by { CoreOfBase(c, s); }
    hide Core;
    AddedInShape(c, s, i, step);
    forall j | 0 <= j < |t.log| ensures SeenStage(t, t.log[j]) {
      if j == i {
        MoverSeen(c, s, i, step);
      } else if j < |s.log| {
        OthersSeen(c, s, i, step, j);
      } else {
        assert t.log[j] == Added(c, s, i, step)[j - |s.log|];
        WaitingSeesNothing(t, t.log[j]);
      }
    }
  }

  lemma WaitingSeesNothing(s: State, m: Copy)
    requires m.place.Ready? || m.place.Waiting?
    ensures SeenStage(s, m)
  {
  }

  // ---------------------------------------------------------------------
  // Coverage over a step
  // ---------------------------------------------------------------------

  lemma LoggedStays(c: Config, s: State, i: nat, step: Step)
    requires i < |s.log| && StepEnabled(c, s, i, step)
    ensures forall k :: Logged(s, k) ==> Logged(ApplyStep(c, s, i, step), k)
  {
    hide ApplyStep, StepEnabled, Added;
    StepLog(c, s, i, step);
    var t := ApplyStep(c, s, i, step);
    forall k | Logged(s, k) ensures Logged(t, k) {
      var j :| 0 <= j < |s.log| && KeyOf(s.log[j].ev) == k;
      assert KeyOf(t.log[j].ev) == k;
    }
  }

  /** A copy other than i carries on. */
  lemma SomewhereStays(c: Config, s: State, i: nat, step: Step, w: Worker, o: OrderId)
    requires i < |s.log| && StepEnabled(c, s, i, step) && Somewhere(s, w, o)
    ensures var t := ApplyStep(c, s, i, step);
            i < |t.log| &&
            (Somewhere(t, w, o) || (Holds(s.log[i], w, o) && !Carries(t.log[i].place)))
  {
    hide ApplyStep, StepEnabled, Added;
    StepLog(c, s, i, step);
    var t := ApplyStep(c, s, i, step);
    var j :| 0 <= j < |s.log| && Holds(s.log[j], w, o);
    if j != i { assert t.log[j] == s.log[j] && Holds(t.log[j], w, o); }
    else if Carries(t.log[i].place) { assert Holds(t.log[i], w, o); }
  }

  lemma AddedSomewhere(c: Config, s: State, i: nat, step: Step, m: Copy)
    requires i < |s.log| && StepEnabled(c, s, i, step) && m in Added(c, s, i, step) && Carries(m.place)
    ensures var t := ApplyStep(c, s, i, step); Somewhere(t, m.queue, m.ev.order) && Logged(t, KeyOf(m.ev))
  {
    hide ApplyStep, StepEnabled, Added;
    StepLog(c, s, i, step);
    var t := ApplyStep(c, s, i, step);
    var k :| 0 <= k < |Added(c, s, i, step)| && Added(c, s, i, step)[k] == m;
    assert t.log[|s.log| + k] == m && Holds(m, m.queue, m.ev.order);
  }

  /** The events of a committed guard row have reached the queue that acts on them. */
  predicate Delivered(s: State, out: seq<Event>) {
    forall n | 0 <= n < |out| ::
      match KindOf(out[n])
      case PaidKind => Somewhere(s, Restaurant, out[n].order)
      case ConfirmedKind => Somewhere(s, Delivery, out[n].order)
      case _ => Logged(s, KeyOf(out[n]))
  }

  /** When a copy stops carrying its order, another copy has taken over or its events are out. */
  lemma DropsSafely(c: Config, s: State, i: nat, step: Step)
    requires Base(c, s) && i < |s.log| && StepEnabled(c, s, i, step) && !s.log[i].queue.Notification?
    requires Carries(s.log[i].place) && i < |ApplyStep(c, s, i, step).log| && !Carries(ApplyStep(c, s, i, step).log[i].place)
    ensures var t := ApplyStep(c, s, i, step); var m := s.log[i];
            Somewhere(t, m.queue, m.ev.order) || (SlotOf(m) in t.guard && Delivered(t, t.guard[SlotOf(m)]))
  {
    hide Base, Core, Process, EventOk, Held, HookRuns, PaymentRuns, HasNote, Budget, RetryDelayMs, TextFor, Update, Somewhere,
         Logged, TableStages, SeenStages, Coverage;
    CoreOfBase(c, s);
    var m := s.log[i];
    if step.RetryPublish? {
      AddedSomewhere(c, s, i, step, RetryCopy(c, m, m.place.fault));
    } else if step.Expire? {
      var r := Copy(m.queue, m.ev, m.rc, m.nr, m.hops, Ready);
      assert r == Added(c, s, i, step)[0];
      AddedSomewhere(c, s, i, step, r);
    } else if step.PublishNext? {
      OneStored(c, s, i);
      PublishDelivers(c, s, i);
    } else {
      hide Published, Fanout;
      assert step.Commit? || step.Duplicate?;
    }
  }

  lemma PublishDelivers(c: Config, s: State, i: nat)
    requires i < |s.log| && StepEnabled(c, s, i, PublishNext)
    ensures Delivered(ApplyStep(c, s, i, PublishNext), [s.log[i].place.todo[0]])
  {
    hide ApplyStep, Somewhere, Logged;
    var e := s.log[i].place.todo[0];
    var n := Copy(Notification, e, 0, 0, 0, Ready);
    assert n in Published(e);
    AddedSomewhere(c, s, i, PublishNext, n);
    if Direct(KindOf(e)).Some? {
      var m := Copy(Direct(KindOf(e)).value, e, 0, 0, 0, Ready);
      assert m == Published(e)[0];
      AddedSomewhere(c, s, i, PublishNext, m);
    }
  }

  /** The status of order o is unchanged by the step. */
  predicate SameStatus(s: State, t: State, o: OrderId) {
    (o in s.orders <==> o in t.orders) && (o in s.orders ==> t.orders[o].status == s.orders[o].status)
  }

  /** If the status stays, what backed it still does, or what it left behind backs it. */
  lemma BackedStays(c: Config, s: State, i: nat, step: Step, o: OrderId)
    requires Base(c, s) && i < |s.log| && StepEnabled(c, s, i, step)
    requires Backed(s, o) && SameStatus(s, ApplyStep(c, s, i, step), o)
    requires TableStages(ApplyStep(c, s, i, step)) && ShapesOk(ApplyStep(c, s, i, step))
    ensures Backed(ApplyStep(c, s, i, step), o)
  {
    hide Base, Core, ApplyStep, StepEnabled, Somewhere, Logged, TableStages, ShapesOk;
    var t := ApplyStep(c, s, i, step);
    LoggedStays(c, s, i, step);
    forall w | Somewhere(s, w, o) && !Somewhere(t, w, o) && !w.Notification?
      ensures Carries(s.log[i].place) && s.log[i].queue == w && s.log[i].ev.order == o && SlotOf(s.log[i]) in t.guard
      ensures SlotOf(s.log[i]) == InputSlot(w, o) && Delivered(t, t.guard[InputSlot(w, o)])
    {
      SomewhereStays(c, s, i, step, w, o);
      DropsSafely(c, s, i, step);
      InputIsStage(c, s, i);
    }
    hide Delivered;
    FinishedIsBacked(t, o);
  }

  lemma InputIsStage(c: Config, s: State, i: nat)
    requires Base(c, s) && i < |s.log| && !s.log[i].queue.Notification?
    ensures SlotOf(s.log[i]) == InputSlot(s.log[i].queue, s.log[i].ev.order)
  {
    hide Base, Core, EventOk, PlaceShape, Announced, GuardShape;
    CoreOfBase(c, s);
    CopyFacts(c, s, i);
  }

  /** A committed and delivered stage backs every status that it can be behind. */
  lemma FinishedIsBacked(t: State, o: OrderId)
    requires TableStages(t) && ShapesOk(t)
    ensures PaidSlot(o) in t.guard && Delivered(t, t.guard[PaidSlot(o)]) && o in t.orders ==>
              !t.orders[o].status.Pending? && (t.orders[o].status.Paid? ==> Somewhere(t, Restaurant, o))
    ensures ConfirmedSlot(o) in t.guard && Delivered(t, t.guard[ConfirmedSlot(o)]) && o in t.orders ==>
              !t.orders[o].status.Paid? && (t.orders[o].status.Confirmed? ==> Somewhere(t, Delivery, o))
    ensures AssignedSlot(o) in t.guard && Delivered(t, t.guard[AssignedSlot(o)]) && o in t.orders ==>
              !t.orders[o].status.Confirmed? && (t.orders[o].status.DriverAssigned? ==> Logged(t, Key(o, AssignedKind)))
    ensures PaidSlot(o) in t.guard ==> o in t.orders
  {
    hide Somewhere, Logged, HasNote, NotesOk;
    if o in t.orders { assert RowStage(t, o); }
    if PaidSlot(o) in t.guard { assert GuardShape(t, PaidSlot(o)); }
    if ConfirmedSlot(o) in t.guard { assert GuardShape(t, ConfirmedSlot(o)); }
    if AssignedSlot(o) in t.guard { assert GuardShape(t, AssignedSlot(o)); }
  }

  /** A commit that moves the status on leaves its copy to publish; the hook has sent its notice. */
  lemma NewStatusBacked(c: Config, s: State, i: nat, step: Step, o: OrderId)
    requires Base(c, s) && i < |s.log| && StepEnabled(c, s, i, step) && !SameStatus(s, ApplyStep(c, s, i, step), o)
    ensures Backed(ApplyStep(c, s, i, step), o)
  {
    hide Base, Core, ApplyStep, StepEnabled, Somewhere, Logged, TableStages, Coverage, Process;
    if step.Commit? {
      CommitBacks(c, s, i, step.ch, o);
    } else if step.HookCommit? {
      HookBacks(c, s, i, o);
    } else {
      OnlyCommitsWrite(c, s, i, step);
      assert false;
    }
  }

  lemma CommitBacks(c: Config, s: State, i: nat, ch: Choice, o: OrderId)
    requires Base(c, s) && i < |s.log| && StepEnabled(c, s, i, Commit(ch))
    requires !SameStatus(s, ApplyStep(c, s, i, Commit(ch)), o)
    ensures Backed(ApplyStep(c, s, i, Commit(ch)), o)
  {
    hide Base, Core, ApplyStep, StepEnabled, Logged, Process;
    CommitKeepsAll(c, s, i, ch);
    CommitStage(c, s, i, ch);
    CommitHolds(c, s, i, ch);
    var t := ApplyStep(c, s, i, Commit(ch));
    assert Holds(t.log[i], s.log[i].queue, o);
  }

  lemma CommitHolds(c: Config, s: State, i: nat, ch: Choice)
    requires i < |s.log| && StepEnabled(c, s, i, Commit(ch))
    ensures var t := ApplyStep(c, s, i, Commit(ch));
            i < |t.log| && t.log[i] == s.log[i].(place := Publishing(ResultOf(c, s, i, ch).outgoing, false))
  {
    hide Process, TextFor, Update;
  }

  lemma HookBacks(c: Config, s: State, i: nat, o: OrderId)
    requires Base(c, s) && i < |s.log| && StepEnabled(c, s, i, HookCommit)
    requires !SameStatus(s, ApplyStep(c, s, i, HookCommit), o)
    ensures Backed(ApplyStep(c, s, i, HookCommit), o)
  {
    hide Base, Core, Logged, TableStages, SeenStages;
    TablesOfBase(c, s);
    LoggedStays(c, s, i, HookCommit);
  }

  lemma StepCoverage(c: Config, s: State, i: nat, step: Step)
    requires Base(c, s) && i < |s.log| && StepEnabled(c, s, i, step)
    requires TableStages(ApplyStep(c, s, i, step)) && ShapesOk(ApplyStep(c, s, i, step))
    ensures Coverage(ApplyStep(c, s, i, step))
  {
    hide Base, Core, ApplyStep, StepEnabled, Backed, Announced, Logged, TableStages, ShapesOk, Keeps;
    var t := ApplyStep(c, s, i, step);
    TablesOfBase(c, s);
    CoreOfBase(c, s);
    StepsLeaveRequests(c, s, i, step);
    LoggedStays(c, s, i, step);
    StepKeys(c, s, i, step);
    StepAnnounced(c, s, i, step);
    forall o | Tracked(t, o) ensures Backed(t, o) && Logged(t, Key(o, CreatedKind)) {
      assert Tracked(s, o);
      if SameStatus(s, t, o) { BackedStays(c, s, i, step, o); } else { NewStatusBacked(c, s, i, step, o); }
    }
    forall j | 0 <= j < |t.log| && t.log[j].place.HookAnnounced?
      ensures Logged(t, Key(t.log[j].ev.order, FailedKind))
    {
      NoticeLogged(c, s, i, step, j);
    }
    forall sl | sl in t.guard ensures Logged(t, sl.key) {
      if sl !in s.guard { OwnKeyLogged(c, s, i, step); }
    }
  }

  lemma OwnKeyLogged(c: Config, s: State, i: nat, step: Step)
    requires i < |s.log| && StepEnabled(c, s, i, step)
    ensures Logged(ApplyStep(c, s, i, step), KeyOf(s.log[i].ev))
  {
    assert Logged(s, KeyOf(s.log[i].ev));
    LoggedStays(c, s, i, step);
  }

  /** A step adds no order, and no guard row but that of its own copy. */
  lemma StepKeys(c: Config, s: State, i: nat, step: Step)
    requires i < |s.log| && StepEnabled(c, s, i, step)
    ensures var t := ApplyStep(c, s, i, step);
            t.orders.Keys == s.orders.Keys && forall sl | sl in t.guard :: sl in s.guard || sl == SlotOf(s.log[i])
  {
    hide ApplyStep, StepEnabled, Process;
    if step.Commit? { CommitKeepsAll(c, s, i, step.ch); }
    else if step.HookCommit? { HookOnlyFails(c, s, i); }
    else { OnlyCommitsWrite(c, s, i, step); }
  }

  lemma NoticeLogged(c: Config, s: State, i: nat, step: Step, j: nat)
    requires Coverage(s) && i < |s.log| && StepEnabled(c, s, i, step)
    requires var t := ApplyStep(c, s, i, step); j < |t.log| && t.log[j].place.HookAnnounced?
    ensures var t := ApplyStep(c, s, i, step); Logged(t, Key(t.log[j].ev.order, FailedKind))
  {
    hide ApplyStep, StepEnabled, Added, Logged;
    var t := ApplyStep(c, s, i, step);
    StepLog(c, s, i, step);
    LoggedStays(c, s, i, step);
    AddedWaits(c, s, i, step);
    forall k | |s.log| <= k < |t.log| ensures !t.log[k].place.HookAnnounced? {
      var m := Added(c, s, i, step)[k - |s.log|];
      assert t.log[k] == m && m in Added(c, s, i, step);
    }
    if j == i {
      OnlyPublishAnnounces(c, s, i, step);
      if step.HookPublish? {
        var n := Copy(Notification, OrderPaymentFailed(s.log[i].ev.order, step.at), 0, 0, 0, Ready);
        assert n in Added(c, s, i, step) by { NoticeAdded(c, s, i, step); }
        AddedSomewhere(c, s, i, step, n);
      }
    }
  }

  lemma AddedWaits(c: Config, s: State, i: nat, step: Step)
    requires i < |s.log| && StepEnabled(c, s, i, step)
    ensures forall m | m in Added(c, s, i, step) :: m.place.Ready? || m.place.Waiting?
  {
    hide Held, HookRuns, PaymentRuns, HasNote, Process, Budget, RetryDelayMs, Direct;
  }

  lemma OnlyPublishAnnounces(c: Config, s: State, i: nat, step: Step)
    requires i < |s.log| && StepEnabled(c, s, i, step)
    ensures var t := ApplyStep(c, s, i, step); i < |t.log| && (t.log[i].place.HookAnnounced? ==> step.HookPublish?)
  {
    hide Process, Held, HookRuns, PaymentRuns, HasNote, Published, Fanout, RetryCopy, Update, TextFor, Budget;
  }

  lemma NoticeAdded(c: Config, s: State, i: nat, step: Step)
    requires i < |s.log| && StepEnabled(c, s, i, step) && step.HookPublish?
    ensures Copy(Notification, OrderPaymentFailed(s.log[i].ev.order, step.at), 0, 0, 0, Ready) in Added(c, s, i, step)
  {
    var n := Copy(Notification, OrderPaymentFailed(s.log[i].ev.order, step.at), 0, 0, 0, Ready);
    assert Published(n.ev)[0] == n;
  }

  // ---------------------------------------------------------------------
  // The API
  // ---------------------------------------------------------------------

  lemma ApiBase(c: Config, s: State, a: Action)
    requires Base(c, s) && Enabled(c, s, a) && !a.At?
    ensures Base(c, Apply(c, s, a))
  {
    hide Base, Core, Keeps, TableStages, SeenStages, Coverage, Apply;
    CoreOfBase(c, s);
    ApiCore(c, s, a);
    ApiStages(c, s, a);
    ApiCoverage(c, s, a);
    BaseOf(c, Apply(c, s, a));
  }

  lemma BaseOf(c: Config, s: State)
    requires Core(c, s) && TableStages(s) && SeenStages(s) && Coverage(s)
    ensures Base(c, s)
  {
  }

  lemma ApiStages(c: Config, s: State, a: Action)
    requires Base(c, s) && Enabled(c, s, a) && !a.At?
    ensures TableStages(Apply(c, s, a)) && SeenStages(Apply(c, s, a))
  {
    hide Base, Core, Coverage, Published, HasNote, NotesOk;
    BaseFacts(c, s);
    var t := Apply(c, s, a);
    forall o | o in t.orders ensures RowStage(t, o) {
      if o in s.orders { assert RowStage(s, o); } else { NotYetPaid(c, s, o); }
    }
    forall sl | sl in t.guard ensures SlotStage(t, sl) { assert SlotStage(s, sl); }
    forall j | 0 <= j < |t.log| ensures SeenStage(t, t.log[j]) { ApiSeen(c, s, a, j); }
  }

  lemma NotYetPaid(c: Config, s: State, o: OrderId)
    requires Base(c, s) && o !in s.orders
    ensures PaidSlot(o) !in s.guard
  {
    hide Base, Core, SlotStage;
    OrderFacts(c, s, o);
  }

  lemma ApiSeen(c: Config, s: State, a: Action, j: nat)
    requires Base(c, s) && Enabled(c, s, a) && !a.At? && j < |Apply(c, s, a).log|
    ensures SeenStage(Apply(c, s, a), Apply(c, s, a).log[j])
  {
    hide Base, Core, Coverage, TableStages, HasNote, NotesOk, GuardShape;
    BaseFacts(c, s);
    var t := Apply(c, s, a);
    if j < |s.log| { assert t.log[j] == s.log[j] && SeenStage(s, s.log[j]); }
  }

  lemma ApiCoverage(c: Config, s: State, a: Action)
    requires Base(c, s) && Enabled(c, s, a) && !a.At?
    ensures Coverage(Apply(c, s, a))
  {
    hide Base, Core, Announced, Logged, Backed, TableStages, SeenStages, Keeps;
    BaseFacts(c, s);
    hide ShapesOk;
    var t := Apply(c, s, a);
    CoreOfBase(c, s);
    ApiCore(c, s, a);
    assert AllAnnounced(t) by { ShapeFacts(c, t); }
    ApiGrows(s, t) by { assert s.log <= t.log; }
    forall o | Tracked(t, o) ensures Backed(t, o) && Logged(t, Key(o, CreatedKind)) { ApiBacked(c, s, a, o); }
    forall j | 0 <= j < |t.log| && t.log[j].place.HookAnnounced? ensures j < |s.log| && t.log[j] == s.log[j] {
    }
  }

  lemma ApiGrows(s: State, t: State)
    requires s.log <= t.log
    ensures forall k :: Logged(s, k) ==> Logged(t, k)
    ensures forall w, o :: Somewhere(s, w, o) ==> Somewhere(t, w, o)
  {
    forall k | Logged(s, k) ensures Logged(t, k) {
      var j :| 0 <= j < |s.log| && KeyOf(s.log[j].ev) == k;
      assert t.log[j] == s.log[j];
    }
    forall w, o | Somewhere(s, w, o) ensures Somewhere(t, w, o) {
      var j :| 0 <= j < |s.log| && Holds(s.log[j], w, o);
      assert t.log[j] == s.log[j];
    }
  }

  lemma ApiBacked(c: Config, s: State, a: Action, o: OrderId)
    requires Base(c, s) && Enabled(c, s, a) && !a.At? && Tracked(Apply(c, s, a), o)
    ensures var t := Apply(c, s, a); Backed(t, o) && Logged(t, Key(o, CreatedKind))
  {
    hide Base, Core, Announced, Logged, Somewhere, TableStages, SeenStages, RowTrace, GuardShape, NotesOk;
    BaseFacts(c, s);
    var t := Apply(c, s, a);
    ApiGrows(s, t) by { assert s.log <= t.log; }
    if a.ApiPublish? && a.o == o {
      FirstCopy(s, t, o);
    } else {
      assert Tracked(s, o);
    }
  }

  /** Publishing order.created brings the copy that backs the order. */
  lemma FirstCopy(s: State, t: State, o: OrderId)
    requires o in s.born && t.log == s.log + Published(OrderCreated(o, s.born[o]))
    ensures Somewhere(t, Payment, o) && Logged(t, Key(o, CreatedKind))
  {
    var e := OrderCreated(o, s.born[o]);
    assert t.log[|s.log|] == Copy(Payment, e, 0, 0, 0, Ready);
    assert Holds(t.log[|s.log|], Payment, o) && KeyOf(t.log[|s.log|].ev) == Key(o, CreatedKind);
  }

  // ---------------------------------------------------------------------
  // Every step, every run
  // ---------------------------------------------------------------------

  lemma ActionBase(c: Config, s: State, a: Action)
    requires Base(c, s) && Enabled(c, s, a)
    ensures Base(c, Apply(c, s, a)) && Keeps(s, Apply(c, s, a))
  {
    hide Base, Core, ApplyStep, StepEnabled, Keeps, ShapesOk, TableStages, SeenStages, Coverage;
    CoreOfBase(c, s);
    ActionCore(c, s, a);
    if a.At? {
      var t := ApplyStep(c, s, a.i, a.step);
      StepKeeps(c, s, a.i, a.step);
      StepTables(c, s, a.i, a.step);
      StepSeen(c, s, a.i, a.step);
      StepCoverage(c, s, a.i, a.step);
      BaseOf(c, t);
    } else {
      ApiBase(c, s, a);
    }
  }

  lemma {:induction false} RunBase(c: Config, s: State, run: seq<Action>)
    requires Base(c, s) && Legal(c, s, run)
    ensures Base(c, Exec(c, s, run))
    decreases |run|
  {
    hide Base, Apply, Enabled, Keeps;
    if run != [] {
      ActionBase(c, s, run[0]);
      RunBase(c, Apply(c, s, run[0]), run[1..]);
    }
  }

  lemma InitBase(c: Config)
    ensures Base(c, Init)
  {
    InitCore(c);
    hide Core;
  }

  lemma ReachableBase(c: Config, s: State)
    requires Reachable(c, s)
    ensures Base(c, s)
  {
    hide Base;
    var run :| Legal(c, Init, run) && Exec(c, Init, run) == s;
    InitBase(c);
    RunBase(c, Init, run);
  }
}
