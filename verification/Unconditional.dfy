// What holds in every run, whether or not a permanent-failure hook overlaps a payment.
module Unconditional {
  import opened Schemas
  import opened Protocol
  import opened Steps
  import opened Invariant

  // ---------------------------------------------------------------------
  // The invariant
  // ---------------------------------------------------------------------

  predicate CopyShape(c: Config, s: State, m: Copy) {
    InputOk(m) && EventOk(s, m.ev) && CountsOk(c, m) && PlaceShape(c, s, m)
  }

  /** An id on the order row was put there by a transaction whose guard row stores the event. */
  predicate RowTrace(s: State, o: OrderId)
    requires o in s.orders
  {
    (s.orders[o].payment.Some? ==> Stores(s, PaidSlot(o))) && (s.orders[o].driver.Some? ==> Stores(s, AssignedSlot(o)))
  }

  /** The guard row is committed and stores an event. */
  predicate Stores(s: State, sl: Slot) {
    sl in s.guard && s.guard[sl] != []
  }

  predicate ShapesOk(s: State) {
    && Ids(s)
    && (forall o | o in s.orders :: RowTrace(s, o))
    && (forall sl | sl in s.guard :: GuardShape(s, sl))
    && NotesOk(s)
  }

  predicate AllAnnounced(s: State) {
    forall i | 0 <= i < |s.log| :: Announced(s, KeyOf(s.log[i].ev))
  }

  predicate Core(c: Config, s: State) {
    ShapesOk(s) && (forall i | 0 <= i < |s.log| :: CopyShape(c, s, s.log[i])) && TxnsApart(s.log) && AllAnnounced(s)
  }

  lemma CopyFacts(c: Config, s: State, i: nat)
    requires Core(c, s) && i < |s.log|
    ensures CopyShape(c, s, s.log[i]) && Announced(s, KeyOf(s.log[i].ev))
    ensures SlotOf(s.log[i]) in s.guard ==> GuardShape(s, SlotOf(s.log[i]))
  {
  }

  lemma ShapeFacts(c: Config, s: State)
    requires Core(c, s)
    ensures ShapesOk(s) && TxnsApart(s.log) && AllAnnounced(s)
  {
  }

  // ---------------------------------------------------------------------
  // Tables
  // ---------------------------------------------------------------------

  /** Later tables keep the earlier ones: no id changes, no guard row or note is rewritten. */
  predicate Keeps(s: State, t: State) {
    && (forall o | o in s.orders ::
          o in t.orders &&
          (s.orders[o].payment.Some? ==> t.orders[o].payment == s.orders[o].payment) &&
          (s.orders[o].driver.Some? ==> t.orders[o].driver == s.orders[o].driver))
    && (forall sl | sl in s.guard :: sl in t.guard && t.guard[sl] == s.guard[sl])
    && s.notes <= t.notes
  }

  lemma KeepsTransitive(s: State, t: State, u: State)
    requires Keeps(s, t) && Keeps(t, u)
    ensures Keeps(s, u)
  {
  }

  /** What a transaction about to commit has decided, without any view of the order's status. */
  lemma DecisionShape(c: Config, s: State, i: nat, ch: Choice)
    requires Core(c, s) && i < |s.log| && StepEnabled(c, s, i, Commit(ch))
    ensures s.log[i].place.Seen? && SlotOf(s.log[i]) !in s.guard && InputOk(s.log[i])
    ensures ResultOf(c, s, i, ch).Returned? && ResultShape(s, s.log[i], ResultOf(c, s, i, ch))
  {
    hide Core, EventOk, ShouldFail, Announced, GuardShape;
    CopyFacts(c, s, i);
  }

  predicate ResultShape(s: State, m: Copy, r: Result) {
    var o := m.ev.order;
    r.Returned? &&
    if r.effect.NoWrite? then r.outgoing == [] && (m.queue.Payment? ==> o in s.orders)
    else
      o in s.orders && |r.outgoing| == 1 && r.outgoing[0].order == o &&
      match m.queue
      case Payment => r.effect.Charge? && r.outgoing[0].OrderPaid? && r.outgoing[0].payment == r.effect.payment
      case Restaurant => r.effect.Confirm? && r.outgoing[0].OrderConfirmed?
      case Delivery => r.effect.Assign? && r.outgoing[0].OrderDriverAssigned? && r.outgoing[0].driver == r.effect.driver
      case Notification => false
  }

  /** The slot of each worker's input fixes its kind. */
  function InputSlot(w: Worker, o: OrderId): Slot
    requires !w.Notification?
  {
    match w
    case Payment => PaidSlot(o)
    case Restaurant => ConfirmedSlot(o)
    case Delivery => AssignedSlot(o)
  }

  lemma CommitKeeps(c: Config, s: State, i: nat, ch: Choice)
    requires Core(c, s) && i < |s.log| && StepEnabled(c, s, i, Commit(ch))
    ensures var t := ApplyStep(c, s, i, Commit(ch)); Keeps(s, t) && ShapesOk(t)
  {
    hide Core, Process, EventOk, TextFor, HasNote, RowTrace, GuardShape, NotesOk;
    DecisionShape(c, s, i, ch);
    ShapeFacts(c, s);
    var r := ResultOf(c, s, i, ch);
    var t := ApplyStep(c, s, i, Commit(ch));
    CommitRows(c, s, i, ch);
    CommitNotesOk(c, s, i, ch);
    forall sl | sl in t.guard ensures GuardShape(t, sl) { CommitGuardShape(c, s, i, ch, sl); }
  }

  lemma CommitRows(c: Config, s: State, i: nat, ch: Choice)
    requires Core(c, s) && i < |s.log| && StepEnabled(c, s, i, Commit(ch))
    ensures var t := ApplyStep(c, s, i, Commit(ch));
            Keeps(s, t) && Ids(t) && forall o | o in t.orders :: RowTrace(t, o)
  {
    hide Core, Process, EventOk, TextFor, HasNote, GuardShape, NotesOk;
    DecisionShape(c, s, i, ch);
    ShapeFacts(c, s);
    var t := ApplyStep(c, s, i, Commit(ch));
    var m := s.log[i];
    assert m.queue.Payment? ==> SlotOf(m) == PaidSlot(m.ev.order);
    assert m.queue.Delivery? ==> SlotOf(m) == AssignedSlot(m.ev.order);
    forall o | o in t.orders ensures RowTrace(t, o) { assert RowTrace(s, o); }
  }

  lemma CommitNotesOk(c: Config, s: State, i: nat, ch: Choice)
    requires Core(c, s) && i < |s.log| && StepEnabled(c, s, i, Commit(ch))
    ensures var t := ApplyStep(c, s, i, Commit(ch));
            NotesOk(t) && s.notes <= t.notes && (s.log[i].queue.Notification? ==> HasNote(t, KeyOf(s.log[i].ev)))
  {
    hide Core, Process, EventOk, TextFor, HasNote, GuardShape, RowTrace, Update;
    DecisionShape(c, s, i, ch);
    ShapeFacts(c, s);
    var t := ApplyStep(c, s, i, Commit(ch));
    if s.log[i].queue.Notification? { NotedLast(t, KeyOf(s.log[i].ev)); }
  }

  lemma NotedLast(s: State, k: Key)
    requires s.notes != [] && s.notes[|s.notes| - 1].key == k
    ensures HasNote(s, k)
  {
  }

  lemma CommitGuardShape(c: Config, s: State, i: nat, ch: Choice, sl: Slot)
    requires Core(c, s) && i < |s.log| && StepEnabled(c, s, i, Commit(ch))
    requires sl in s.guard || sl == SlotOf(s.log[i])
    ensures var t := ApplyStep(c, s, i, Commit(ch)); sl in t.guard && GuardShape(t, sl)
  {
    hide Core, Process, EventOk, TextFor, HasNote, NotesOk;
    DecisionShape(c, s, i, ch);
    ShapeFacts(c, s);
    CommitNotesOk(c, s, i, ch);
    CommitRows(c, s, i, ch);
    var t := ApplyStep(c, s, i, Commit(ch));
    NotesGrow(s, t);
    if sl in s.guard { assert GuardShape(s, sl); }
  }

  /** The hook's commit changes at most a status. */
  lemma HookKeepsIds(c: Config, s: State, i: nat)
    requires i < |s.log| && StepEnabled(c, s, i, HookCommit)
    ensures SameIds(s, ApplyStep(c, s, i, HookCommit))
  {
  }

  /** The tables differ in statuses at most. */
  predicate SameIds(s: State, t: State) {
    t.guard == s.guard && t.notes == s.notes && t.born == s.born && t.api == s.api && t.orders.Keys == s.orders.Keys &&
    forall o | o in s.orders :: t.orders[o].payment == s.orders[o].payment && t.orders[o].driver == s.orders[o].driver
  }

  lemma SameIdsKeep(s: State, t: State)
    requires ShapesOk(s) && SameIds(s, t)
    ensures Keeps(s, t) && ShapesOk(t)
  {
    NotesGrow(s, t);
    hide HasNote;
    assert NotesOk(t);
    hide NotesOk;
    forall o | o in t.orders ensures RowTrace(t, o) { assert RowTrace(s, o); }
    forall sl | sl in t.guard ensures GuardShape(t, sl) { assert GuardShape(s, sl); }
  }

  lemma StepKeeps(c: Config, s: State, i: nat, step: Step)
    requires Core(c, s) && i < |s.log| && StepEnabled(c, s, i, step)
    ensures var t := ApplyStep(c, s, i, step); Keeps(s, t) && ShapesOk(t) && t.born == s.born && t.api == s.api
  {
    hide Core, ApplyStep, StepEnabled, Keeps, ShapesOk;
    StepsLeaveRequests(c, s, i, step);
    if step.Commit? {
      CommitKeeps(c, s, i, step.ch);
    } else if step.HookCommit? {
      HookKeepsIds(c, s, i);
      ShapeFacts(c, s);
      SameIdsKeep(s, ApplyStep(c, s, i, step));
    } else {
      OnlyCommitsWrite(c, s, i, step);
      ShapeFacts(c, s);
      SameIdsKeep(s, ApplyStep(c, s, i, step));
    }
  }

  // ---------------------------------------------------------------------
  // Copies
  // ---------------------------------------------------------------------

  /** A copy that does not move stays in shape, unless its guard key is committed under it. */
  lemma OthersInShape(c: Config, s: State, t: State, m: Copy)
    requires CopyShape(c, s, m) && Keeps(s, t) && t.born == s.born && t.api == s.api
    requires InTxn(m.place) ==> SlotOf(m) !in t.guard
    ensures CopyShape(c, t, m)
  {
    hide CountsOk, RetryDelayMs, HasNote;
    NotesGrow(s, t);
  }

  /** Only a commit adds a guard row, and no other open transaction has its key. */
  lemma TransactionsSpared(c: Config, s: State, i: nat, step: Step, j: nat)
    requires Core(c, s) && i < |s.log| && StepEnabled(c, s, i, step) && j < |s.log| && j != i && InTxn(s.log[j].place)
    ensures SlotOf(s.log[j]) !in ApplyStep(c, s, i, step).guard
  {
    hide Core, Process, EventOk, CountsOk, Announced, GuardShape;
    CopyFacts(c, s, j);
    ShapeFacts(c, s);
    if !step.Commit? {
      if step.HookCommit? {
      } else {
        hide ApplyStep, StepEnabled;
        OnlyCommitsWrite(c, s, i, step);
      }
    }
  }

  /** The moving copy. */
  lemma MoverInShape(c: Config, s: State, i: nat, step: Step)
    requires Core(c, s) && i < |s.log| && StepEnabled(c, s, i, step)
    ensures var t := ApplyStep(c, s, i, step); i < |t.log| && CopyShape(c, t, t.log[i])
  {
    hide Core, ApplyStep, StepEnabled, EventOk, Keeps, ShapesOk, PlaceShape;
    CopyFacts(c, s, i);
    StepKeeps(c, s, i, step);
    StepLog(c, s, i, step);
    MoverPlace(c, s, i, step);
    var t := ApplyStep(c, s, i, step);
    EventKept(s, t, s.log[i].ev);
  }

  lemma EventKept(s: State, t: State, e: Event)
    requires EventOk(s, e) && Keeps(s, t) && t.born == s.born && t.api == s.api
    ensures EventOk(t, e)
  {
  }

  lemma MoverPlace(c: Config, s: State, i: nat, step: Step)
    requires Core(c, s) && i < |s.log| && StepEnabled(c, s, i, step)
    ensures var t := ApplyStep(c, s, i, step); i < |t.log| && PlaceShape(c, t, t.log[i])
  {
    hide Core, Process, EventOk, CountsOk, Announced, Held, HookRuns, PaymentRuns, Published, Fanout, RetryCopy, Budget,
         TextFor, Update, NotesOk, RetryDelayMs, Ids, TxnsApart, AllAnnounced;
    CopyFacts(c, s, i);
    if step.PublishNext? { OneStored(c, s, i); }
    if step.Commit? {
      hide ApplyStep, StepEnabled;
      CommitPlace(c, s, i, step.ch);
    }
  }

  lemma CommitPlace(c: Config, s: State, i: nat, ch: Choice)
    requires i < |s.log| && StepEnabled(c, s, i, Commit(ch))
    ensures var t := ApplyStep(c, s, i, Commit(ch)); i < |t.log| && PlaceShape(c, t, t.log[i])
  {
    hide Process, TextFor, Update;
  }

  /** A copy has at most one event left to publish, and it is the stored one. */
  lemma OneStored(c: Config, s: State, i: nat)
    requires Core(c, s) && i < |s.log| && s.log[i].place.Publishing? && s.log[i].place.todo != []
    ensures var m := s.log[i]; var e := m.place.todo[0];
            |m.place.todo| == 1 && SlotOf(m) in s.guard && s.guard[SlotOf(m)] == [e] && EventOk(s, e) &&
            e.order == m.ev.order && Direct(KindOf(e)) == Next(m.queue) && !m.queue.Notification? && !e.OrderPaymentFailed?
  {
    hide Core, CountsOk, Announced;
    CopyFacts(c, s, i);
    var m := s.log[i];
    assert s.guard[SlotOf(m)] == [m.place.todo[0]];
  }

  function Next(w: Worker): Option<Worker> {
    match w
    case Payment => Some(Restaurant)
    case Restaurant => Some(Delivery)
    case _ => None
  }

  /** The copies a step adds. */
  lemma AddedInShape(c: Config, s: State, i: nat, step: Step)
    requires Core(c, s) && i < |s.log| && StepEnabled(c, s, i, step)
    ensures forall m | m in Added(c, s, i, step) ::
              CopyShape(c, s, m) && (m.place.Ready? || m.place.Waiting?)
  {
    hide Core, Announced, GuardShape, Process, RetryDelayMs, Held, HookRuns, PaymentRuns, HasNote;
    CopyFacts(c, s, i);
    var m := s.log[i];
    assert (m.rc + 1) * (c.notreadyMax + 1) == m.rc * (c.notreadyMax + 1) + c.notreadyMax + 1;
    if m.place.Publishing? && m.place.todo != [] { OneStored(c, s, i); }
  }

  /** The second line of defence is never reached: past the guard, the key is unused. */
  lemma NoSuppress(c: Config, s: State, i: nat)
    requires Core(c, s) && i < |s.log|
    ensures !StepEnabled(c, s, i, Suppress)
  {
    hide Core, EventOk, Announced, GuardShape;
    CopyFacts(c, s, i);
    ShapeFacts(c, s);
    var m := s.log[i];
    if m.queue.Notification? && HasNote(s, KeyOf(m.ev)) {
      var n :| 0 <= n < |s.notes| && s.notes[n].key == KeyOf(m.ev);
      assert SlotOf(m) == Slot(s.notes[n].key, Notification) && SlotOf(m) in s.guard;
    }
  }

  // ---------------------------------------------------------------------
  // Announcements
  // ---------------------------------------------------------------------

  /** What the moving copy no longer carries has been noted, or a new copy carries it. */
  lemma StillAnnounced(c: Config, s: State, i: nat, step: Step)
    requires Core(c, s) && i < |s.log| && StepEnabled(c, s, i, step)
    ensures var t := ApplyStep(c, s, i, step);
            i < |t.log| &&
            (Informs(s.log[i], KeyOf(s.log[i].ev)) && !Carries(t.log[i].place) ==>
               HasNote(t, KeyOf(s.log[i].ev)) ||
               exists m :: m in Added(c, s, i, step) && Informs(m, KeyOf(s.log[i].ev)))
  {
    hide Core, Process, EventOk, CountsOk, Announced, Held, HookRuns, PaymentRuns, Budget, TextFor, Update, NotesOk,
         RetryDelayMs;
    CopyFacts(c, s, i);
    var m := s.log[i];
    var t := ApplyStep(c, s, i, step);
    if step.Commit? { CommitNotesOk(c, s, i, step.ch); }
    if step.PublishNext? { OneStored(c, s, i); }
    if step.RetryPublish? { assert RetryCopy(c, m, m.place.fault) in Added(c, s, i, step); }
    if step.Expire? {
      var n := Copy(Notification, m.ev, m.rc, m.nr, m.hops, Ready);
      assert n in Fanout(RetryDirect(m.queue), m.ev, m.rc, m.nr, m.hops);
      assert n in Added(c, s, i, step);
    }
  }

  /** Each publication brings its own notification copy. */
  lemma AddedInform(c: Config, s: State, i: nat, step: Step, m: Copy)
    requires i < |s.log| && StepEnabled(c, s, i, step) && m in Added(c, s, i, step)
    ensures m.ev == s.log[i].ev || exists n :: n in Added(c, s, i, step) && Informs(n, KeyOf(m.ev))
  {
    hide Held, HookRuns, PaymentRuns, HasNote, Process, Budget, RetryDelayMs, Direct;
    if step.PublishNext? || step.PublishRaise? || step.HookPublish? {
      var n := Copy(Notification, m.ev, 0, 0, 0, Ready);
      assert n in Published(m.ev);
      assert n in Added(c, s, i, step);
    }
  }

  lemma StepAnnounced(c: Config, s: State, i: nat, step: Step)
    requires Core(c, s) && i < |s.log| && StepEnabled(c, s, i, step)
    ensures AllAnnounced(ApplyStep(c, s, i, step))
  {
    hide Core, ApplyStep, StepEnabled, Announced, Added, Keeps, ShapesOk, HasNote;
    var t := ApplyStep(c, s, i, step);
    StepLog(c, s, i, step);
    forall j | 0 <= j < |s.log| ensures Announced(t, KeyOf(s.log[j].ev)) { KeyStaysAnnounced(c, s, i, step, j); }
    forall j | 0 <= j < |t.log| ensures Announced(t, KeyOf(t.log[j].ev)) {
      if j >= |s.log| {
        var m := Added(c, s, i, step)[j - |s.log|];
        assert t.log[j] == m;
        AddedInform(c, s, i, step, m);
        if m.ev != s.log[i].ev {
          var n :| n in Added(c, s, i, step) && Informs(n, KeyOf(m.ev));
          InLog(c, s, i, step, n);
        }
      }
    }
  }

  lemma InLog(c: Config, s: State, i: nat, step: Step, n: Copy)
    requires i < |s.log| && StepEnabled(c, s, i, step) && n in Added(c, s, i, step)
    ensures Informs(n, KeyOf(n.ev)) ==> Announced(ApplyStep(c, s, i, step), KeyOf(n.ev))
  {
    hide ApplyStep, StepEnabled, Added, HasNote;
    StepLog(c, s, i, step);
    var t := ApplyStep(c, s, i, step);
    var k :| 0 <= k < |Added(c, s, i, step)| && Added(c, s, i, step)[k] == n;
    assert t.log[|s.log| + k] == n;
  }

  lemma KeyStaysAnnounced(c: Config, s: State, i: nat, step: Step, j: nat)
    requires Core(c, s) && i < |s.log| && StepEnabled(c, s, i, step) && j < |s.log|
    ensures Announced(ApplyStep(c, s, i, step), KeyOf(s.log[j].ev))
  {
    hide Core, ApplyStep, StepEnabled, Added, ShapesOk, HasNote, CopyShape, GuardShape;
    var k := KeyOf(s.log[j].ev);
    var t := ApplyStep(c, s, i, step);
    CopyFacts(c, s, j);
    StepKeeps(c, s, i, step);
    NotesGrow(s, t);
    StepLog(c, s, i, step);
    if !HasNote(s, k) {
      var l :| 0 <= l < |s.log| && Informs(s.log[l], k);
      if l != i {
        assert t.log[l] == s.log[l];
      } else if Carries(t.log[i].place) {
        assert Informs(t.log[i], k);
      } else {
        StillAnnounced(c, s, i, step);
        if !HasNote(t, k) {
          var n :| n in Added(c, s, i, step) && Informs(n, k);
          InLog(c, s, i, step, n);
        }
      }
    }
  }

  // ---------------------------------------------------------------------
  // Every step, every run
  // ---------------------------------------------------------------------

  lemma StepApart(c: Config, s: State, i: nat, step: Step)
    requires Core(c, s) && i < |s.log| && StepEnabled(c, s, i, step)
    ensures TxnsApart(ApplyStep(c, s, i, step).log)
  {
    hide Core, ApplyStep, Added;
    ShapeFacts(c, s);
    StepLog(c, s, i, step);
    AddedInShape(c, s, i, step);
    OpensOnlyFree(c, s, i, step);
    hide StepEnabled, CopyShape;
    var t := ApplyStep(c, s, i, step);
    assert forall j | |s.log| <= j < |t.log| :: t.log[j] == Added(c, s, i, step)[j - |s.log|];
    assert forall j | 0 <= j < |s.log| :: SlotOf(t.log[j]) == SlotOf(s.log[j]);
    assert forall j | 0 <= j < |s.log| && j != i :: t.log[j] == s.log[j];
  }

  /** A transaction is opened only on a key that no other one has. */
  lemma OpensOnlyFree(c: Config, s: State, i: nat, step: Step)
    requires i < |s.log| && StepEnabled(c, s, i, step)
    ensures var t := ApplyStep(c, s, i, step);
            i < |t.log| && (InTxn(t.log[i].place) && !InTxn(s.log[i].place) ==> !Held(s, SlotOf(s.log[i])))
  {
    hide Process, Held, HookRuns, PaymentRuns, HasNote, Published, Fanout, RetryCopy, Budget, Update, TextFor;
  }

  lemma StepCore(c: Config, s: State, i: nat, step: Step)
    requires Core(c, s) && i < |s.log| && StepEnabled(c, s, i, step)
    ensures Core(c, ApplyStep(c, s, i, step))
  {
    hide ApplyStep, StepEnabled, CopyShape, ShapesOk, TxnsApart, AllAnnounced, Keeps, Added, Core;
    var t := ApplyStep(c, s, i, step);
    StepKeeps(c, s, i, step);
    StepLog(c, s, i, step);
    forall j | 0 <= j < |t.log| ensures CopyShape(c, t, t.log[j]) { CopyStays(c, s, i, step, j); }
    StepAnnounced(c, s, i, step);
    StepApart(c, s, i, step);
    CoreOf(c, t);
  }

  lemma CoreOf(c: Config, s: State)
    requires ShapesOk(s) && TxnsApart(s.log) && AllAnnounced(s) && forall i | 0 <= i < |s.log| :: CopyShape(c, s, s.log[i])
    ensures Core(c, s)
  {
  }

  lemma CopyStays(c: Config, s: State, i: nat, step: Step, j: nat)
    requires Core(c, s) && i < |s.log| && StepEnabled(c, s, i, step) && j < |ApplyStep(c, s, i, step).log|
    ensures CopyShape(c, ApplyStep(c, s, i, step), ApplyStep(c, s, i, step).log[j])
  {
    hide Core, ApplyStep, StepEnabled, CopyShape, ShapesOk, Keeps, Added;
    var t := ApplyStep(c, s, i, step);
    StepKeeps(c, s, i, step);
    StepLog(c, s, i, step);
    if j == i {
      MoverInShape(c, s, i, step);
    } else if j < |s.log| {
      CopyFacts(c, s, j);
      if InTxn(s.log[j].place) { TransactionsSpared(c, s, i, step, j); }
      OthersInShape(c, s, t, s.log[j]);
    } else {
      AddedInShape(c, s, i, step);
      assert t.log[j] == Added(c, s, i, step)[j - |s.log|];
      OthersInShape(c, s, t, t.log[j]);
    }
  }

  lemma ApiCore(c: Config, s: State, a: Action)
    requires Core(c, s) && Enabled(c, s, a) && !a.At?
    ensures Core(c, Apply(c, s, a)) && Keeps(s, Apply(c, s, a))
  {
    hide Core, CopyShape, Announced;
    ShapeFacts(c, s);
    var t := Apply(c, s, a);
    ApiShapes(c, s, a);
    forall j | 0 <= j < |t.log| ensures CopyShape(c, t, t.log[j]) && Announced(t, KeyOf(t.log[j].ev)) {
      ApiCopies(c, s, a, j);
    }
    assert forall j | 0 <= j < |t.log| && InTxn(t.log[j].place) :: j < |s.log| && t.log[j] == s.log[j];
    CoreOf(c, t);
  }

  lemma ApiShapes(c: Config, s: State, a: Action)
    requires Core(c, s) && Enabled(c, s, a) && !a.At?
    ensures ShapesOk(Apply(c, s, a)) && Keeps(s, Apply(c, s, a))
  {
    hide Core, Published;
    ShapeFacts(c, s);
    var t := Apply(c, s, a);
    NotesGrow(s, t);
    forall o | o in t.orders ensures RowTrace(t, o) { if o in s.orders { assert RowTrace(s, o); } }
    forall sl | sl in t.guard ensures GuardShape(t, sl) { assert GuardShape(s, sl); }
  }

  lemma LogGrowsAnnounced(s: State, t: State, k: Key)
    requires Announced(s, k) && s.notes == t.notes && s.log <= t.log
    ensures Announced(t, k)
  {
    NotesGrow(s, t);
    if !HasNote(s, k) {
      var l :| 0 <= l < |s.log| && Informs(s.log[l], k);
      assert t.log[l] == s.log[l];
    }
  }

  lemma ApiCopies(c: Config, s: State, a: Action, j: nat)
    requires Core(c, s) && Enabled(c, s, a) && !a.At? && j < |Apply(c, s, a).log|
    ensures var t := Apply(c, s, a); CopyShape(c, t, t.log[j]) && Announced(t, KeyOf(t.log[j].ev))
  {
    hide Core, GuardShape, RetryDelayMs, HasNote, RowTrace, NotesOk, AllAnnounced, TxnsApart;
    var t := Apply(c, s, a);
    NotesGrow(s, t);
    ShapeFacts(c, s);
    assert s.log <= t.log;
    if j < |s.log| {
      assert t.log[j] == s.log[j];
      CopyFacts(c, s, j);
      LogGrowsAnnounced(s, t, KeyOf(s.log[j].ev));
    } else {
      assert t.log[|t.log| - 1].queue.Notification? && Informs(t.log[|t.log| - 1], KeyOf(t.log[j].ev));
    }
  }

  lemma ActionCore(c: Config, s: State, a: Action)
    requires Core(c, s) && Enabled(c, s, a)
    ensures Core(c, Apply(c, s, a)) && Keeps(s, Apply(c, s, a))
  {
    hide Core, ApplyStep, StepEnabled, Keeps, ShapesOk;
    if a.At? {
      StepCore(c, s, a.i, a.step);
      StepKeeps(c, s, a.i, a.step);
    } else {
      ApiCore(c, s, a);
    }
  }

  lemma {:induction false} RunCore(c: Config, s: State, run: seq<Action>)
    requires Core(c, s) && Legal(c, s, run)
    ensures Core(c, Exec(c, s, run)) && Keeps(s, Exec(c, s, run))
    decreases |run|
  {
    hide Core, Apply, Enabled, Keeps;
    if run != [] {
      var t := Apply(c, s, run[0]);
      ActionCore(c, s, run[0]);
      RunCore(c, t, run[1..]);
      KeepsTransitive(s, t, Exec(c, t, run[1..]));
    } else {
      KeepsItself(s);
    }
  }

  lemma KeepsItself(s: State)
    ensures Keeps(s, s)
  {
  }

  lemma InitCore(c: Config)
    ensures Core(c, Init)
  {
  }

  lemma ReachableCore(c: Config, s: State)
    requires Reachable(c, s)
    ensures Core(c, s)
  {
    hide Core, Keeps;
    var run :| Legal(c, Init, run) && Exec(c, Init, run) == s;
    InitCore(c);
    RunCore(c, Init, run);
  }
}
