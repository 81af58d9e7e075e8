// What every reachable state and every run guarantees, for any number of instances of each
// worker, with crashes and escaping exceptions possible at every point.
module Guarantees {
  import opened Schemas
  import opened Protocol
  import opened Steps
  import opened Invariant
  import opened Unconditional
  import opened Stages
  import opened Preservation

  lemma ReachableInv(c: Config, s: State)
    requires c.exclusive && Reachable(c, s)
    ensures Inv(c, s)
  {
    hide Inv;
    var run :| Legal(c, Init, run) && Exec(c, Init, run) == s;
    InitInv(c);
    RunInv(c, Init, run);
  }

  // ---------------------------------------------------------------------
  // Nothing is lost
  // ---------------------------------------------------------------------

  /** A copy of the event is queued for w, held by it with its effect or its publications still
      to come, in its retry queue, or dead-lettered from it. */
  predicate LiveAt(s: State, w: Worker, k: Key) {
    exists i | 0 <= i < |s.log| :: s.log[i].queue == w && KeyOf(s.log[i].ev) == k && Carries(s.log[i].place)
  }

  /** An accepted order always has the event that will move it on, or republish what moved it. */
  lemma NoOrderStranded(c: Config, s: State, o: OrderId)
    requires Reachable(c, s) && o in s.orders
    ensures match s.orders[o].status
      case Pending => LiveAt(s, Payment, Key(o, CreatedKind))
      case Paid => LiveAt(s, Payment, Key(o, CreatedKind)) || LiveAt(s, Restaurant, Key(o, PaidKind))
      case Confirmed => LiveAt(s, Restaurant, Key(o, PaidKind)) || LiveAt(s, Delivery, Key(o, ConfirmedKind))
      case DriverAssigned => LiveAt(s, Delivery, Key(o, ConfirmedKind)) || Logged(s, Key(o, AssignedKind))
      case Failed => Logged(s, Key(o, FailedKind))
  {
    hide Base, Core, Reachable, LiveAt, Logged, Somewhere, TableStages, SeenStages, Announced;
    ReachableBase(c, s);
    TablesOfBase(c, s);
    CoreOfBase(c, s);
    assert Tracked(s, o) && Backed(s, o);
    SomewhereIsLive(c, s, Payment, o);
    SomewhereIsLive(c, s, Restaurant, o);
    SomewhereIsLive(c, s, Delivery, o);
  }

  function InputKind(w: Worker): Kind
    requires !w.Notification?
  {
    match w case Payment => CreatedKind case Restaurant => PaidKind case Delivery => ConfirmedKind
  }

  lemma SomewhereIsLive(c: Config, s: State, w: Worker, o: OrderId)
    requires Core(c, s) && !w.Notification?
    ensures Somewhere(s, w, o) ==> LiveAt(s, w, Key(o, InputKind(w)))
  {
    hide Core, EventOk, PlaceShape, Announced, GuardShape;
    if Somewhere(s, w, o) {
      var i :| 0 <= i < |s.log| && Holds(s.log[i], w, o);
      CopyFacts(c, s, i);
      assert KeyOf(s.log[i].ev) == Key(o, InputKind(w));
    }
  }

  /** Every event ever published has its notification stored, queued or dead-lettered. */
  lemma NoNotificationLost(c: Config, s: State, i: nat)
    requires Reachable(c, s) && i < |s.log|
    ensures Announced(s, KeyOf(s.log[i].ev))
  {
    hide Core, Reachable;
    ReachableCore(c, s);
    CopyFacts(c, s, i);
  }

  // ---------------------------------------------------------------------
  // The tables agree
  // ---------------------------------------------------------------------

  /** Every copy of a worker's event, first or republished, is the one its producer stored,
      and carries the id that is on the order row. With the hook kept apart, the order has also
      reached the state the event announces. */
  lemma DuplicatesIdentical(c: Config, s: State, i: nat, j: nat)
    requires Reachable(c, s) && i < |s.log| && j < |s.log|
    requires KeyOf(s.log[i].ev) == KeyOf(s.log[j].ev) && !s.log[i].ev.OrderPaymentFailed?
    ensures s.log[i].ev == s.log[j].ev
    ensures var e := s.log[i].ev; var o := e.order;
            (e.OrderPaid? ==> PaidSlot(o) in s.guard && s.guard[PaidSlot(o)] == [e] &&
                              o in s.orders && s.orders[o].payment == Some(e.payment)) &&
            (e.OrderConfirmed? ==> ConfirmedSlot(o) in s.guard && s.guard[ConfirmedSlot(o)] == [e]) &&
            (e.OrderDriverAssigned? ==> AssignedSlot(o) in s.guard && s.guard[AssignedSlot(o)] == [e] &&
                                        o in s.orders && s.orders[o].driver == Some(e.driver))
    ensures var e := s.log[i].ev; var o := e.order;
            EventProgress(s, e) || (o in s.orders && s.orders[o].status.Failed?)
  {
    hide Core, Base, Reachable, Announced, PlaceShape, Keeps, RowStage, SlotStage, EventProgress;
    ReachableCore(c, s);
    CopyFacts(c, s, i);
    CopyFacts(c, s, j);
    ShapeFacts(c, s);
    EventsAdvance(c, s, i);
  }

  /** An event is out only once its order has reached the state it announces; only FAILED hides that. */
  lemma EventsAdvance(c: Config, s: State, i: nat)
    requires Reachable(c, s) && i < |s.log|
    ensures var e := s.log[i].ev; var o := e.order;
            EventProgress(s, e) || (o in s.orders && s.orders[o].status.Failed?)
  {
    hide Base, Core, Reachable, Announced, PlaceShape, CountsOk, InputOk, NotesOk;
    ReachableBase(c, s);
    CoreOfBase(c, s);
    CopyFacts(c, s, i);
    OrderFacts(c, s, s.log[i].ev.order);
  }

  /** Notification rows and notification guard rows hold the same keys, each key once, and the
      IntegrityError suppression behind the guard never runs. */
  lemma NotificationsMatchGuard(c: Config, s: State)
    requires Reachable(c, s)
    ensures forall k :: HasNote(s, k) <==> Slot(k, Notification) in s.guard
    ensures forall i, j | 0 <= i < j < |s.notes| :: s.notes[i].key != s.notes[j].key
    ensures forall i: nat :: !Enabled(c, s, At(i, Suppress))
  {
    hide Core, Reachable, StepEnabled;
    ReachableCore(c, s);
    ShapeFacts(c, s);
    forall k ensures HasNote(s, k) <==> Slot(k, Notification) in s.guard {
      if Slot(k, Notification) in s.guard { assert GuardShape(s, Slot(k, Notification)); }
      if HasNote(s, k) {
        var n :| 0 <= n < |s.notes| && s.notes[n].key == k;
      }
    }
    forall i: nat ensures !Enabled(c, s, At(i, Suppress)) {
      if i < |s.log| { NoSuppress(c, s, i); }
    }
  }

  /** Every stored notification tells the customer what its event means, whatever has happened. */
  ghost predicate NotesTell(s: State) {
    forall n, e | 0 <= n < |s.notes| && s.notes[n].key == KeyOf(e) :: Tells(e, s.notes[n].text)
  }

  lemma NotesTellTruth(c: Config, s: State)
    requires Reachable(c, s)
    ensures NotesTell(s)
  {
    var run :| Legal(c, Init, run) && Exec(c, Init, run) == s;
    RunTells(c, Init, run);
  }

  lemma {:induction false} RunTells(c: Config, s: State, run: seq<Action>)
    requires NotesTell(s) && Legal(c, s, run)
    ensures NotesTell(Exec(c, s, run))
    decreases |run|
  {
    hide Apply, Enabled, NotesTell;
    if run != [] {
      ActionTells(c, s, run[0]);
      RunTells(c, Apply(c, s, run[0]), run[1..]);
    }
  }

  lemma ActionTells(c: Config, s: State, a: Action)
    requires NotesTell(s) && Enabled(c, s, a)
    ensures NotesTell(Apply(c, s, a))
  {
    hide NotesTell, ApplyStep, StepEnabled;
    if a.At? && a.step.Commit? {
      CommitTells(c, s, a.i, a.step.ch);
    } else {
      SameNotes(c, s, a);
      assert NotesTell(Apply(c, s, a)) by { NotesAlone(s, Apply(c, s, a)); }
    }
  }

  lemma NotesAlone(s: State, t: State)
    requires NotesTell(s) && t.notes == s.notes
    ensures NotesTell(t)
  {
  }

  lemma SameNotes(c: Config, s: State, a: Action)
    requires Enabled(c, s, a) && !(a.At? && a.step.Commit?)
    ensures Apply(c, s, a).notes == s.notes
  {
    hide ApplyStep, StepEnabled;
    if a.At? && a.step.HookCommit? { HookLeavesNotes(c, s, a.i); }
    else if a.At? { OnlyCommitsWrite(c, s, a.i, a.step); }
  }

  lemma HookLeavesNotes(c: Config, s: State, i: nat)
    requires i < |s.log| && StepEnabled(c, s, i, HookCommit)
    ensures ApplyStep(c, s, i, HookCommit).notes == s.notes
  {
  }

  lemma CommitTells(c: Config, s: State, i: nat, ch: Choice)
    requires NotesTell(s) && i < |s.log| && StepEnabled(c, s, i, Commit(ch))
    ensures NotesTell(ApplyStep(c, s, i, Commit(ch)))
  {
    hide Process, Update, TextFor, Tells, KeyOf;
    var t := ApplyStep(c, s, i, Commit(ch));
    forall n, e | 0 <= n < |t.notes| && t.notes[n].key == KeyOf(e) ensures Tells(e, t.notes[n].text) {
      if n < |s.notes| { assert t.notes[n] == s.notes[n]; } else { TextTells(s.log[i].ev, e); }
    }
  }

  lemma TextTells(e: Event, same: Event)
    requires KeyOf(e) == KeyOf(same)
    ensures Tells(same, TextFor(KindOf(e)))
  {
  }

  /** What a commit writes and stores is what the attempt has drawn, and nothing else is written. */
  lemma CommitWrites(c: Config, s: State, i: nat, ch: Choice)
    requires Reachable(c, s) && i < |s.log| && StepEnabled(c, s, i, Commit(ch))
    ensures var m := s.log[i]; var o := m.ev.order; var t := ApplyStep(c, s, i, Commit(ch));
            SlotOf(m) in t.guard && (forall sl | sl != SlotOf(m) :: sl in t.guard <==> sl in s.guard) &&
            var finds := if m.place.row.Some? then m.place.row.value.status else Failed;
            if m.queue.Payment? && finds.Pending? then
              o in s.orders && t.orders == s.orders[o := Row(Paid, Some(ch.payment), s.orders[o].driver)] &&
              t.guard[SlotOf(m)] == [OrderPaid(o, ch.payment, ch.at)]
            else if m.queue.Restaurant? && finds.Paid? then
              o in s.orders && t.orders == s.orders[o := s.orders[o].(status := Confirmed)] &&
              t.guard[SlotOf(m)] == [OrderConfirmed(o, ch.at)]
            else if m.queue.Delivery? && finds.Confirmed? then
              o in s.orders && t.orders == s.orders[o := Row(DriverAssigned, s.orders[o].payment, Some(ch.driver))] &&
              t.guard[SlotOf(m)] == [OrderDriverAssigned(o, ch.driver, ch.at)]
            else t.orders == s.orders && t.guard[SlotOf(m)] == []
  {
    hide Core, Reachable, EventOk, Announced, GuardShape, CountsOk, InputOk, TextFor, ShouldFail;
    ReachableCore(c, s);
    CopyFacts(c, s, i);
  }

  // ---------------------------------------------------------------------
  // Concurrent transactions
  // ---------------------------------------------------------------------

  /** Whatever overlaps, an event that passes the guard finds its order in the status it announces,
      or FAILED by a hook, so that a restaurant or a delivery is skipped for no other reason. */
  lemma SkipsOnlyFailed(c: Config, s: State, i: nat)
    requires Reachable(c, s) && i < |s.log| && InTxn(s.log[i].place)
    ensures var m := s.log[i]; var o := m.ev.order;
            (m.queue.Payment? && o in s.orders ==> s.orders[o].status.Pending? || s.orders[o].status.Failed?) &&
            (m.queue.Restaurant? ==> o in s.orders && (s.orders[o].status.Paid? || s.orders[o].status.Failed?)) &&
            (m.queue.Delivery? ==> o in s.orders && (s.orders[o].status.Confirmed? || s.orders[o].status.Failed?))
  {
    hide Base, Reachable, Stores;
    ReachableBase(c, s);
    if !s.log[i].queue.Notification? { WorkStage(c, s, i); }
  }

  // ---------------------------------------------------------------------
  // Bounded retries
  // ---------------------------------------------------------------------

  /** Counters stay within their budgets and one lineage is delivered at most
      (max_retries + 1) * (notready_max_retries + 1) times, apart from redeliveries of the same
      copy: a main retry resets the not-ready counter, so the budgets multiply. */
  lemma RetryBound(c: Config, s: State, i: nat)
    requires Reachable(c, s) && i < |s.log|
    ensures s.log[i].rc <= c.maxRetries && s.log[i].nr <= c.notreadyMax
    ensures s.log[i].hops + 1 <= (c.maxRetries + 1) * (c.notreadyMax + 1)
  {
    hide Core, Reachable, PlaceShape, EventOk, Announced, GuardShape;
    ReachableCore(c, s);
    CopyFacts(c, s, i);
    var m, k := s.log[i], c.notreadyMax + 1;
    assert m.rc * k <= c.maxRetries * k;
    assert (c.maxRetries + 1) * k == c.maxRetries * k + k;
  }

  /** Each kind of retry that the settings allow has a delay of at least a millisecond. */
  predicate Delays(c: Config) {
    (c.baseMs >= 1 || c.maxRetries == 0) && (c.notreadyMs >= 1 || c.notreadyMax == 0)
  }

  /** A copy in a retry queue always expires: its TTL is that of its last failure. */
  lemma RetryExpires(c: Config, s: State, i: nat)
    requires Reachable(c, s) && i < |s.log| && s.log[i].place.Waiting? && Delays(c)
    ensures Enabled(c, s, At(i, Expire))
    ensures var m := s.log[i];
            m.place.ttl == c.notreadyMs || (m.rc > 0 && m.place.ttl == c.baseMs * Pow2(m.rc - 1))
  {
    hide Core, Reachable, EventOk, Announced, GuardShape;
    ReachableCore(c, s);
    CopyFacts(c, s, i);
    var m := s.log[i];
    if m.rc > 0 && c.baseMs >= 1 { assert c.baseMs * Pow2(m.rc - 1) >= 1; }
  }

  // ---------------------------------------------------------------------
  // Quiescence
  // ---------------------------------------------------------------------

  /** Nothing in flight: no API request, and every copy settled for good. */
  predicate Quiet(s: State) {
    s.api == map[] && forall i | 0 <= i < |s.log| :: s.log[i].place.Dead? || s.log[i].place.Gone?
  }

  predicate DeadAt(s: State, w: Worker, k: Key) {
    exists i | 0 <= i < |s.log| :: s.log[i].queue == w && s.log[i].place.Dead? && KeyOf(s.log[i].ev) == k
  }

  predicate OneNote(s: State, k: Key) {
    HasNote(s, k) && forall i, j | 0 <= i < j < |s.notes| :: !(s.notes[i].key == k && s.notes[j].key == k)
  }

  /** In a quiet state every order is DRIVER_ASSIGNED, FAILED, or has the message that should
      have moved it on in the dead-letter queue. */
  lemma QuiescenceIsCompletion(c: Config, s: State, o: OrderId)
    requires Reachable(c, s) && Quiet(s) && o in s.orders
    ensures || s.orders[o].status.DriverAssigned?
            || s.orders[o].status.Failed?
            || (!s.orders[o].status.Confirmed? && DeadAt(s, Payment, Key(o, CreatedKind)))
            || (!s.orders[o].status.Pending? && DeadAt(s, Restaurant, Key(o, PaidKind)))
            || (s.orders[o].status.Confirmed? && DeadAt(s, Delivery, Key(o, ConfirmedKind)))
  {
    hide Reachable, LiveAt, DeadAt;
    NoOrderStranded(c, s, o);
    forall w, k | LiveAt(s, w, k) ensures DeadAt(s, w, k) { QuietLiveIsDead(s, w, k); }
  }

  lemma QuietLiveIsDead(s: State, w: Worker, k: Key)
    requires Quiet(s) && LiveAt(s, w, k)
    ensures DeadAt(s, w, k)
  {
    var i :| 0 <= i < |s.log| && s.log[i].queue == w && KeyOf(s.log[i].ev) == k && Carries(s.log[i].place);
  }

  /** In a quiet state each milestone of a delivered order has exactly one notification, unless
      a copy of it, or the message that would republish the last one, is dead-lettered. */
  lemma QuiescentNotifications(c: Config, s: State, o: OrderId, kind: Kind)
    requires Reachable(c, s) && Quiet(s) && o in s.orders && s.orders[o].status.DriverAssigned?
    requires !kind.FailedKind?
    ensures || OneNote(s, Key(o, kind))
            || DeadAt(s, Notification, Key(o, kind))
            || (kind.AssignedKind? && DeadAt(s, Delivery, Key(o, ConfirmedKind)))
  {
    hide Base, Core, Reachable, TableStages, SeenStages, Announced, Logged, LiveAt, DeadAt;
    ReachableBase(c, s);
    NotificationsMatchGuard(c, s);
    NoOrderStranded(c, s, o);
    var k := Key(o, kind);
    if Logged(s, k) {
      LoggedIsNoticed(c, s, k);
    } else {
      MilestonesLogged(c, s, o);
      QuietLiveIsDead(s, Delivery, Key(o, ConfirmedKind));
    }
  }

  lemma LoggedIsNoticed(c: Config, s: State, k: Key)
    requires Reachable(c, s) && Quiet(s) && Logged(s, k)
    ensures HasNote(s, k) || DeadAt(s, Notification, k)
  {
    hide Reachable;
    var i :| 0 <= i < |s.log| && KeyOf(s.log[i].ev) == k;
    NoNotificationLost(c, s, i);
    if !HasNote(s, k) {
      var j :| 0 <= j < |s.log| && Informs(s.log[j], k);
    }
  }

  lemma MilestonesLogged(c: Config, s: State, o: OrderId)
    requires Base(c, s) && o in s.orders && s.orders[o].status.DriverAssigned?
    ensures Logged(s, Key(o, CreatedKind)) && Logged(s, Key(o, PaidKind)) && Logged(s, Key(o, ConfirmedKind))
  {
    hide Base, Core, Logged, Announced, Backed, TableStages, SeenStages, GuardShape;
    TablesOfBase(c, s);
    OrderFacts(c, s, o);
  }

  // ---------------------------------------------------------------------
  // Effects happen once
  // ---------------------------------------------------------------------

  /** Later tables keep the earlier ones, and statuses follow the graph. */
  predicate Extends(s: State, t: State) {
    Keeps(s, t) && forall o | o in s.orders :: o in t.orders && StatusReaches(s.orders[o].status, t.orders[o].status)
  }

  lemma CommitShape(c: Config, s: State, i: nat, ch: Choice)
    requires Inv(c, s) && i < |s.log| && StepEnabled(c, s, i, Commit(ch))
    ensures s.log[i].place.Seen? && CommitCase(s, s.log[i], ResultOf(c, s, i, ch)) && InputOk(s.log[i])
    ensures ApplyStep(c, s, i, Commit(ch)) == Committed(s, i, ResultOf(c, s, i, ch))
  {
    hide Inv, Process, CommitCase, EventOk, PlaceNow, GuardOk, RowOk, Backed, Announced;
    CommitFacts(c, s, i, ch);
    Facts(c, s, i);
  }

  /** The hook's write, if any, turns a PENDING or already FAILED row to FAILED. */
  predicate FailsRow(s: State, m: Copy, orders: map<OrderId, Row>) {
    orders == s.orders ||
    (m.place.HookAnnounced? && m.place.pending && m.ev.order in s.orders &&
     (s.orders[m.ev.order].status.Pending? || s.orders[m.ev.order].status.Failed?) &&
     orders == s.orders[m.ev.order := s.orders[m.ev.order].(status := Failed)])
  }

  lemma HookShape(c: Config, s: State, i: nat)
    requires Inv(c, s) && i < |s.log| && StepEnabled(c, s, i, HookCommit)
    ensures var t := ApplyStep(c, s, i, HookCommit);
            t.guard == s.guard && t.notes == s.notes && t.born == s.born && t.api == s.api &&
            FailsRow(s, s.log[i], t.orders)
  {
    hide Inv, Logged;
    if s.log[i].place.pending { HookFacts(c, s, i); }
  }

  lemma StepExtends(c: Config, s: State, a: Action)
    requires Inv(c, s) && Enabled(c, s, a)
    ensures Extends(s, Apply(c, s, a))
  {
    hide Inv, ApplyStep, StepEnabled;
    if !a.At? {
      TableFacts(c, s);
    } else if a.step.Commit? {
      CommitShape(c, s, a.i, a.step.ch);
      CommitExtends(c, s, a.i, ResultOf(c, s, a.i, a.step.ch));
    } else if a.step.HookCommit? {
      HookShape(c, s, a.i);
    } else {
      OnlyCommitsWrite(c, s, a.i, a.step);
    }
  }

  lemma CommitExtends(c: Config, s: State, i: nat, r: Result)
    requires Inv(c, s) && i < |s.log| && CommitCase(s, s.log[i], r)
    ensures Extends(s, Committed(s, i, r))
  {
    hide Inv, Backed, Logged, TextFor;
    var o := s.log[i].ev.order;
    if o in s.orders { TrackedFacts(c, s, o); }
  }

  lemma {:induction false} RunExtends(c: Config, s: State, run: seq<Action>)
    requires Inv(c, s) && Legal(c, s, run)
    ensures Extends(s, Exec(c, s, run))
    decreases |run|
  {
    hide Inv, Apply, Enabled;
    if run != [] {
      ActionInv(c, s, run[0]);
      StepExtends(c, s, run[0]);
      RunExtends(c, Apply(c, s, run[0]), run[1..]);
    }
  }

  /** From any reachable state on, and whatever overlaps, tables are only added to. */
  lemma TablesAreKept(c: Config, s: State, run: seq<Action>)
    requires Reachable(c, s) && Legal(c, s, run)
    ensures Keeps(s, Exec(c, s, run))
  {
    hide Core, Reachable, Keeps;
    ReachableCore(c, s);
    RunCore(c, s, run);
  }

  predicate TakesEffect(c: Config, s: State, a: Action, w: Worker, o: OrderId)
    requires Enabled(c, s, a)
  {
    a.At? && a.step.Commit? && s.log[a.i].queue == w && s.log[a.i].ev.order == o &&
    ResultOf(c, s, a.i, a.step.ch).effect != NoWrite
  }

  /** How many transactions of w with an effect on o a run commits. */
  function Effects(c: Config, s: State, run: seq<Action>, w: Worker, o: OrderId): nat
    requires Legal(c, s, run)
    decreases |run|
  {
    if run == [] then 0
    else Bit(TakesEffect(c, s, run[0], w, o)) + Effects(c, Apply(c, s, run[0]), run[1..], w, o)
  }

  /** The worker's guard row for the order stores the event that tells of its effect. */
  predicate Recorded(s: State, w: Worker, o: OrderId) {
    !w.Notification? && Stores(s, InputSlot(w, o))
  }

  lemma CommitEffect(c: Config, s: State, i: nat, ch: Choice, w: Worker, o: OrderId)
    requires Core(c, s) && i < |s.log| && StepEnabled(c, s, i, Commit(ch))
    ensures Bit(Recorded(ApplyStep(c, s, i, Commit(ch)), w, o)) ==
            Bit(Recorded(s, w, o)) + Bit(TakesEffect(c, s, At(i, Commit(ch)), w, o))
  {
    hide Core, Process, TextFor, Update;
    DecisionShape(c, s, i, ch);
    var m := s.log[i];
    assert !m.queue.Notification? ==> SlotOf(m) == InputSlot(m.queue, m.ev.order);
    var t := ApplyStep(c, s, i, Commit(ch));
    assert t.guard == s.guard[SlotOf(m) := ResultOf(c, s, i, ch).outgoing];
  }

  lemma StepEffect(c: Config, s: State, a: Action, w: Worker, o: OrderId)
    requires Core(c, s) && Enabled(c, s, a)
    ensures Bit(Recorded(Apply(c, s, a), w, o)) == Bit(Recorded(s, w, o)) + Bit(TakesEffect(c, s, a, w, o))
  {
    hide Core, ApplyStep, StepEnabled, Process;
    if a.At? {
      if a.step.Commit? {
        CommitEffect(c, s, a.i, a.step.ch, w, o);
      } else if a.step.HookCommit? {
        HookLeavesGuard(c, s, a.i);
      } else {
        OnlyCommitsWrite(c, s, a.i, a.step);
      }
    }
  }

  lemma HookLeavesGuard(c: Config, s: State, i: nat)
    requires i < |s.log| && StepEnabled(c, s, i, HookCommit)
    ensures ApplyStep(c, s, i, HookCommit).guard == s.guard
  {
  }

  /** Over any run, with any overlap of transactions and hooks, each worker takes effect on an
      order at most once, and exactly once iff the run has recorded it. */
  lemma {:induction false} EffectsHappenOnce(c: Config, s: State, run: seq<Action>, w: Worker, o: OrderId)
    requires Core(c, s) && Legal(c, s, run)
    ensures Bit(Recorded(Exec(c, s, run), w, o)) == Bit(Recorded(s, w, o)) + Effects(c, s, run, w, o)
    decreases |run|
  {
    hide Core, Apply, Enabled, Recorded, TakesEffect, Keeps;
    if run != [] {
      ActionCore(c, s, run[0]);
      StepEffect(c, s, run[0], w, o);
      EffectsHappenOnce(c, Apply(c, s, run[0]), run[1..], w, o);
    }
  }

  /** From the empty system: at most one charge and one driver per order, and exactly one iff the
      id of that payment or driver is on its row. */
  lemma ChargedOnce(c: Config, run: seq<Action>, w: Worker, o: OrderId)
    requires Legal(c, Init, run)
    ensures Effects(c, Init, run, w, o) == Bit(Recorded(Exec(c, Init, run), w, o))
    ensures var s := Exec(c, Init, run);
            (w.Payment? ==> Effects(c, Init, run, w, o) == Bit(o in s.orders && s.orders[o].payment.Some?)) &&
            (w.Delivery? ==> Effects(c, Init, run, w, o) == Bit(o in s.orders && s.orders[o].driver.Some?))
  {
    hide Core, Keeps;
    InitCore(c);
    RunCore(c, Init, run);
    EffectsHappenOnce(c, Init, run, w, o);
    RecordedIds(c, Exec(c, Init, run), o);
  }

  lemma RecordedIds(c: Config, s: State, o: OrderId)
    requires Core(c, s)
    ensures Recorded(s, Payment, o) <==> o in s.orders && s.orders[o].payment.Some?
    ensures Recorded(s, Delivery, o) <==> o in s.orders && s.orders[o].driver.Some?
  {
    hide Core, HasNote, NotesOk;
    ShapeFacts(c, s);
    if o in s.orders { assert RowTrace(s, o); }
    if PaidSlot(o) in s.guard { assert GuardShape(s, PaidSlot(o)); }
    if AssignedSlot(o) in s.guard { assert GuardShape(s, AssignedSlot(o)); }
  }

}
