// Interleaved transactions act as if each had run alone at the moment it committed.
module Serial {
  import opened Schemas
  import opened Protocol
  import opened Steps
  import opened Invariant
  import opened Preservation
  import opened Guarantees

  datatype Tables = Tables(orders: map<OrderId, Row>, guard: map<Slot, seq<Event>>, notes: seq<Note>)

  datatype Txn =
    | Accept(o: OrderId)
    | Work(w: Worker, ev: Event, attempt: nat, ch: Choice)
    | Fail(o: OrderId)

  function TablesOf(s: State): Tables {
    Tables(s.orders, s.guard, s.notes)
  }

  /** A transaction that nobody interrupts: insert the guard row, read, decide, write. */
  function Atomic(c: Config, t: Tables, x: Txn): Tables {
    match x
    case Accept(o) => if o in t.orders then t else t.(orders := t.orders[o := Row(Pending, None, None)])
    case Fail(o) =>
      if o in t.orders && t.orders[o].status.Pending?
      then t.(orders := t.orders[o := t.orders[o].(status := Failed)]) else t
    case Work(w, ev, attempt, ch) =>
      var row := if w.Notification? || ev.order !in t.orders then None else Some(t.orders[ev.order]);
      var r := Process(c, w, ev, attempt, row, ch);
      if Slot(KeyOf(ev), w) in t.guard || r.Raised? then t
      else Tables(Update(t.orders, ev.order, r.effect), t.guard[Slot(KeyOf(ev), w) := r.outgoing],
                  if w.Notification? then t.notes + [Note(KeyOf(ev), TextFor(KindOf(ev)))] else t.notes)
  }

  function RunAlone(c: Config, t: Tables, xs: seq<Txn>): Tables
    decreases |xs|
  {
    if xs == [] then t else RunAlone(c, Atomic(c, t, xs[0]), xs[1..])
  }

  /** The transaction an action commits. A hook that found nothing to mark only reads. */
  function Commits(c: Config, s: State, a: Action): seq<Txn>
    requires Enabled(c, s, a)
  {
    match a
    case ApiCommit(o) => [Accept(o)]
    case At(i, step) =>
      (match step
       case Commit(ch) => [Work(s.log[i].queue, s.log[i].ev, s.log[i].rc + 1, ch)]
       case HookCommit => if s.log[i].place.pending then [Fail(s.log[i].ev.order)] else []
       case _ => [])
    case _ => []
  }

  function CommitOrder(c: Config, s: State, run: seq<Action>): seq<Txn>
    requires Legal(c, s, run)
    decreases |run|
  {
    if run == [] then [] else Commits(c, s, run[0]) + CommitOrder(c, Apply(c, s, run[0]), run[1..])
  }

  lemma WorkIsAtomic(c: Config, s: State, i: nat, ch: Choice)
    requires Inv(c, s) && i < |s.log| && StepEnabled(c, s, i, Commit(ch))
    ensures var m := s.log[i];
            TablesOf(ApplyStep(c, s, i, Commit(ch))) ==
            Atomic(c, TablesOf(s), Work(m.queue, m.ev, m.rc + 1, ch))
  {
    hide Inv, RowOk, GuardOk, Backed, Announced, EventOk, ShouldFail, TextFor;
    Facts(c, s, i);
    CommitShape(c, s, i, ch);
    var m := s.log[i];
    assert m.place.row == ReadRow(s, m);
  }

  lemma StepIsAtomic(c: Config, s: State, a: Action)
    requires Inv(c, s) && Enabled(c, s, a)
    ensures TablesOf(Apply(c, s, a)) == RunAlone(c, TablesOf(s), Commits(c, s, a))
  {
    hide Inv, ApplyStep, StepEnabled, Process, TextFor;
    if !a.At? {
      TableFacts(c, s);
    } else if a.step.Commit? {
      WorkIsAtomic(c, s, a.i, a.step.ch);
    } else if a.step.HookCommit? {
      HookIsAtomic(c, s, a.i);
    } else {
      OnlyCommitsWrite(c, s, a.i, a.step);
    }
  }

  lemma HookIsAtomic(c: Config, s: State, i: nat)
    requires Inv(c, s) && i < |s.log| && StepEnabled(c, s, i, HookCommit)
    ensures var t := TablesOf(ApplyStep(c, s, i, HookCommit));
            t == if s.log[i].place.pending then Atomic(c, TablesOf(s), Fail(s.log[i].ev.order)) else TablesOf(s)
  {
    hide Inv, Logged;
    var o := s.log[i].ev.order;
    if s.log[i].place.pending {
      HookFacts(c, s, i);
      if s.orders[o].status.Failed? {
        assert s.orders[o := s.orders[o].(status := Failed)] == s.orders;
      }
    }
  }

  lemma {:induction false} RunAloneConcat(c: Config, t: Tables, xs: seq<Txn>, ys: seq<Txn>)
    ensures RunAlone(c, t, xs + ys) == RunAlone(c, RunAlone(c, t, xs), ys)
    decreases |xs|
  {
    if xs == [] {
      assert xs + ys == ys;
    } else {
      assert (xs + ys)[0] == xs[0] && (xs + ys)[1..] == xs[1..] + ys;
      RunAloneConcat(c, Atomic(c, t, xs[0]), xs[1..], ys);
    }
  }

  /** Any interleaving leaves the tables that its committed transactions, run one after the
      other in commit order, would leave. */
  lemma {:induction false} RunsAreSerial(c: Config, s: State, run: seq<Action>)
    requires Inv(c, s) && Legal(c, s, run)
    ensures TablesOf(Exec(c, s, run)) == RunAlone(c, TablesOf(s), CommitOrder(c, s, run))
    decreases |run|
  {
    hide Inv, Apply, Enabled, Atomic;
    if run != [] {
      ActionInv(c, s, run[0]);
      StepIsAtomic(c, s, run[0]);
      var t := Apply(c, s, run[0]);
      RunsAreSerial(c, t, run[1..]);
      RunAloneConcat(c, TablesOf(s), Commits(c, s, run[0]), CommitOrder(c, t, run[1..]));
    }
  }

}
