// What single steps can change, and how steps make up runs.
module Steps {
  import opened Schemas
  import opened Protocol

  function Bit(b: bool): nat { if b then 1 else 0 }

  // ---------------------------------------------------------------------
  // The log
  // ---------------------------------------------------------------------

  /** The copies a step adds and the place its own copy moves to. */
  function Added(c: Config, s: State, i: nat, step: Step): seq<Copy>
    requires i < |s.log| && StepEnabled(c, s, i, step)
  {
    var m := s.log[i];
    match step
    case Expire => Fanout(RetryDirect(m.queue), m.ev, m.rc, m.nr, m.hops)
    case PublishNext => Published(m.place.todo[0])
    case PublishRaise(routed) => if routed then Published(m.place.todo[0]) else []
    case RetryPublish => [RetryCopy(c, m, m.place.fault)]
    case HookPublish(at) => Published(OrderPaymentFailed(m.ev.order, at))
    case _ => []
  }

  lemma StepLog(c: Config, s: State, i: nat, step: Step)
    requires i < |s.log| && StepEnabled(c, s, i, step)
    ensures var t := ApplyStep(c, s, i, step);
            i < |t.log| && t.log[i] == s.log[i].(place := t.log[i].place) &&
            t.log == Move(Emit(s, Added(c, s, i, step)), i, t.log[i].place).log
  {
    hide Process, Published, Fanout, RetryCopy, Held, HookRuns, PaymentRuns, Budget, HasNote;
    assert s.log + [] == s.log;
  }

  /** The log only grows, and an entry never changes anything but its place. */
  predicate Grows(old_: seq<Copy>, new_: seq<Copy>) {
    |old_| <= |new_| && forall j | 0 <= j < |old_| :: new_[j] == old_[j].(place := new_[j].place)
  }

  lemma StepGrows(c: Config, s: State, a: Action)
    requires Enabled(c, s, a)
    ensures Grows(s.log, Apply(c, s, a).log)
    ensures forall i | 0 <= i < |s.log| && !(a.At? && a.i == i) :: Apply(c, s, a).log[i] == s.log[i]
  {
    hide ApplyStep, StepEnabled;
    if a.At? { StepLog(c, s, a.i, a.step); }
  }

  // ---------------------------------------------------------------------
  // The tables
  // ---------------------------------------------------------------------

  function ReadRow(s: State, m: Copy): Option<Row> {
    if m.queue.Notification? || m.ev.order !in s.orders then None else Some(s.orders[m.ev.order])
  }

  function ResultOf(c: Config, s: State, i: nat, ch: Choice): Result
    requires i < |s.log| && s.log[i].place.Seen?
  {
    var m := s.log[i];
    Process(c, m.queue, m.ev, m.rc + 1, m.place.row, ch)
  }

  predicate Deciding(c: Config, s: State, i: nat, ch: Choice)
    requires i < |s.log|
  {
    var m := s.log[i];
    m.place.Seen? && Process(c, m.queue, m.ev, m.rc + 1, m.place.row, ch).Returned?
  }

  lemma OnlyCommitsWrite(c: Config, s: State, i: nat, step: Step)
    requires i < |s.log| && StepEnabled(c, s, i, step) && !step.Commit? && !step.HookCommit?
    ensures var t := ApplyStep(c, s, i, step);
            t.orders == s.orders && t.guard == s.guard && t.notes == s.notes && t.born == s.born && t.api == s.api
  {
    hide Process, Published, Fanout, RetryCopy, Held, HookRuns, PaymentRuns, Budget, HasNote;
  }

  lemma StepsLeaveRequests(c: Config, s: State, i: nat, step: Step)
    requires i < |s.log| && StepEnabled(c, s, i, step)
    ensures ApplyStep(c, s, i, step).api == s.api && ApplyStep(c, s, i, step).born == s.born
  {
    hide StepEnabled, Process, Published, Fanout, RetryCopy, Update, TextFor;
  }

  lemma NotesGrow(s: State, s': State)
    requires s.notes <= s'.notes
    ensures forall k :: HasNote(s, k) ==> HasNote(s', k)
  {
    forall k | HasNote(s, k) ensures HasNote(s', k) {
      var n :| 0 <= n < |s.notes| && s.notes[n].key == k;
      assert s'.notes[n].key == k;
    }
  }

  // ---------------------------------------------------------------------
  // Runs
  // ---------------------------------------------------------------------

  ghost predicate Reachable(c: Config, s: State) {
    exists run :: Legal(c, Init, run) && Exec(c, Init, run) == s
  }

  lemma Start(c: Config)
    ensures Reachable(c, Init)
  {
    assert Legal(c, Init, []) && Exec(c, Init, []) == Init;
  }

  lemma {:induction false} LegalConcat(c: Config, s: State, run: seq<Action>, a: Action)
    requires Legal(c, s, run) && Enabled(c, Exec(c, s, run), a)
    ensures Legal(c, s, run + [a]) && Exec(c, s, run + [a]) == Apply(c, Exec(c, s, run), a)
    decreases |run|
  {
    hide Enabled, Apply;
    if run == [] {
      assert run + [a] == [a] && [a][1..] == [];
    } else {
      assert (run + [a])[0] == run[0] && (run + [a])[1..] == run[1..] + [a];
      LegalConcat(c, Apply(c, s, run[0]), run[1..], a);
    }
  }

  lemma ReachStep(c: Config, s: State, a: Action)
    requires Reachable(c, s) && Enabled(c, s, a)
    ensures Reachable(c, Apply(c, s, a))
  {
    hide Enabled, Apply;
    var run :| Legal(c, Init, run) && Exec(c, Init, run) == s;
    LegalConcat(c, Init, run, a);
  }

  lemma {:induction false} ReachRun(c: Config, s: State, run: seq<Action>)
    requires Reachable(c, s) && Legal(c, s, run)
    ensures Reachable(c, Exec(c, s, run))
    decreases |run|
  {
    hide Reachable, Apply, Enabled;
    if run != [] {
      ReachStep(c, s, run[0]);
      ReachRun(c, Apply(c, s, run[0]), run[1..]);
    }
  }
}
