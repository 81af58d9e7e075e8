// Runs in which a payment and a hook never meet on one order are runs of the exclusive system.
module Exclusion {
  import opened Protocol
  import opened Preservation

  /** The place of a payment that has its transaction open, or of a failure on its way to the hook. */
  predicate Exposed(p: Place) {
    InTxn(p) || p.Failing? || InHook(p)
  }

  /** No two payment copies of one order are ever at such a place at the same time. */
  predicate NeverMeet(s: State) {
    forall i, j | 0 <= i < |s.log| && 0 <= j < |s.log| ::
      i != j && s.log[i].queue.Payment? && s.log[j].queue.Payment? && Exposed(s.log[i].place) && Exposed(s.log[j].place) ==>
      s.log[i].ev.order != s.log[j].ev.order
  }

  function Exclusive(c: Config): Config { c.(exclusive := true) }

  lemma StepWithoutMeeting(c: Config, s: State, i: nat, step: Step)
    requires Inv(Exclusive(c), s) && NeverMeet(s) && i < |s.log| && StepEnabled(c, s, i, step)
    ensures StepEnabled(Exclusive(c), s, i, step)
  {
    hide Inv, Process, HasNote, Held, PaymentRuns, HookRuns;
    SameProcess(c, s.log[i]);
    if step.Read? && s.log[i].queue.Payment? { NoHookMeets(c, s, i); }
    if step.HookRead? { NoPaymentMeets(s, i); }
  }

  lemma NoHookMeets(c: Config, s: State, i: nat)
    requires Inv(Exclusive(c), s) && NeverMeet(s) && i < |s.log| && s.log[i].queue.Payment? && s.log[i].place.Open?
    ensures !HookRuns(s, s.log[i].ev.order)
  {
    hide Inv;
    forall j | 0 <= j < |s.log| && InHook(s.log[j].place) ensures s.log[j].ev.order != s.log[i].ev.order {
      Facts(Exclusive(c), s, j);
    }
  }

  lemma NoPaymentMeets(s: State, i: nat)
    requires NeverMeet(s) && i < |s.log| && s.log[i].queue.Payment? && s.log[i].place.Failing?
    ensures !PaymentRuns(s, s.log[i].ev.order)
  {
  }

  lemma SameEffect(c: Config, s: State, i: nat, step: Step)
    requires i < |s.log| && StepEnabled(c, s, i, step) && StepEnabled(Exclusive(c), s, i, step)
    ensures ApplyStep(Exclusive(c), s, i, step) == ApplyStep(c, s, i, step)
  {
    hide HasNote, Held, PaymentRuns, HookRuns, Published, Fanout, MarkFailed, CommitTables, Move, Emit, RetryDelayMs;
    SameProcess(c, s.log[i]);
  }

  lemma SameProcess(c: Config, m: Copy)
    ensures forall w, e, n, r, ch :: Process(Exclusive(c), w, e, n, r, ch) == Process(c, w, e, n, r, ch)
    ensures forall f :: RetryCopy(Exclusive(c), m, f) == RetryCopy(c, m, f)
  {
  }

  lemma ActionWithoutMeeting(c: Config, s: State, a: Action)
    requires Inv(Exclusive(c), s) && NeverMeet(s) && Enabled(c, s, a)
    ensures Enabled(Exclusive(c), s, a) && Apply(Exclusive(c), s, a) == Apply(c, s, a)
  {
    hide Inv, StepEnabled, ApplyStep;
    if a.At? {
      StepWithoutMeeting(c, s, a.i, a.step);
      SameEffect(c, s, a.i, a.step);
    }
  }

  /** At most one payment copy is held in every state the run passes through, as with a single
      payment instance. */
  predicate OneAtATime(c: Config, s: State, run: seq<Action>)
    requires Legal(c, s, run)
    decreases |run|
  {
    (forall i, j | 0 <= i < j < |s.log| ::
       !(s.log[i].queue.Payment? && s.log[j].queue.Payment? && InHand(s.log[i].place) && InHand(s.log[j].place))) &&
    (run == [] || OneAtATime(c, Apply(c, s, run[0]), run[1..]))
  }

  /** A single payment instance makes the exclusion hold by itself: its runs are exclusive runs,
      so every guarantee applies to them. */
  lemma {:induction false} OneInstanceIsExclusive(c: Config, s: State, run: seq<Action>)
    requires Inv(Exclusive(c), s) && Legal(c, s, run) && OneAtATime(c, s, run)
    ensures Legal(Exclusive(c), s, run) && Exec(Exclusive(c), s, run) == Exec(c, s, run)
    decreases |run|
  {
    hide Inv, Enabled, Apply;
    if run != [] {
      ActionWithoutMeeting(c, s, run[0]);
      ActionInv(Exclusive(c), s, run[0]);
      OneInstanceIsExclusive(c, Apply(c, s, run[0]), run[1..]);
    }
  }
}
