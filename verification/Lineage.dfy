// How often one message is delivered, counted along its lineage: the copy itself, the copy it
// replaced in a retry queue, the copy that expired into that one, and so on.
module Lineage {
  import opened Protocol
  import opened Steps
  import opened Guarantees
  import Termination

  /** The deliveries along each copy's lineage after one action. A redelivery of the same copy takes
      its delivery back, so that it is not counted again. */
  function Counted(c: Config, s: State, a: Action, d: seq<int>): (r: seq<int>)
    requires Enabled(c, s, a) && |d| == |s.log|
    ensures |r| == |Apply(c, s, a).log|
  {
    LogLength(c, s, a);
    var own := if a.At? && a.step.Take? then d[a.i := d[a.i] + 1]
               else if Termination.Redelivers(s, a) then d[a.i := d[a.i] - 1]
               else d;
    own + seq(|Apply(c, s, a).log| - |s.log|, k => if Inherits(a) then d[a.i] else 0)
  }

  /** The added copies continue the lineage of the acting copy. */
  predicate Inherits(a: Action)
    ensures Inherits(a) ==> a.At?
  {
    a.At? && (a.step.Expire? || a.step.RetryPublish?)
  }

  lemma LogLength(c: Config, s: State, a: Action)
    requires Enabled(c, s, a)
    ensures |s.log| <= |Apply(c, s, a).log| && (a.At? ==> a.i < |s.log|)
  {
    StepGrows(c, s, a);
  }

  function Deliveries(c: Config, s: State, run: seq<Action>, d: seq<int>): (r: seq<int>)
    requires Legal(c, s, run) && |d| == |s.log|
    ensures |r| == |Exec(c, s, run).log|
    decreases |run|
  {
    if run == [] then d else Deliveries(c, Apply(c, s, run[0]), run[1..], Counted(c, s, run[0], d))
  }

  /** A copy that waits has been delivered once per hop so far, one in hand once more. */
  predicate Agrees(m: Copy, n: int) {
    if InHand(m.place) then n == m.hops + 1
    else if m.place.Ready? || m.place.Waiting? then n == m.hops
    else m.hops <= n <= m.hops + 1
  }

  predicate AllAgree(s: State, d: seq<int>) {
    |d| == |s.log| && forall j | 0 <= j < |d| :: Agrees(s.log[j], d[j])
  }

  lemma OwnAgrees(c: Config, s: State, i: nat, step: Step, n: int)
    requires i < |s.log| && StepEnabled(c, s, i, step) && Agrees(s.log[i], n)
    ensures var t := ApplyStep(c, s, i, step);
            i < |t.log| &&
            Agrees(t.log[i], n + Bit(step.Take?) - Bit(!step.Take? && Termination.Redelivers(s, At(i, step))))
  {
    hide Process, Held, HookRuns, PaymentRuns, HasNote, Published, Fanout, RetryCopy, Update, TextFor, Budget;
  }

  lemma AddedAgree(c: Config, s: State, i: nat, step: Step, n: int)
    requires i < |s.log| && StepEnabled(c, s, i, step) && Agrees(s.log[i], n)
    ensures forall m | m in Added(c, s, i, step) :: Agrees(m, if Inherits(At(i, step)) then n else 0)
  {
    hide Process, Held, HookRuns, PaymentRuns, HasNote, Budget, RetryDelayMs, Direct;
  }

  lemma ActionAgrees(c: Config, s: State, a: Action, d: seq<int>)
    requires Enabled(c, s, a) && AllAgree(s, d)
    ensures AllAgree(Apply(c, s, a), Counted(c, s, a, d))
  {
    hide ApplyStep, StepEnabled, Added, Agrees;
    var t, r := Apply(c, s, a), Counted(c, s, a, d);
    StepGrows(c, s, a);
    if a.At? {
      assert a == At(a.i, a.step);
      StepLog(c, s, a.i, a.step);
      OwnAgrees(c, s, a.i, a.step, d[a.i]);
      AddedAgree(c, s, a.i, a.step, d[a.i]);
      forall j | 0 <= j < |r| ensures Agrees(t.log[j], r[j]) {
        if j >= |s.log| {
          var m := Added(c, s, a.i, a.step)[j - |s.log|];
          assert t.log[j] == m && m in Added(c, s, a.i, a.step);
          assert r[j] == if Inherits(a) then d[a.i] else 0;
        } else if j != a.i {
          assert t.log[j] == s.log[j] && r[j] == d[j];
        } else {
          assert r[j] == d[j] + Bit(a.step.Take?) - Bit(!a.step.Take? && Termination.Redelivers(s, a));
        }
      }
    } else {
      forall j | 0 <= j < |r| ensures Agrees(t.log[j], r[j]) { ApiAgrees(c, s, a, j, r[j]); }
    }
  }

  lemma ApiAgrees(c: Config, s: State, a: Action, j: nat, n: int)
    requires Enabled(c, s, a) && !a.At? && j < |Apply(c, s, a).log|
    requires if j < |s.log| then Agrees(s.log[j], n) else n == 0
    ensures Agrees(Apply(c, s, a).log[j], n)
  {
  }

  lemma {:induction false} RunAgrees(c: Config, s: State, run: seq<Action>, d: seq<int>)
    requires Legal(c, s, run) && AllAgree(s, d)
    ensures AllAgree(Exec(c, s, run), Deliveries(c, s, run, d))
    decreases |run|
  {
    hide Apply, Enabled, AllAgree, Counted;
    if run != [] {
      assert |d| == |s.log| by { Lengths(s, d); }
      ActionAgrees(c, s, run[0], d);
      RunAgrees(c, Apply(c, s, run[0]), run[1..], Counted(c, s, run[0], d));
    }
  }

  lemma Lengths(s: State, d: seq<int>)
    requires AllAgree(s, d)
    ensures |d| == |s.log|
  {
  }

  /** Apart from redeliveries of the same copy, no message is delivered more often than its two
      budgets allow together, and a copy in hand has been delivered exactly once more than it has
      been put into a retry queue. */
  lemma LineageBound(c: Config, run: seq<Action>, j: nat)
    requires Legal(c, Init, run) && j < |Exec(c, Init, run).log|
    ensures Deliveries(c, Init, run, [])[j] <= (c.maxRetries + 1) * (c.notreadyMax + 1)
    ensures var m := Exec(c, Init, run).log[j];
            InHand(m.place) ==> Deliveries(c, Init, run, [])[j] == m.hops + 1
  {
    hide Reachable;
    var s := Exec(c, Init, run);
    RunAgrees(c, Init, run, []);
    assert Reachable(c, s) by { Start(c); ReachRun(c, Init, run); }
    RetryBound(c, s, j);
  }
}
