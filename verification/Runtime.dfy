// The shared database and broker as one worker instance or API request meets them: every await
// lets the rest of the system act, and may raise.
module Runtime {
  import opened Schemas
  import opened Protocol
  import opened Steps
  import opened Invariant
  import opened Unconditional
  import opened Stages
  import opened Preservation

  // ---------------------------------------------------------------------
  // Counting settlements over a run
  // ---------------------------------------------------------------------

  /** The action hands copy i back: ack, nack-requeue, nack-dead-letter, or a requeue by crash. */
  predicate Settles(c: Config, s: State, a: Action, i: nat)
    requires Enabled(c, s, a)
  {
    i < |s.log| && InHand(s.log[i].place) &&
    i < |Apply(c, s, a).log| && !InHand(Apply(c, s, a).log[i].place)
  }

  function Settlements(c: Config, s: State, run: seq<Action>, i: nat): nat
    requires Legal(c, s, run)
    decreases |run|
  {
    if run == [] then 0
    else Bit(Settles(c, s, run[0], i)) + Settlements(c, Apply(c, s, run[0]), run[1..], i)
  }

  /** A step that an instance takes although no call of its own has failed: no crash, no escaping
      exception, no failing publish. `process` raises only over what it has read, unless hook and
      payment are kept apart and the other one of the two is running. */
  predicate Sound(c: Config, s: State, i: nat, step: Step)
    requires i < |s.log|
  {
    var m := s.log[i];
    match step
    case Crash => false
    case Escape => false
    case PublishRaise(_) => false
    case Raise(_) => m.place.Seen? || (c.exclusive && m.queue.Payment? && HookRuns(s, m.ev.order))
    case HookAbort => m.place.Failing? && c.exclusive && PaymentRuns(s, m.ev.order)
    case _ => true
  }

  predicate Unsound(c: Config, s: State, a: Action, i: nat)
    requires Enabled(c, s, a)
  {
    a.At? && a.i == i && !Sound(c, s, i, a.step)
  }

  /** How many steps of copy i only a failing call explains. */
  function Faults(c: Config, s: State, run: seq<Action>, i: nat): nat
    requires Legal(c, s, run)
    decreases |run|
  {
    if run == [] then 0
    else Bit(Unsound(c, s, run[0], i)) + Faults(c, Apply(c, s, run[0]), run[1..], i)
  }

  lemma {:induction false} RunAppend(c: Config, s: State, run: seq<Action>, a: Action, i: nat)
    requires Legal(c, s, run) && Enabled(c, Exec(c, s, run), a)
    ensures Legal(c, s, run + [a]) && Exec(c, s, run + [a]) == Apply(c, Exec(c, s, run), a)
    ensures Settlements(c, s, run + [a], i) == Settlements(c, s, run, i) + Bit(Settles(c, Exec(c, s, run), a, i))
    ensures Faults(c, s, run + [a], i) == Faults(c, s, run, i) + Bit(Unsound(c, Exec(c, s, run), a, i))
    decreases |run|
  {
    hide Enabled, Apply, Settles, Unsound;
    if run == [] {
      assert run + [a] == [a] && [a][1..] == [];
    } else {
      assert (run + [a])[0] == run[0] && (run + [a])[1..] == run[1..] + [a];
      RunAppend(c, Apply(c, s, run[0]), run[1..], a, i);
    }
  }

  /** Every step of copy i since was sound in the state in which it was taken. */
  ghost predicate AllSound(c: Config, start: State, before: seq<Action>, now: seq<Action>, i: nat) {
    before <= now &&
    forall k | |before| <= k < |now| && now[k].At? && now[k].i == i ::
      Legal(c, start, now[..k]) && i < |Exec(c, start, now[..k]).log| &&
      Sound(c, Exec(c, start, now[..k]), i, now[k].step)
  }

  lemma {:induction false} LegalParts(c: Config, s: State, run: seq<Action>, n: nat)
    requires Legal(c, s, run) && n < |run|
    ensures Legal(c, s, run[..n]) && Enabled(c, Exec(c, s, run[..n]), run[n])
    decreases |run|
  {
    hide Enabled, Apply;
    if n > 0 {
      LegalParts(c, Apply(c, s, run[0]), run[1..], n - 1);
      assert run[..n][0] == run[0] && run[..n][1..] == run[1..][..n - 1];
    }
  }

  /** A stretch in which the count of faults has not risen holds none. */
  lemma {:induction false} FaultsCount(c: Config, start: State, before: seq<Action>, now: seq<Action>, i: nat)
    requires before <= now && Legal(c, start, now)
    ensures Legal(c, start, before) && Faults(c, start, before, i) <= Faults(c, start, now, i)
    ensures Faults(c, start, now, i) <= Faults(c, start, before, i) ==> AllSound(c, start, before, now, i)
    decreases |now|
  {
    hide Sound, Apply;
    if |before| == |now| {
      assert before == now;
    } else {
      var n := |now| - 1;
      var most := now[..n];
      LegalParts(c, start, now, n);
      assert now == most + [now[n]] && before <= most;
      RunAppend(c, start, most, now[n], i);
      FaultsCount(c, start, before, most, i);
      assert forall k | 0 <= k < n :: now[..k] == most[..k] && now[k] == most[k];
    }
  }

  // ---------------------------------------------------------------------
  // What others cannot do to a held copy
  // ---------------------------------------------------------------------

  lemma GrowsLogged(s: State, t: State)
    requires Grows(s.log, t.log)
    ensures forall k :: Logged(s, k) ==> Logged(t, k)
  {
    forall k | Logged(s, k) ensures Logged(t, k) {
      var j :| 0 <= j < |s.log| && KeyOf(s.log[j].ev) == k;
      assert KeyOf(t.log[j].ev) == k;
    }
  }

  /** Everything a caller may rely on after others have acted. */
  predicate Later(s: State, t: State) {
    Grows(s.log, t.log) && Keeps(s, t)
  }

  lemma LaterTransitive(s: State, t: State, u: State)
    requires Later(s, t) && Later(t, u)
    ensures Later(s, u)
  {
  }

  // ---------------------------------------------------------------------
  // The world
  // ---------------------------------------------------------------------

  /** How an awaited call ends: it returns, raises without effect, or raises although it took
      effect (a publish the broker routed, a commit the database made durable). */
  datatype Trouble = Fine | Raises | RaisesLate

  /** What happens during one await: actions of the rest of the system, then the call's end. */
  datatype Turn = Turn(others: seq<Action>, end: Trouble)

  /** What the awaiting instance or request has to itself: a delivered copy, or a transaction. */
  datatype Owner = Instance(i: nat) | Request(o: OrderId)

  predicate Touches(a: Action, own: Owner) {
    match own
    case Instance(i) => a.At? && a.i == i
    case Request(o) => (a.ApiPublish? || a.ApiCommit? || a.ApiAbort?) && a.o == o
  }

  /** The action has been taken since. */
  predicate DoneSince(before: seq<Action>, now: seq<Action>, a: Action) {
    before <= now && exists k | |before| <= k < |now| :: now[k] == a
  }

  lemma DoneLast(before: seq<Action>, steps: seq<Action>, now: seq<Action>, a: Action)
    requires before <= steps && steps + [a] <= now
    ensures DoneSince(before, now, a)
  {
    assert now[|steps|] == a;
  }

  lemma DoneEarlier(before: seq<Action>, mid: seq<Action>, now: seq<Action>, a: Action)
    requires before <= mid && DoneSince(mid, now, a)
    ensures DoneSince(before, now, a)
  {
  }

  lemma DoneOnward(before: seq<Action>, now: seq<Action>, a: Action)
    requires DoneSince(before, now, a)
    ensures before <= now
  {
  }

  lemma DoneLater(before: seq<Action>, mid: seq<Action>, now: seq<Action>, a: Action)
    requires DoneSince(before, mid, a) && mid <= now
    ensures DoneSince(before, now, a)
  {
    var k :| |before| <= k < |mid| && mid[k] == a;
    assert now[k] == a;
  }

  /** The first action has been taken since, and the second one after it. */
  predicate DoneInOrder(before: seq<Action>, now: seq<Action>, a: Action, b: Action) {
    before <= now && exists j, k | |before| <= j < k < |now| :: now[j] == a && now[k] == b
  }

  lemma InOrder(before: seq<Action>, mid: seq<Action>, now: seq<Action>, a: Action, b: Action)
    requires before <= mid && mid + [a] <= now && DoneSince(mid + [a], now, b)
    ensures DoneInOrder(before, now, a, b)
  {
    assert now[|mid|] == (mid + [a])[|mid|] == a;
  }

  lemma InOrderEarlier(before: seq<Action>, mid: seq<Action>, now: seq<Action>, a: Action, b: Action)
    requires before <= mid && DoneInOrder(mid, now, a, b)
    ensures DoneInOrder(before, now, a, b)
  {
  }

  lemma InOrderLater(before: seq<Action>, mid: seq<Action>, now: seq<Action>, a: Action, b: Action)
    requires mid <= now
    ensures DoneInOrder(before, mid, a, b) ==> DoneInOrder(before, now, a, b)
  {
    if DoneInOrder(before, mid, a, b) {
      var j, k :| |before| <= j < k < |mid| && mid[j] == a && mid[k] == b;
      assert now[j] == a && now[k] == b;
    }
  }

  /** The key was held by an open transaction at some moment since. */
  ghost predicate KeyHeld(c: Config, start: State, before: seq<Action>, now: seq<Action>, sl: Slot) {
    before <= now &&
    exists k | |before| <= k <= |now| :: Legal(c, start, now[..k]) && Held(Exec(c, start, now[..k]), sl)
  }

  lemma HeldThen(c: Config, start: State, before: seq<Action>, mid: seq<Action>, now: seq<Action>, sl: Slot)
    requires before <= mid <= now && Legal(c, start, mid) && Held(Exec(c, start, mid), sl)
    ensures KeyHeld(c, start, before, now, sl)
  {
    hide Held;
    assert now[..|mid|] == mid;
  }

  lemma KeyHeldEarlier(c: Config, start: State, before: seq<Action>, mid: seq<Action>, now: seq<Action>, sl: Slot)
    requires before <= mid
    ensures KeyHeld(c, start, mid, now, sl) ==> KeyHeld(c, start, before, now, sl)
  {
    hide Held, Exec, Legal;
  }

  predicate LeftAlone(before: seq<Action>, now: seq<Action>, own: Owner) {
    before <= now && forall k | |before| <= k < |now| :: !Touches(now[k], own)
  }

  /** How many of the awaited calls to come fail. */
  function Failures(script: seq<Turn>): nat {
    if script == [] then 0 else Bit(!script[0].end.Fine?) + Failures(script[1..])
  }

  /** No awaited call has failed in between; others may have acted. */
  predicate Spared(before: seq<Turn>, now: seq<Turn>) {
    Failures(now) == Failures(before)
  }

  class World {
    const c: Config
    var s: State
    var script: seq<Turn>
    ghost const start: State
    ghost var trace: seq<Action>

    constructor (c: Config, script: seq<Turn>)
      ensures Valid() && this.c == c && this.script == script && s == Init && start == Init && trace == []
    {
      this.c, this.s, this.script, this.start, this.trace := c, Init, script, Init, [];
      new;
      InitBase(c);
      if c.exclusive { InitInv(c); }
      assert Legal(c, Init, trace) && Exec(c, Init, trace) == Init;
    }

    /** The state is the outcome of a legal run of the state machine. */
    ghost predicate Valid()
      reads this
    {
      Legal(c, start, trace) && s == Exec(c, start, trace) && Base(c, s) && (c.exclusive ==> Inv(c, s))
    }

    ghost function Settled(i: nat): nat
      reads this
      requires Valid()
    {
      Settlements(c, start, trace, i)
    }

    lemma Current()
      requires Valid()
      ensures Legal(c, start, trace) && s == Exec(c, start, trace)
    {
      hide Inv, Base;
    }

    /** The steps of copy i that only a failing call explains, and the failing calls to come. */
    ghost function Troubles(i: nat): nat
      reads this
      requires Valid()
    {
      Faults(c, start, trace, i) + Failures(script)
    }

    lemma Reckon(i: nat)
      requires Valid()
      ensures Legal(c, start, trace) && Troubles(i) == Faults(c, start, trace, i) + Failures(script)
    {
      hide Inv, Base;
    }

    /** One atomic action. */
    method Do(a: Action)
      requires Valid() && Enabled(c, s, a)
      modifies this`s, this`trace
      ensures Valid() && s == Apply(c, old(s), a) && trace == old(trace) + [a] && Later(old(s), s)
      ensures forall i: nat :: Settled(i) == old(Settled(i)) + Bit(Settles(c, old(s), a, i))
      ensures forall i: nat :: Troubles(i) == old(Troubles(i)) + Bit(Unsound(c, old(s), a, i))
    {
      hide Inv, Base, Core, Enabled, Apply, Keeps, Grows;
      RunAppend(c, start, trace, a, 0);
      forall i: nat
        ensures Settlements(c, start, trace + [a], i) == Settlements(c, start, trace, i) + Bit(Settles(c, s, a, i))
        ensures Faults(c, start, trace + [a], i) == Faults(c, start, trace, i) + Bit(Unsound(c, s, a, i))
      {
        RunAppend(c, start, trace, a, i);
      }
      ActionBase(c, s, a);
      if c.exclusive { ActionInv(c, s, a); }
      StepGrows(c, s, a);
      trace := trace + [a];
      s := Apply(c, s, a);
    }

    /** Others act, in any way the machine allows, but not on what the caller owns. */
    method Await(own: Owner) returns (end: Trouble)
      requires Valid()
      modifies this`s, this`trace, this`script
      ensures Valid() && Later(old(s), s) && Kept(own, old(s), s) && LeftAlone(old(trace), trace, own)
      ensures own.Instance? && own.i < |old(s).log| ==> Settled(own.i) == old(Settled(own.i))
      ensures own.Instance? ==> Troubles(own.i) + Bit(!end.Fine?) == old(Troubles(own.i))
      ensures Failures(script) + Bit(!end.Fine?) == Failures(old(script))
      ensures old(script) == [] ==> script == [] && s == old(s)
    {
      hide Inv, Base, Core, Enabled, Apply, Keeps, Settles;
      LaterReflexive(s);
      if script == [] { return Fine; }
      var turn := script[0];
      script := script[1..];
      for k := 0 to |turn.others|
        invariant Valid() && Later(old(s), s) && script == old(script)[1..] && Kept(own, old(s), s)
        invariant LeftAlone(old(trace), trace, own)
        invariant own.Instance? && own.i < |old(s).log| ==> Settled(own.i) == old(Settled(own.i))
        invariant own.Instance? ==> Troubles(own.i) + Bit(!turn.end.Fine?) == old(Troubles(own.i))
      {
        var a := turn.others[k];
        if Enabled(c, s, a) && !Touches(a, own) {
          ghost var before := s;
          OthersKeep(c, s, a, own);
          assert own.Instance? ==> !Unsound(c, s, a, own.i);
          Do(a);
          LaterTransitive(old(s), before, s);
        }
      }
      end := turn.end;
    }
  }

  lemma LaterReflexive(s: State)
    ensures Later(s, s)
  {
  }

  /** The owned copy keeps its place, the owned transaction stays as far as it has got. */
  predicate Kept(own: Owner, s: State, t: State) {
    match own
    case Instance(i) => i < |s.log| ==> i < |t.log| && t.log[i] == s.log[i]
    case Request(o) =>
      o in s.api && o in s.born ==> o in t.api && t.api[o] == s.api[o] && o in t.born && t.born[o] == s.born[o]
  }

  lemma OthersKeep(c: Config, s: State, a: Action, own: Owner)
    requires Enabled(c, s, a) && !Touches(a, own)
    ensures Kept(own, s, Apply(c, s, a))
    ensures own.Instance? && own.i < |s.log| ==> !Settles(c, s, a, own.i)
  {
    hide ApplyStep, StepEnabled;
    if a.At? { StepsLeaveRequests(c, s, a.i, a.step); }
    hide Apply, Enabled;
    StepGrows(c, s, a);
  }

}
