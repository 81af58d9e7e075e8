// One delivery taken as a whole: what handling a message leaves behind when nothing fails and
// nobody interferes, and why a redelivery after success is harmless.
module Handling {
  import opened Schemas
  import opened Protocol
  import opened Steps
  import Serial

  // ---------------------------------------------------------------------
  // Settling a copy
  // ---------------------------------------------------------------------

  function PublishedAll(out: seq<Event>): seq<Copy> {
    if out == [] then [] else PublishedAll(out[..|out| - 1]) + Published(out[|out| - 1])
  }

  /** The copies are added and copy i ends at p. */
  function Settle(s: State, i: nat, copies: seq<Copy>, p: Place): State
    requires i < |s.log|
  {
    Move(Emit(s, copies), i, p)
  }

  lemma SettleTwice(s: State, i: nat, a: seq<Copy>, p: Place, b: seq<Copy>, q: Place)
    requires i < |s.log|
    ensures i < |Settle(s, i, a, p).log| && Settle(Settle(s, i, a, p), i, b, q) == Settle(s, i, a + b, q)
  {
    var t := Settle(Settle(s, i, a, p), i, b, q);
    assert t.log == Settle(s, i, a + b, q).log;
  }

  lemma MoveIsSettle(s: State, i: nat, p: Place)
    requires i < |s.log|
    ensures Move(s, i, p) == Settle(s, i, [], p)
  {
    assert s.log + [] == s.log;
  }

  lemma SettleInPlace(s: State, i: nat)
    requires i < |s.log|
    ensures Settle(s, i, [], s.log[i].place) == s
  {
    assert s.log + [] == s.log;
  }

  // ---------------------------------------------------------------------
  // Handling as one step
  // ---------------------------------------------------------------------

  /** The delivery of copy i, handled without a break. */
  function Handled(c: Config, s: State, i: nat, ch: Choice): State
    requires i < |s.log|
  {
    var m := s.log[i];
    if SlotOf(m) in s.guard then Settle(s, i, PublishedAll(s.guard[SlotOf(m)]), Gone)
    else if Held(s, SlotOf(m)) then Move(s, i, Ready)
    else Worked(c, s, i, ch)
  }

  /** The delivery whose guard row is new. Where hook and payment are kept apart, the one that
      comes second is aborted. */
  function Worked(c: Config, s: State, i: nat, ch: Choice): State
    requires i < |s.log|
  {
    var m := s.log[i];
    if m.queue.Notification? && HasNote(s, KeyOf(m.ev)) then Move(s, i, Gone)
    else if c.exclusive && m.queue.Payment? && HookRuns(s, m.ev.order) then AfterFailure(c, s, i, Other, ch.at)
    else Decided(c, s, i, Process(c, m.queue, m.ev, m.rc + 1, ReadRow(s, m), ch), ch.at)
  }

  function Decided(c: Config, s: State, i: nat, r: Result, at: int): State
    requires i < |s.log|
  {
    match r
    case Returned(_, out) => Settle(CommitTables(s, s.log[i], r), i, PublishedAll(out), Gone)
    case Raised(f) => AfterFailure(c, s, i, f, at)
  }

  /** A retry copy while the budget lasts; then the hook, for payment, and the dead-letter queue. */
  function AfterFailure(c: Config, s: State, i: nat, f: Fault, at: int): State
    requires i < |s.log|
  {
    var m := s.log[i];
    if Budget(c, m, f) then Settle(s, i, [RetryCopy(c, m, f)], Gone)
    else if m.queue.Payment? && f.Other? && !(c.exclusive && PaymentRuns(s, m.ev.order)) then Hooked(s, i, at, Dead)
    else Move(s, i, Dead)
  }

  function Hooked(s: State, i: nat, at: int, p: Place): State
    requires i < |s.log|
  {
    var o := s.log[i].ev.order;
    Settle(if o in s.orders && s.orders[o].status == Pending then MarkFailed(s, o) else s,
           i, Published(OrderPaymentFailed(o, at)), p)
  }

  /** From the queue to the end; a body that does not parse is dead-lettered at once. */
  function Consume(c: Config, s: State, i: nat, typed: bool, ch: Choice): State
    requires i < |s.log|
  {
    if typed then Handled(c, Move(s, i, Taken), i, ch) else Move(s, i, Dead)
  }

  /** What one poll yields: no message, or copy i with a body that parses or not. */
  datatype Get = Nothing | Got(i: nat, typed: bool, ch: Choice)

  predicate Yields(s: State, w: Worker, get: Get) {
    get.Got? && get.i < |s.log| && s.log[get.i].queue == w && s.log[get.i].place.Ready?
  }

  function Consumed(c: Config, s: State, w: Worker, gets: seq<Get>): State {
    if gets == [] then s
    else
      var t := Consumed(c, s, w, gets[..|gets| - 1]);
      var get := gets[|gets| - 1];
      if Yields(t, w, get) then Consume(c, t, get.i, get.typed, get.ch) else t
  }

  // ---------------------------------------------------------------------
  // Independence from the place of the copy itself
  // ---------------------------------------------------------------------

  lemma SlotsElsewhere(s: State, i: nat, p: Place, o: OrderId)
    requires i < |s.log|
    ensures !InHook(p) && !InHook(s.log[i].place) ==> (HookRuns(Move(s, i, p), o) <==> HookRuns(s, o))
    ensures !p.Seen? && !s.log[i].place.Seen? ==> (PaymentRuns(Move(s, i, p), o) <==> PaymentRuns(s, o))
  {
    var t := Move(s, i, p);
    assert forall j | 0 <= j < |s.log| && j != i :: t.log[j] == s.log[j];
    assert t.log[i].place == p;
    if HookRuns(s, o) && !InHook(p) && !InHook(s.log[i].place) {
      var j :| 0 <= j < |s.log| && InHook(s.log[j].place) && s.log[j].ev.order == o;
      assert t.log[j] == s.log[j];
    }
    if PaymentRuns(s, o) && !p.Seen? && !s.log[i].place.Seen? {
      var j :| 0 <= j < |s.log| && s.log[j].queue.Payment? && s.log[j].place.Seen? && s.log[j].ev.order == o;
      assert t.log[j] == s.log[j];
    }
  }

  lemma FailedElsewhere(c: Config, s: State, i: nat, p: Place, f: Fault, at: int)
    requires i < |s.log| && !p.Seen? && !s.log[i].place.Seen?
    ensures AfterFailure(c, Move(s, i, p), i, f, at) == AfterFailure(c, s, i, f, at)
  {
    hide PaymentRuns, Published;
    SlotsElsewhere(s, i, p, s.log[i].ev.order);
    MoveIsSettle(s, i, p);
    MoveIsSettle(s, i, Dead);
    MoveIsSettle(Move(s, i, p), i, Dead);
    forall cs: seq<Copy>, q: Place
      ensures Settle(Move(s, i, p), i, cs, q) == Settle(s, i, cs, q)
    {
      SettleTwice(s, i, [], p, cs, q);
      assert [] + cs == cs;
    }
  }

  lemma SettleAnyway(s: State, i: nat, p: Place, cs: seq<Copy>, q: Place)
    requires i < |s.log|
    ensures i < |Move(s, i, p).log| && Settle(Move(s, i, p), i, cs, q) == Settle(s, i, cs, q)
  {
    MoveIsSettle(s, i, p);
    SettleTwice(s, i, [], p, cs, q);
    assert [] + cs == cs;
  }

  lemma CommitElsewhere(s: State, i: nat, p: Place, r: Result, cs: seq<Copy>, q: Place)
    requires i < |s.log| && r.Returned?
    ensures Settle(CommitTables(Move(s, i, p), Move(s, i, p).log[i], r), i, cs, q) ==
            Settle(CommitTables(s, s.log[i], r), i, cs, q)
  {
    hide TextFor, Update;
    assert SlotOf(Move(s, i, p).log[i]) == SlotOf(s.log[i]);
    SettleAnyway(CommitTables(s, s.log[i], r), i, p, cs, q);
  }

  lemma WorkedElsewhere(c: Config, s: State, i: nat, p: Place, ch: Choice)
    requires i < |s.log| && !p.Seen? && !s.log[i].place.Seen? && !InHook(p) && !InHook(s.log[i].place)
    ensures Worked(c, Move(s, i, p), i, ch) == Worked(c, s, i, ch)
  {
    hide AfterFailure, Settle, PaymentRuns, HookRuns, Published, PublishedAll, CommitTables, Process;
    var t := Move(s, i, p);
    SlotsElsewhere(s, i, p, s.log[i].ev.order);
    assert HasNote(t, KeyOf(s.log[i].ev)) <==> HasNote(s, KeyOf(s.log[i].ev));
    MoveIsSettle(s, i, Gone);
    MoveIsSettle(t, i, Gone);
    SettleAnyway(s, i, p, [], Gone);
    forall f: Fault ensures AfterFailure(c, t, i, f, ch.at) == AfterFailure(c, s, i, f, ch.at) {
      FailedElsewhere(c, s, i, p, f, ch.at);
    }
    var r := Process(c, s.log[i].queue, s.log[i].ev, s.log[i].rc + 1, ReadRow(s, s.log[i]), ch);
    if r.Returned? { CommitElsewhere(s, i, p, r, PublishedAll(r.outgoing), Gone); }
  }

  /** Marking the order while the notice is already out. */
  lemma MarkedElsewhere(s: State, i: nat, cs: seq<Copy>, q: Place, o: OrderId, p: Place)
    requires i < |s.log|
    ensures var t := Settle(s, i, cs, q);
            i < |MarkFailed(t, o).log| && Move(MarkFailed(t, o), i, p) == Settle(MarkFailed(s, o), i, cs, p)
  {
    MoveIsSettle(Settle(s, i, cs, q), i, p);
    SettleTwice(s, i, cs, q, [], p);
    assert cs + [] == cs;
  }

  // ---------------------------------------------------------------------
  // Redelivery
  // ---------------------------------------------------------------------

  /** If the guard row exists afterwards, the delivery is acknowledged and its log of copies
      has grown by exactly the events stored in that row. */
  lemma DoneIsPublished(c: Config, s: State, i: nat, ch: Choice)
    requires i < |s.log| && SlotOf(s.log[i]) in Handled(c, s, i, ch).guard
    ensures var t := Handled(c, s, i, ch); var out := PublishedAll(t.guard[SlotOf(s.log[i])]);
            t.log == s.log[i := s.log[i].(place := Gone)] + out
  {
    hide PublishedAll, Worked, Held;
    if SlotOf(s.log[i]) !in s.guard { WorkIsPublished(c, s, i, ch); }
  }

  lemma WorkIsPublished(c: Config, s: State, i: nat, ch: Choice)
    requires i < |s.log| && SlotOf(s.log[i]) in Worked(c, s, i, ch).guard && SlotOf(s.log[i]) !in s.guard
    ensures var t := Worked(c, s, i, ch);
            t.log == s.log[i := s.log[i].(place := Gone)] + PublishedAll(t.guard[SlotOf(s.log[i])])
  {
    hide PublishedAll, Process, HasNote, HookRuns, AfterFailure, TextFor, Update;
    var m := s.log[i];
    var r := Process(c, m.queue, m.ev, m.rc + 1, ReadRow(s, m), ch);
    FailureKeepsGuard(c, s, i, Other, ch.at);
    match r {
      case Raised(f) => FailureKeepsGuard(c, s, i, f, ch.at);
      case Returned(_, out) =>
        var done := Settle(CommitTables(s, m, r), i, PublishedAll(out), Gone);
        assert done.log == s.log[i := m.(place := Gone)] + PublishedAll(out);
    }
  }

  lemma FailureKeepsGuard(c: Config, s: State, i: nat, f: Fault, at: int)
    requires i < |s.log|
    ensures AfterFailure(c, s, i, f, at).guard == s.guard
  {
    hide Published, PaymentRuns, Budget, RetryCopy;
  }

  /** Handling a message again after its work was committed, as after a crash before the ack,
      changes no table and publishes exactly the stored events once more. */
  lemma RedeliveryRepublishes(c: Config, s: State, i: nat, first: Choice, again: Choice)
    requires i < |s.log| && SlotOf(s.log[i]) in Handled(c, s, i, first).guard
    ensures var t := Handled(c, s, i, first);
            i < |t.log| &&
            var u := Handled(c, Move(t, i, Taken), i, again);
            Serial.TablesOf(u) == Serial.TablesOf(t) &&
            u.log == t.log + PublishedAll(t.guard[SlotOf(s.log[i])]) &&
            t.log == s.log[i := s.log[i].(place := Gone)] + PublishedAll(t.guard[SlotOf(s.log[i])])
  {
    hide Published, PublishedAll;
    DoneIsPublished(c, s, i, first);
    var t := Handled(c, s, i, first);
    hide Handled;
    AgainPublishes(c, t, i, again);
  }

  lemma AgainPublishes(c: Config, t: State, i: nat, again: Choice)
    requires i < |t.log| && t.log[i].place == Gone && SlotOf(t.log[i]) in t.guard
    ensures var u := Handled(c, Move(t, i, Taken), i, again); var out := PublishedAll(t.guard[SlotOf(t.log[i])]);
            Serial.TablesOf(u) == Serial.TablesOf(t) && u.log == t.log + out
  {
    hide Published, PublishedAll, Worked, Held;
    var out := PublishedAll(t.guard[SlotOf(t.log[i])]);
    assert SlotOf(Move(t, i, Taken).log[i]) == SlotOf(t.log[i]);
    SettleAnyway(t, i, Taken, out, Gone);
    assert t.log[i].(place := Gone) == t.log[i];
    assert Settle(t, i, out, Gone).log == t.log + out;
  }
}
