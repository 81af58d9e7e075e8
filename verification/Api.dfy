// Accepting an order: insert, publish inside the transaction, commit.
module Api {
  import opened Schemas
  import opened Protocol
  import opened Steps
  import opened Invariant
  import opened Unconditional
  import opened Stages
  import opened Preservation
  import opened Runtime

  const CREATED := 201
  const UNAVAILABLE := 503

  /** The request is answered as if nobody else had acted. */
  function Accepted(s: State, o: OrderId, b: Behavior): State {
    s.(born := s.born[o := b], orders := s.orders[o := Row(Pending, None, None)],
       log := s.log + [Copy(Payment, OrderCreated(o, b), 0, 0, 0, Ready),
                       Copy(Notification, OrderCreated(o, b), 0, 0, 0, Ready)])
  }

  /** Since then the order has been committed only after its event was published. */
  predicate PublishedFirst(before: seq<Action>, now: seq<Action>, o: OrderId) {
    before <= now &&
    forall k | |before| <= k < |now| && now[k] == ApiCommit(o) ::
      exists p | |before| <= p < k :: now[p] == ApiPublish(o)
  }

  /** `o` is the identifier the request has drawn. A 201 means that the row is committed and its
      order.created event is out and still accounted for; without a failing call there is no
      503; and no request leaves its transaction open. */
  method CreateOrder(world: World, o: OrderId, b: Behavior) returns (status: int)
    requires world.Valid() && o !in world.s.born
    modifies world
    ensures world.Valid() && Later(old(world.s), world.s) && status in {201, 503}
    ensures o in world.s.born && world.s.born[o] == b && o !in world.s.api
    ensures status == 201 ==>
              o in world.s.orders && world.s.orders[o] == Row(Pending, None, None) &&
              Logged(world.s, KeyOf(OrderCreated(o, b))) && Backed(world.s, o)
    ensures PublishedFirst(old(world.trace), world.trace, o)
    ensures DoneSince(old(world.trace), world.trace, ApiCommit(o)) <==> o in world.s.orders
    ensures Failures(world.script) <= Failures(old(world.script))
    ensures Spared(old(world.script), world.script) ==> status == 201
    ensures old(world.script) == [] ==> world.s == Accepted(old(world.s), o, b)
  {
    hide Inv, Base, Core, Keeps, Grows, Published, Logged, Backed, DoneSince;
    ghost var s0 := world.s;
    world.Do(ApiBegin(o, b));
    ghost var s1, begun := world.s, world.trace;
    var flushed := world.Await(Request(o));
    ghost var s2, steps := world.s, world.trace;
    LaterTransitive(s0, s1, s2);
    NotCommitted(world.c, s2, o);
    assert steps[|old(world.trace)|] == begun[|old(world.trace)|] == ApiBegin(o, b);
    if flushed.Fine? {
      status := PublishAndCommit(world, o);
      assert o !in s0.api by { BaseFacts(world.c, s0); }
      AcceptedAlone(s0, s1, o, b);
    } else {
      world.Do(ApiAbort(o));
      NothingDone(steps, steps, ApiAbort(o), o);
      status := UNAVAILABLE;
    }
    CommittedEarlier(old(world.trace), steps, world.trace, o);
    LaterTransitive(s0, s2, world.s);
  }

  /** The event is published while the insert is still uncommitted. */
  method PublishAndCommit(world: World, o: OrderId) returns (status: int)
    requires world.Valid() && o in world.s.api && !world.s.api[o] && o in world.s.born
    modifies world
    ensures world.Valid() && Later(old(world.s), world.s) && status in {CREATED, UNAVAILABLE}
    ensures o in world.s.born && world.s.born[o] == old(world.s.born[o]) && o !in world.s.api
    ensures status == CREATED ==>
              o in world.s.orders && world.s.orders[o] == Row(Pending, None, None) &&
              Logged(world.s, KeyOf(OrderCreated(o, old(world.s.born[o])))) && Backed(world.s, o)
    ensures PublishedFirst(old(world.trace), world.trace, o)
    ensures DoneSince(old(world.trace), world.trace, ApiCommit(o)) <==> o in world.s.orders
    ensures Failures(world.script) <= Failures(old(world.script))
    ensures Spared(old(world.script), world.script) ==> status == CREATED
    ensures old(world.script) == [] ==>
              world.s == old(world.s).(api := old(world.s.api) - {o},
                                       orders := old(world.s.orders)[o := Row(Pending, None, None)],
                                       log := old(world.s.log) + Published(OrderCreated(o, old(world.s.born[o]))))
  {
    hide Inv, Base, Core, Keeps, Grows, Published, Logged, Backed, DoneSince, PublishedFirst;
    ghost var s0 := world.s;
    var published := world.Await(Request(o));
    ghost var s1, steps := world.s, world.trace;
    NotCommitted(world.c, s1, o);
    if published.Raises? {
      world.Do(ApiAbort(o));
      NothingDone(old(world.trace), steps, ApiAbort(o), o);
      LaterTransitive(s0, s1, world.s);
      return UNAVAILABLE;
    }
    world.Do(ApiPublish(o));
    ghost var s2 := world.s;
    LaterTransitive(s0, s1, s2);
    if published.RaisesLate? {
      world.Do(ApiAbort(o));
      NothingDone(steps + [ApiPublish(o)], steps + [ApiPublish(o)], ApiAbort(o), o);
      DoneAfterPublish(old(world.trace), steps, world.trace, o);
      LaterTransitive(s0, s2, world.s);
      return UNAVAILABLE;
    }
    PublishLogs(s1, world.c, o);
    status := CommitOrder(world, o);
    DoneAfterPublish(old(world.trace), steps, world.trace, o);
    LaterTransitive(s0, s2, world.s);
  }

  method CommitOrder(world: World, o: OrderId) returns (status: int)
    requires world.Valid() && o in world.s.api && world.s.api[o] && o in world.s.born
    requires Logged(world.s, KeyOf(OrderCreated(o, world.s.born[o])))
    modifies world
    ensures world.Valid() && Later(old(world.s), world.s) && status in {CREATED, UNAVAILABLE}
    ensures o in world.s.born && world.s.born[o] == old(world.s.born[o]) && o !in world.s.api
    ensures status == CREATED ==>
              o in world.s.orders && world.s.orders[o] == Row(Pending, None, None) &&
              Logged(world.s, KeyOf(OrderCreated(o, old(world.s.born[o])))) && Backed(world.s, o)
    ensures old(world.trace) <= world.trace
    ensures DoneSince(old(world.trace), world.trace, ApiCommit(o)) <==> o in world.s.orders
    ensures Failures(world.script) <= Failures(old(world.script))
    ensures Spared(old(world.script), world.script) ==> status == CREATED
    ensures old(world.script) == [] ==>
              world.s == old(world.s).(api := old(world.s.api) - {o},
                                       orders := old(world.s.orders)[o := Row(Pending, None, None)])
  {
    hide Inv, Base, Core, Keeps, Grows, Published, Logged, Backed, DoneSince, PublishedFirst;
    ghost var s0 := world.s;
    var committed := world.Await(Request(o));
    ghost var s1, steps := world.s, world.trace;
    NotCommitted(world.c, s1, o);
    if committed.Raises? {
      world.Do(ApiAbort(o));
      NothingDone(old(world.trace), steps, ApiAbort(o), o);
      LaterTransitive(s0, s1, world.s);
      return UNAVAILABLE;
    }
    world.Do(ApiCommit(o));
    DoneLast(old(world.trace), steps, world.trace, ApiCommit(o));
    LaterTransitive(s0, s1, world.s);
    GrowsLogged(s0, world.s) by { LaterGrows(s0, world.s); }
    assert Tracked(world.s, o) && Coverage(world.s) by { TablesOfBase(world.c, world.s); }
    status := if committed.Fine? then CREATED else UNAVAILABLE;
  }

  /** While its transaction is open the row is not in the table. */
  lemma NotCommitted(c: Config, s: State, o: OrderId)
    requires Base(c, s) && o in s.api
    ensures o !in s.orders
  {
    hide Base, Core, TableStages, SeenStages, Coverage;
    BaseFacts(c, s);
  }

  lemma NothingDone(before: seq<Action>, steps: seq<Action>, last: Action, o: OrderId)
    requires LeftAlone(before, steps, Request(o)) && last != ApiCommit(o)
    ensures !DoneSince(before, steps + [last], ApiCommit(o)) && PublishedFirst(before, steps + [last], o)
  {
  }

  lemma DoneAfterPublish(before: seq<Action>, steps: seq<Action>, now: seq<Action>, o: OrderId)
    requires LeftAlone(before, steps, Request(o)) && steps + [ApiPublish(o)] <= now
    ensures PublishedFirst(before, now, o)
    ensures DoneSince(before, now, ApiCommit(o)) <==> DoneSince(steps + [ApiPublish(o)], now, ApiCommit(o))
  {
    var mid := steps + [ApiPublish(o)];
    assert now[|steps|] == mid[|steps|] == ApiPublish(o);
    assert forall k | 0 <= k < |steps| :: now[k] == mid[k] == steps[k];
  }

  lemma CommittedEarlier(before: seq<Action>, steps: seq<Action>, now: seq<Action>, o: OrderId)
    requires before <= steps <= now && PublishedFirst(steps, now, o)
    requires forall k | |before| <= k < |steps| :: steps[k] != ApiCommit(o)
    ensures PublishedFirst(before, now, o)
    ensures DoneSince(before, now, ApiCommit(o)) <==> DoneSince(steps, now, ApiCommit(o))
  {
    assert forall k | 0 <= k < |steps| :: now[k] == steps[k];
  }

  lemma PublishLogs(s: State, c: Config, o: OrderId)
    requires Enabled(c, s, ApiPublish(o)) && o in s.born
    ensures Logged(Apply(c, s, ApiPublish(o)), KeyOf(OrderCreated(o, s.born[o])))
  {
    var t := Apply(c, s, ApiPublish(o));
    assert t.log[|s.log|].ev == OrderCreated(o, s.born[o]);
  }

  lemma LaterGrows(s: State, t: State)
    requires Later(s, t)
    ensures Grows(s.log, t.log)
  {
  }

  lemma AcceptedAlone(s: State, t: State, o: OrderId, b: Behavior)
    requires o !in s.api && t == s.(born := s.born[o := b], api := s.api[o := false])
    ensures t.(api := t.api - {o}, orders := t.orders[o := Row(Pending, None, None)],
               log := t.log + Published(OrderCreated(o, t.born[o]))) == Accepted(s, o, b)
  {
    assert t.api - {o} == s.api;
  }
}
