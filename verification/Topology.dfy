// The broker topology as the services declare it, and the routing that follows from it by the
// topic-matching rule of section 3.1.3.3 of AMQP 0-9-1.
module Topology {
  import opened Schemas
  import opened Protocol

  // ---------------------------------------------------------------------
  // Topic matching
  // ---------------------------------------------------------------------

  function FirstDot(s: string): (n: nat)
    ensures n <= |s| && '.' !in s[..n]
    ensures n < |s| ==> s[n] == '.'
  {
    if s == "" || s[0] == '.' then 0
    else
      var n := 1 + FirstDot(s[1..]);
      assert s[..n] == [s[0]] + s[1..][..n - 1];
      n
  }

  /** The dot-separated words of a routing key. */
  function Words(s: string): seq<string>
    decreases |s|
  {
    var n := FirstDot(s);
    if n == |s| then [s] else [s[..n]] + Words(s[n + 1..])
  }

  /** `*` stands for exactly one word, `#` for any number of words. */
  predicate Matches(pattern: seq<string>, key: seq<string>)
    decreases |pattern| + |key|
  {
    if pattern == [] then key == []
    else if pattern[0] == "#" then Matches(pattern[1..], key) || (key != [] && Matches(pattern, key[1..]))
    else key != [] && (pattern[0] == "*" || pattern[0] == key[0]) && Matches(pattern[1..], key[1..])
  }

  lemma WordsCons(w: string, rest: string)
    requires '.' !in w
    ensures Words(w + "." + rest) == [w] + Words(rest)
  {
    var s := w + "." + rest;
    var n := FirstDot(s);
    assert s[|w|] == '.' && forall j | 0 <= j < |w| :: s[j] == w[j] && w[j] in w;
    assert forall j | 0 <= j < n :: s[j] == s[..n][j];
    assert n == |w|;
    assert s[..n] == w && s[n + 1..] == rest;
  }

  lemma WordsOne(w: string)
    requires '.' !in w
    ensures Words(w) == [w]
  {
    assert forall j | 0 <= j < |w| :: w[j] in w;
  }

  lemma {:induction false} HashMatchesAll(key: seq<string>)
    ensures Matches(["#"], key)
  {
    assert ["#"][1..] == [];
    if key != [] { HashMatchesAll(key[1..]); }
  }

  /** `order.#` matches exactly the keys whose first word is `order`, of any length. */
  lemma OrderHashExactly(key: seq<string>)
    ensures Matches(["order", "#"], key) <==> key != [] && key[0] == "order"
  {
    assert ["order", "#"][1..] == ["#"];
    if key != [] { HashMatchesAll(key[1..]); }
  }

  /** `order.*` would not: it misses every key of three words. */
  lemma OrderStarExactly(key: seq<string>)
    ensures Matches(["order", "*"], key) <==> |key| == 2 && key[0] == "order"
  {
    assert ["order", "*"][1..] == ["*"] && ["*"][1..] == [];
    if key != [] {
      assert Matches(["*"], key[1..]) <==> key[1..] != [] && Matches([], key[1..][1..]);
    }
  }

  /** A pattern without wildcards matches itself alone. */
  lemma PlainPattern(w1: string, w2: string, key: seq<string>)
    requires w1 != "#" && w1 != "*" && w2 != "#" && w2 != "*"
    ensures Matches([w1, w2], key) <==> key == [w1, w2]
  {
    assert [w1, w2][1..] == [w2] && [w2][1..] == [];
    if key != [] {
      var rest := key[1..];
      assert Matches([w2], rest) <==> rest != [] && rest[0] == w2 && rest[1..] == [];
      if rest != [] { assert key == [key[0]] + [rest[0]] + rest[1..]; }
    }
  }

  // ---------------------------------------------------------------------
  // Configuration
  // ---------------------------------------------------------------------

  const TOPIC_EXCHANGE := "quickbite.orders"
  const DLX_NAME := "quickbite.dlx"
  const DEAD_LETTER_QUEUE := "orders.dead-letter.queue"

  datatype QueueConfig = QueueConfig(worker: Worker, queue: string, routingKeys: seq<string>, retryKey: string)

  const WORKER_QUEUES: seq<QueueConfig> := [
    QueueConfig(Payment, "payment.queue", ["order.created"], "order.created"),
    QueueConfig(Restaurant, "restaurant.queue", ["order.paid"], "order.paid"),
    QueueConfig(Delivery, "delivery.queue", ["order.confirmed"], "order.confirmed"),
    QueueConfig(Notification, "notification.queue", ["order.#"], "order.retry")
  ]

  function ConfigOf(w: Worker): QueueConfig {
    match w
    case Payment => WORKER_QUEUES[0]
    case Restaurant => WORKER_QUEUES[1]
    case Delivery => WORKER_QUEUES[2]
    case Notification => WORKER_QUEUES[3]
  }

  function RoutingKey(k: Kind): string {
    match k
    case CreatedKind => "order.created"
    case PaidKind => "order.paid"
    case ConfirmedKind => "order.confirmed"
    case AssignedKind => "order.driver.assigned"
    case FailedKind => "order.payment.failed"
  }

  function RetryQueueName(queue: string): string { queue + ".retry" }

  // ---------------------------------------------------------------------
  // Declaration
  // ---------------------------------------------------------------------

  datatype Binding = Binding(exchange: string, queue: string, key: string)

  /** Where a queue dead-letters its rejected or expired messages. */
  datatype DeadLetter = DeadLetter(exchange: string, key: string)

  function BindingsOf(cfg: QueueConfig): set<Binding> {
    (set k | k in cfg.routingKeys :: Binding(TOPIC_EXCHANGE, cfg.queue, k))
    + {Binding(DLX_NAME, DEAD_LETTER_QUEUE, cfg.queue)}
  }

  function AllBindings(cfgs: seq<QueueConfig>): set<Binding> {
    if cfgs == [] then {} else AllBindings(cfgs[..|cfgs| - 1]) + BindingsOf(cfgs[|cfgs| - 1])
  }

  function AllDeadLetters(cfgs: seq<QueueConfig>): map<string, DeadLetter> {
    if cfgs == [] then map[]
    else
      var cfg := cfgs[|cfgs| - 1];
      AllDeadLetters(cfgs[..|cfgs| - 1])
      [cfg.queue := DeadLetter(DLX_NAME, cfg.queue)]
      [RetryQueueName(cfg.queue) := DeadLetter(TOPIC_EXCHANGE, cfg.retryKey)]
  }

  function AllQueues(cfgs: seq<QueueConfig>): map<Worker, string> {
    if cfgs == [] then map[]
    else AllQueues(cfgs[..|cfgs| - 1])[cfgs[|cfgs| - 1].worker := cfgs[|cfgs| - 1].queue]
  }

  function AllNames(cfgs: seq<QueueConfig>): set<string> {
    if cfgs == [] then {}
    else AllNames(cfgs[..|cfgs| - 1]) + {cfgs[|cfgs| - 1].queue, RetryQueueName(cfgs[|cfgs| - 1].queue)}
  }

  /** What the broker holds: declarations are additive, a queue's settings are replaced. */
  datatype Broker = Broker(exchanges: set<string>, queues: set<string>, bindings: set<Binding>,
                           deadLetters: map<string, DeadLetter>)

  function Declared(b: Broker, cfg: QueueConfig): Broker {
    b.(queues := b.queues + {cfg.queue, RetryQueueName(cfg.queue)},
       bindings := b.bindings + BindingsOf(cfg),
       deadLetters := b.deadLetters[cfg.queue := DeadLetter(DLX_NAME, cfg.queue)]
                                   [RetryQueueName(cfg.queue) := DeadLetter(TOPIC_EXCHANGE, cfg.retryKey)])
  }

  function AllDeclared(b: Broker, cfgs: seq<QueueConfig>): Broker {
    if cfgs == [] then b else Declared(AllDeclared(b, cfgs[..|cfgs| - 1]), cfgs[|cfgs| - 1])
  }

  lemma {:induction false} DeclaredParts(b: Broker, cfgs: seq<QueueConfig>)
    ensures AllDeclared(b, cfgs) == Broker(b.exchanges, b.queues + AllNames(cfgs), b.bindings + AllBindings(cfgs),
                                           b.deadLetters + AllDeadLetters(cfgs))
  {
    hide BindingsOf, RetryQueueName;
    if cfgs != [] {
      var less, cfg := cfgs[..|cfgs| - 1], cfgs[|cfgs| - 1];
      DeclaredParts(b, less);
      OverlayAgain(b.deadLetters, AllDeadLetters(less), cfg.queue, DeadLetter(DLX_NAME, cfg.queue),
                   RetryQueueName(cfg.queue), DeadLetter(TOPIC_EXCHANGE, cfg.retryKey));
    }
  }

  lemma OverlayAgain<T>(a: map<string, T>, b: map<string, T>, k: string, x: T, l: string, y: T)
    ensures (a + b)[k := x][l := y] == a + b[k := x][l := y]
  {
  }

  class Channel {
    var exchanges: set<string>
    var queues: set<string>
    var bindings: set<Binding>
    var deadLetters: map<string, DeadLetter>

    constructor ()
      ensures Value() == Broker({}, {}, {}, map[])
    {
      exchanges, queues, bindings, deadLetters := {}, {}, {}, map[];
    }

    function Value(): Broker
      reads this
    {
      Broker(exchanges, queues, bindings, deadLetters)
    }

    method DeclareExchange(name: string)
      modifies this`exchanges
      ensures exchanges == old(exchanges) + {name}
    {
      exchanges := exchanges + {name};
    }

    method DeclareQueue(name: string, arguments: Option<DeadLetter>)
      modifies this`queues, this`deadLetters
      ensures queues == old(queues) + {name}
      ensures deadLetters ==
        (match arguments case Some(d) => old(deadLetters)[name := d] case None => old(deadLetters))
    {
      queues := queues + {name};
      if arguments.Some? { deadLetters := deadLetters[name := arguments.value]; }
    }

    method Bind(exchange: string, queue: string, key: string)
      modifies this`bindings
      ensures bindings == old(bindings) + {Binding(exchange, queue, key)}
    {
      bindings := bindings + {Binding(exchange, queue, key)};
    }
  }

  lemma OneMore(b: Broker, cfgs: seq<QueueConfig>, i: nat)
    requires i < |cfgs|
    ensures AllDeclared(b, cfgs[..i + 1]) == Declared(AllDeclared(b, cfgs[..i]), cfgs[i])
    ensures AllQueues(cfgs[..i + 1]) == AllQueues(cfgs[..i])[cfgs[i].worker := cfgs[i].queue]
  {
    assert cfgs[..i + 1][..i] == cfgs[..i] && cfgs[..i + 1][i] == cfgs[i];
  }

  /** Declares everything in one pass over the worker table; declaring again changes nothing. */
  method DeclareTopology(channel: Channel, cfgs: seq<QueueConfig> := WORKER_QUEUES) returns (queues: map<Worker, string>)
    modifies channel
    ensures channel.exchanges == old(channel.exchanges) + {"quickbite.orders", "quickbite.dlx"}
    ensures channel.queues == old(channel.queues) + {"orders.dead-letter.queue"} + AllNames(cfgs)
    ensures channel.bindings == old(channel.bindings) + AllBindings(cfgs)
    ensures channel.deadLetters == old(channel.deadLetters) + AllDeadLetters(cfgs)
    ensures queues == AllQueues(cfgs)
  {
    hide AllBindings, AllDeadLetters, AllNames, Declared;
    channel.DeclareExchange(TOPIC_EXCHANGE);
    channel.DeclareExchange(DLX_NAME);
    channel.DeclareQueue(DEAD_LETTER_QUEUE, None);
    queues := map[];
    ghost var start := channel.Value();
    for i := 0 to |cfgs|
      invariant channel.Value() == AllDeclared(start, cfgs[..i]) && queues == AllQueues(cfgs[..i])
    {
      OneMore(start, cfgs, i);
      DeclareWorkerQueue(channel, cfgs[i]);
      queues := queues[cfgs[i].worker := cfgs[i].queue];
    }
    assert cfgs[..|cfgs|] == cfgs;
    DeclaredParts(start, cfgs);
  }

  method DeclareWorkerQueue(channel: Channel, cfg: QueueConfig)
    modifies channel
    ensures channel.Value() == Declared(old(channel.Value()), cfg)
  {
    channel.DeclareQueue(cfg.queue, Some(DeadLetter(DLX_NAME, cfg.queue)));
    BindAll(channel, cfg);
    channel.Bind(DLX_NAME, DEAD_LETTER_QUEUE, cfg.queue);
    channel.DeclareQueue(RetryQueueName(cfg.queue), Some(DeadLetter(TOPIC_EXCHANGE, cfg.retryKey)));
  }

  method BindAll(channel: Channel, cfg: QueueConfig)
    modifies channel`bindings
    ensures channel.bindings == old(channel.bindings) +
            set r | r in cfg.routingKeys :: Binding(TOPIC_EXCHANGE, cfg.queue, r)
  {
    for k := 0 to |cfg.routingKeys|
      invariant channel.bindings == old(channel.bindings) +
                set r | r in cfg.routingKeys[..k] :: Binding(TOPIC_EXCHANGE, cfg.queue, r)
    {
      channel.Bind(TOPIC_EXCHANGE, cfg.queue, cfg.routingKeys[k]);
      assert cfg.routingKeys[..k + 1] == cfg.routingKeys[..k] + [cfg.routingKeys[k]];
    }
    assert cfg.routingKeys[..|cfg.routingKeys|] == cfg.routingKeys;
  }

  // ---------------------------------------------------------------------
  // Routing through the declared topology
  // ---------------------------------------------------------------------

  /** The queues a publication reaches: topic matching, or equality on the direct exchange. */
  function Routed(bindings: set<Binding>, exchange: string, key: string): set<string> {
    set b | b in bindings && b.exchange == exchange &&
            (if exchange == TOPIC_EXCHANGE then Matches(Words(b.key), Words(key)) else b.key == key) :: b.queue
  }

  lemma TopologyShape()
    ensures AllBindings(WORKER_QUEUES) == {
      Binding("quickbite.orders", "payment.queue", "order.created"),
      Binding("quickbite.dlx", "orders.dead-letter.queue", "payment.queue"),
      Binding("quickbite.orders", "restaurant.queue", "order.paid"),
      Binding("quickbite.dlx", "orders.dead-letter.queue", "restaurant.queue"),
      Binding("quickbite.orders", "delivery.queue", "order.confirmed"),
      Binding("quickbite.dlx", "orders.dead-letter.queue", "delivery.queue"),
      Binding("quickbite.orders", "notification.queue", "order.#"),
      Binding("quickbite.dlx", "orders.dead-letter.queue", "notification.queue")}
  {
    assert WORKER_QUEUES[..3][..2] == WORKER_QUEUES[..2];
    assert WORKER_QUEUES[..2][..1] == WORKER_QUEUES[..1];
    assert WORKER_QUEUES[..1][..0] == [];
    assert AllBindings(WORKER_QUEUES[..1]) == BindingsOf(WORKER_QUEUES[0]);
    assert AllBindings(WORKER_QUEUES[..2]) == AllBindings(WORKER_QUEUES[..1]) + BindingsOf(WORKER_QUEUES[1]);
    assert AllBindings(WORKER_QUEUES[..3]) == AllBindings(WORKER_QUEUES[..2]) + BindingsOf(WORKER_QUEUES[2]);
    assert AllBindings(WORKER_QUEUES) == AllBindings(WORKER_QUEUES[..3]) + BindingsOf(WORKER_QUEUES[3]);
  }

  lemma TwoWords(w: string)
    requires '.' !in w
    ensures Words("order." + w) == ["order", w]
  {
    hide Words, FirstDot;
    WordsOne(w);
    WordsCons("order", w);
    assert "order" + "." + w == "order." + w;
  }

  lemma ThreeWords(v: string, w: string)
    requires '.' !in v && '.' !in w
    ensures Words("order." + v + "." + w) == ["order", v, w]
  {
    hide Words, FirstDot;
    WordsOne(w);
    WordsCons(v, w);
    WordsCons("order", v + "." + w);
    assert "order" + "." + (v + "." + w) == "order." + v + "." + w;
  }

  lemma TwoWordKeys()
    ensures Words("order.created") == ["order", "created"] && Words("order.paid") == ["order", "paid"]
    ensures Words("order.confirmed") == ["order", "confirmed"] && Words("order.retry") == ["order", "retry"]
    ensures Words("order.#") == ["order", "#"]
  {
    hide Words, FirstDot;
    TwoWords("created");
    TwoWords("paid");
    TwoWords("confirmed");
    TwoWords("retry");
    TwoWords("#");
    assert "order." + "created" == "order.created" && "order." + "paid" == "order.paid";
    assert "order." + "confirmed" == "order.confirmed" && "order." + "retry" == "order.retry" && "order." + "#" == "order.#";
  }

  lemma ThreeWordKeys()
    ensures Words("order.driver.assigned") == ["order", "driver", "assigned"]
    ensures Words("order.payment.failed") == ["order", "payment", "failed"]
  {
    hide Words, FirstDot;
    ThreeWords("driver", "assigned");
    ThreeWords("payment", "failed");
    assert "order." + "driver" + "." + "assigned" == "order.driver.assigned";
    assert "order." + "payment" + "." + "failed" == "order.payment.failed";
  }

  lemma TopicBindings(b: Binding)
    ensures b in AllBindings(WORKER_QUEUES) && b.exchange == TOPIC_EXCHANGE <==>
            b in {Binding(TOPIC_EXCHANGE, "payment.queue", "order.created"),
                  Binding(TOPIC_EXCHANGE, "restaurant.queue", "order.paid"),
                  Binding(TOPIC_EXCHANGE, "delivery.queue", "order.confirmed"),
                  Binding(TOPIC_EXCHANGE, "notification.queue", "order.#")}
  {
    hide AllBindings;
    TopologyShape();
    assert |TOPIC_EXCHANGE| != |DLX_NAME|;
  }

  /** A key of the topic exchange reaches notification.queue iff its first word is `order`, and
      each other work queue iff it is that queue's own key. */
  lemma TopicRouting(key: string, queue: string)
    ensures queue in Routed(AllBindings(WORKER_QUEUES), TOPIC_EXCHANGE, key) <==>
            || (queue == "payment.queue" && Words(key) == ["order", "created"])
            || (queue == "restaurant.queue" && Words(key) == ["order", "paid"])
            || (queue == "delivery.queue" && Words(key) == ["order", "confirmed"])
            || (queue == "notification.queue" && Words(key) != [] && Words(key)[0] == "order")
  {
    hide Words, Matches, AllBindings;
    TwoWordKeys();
    OrderHashExactly(Words(key));
    PlainPattern("order", "created", Words(key));
    PlainPattern("order", "paid", Words(key));
    PlainPattern("order", "confirmed", Words(key));
    var bs := AllBindings(WORKER_QUEUES);
    TopicBindings(Binding(TOPIC_EXCHANGE, "payment.queue", "order.created"));
    TopicBindings(Binding(TOPIC_EXCHANGE, "restaurant.queue", "order.paid"));
    TopicBindings(Binding(TOPIC_EXCHANGE, "delivery.queue", "order.confirmed"));
    TopicBindings(Binding(TOPIC_EXCHANGE, "notification.queue", "order.#"));
    if queue in Routed(bs, TOPIC_EXCHANGE, key) {
      var b :| b in bs && b.exchange == TOPIC_EXCHANGE && Matches(Words(b.key), Words(key)) && b.queue == queue;
      TopicBindings(b);
    }
  }

  function QueueNames(direct: Option<Worker>): set<string> {
    (if direct.Some? then {ConfigOf(direct.value).queue} else {}) + {ConfigOf(Notification).queue}
  }

  lemma KeyWords(k: Kind)
    ensures Words(RoutingKey(k)) ==
            match k
            case CreatedKind => ["order", "created"]
            case PaidKind => ["order", "paid"]
            case ConfirmedKind => ["order", "confirmed"]
            case AssignedKind => ["order", "driver", "assigned"]
            case FailedKind => ["order", "payment", "failed"]
  {
    hide Words;
    TwoWordKeys();
    ThreeWordKeys();
  }

  /** Events are routed exactly as the protocol model routes them. */
  lemma RoutesAgree(k: Kind)
    ensures Routed(AllBindings(WORKER_QUEUES), TOPIC_EXCHANGE, RoutingKey(k)) == QueueNames(Direct(k))
  {
    hide Words, Routed, AllBindings, RoutingKey;
    KeyWords(k);
    DistinctWords();
    var bs := AllBindings(WORKER_QUEUES);
    forall q ensures q in Routed(bs, TOPIC_EXCHANGE, RoutingKey(k)) <==> q in QueueNames(Direct(k)) {
      TopicRouting(RoutingKey(k), q);
    }
  }

  /** Expiring retries return to their own queue, and otherwise reach only notifications. */
  lemma RetryRoutesAgree(w: Worker)
    ensures Routed(AllBindings(WORKER_QUEUES), TOPIC_EXCHANGE, ConfigOf(w).retryKey) == QueueNames(RetryDirect(w))
  {
    hide Words, Routed, AllBindings;
    TwoWordKeys();
    DistinctWords();
    var bs := AllBindings(WORKER_QUEUES);
    forall q ensures q in Routed(bs, TOPIC_EXCHANGE, ConfigOf(w).retryKey) <==> q in QueueNames(RetryDirect(w)) {
      TopicRouting(ConfigOf(w).retryKey, q);
    }
  }

  lemma DistinctWords()
    ensures forall a: string, b: string {:trigger ["order", a], ["order", b]} :: a != b ==> ["order", a] != ["order", b]
    ensures "created" != "paid" && "created" != "confirmed" && "created" != "retry"
    ensures "paid" != "confirmed" && "paid" != "retry" && "confirmed" != "retry"
  {
    assert |"created"| == 7 && |"paid"| == 4 && |"confirmed"| == 9 && |"retry"| == 5;
    forall a: string, b: string | a != b ensures ["order", a] != ["order", b] {
      assert ["order", a][1] != ["order", b][1];
    }
  }

  /** Rejected messages of every work queue end in the dead-letter queue and nowhere else. */
  lemma DeadLettersAgree(w: Worker)
    ensures Routed(AllBindings(WORKER_QUEUES), DLX_NAME, ConfigOf(w).queue) == {DEAD_LETTER_QUEUE}
  {
    TopologyShape();
    assert Binding(DLX_NAME, DEAD_LETTER_QUEUE, ConfigOf(w).queue) in AllBindings(WORKER_QUEUES);
  }

  /** Queue names of different lengths, also once `.retry` is added, never clash. */
  predicate ApartNames(cfgs: seq<QueueConfig>) {
    forall j, k | 0 <= j < |cfgs| && 0 <= k < |cfgs| ::
      (j != k ==> |cfgs[j].queue| != |cfgs[k].queue|) && |cfgs[j].queue| + 6 != |cfgs[k].queue|
  }

  /** Each queue's own dead-letter settings survive the declaration of the others. */
  lemma {:induction false} DeadLettersKept(cfgs: seq<QueueConfig>, i: nat)
    requires i < |cfgs| && ApartNames(cfgs)
    ensures var d, q := AllDeadLetters(cfgs), cfgs[i].queue;
            q in d && d[q] == DeadLetter(DLX_NAME, q) &&
            RetryQueueName(q) in d && d[RetryQueueName(q)] == DeadLetter(TOPIC_EXCHANGE, cfgs[i].retryKey)
    decreases |cfgs|
  {
    var n := |cfgs| - 1;
    assert |RetryQueueName(cfgs[i].queue)| == |cfgs[i].queue| + 6 && |RetryQueueName(cfgs[n].queue)| == |cfgs[n].queue| + 6;
    if i < n {
      assert forall j | 0 <= j < n :: cfgs[..n][j] == cfgs[j];
      DeadLettersKept(cfgs[..n], i);
    }
  }

  lemma DeadLettersDeclared(w: Worker)
    ensures var d, cfg := AllDeadLetters(WORKER_QUEUES), ConfigOf(w);
            cfg.queue in d && d[cfg.queue] == DeadLetter("quickbite.dlx", cfg.queue) &&
            cfg.queue + ".retry" in d && d[cfg.queue + ".retry"] == DeadLetter("quickbite.orders", cfg.retryKey)
  {
    hide AllDeadLetters;
    DeadLettersKept(WORKER_QUEUES, match w case Payment => 0 case Restaurant => 1 case Delivery => 2 case Notification => 3);
  }

  function StageOf(w: Worker): nat {
    match w
    case Payment => 1
    case Restaurant => 2
    case Delivery => 3
    case Notification => 4
  }

  /** A publication with this key reaches the worker's queue. */
  predicate Reaches(key: string, w: Worker) {
    ConfigOf(w).queue in Routed(AllBindings(WORKER_QUEUES), TOPIC_EXCHANGE, key)
  }

  lemma QueueNamesApart(v: Worker, w: Worker)
    ensures ConfigOf(v).queue == ConfigOf(w).queue <==> v == w
  {
    assert |ConfigOf(Payment).queue| == 13 && |ConfigOf(Restaurant).queue| == 16;
    assert |ConfigOf(Delivery).queue| == 14 && |ConfigOf(Notification).queue| == 18;
  }

  /** Through the declared bindings, what a worker returns reaches later stages only, and what
      its retry queue gives back reaches no earlier one: no event returns to an earlier stage. */
  lemma FeedForward(c: Config, m: Copy, row: Option<Row>, ch: Choice, w: Worker)
    ensures var r := Process(c, m.queue, m.ev, m.rc + 1, row, ch);
            r.Returned? ==>
              forall e | e in r.outgoing && Reaches(RoutingKey(KindOf(e)), w) :: StageOf(w) > StageOf(m.queue)
    ensures Reaches(ConfigOf(m.queue).retryKey, w) ==> w == m.queue || w.Notification?
  {
    hide Routed, AllBindings, RoutingKey, ConfigOf;
    forall k | Reaches(RoutingKey(k), w) ensures Direct(k) == Some(w) || w.Notification? {
      RoutesAgree(k);
      QueueNamesApart(w, Notification);
      if Direct(k).Some? { QueueNamesApart(w, Direct(k).value); }
    }
    if Reaches(ConfigOf(m.queue).retryKey, w) {
      RetryRoutesAgree(m.queue);
      QueueNamesApart(w, Notification);
      QueueNamesApart(w, m.queue);
    }
  }
}
