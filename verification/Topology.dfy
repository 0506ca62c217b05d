/**
  The exchanges, queues and bindings of src/messaging/topology.py and how the
  broker routes through them. A routing key is the list of its dot-separated
  words.
*/
module Topology {
  import opened Common

  type Key = seq<string>

  const TASK_PATTERN: Key := ["task", "*"]
  const WEBHOOK_ROUTING_KEY: Key := ["webhooks", "events"]
  const WEBHOOK_DLQ_ROUTING_KEY: Key := ["webhooks", "events", "dlq"]

  datatype Level = After10s | After60s | After300s

  datatype ExchangeName = EventsExchange | RetryExchange | DlxExchange | OtherExchange(name: string)

  datatype QueueName = WebhookQueue | RetryQueue(level: Level) | WebhooksDlq | OtherQueue(name: string)

  function RetryKey(level: Level): Key {
    match level
    case After10s => ["webhooks", "retry", "10s"]
    case After60s => ["webhooks", "retry", "60s"]
    case After300s => ["webhooks", "retry", "300s"]
  }

  /** Milliseconds. */
  function Ttl(level: Level): nat {
    match level
    case After10s => 10_000
    case After60s => 60_000
    case After300s => 300_000
  }

  datatype ExchangeKind = Topic | Direct

  datatype DeadLetter = DeadLetter(exchange: ExchangeName, key: Key)

  datatype QueueArgs = QueueArgs(ttl: Option<nat>, deadLetter: Option<DeadLetter>)

  datatype Binding = Binding(exchange: ExchangeName, queue: QueueName, key: Key)

  datatype Layout = Layout(
    exchanges: map<ExchangeName, ExchangeKind>,
    queues: map<QueueName, QueueArgs>,
    bindings: set<Binding>)

  /** Topic matching of section 3.1.3.3 of AMQP 0-9-1: `*` stands for one word,
      `#` for any number of words. */
  predicate Matches(pattern: Key, key: Key)
    decreases |pattern| + |key|
  {
    if pattern == [] then key == []
    else if pattern[0] == "#" then
      Matches(pattern[1..], key) || (key != [] && Matches(pattern, key[1..]))
    else
      key != [] && (pattern[0] == "*" || pattern[0] == key[0]) && Matches(pattern[1..], key[1..])
  }

  predicate Accepts(l: Layout, b: Binding, exchange: ExchangeName, key: Key) {
    && b.exchange == exchange && exchange in l.exchanges
    && (if l.exchanges[exchange].Topic? then Matches(b.key, key) else b.key == key)
  }

  /** The queues a message published to `exchange` under `key` lands in. */
  function Routes(l: Layout, exchange: ExchangeName, key: Key): set<QueueName> {
    set b | b in l.bindings && Accepts(l, b, exchange, key) :: b.queue
  }

  /** Where a message goes that expires in or is rejected from `queue`. */
  function DeadLetterRoutes(l: Layout, queue: QueueName): set<QueueName> {
    if queue in l.queues && l.queues[queue].deadLetter.Some? then
      Routes(l, l.queues[queue].deadLetter.value.exchange, l.queues[queue].deadLetter.value.key)
    else {}
  }

  const RETRY_ARGS := (level: Level) =>
    QueueArgs(Some(Ttl(level)), Some(DeadLetter(EventsExchange, WEBHOOK_ROUTING_KEY)))

  predicate Agree<K, V(==)>(have: map<K, V>, want: map<K, V>) {
    forall k <- want :: k in have ==> have[k] == want[k]
  }

  /** Nothing the broker already has contradicts what is to be declared. */
  predicate Compatible(have: Layout, want: Layout) {
    Agree(have.exchanges, want.exchanges) && Agree(have.queues, want.queues)
  }

  function Merge(have: Layout, want: Layout): Layout {
    Layout(have.exchanges + want.exchanges, have.queues + want.queues, have.bindings + want.bindings)
  }

  /** The three exchanges; the webhook queue; the retry queues; the dead-letter queue. */
  const EXCHANGES := Layout(map[EventsExchange := Topic, RetryExchange := Direct, DlxExchange := Direct], map[], {})
  const MAIN_PART := Layout(
    map[],
    map[WebhookQueue := QueueArgs(None, Some(DeadLetter(DlxExchange, WEBHOOK_DLQ_ROUTING_KEY)))],
    {Binding(EventsExchange, WebhookQueue, TASK_PATTERN),
     Binding(EventsExchange, WebhookQueue, WEBHOOK_ROUTING_KEY)})
  const RETRY_QUEUES := map[
    RetryQueue(After10s) := RETRY_ARGS(After10s),
    RetryQueue(After60s) := RETRY_ARGS(After60s),
    RetryQueue(After300s) := RETRY_ARGS(After300s)]
  const RETRY_BINDINGS := {
    Binding(RetryExchange, RetryQueue(After10s), RetryKey(After10s)),
    Binding(RetryExchange, RetryQueue(After60s), RetryKey(After60s)),
    Binding(RetryExchange, RetryQueue(After300s), RetryKey(After300s))}
  const RETRY_PART := Layout(map[], RETRY_QUEUES, RETRY_BINDINGS)
  const DLQ_PART := Layout(
    map[],
    map[WebhooksDlq := QueueArgs(None, None)],
    {Binding(DlxExchange, WebhooksDlq, WEBHOOK_DLQ_ROUTING_KEY)})

  const FRONT := Merge(EXCHANGES, MAIN_PART)
  const BACK := Merge(RETRY_PART, DLQ_PART)
  const WEBHOOK_LAYOUT := Merge(FRONT, BACK)

  lemma AgreeInParts<K, V>(have: map<K, V>, a: map<K, V>, b: map<K, V>)
    requires a.Keys !! b.Keys
    ensures Agree(have, a + b) <==> Agree(have, a) && Agree(have + a, b)
    ensures have + (a + b) == (have + a) + b
  {
    assert forall k <- a :: k in a + b && (a + b)[k] == a[k];
    assert forall k <- b :: k in a + b && (a + b)[k] == b[k];
  }

  /** Declaring in two parts is declaring the whole. */
  lemma DeclareInParts(have: Layout, a: Layout, b: Layout)
    requires a.exchanges.Keys !! b.exchanges.Keys && a.queues.Keys !! b.queues.Keys
    ensures Compatible(have, Merge(a, b)) <==> Compatible(have, a) && Compatible(Merge(have, a), b)
    ensures Merge(have, Merge(a, b)) == Merge(Merge(have, a), b)
  {
    AgreeInParts(have.exchanges, a.exchanges, b.exchanges);
    AgreeInParts(have.queues, a.queues, b.queues);
    assert have.bindings + (a.bindings + b.bindings) == (have.bindings + a.bindings) + b.bindings;
  }

  lemma ExchangesDeclared()
    ensures WEBHOOK_LAYOUT.exchanges == map[EventsExchange := Topic, RetryExchange := Direct, DlxExchange := Direct]
  {
    assert FRONT.exchanges == EXCHANGES.exchanges && BACK.exchanges == map[];
  }

  lemma QueuesDeclared()
    ensures WEBHOOK_LAYOUT.queues.Keys
            == {WebhookQueue, WebhooksDlq, RetryQueue(After10s), RetryQueue(After60s), RetryQueue(After300s)}
  {
    assert FRONT.queues.Keys == {WebhookQueue};
    assert BACK.queues.Keys == RETRY_QUEUES.Keys + {WebhooksDlq};
    assert RETRY_QUEUES.Keys == {RetryQueue(After10s), RetryQueue(After60s), RetryQueue(After300s)};
  }

  /** The broker as seen through one connection. A declaration that contradicts
      an existing exchange or queue fails and changes nothing. */
  class Broker {
    var layout: Layout
    var openChannels: nat

    method DeclareExchange(name: ExchangeName, kind: ExchangeKind) returns (ok: bool)
      modifies this`layout
      ensures ok <==> (name in old(layout).exchanges ==> old(layout).exchanges[name] == kind)
      ensures layout == if ok then old(layout).(exchanges := old(layout).exchanges[name := kind]) else old(layout)
    {
      ok := name in layout.exchanges ==> layout.exchanges[name] == kind;
      if ok {
        layout := layout.(exchanges := layout.exchanges[name := kind]);
      }
    }

    method DeclareQueue(name: QueueName, args: QueueArgs) returns (ok: bool)
      modifies this`layout
      ensures ok <==> (name in old(layout).queues ==> old(layout).queues[name] == args)
      ensures layout == if ok then old(layout).(queues := old(layout).queues[name := args]) else old(layout)
    {
      ok := name in layout.queues ==> layout.queues[name] == args;
      if ok {
        layout := layout.(queues := layout.queues[name := args]);
      }
    }

    method Bind(queue: QueueName, exchange: ExchangeName, key: Key)
      modifies this`layout
      ensures layout == old(layout).(bindings := old(layout).bindings + {Binding(exchange, queue, key)})
    {
      layout := layout.(bindings := layout.bindings + {Binding(exchange, queue, key)});
    }

    method DeclareExchanges() returns (ok: bool)
      modifies this`layout
      ensures ok <==> Compatible(old(layout), EXCHANGES)
      ensures ok ==> layout == Merge(old(layout), EXCHANGES)
    {
      ok := DeclareExchange(EventsExchange, Topic);
      if !ok { return; }
      ok := DeclareExchange(RetryExchange, Direct);
      if !ok { return; }
      ok := DeclareExchange(DlxExchange, Direct);
    }

    method DeclareMain() returns (ok: bool)
      modifies this`layout
      ensures ok <==> Compatible(old(layout), MAIN_PART)
      ensures ok ==> layout == Merge(old(layout), MAIN_PART)
    {
      ok := DeclareQueue(WebhookQueue, QueueArgs(None, Some(DeadLetter(DlxExchange, WEBHOOK_DLQ_ROUTING_KEY))));
      if !ok { return; }
      Bind(WebhookQueue, EventsExchange, TASK_PATTERN);
      Bind(WebhookQueue, EventsExchange, WEBHOOK_ROUTING_KEY);
    }

    method DeclareRetryQueues() returns (ok: bool)
      modifies this`layout
      ensures ok <==> Agree(old(layout).queues, RETRY_QUEUES)
      ensures ok ==> layout == old(layout).(queues := old(layout).queues + RETRY_QUEUES)
    {
      ok := DeclareQueue(RetryQueue(After10s), RETRY_ARGS(After10s));
      if !ok { return; }
      ok := DeclareQueue(RetryQueue(After60s), RETRY_ARGS(After60s));
      if !ok { return; }
      ok := DeclareQueue(RetryQueue(After300s), RETRY_ARGS(After300s));
    }

    method BindRetryQueues()
      modifies this`layout
      ensures layout == old(layout).(bindings := old(layout).bindings + RETRY_BINDINGS)
    {
      Bind(RetryQueue(After10s), RetryExchange, RetryKey(After10s));
      Bind(RetryQueue(After60s), RetryExchange, RetryKey(After60s));
      Bind(RetryQueue(After300s), RetryExchange, RetryKey(After300s));
    }

    method DeclareRetries() returns (ok: bool)
      modifies this`layout
      ensures ok <==> Compatible(old(layout), RETRY_PART)
      ensures ok ==> layout == Merge(old(layout), RETRY_PART)
    {
      ok := DeclareRetryQueues();
      if ok {
        BindRetryQueues();
      }
    }

    method DeclareDeadLetters() returns (ok: bool)
      modifies this`layout
      ensures ok <==> Compatible(old(layout), DLQ_PART)
      ensures ok ==> layout == Merge(old(layout), DLQ_PART)
    {
      ok := DeclareQueue(WebhooksDlq, QueueArgs(None, None));
      if !ok { return; }
      Bind(WebhooksDlq, DlxExchange, WEBHOOK_DLQ_ROUTING_KEY);
    }

    method DeclareFront() returns (ok: bool)
      modifies this`layout
      ensures ok <==> Compatible(old(layout), FRONT)
      ensures ok ==> layout == Merge(old(layout), FRONT)
    {
      DeclareInParts(layout, EXCHANGES, MAIN_PART);
      ok := DeclareExchanges();
      if ok {
        ok := DeclareMain();
      }
    }

    method DeclareBack() returns (ok: bool)
      modifies this`layout
      ensures ok <==> Compatible(old(layout), BACK)
      ensures ok ==> layout == Merge(old(layout), BACK)
    {
      DeclareInParts(layout, RETRY_PART, DLQ_PART);
      ok := DeclareRetries();
      if ok {
        ok := DeclareDeadLetters();
      }
    }

    /** declare_webhook_topology: the channel is closed whatever happens. */
    method DeclareWebhookTopology() returns (ok: bool)
      modifies this
      ensures ok <==> Compatible(old(layout), WEBHOOK_LAYOUT)
      ensures ok ==> layout == Merge(old(layout), WEBHOOK_LAYOUT)
      ensures ok ==> layout.exchanges == old(layout).exchanges
                                         + map[EventsExchange := Topic, RetryExchange := Direct, DlxExchange := Direct]
      ensures ok ==> layout.queues.Keys == old(layout).queues.Keys
                                           + {WebhookQueue, WebhooksDlq, RetryQueue(After10s), RetryQueue(After60s),
                                              RetryQueue(After300s)}
      ensures openChannels == old(openChannels)
    {
      DeclareInParts(layout, FRONT, BACK);
      ExchangesDeclared();
      QueuesDeclared();
      openChannels := openChannels + 1;
      ok := DeclareFront();
      if ok {
        ok := DeclareBack();
      }
      openChannels := openChannels - 1;
    }
  }

  lemma MergingIsIdempotent(have: Layout, want: Layout)
    ensures Compatible(Merge(have, want), want) && Merge(Merge(have, want), want) == Merge(have, want)
  {
    var l := Merge(have, want);
    assert l.exchanges + want.exchanges == l.exchanges;
    assert l.queues + want.queues == l.queues;
    assert l.bindings + want.bindings == l.bindings;
  }

  /** Every worker declares the topology when it starts; a second declaration
      succeeds and changes nothing. */
  lemma DeclaringIsIdempotent(have: Layout)
    requires Compatible(have, WEBHOOK_LAYOUT)
    ensures var l := Merge(have, WEBHOOK_LAYOUT);
            Compatible(l, WEBHOOK_LAYOUT) && Merge(l, WEBHOOK_LAYOUT) == l
  {
    MergingIsIdempotent(have, WEBHOOK_LAYOUT);
  }

  lemma TwoWordPattern(pattern: Key, key: Key)
    requires |pattern| == 2 && "#" !in pattern
    ensures Matches(pattern, key) <==>
            |key| == 2 && forall i :: 0 <= i < 2 ==> pattern[i] == "*" || pattern[i] == key[i]
  {
    assert pattern[0] in pattern && pattern[1] in pattern;
    assert pattern[1..][1..] == [];
    if |key| >= 2 {
      assert Matches(pattern[1..][1..], key[1..][1..]) <==> key[1..][1..] == [];
      assert key[1..][1..] == key[2..];
    }
  }

  lemma WebhookPatterns(key: Key)
    ensures Matches(TASK_PATTERN, key) <==> |key| == 2 && key[0] == "task"
    ensures Matches(WEBHOOK_ROUTING_KEY, key) <==> key == WEBHOOK_ROUTING_KEY
  {
    TwoWordPattern(TASK_PATTERN, key);
    TwoWordPattern(WEBHOOK_ROUTING_KEY, key);
    assert TASK_PATTERN[0] == "task" && TASK_PATTERN[1] == "*";
    assert WEBHOOK_ROUTING_KEY[0] == "webhooks" && WEBHOOK_ROUTING_KEY[1] == "events";
  }

  /** The events exchange feeds the webhook queue and nothing else, with exactly
      the two-word `task.` keys and the key the retry queues hand back. */
  lemma EventsExchangeRoutes(key: Key)
    ensures Routes(WEBHOOK_LAYOUT, EventsExchange, key) ==
            if (|key| == 2 && key[0] == "task") || key == ["webhooks", "events"] then {WebhookQueue} else {}
  {
    WebhookPatterns(key);
    var r := Routes(WEBHOOK_LAYOUT, EventsExchange, key);
    var byTask := Binding(EventsExchange, WebhookQueue, TASK_PATTERN);
    var byName := Binding(EventsExchange, WebhookQueue, WEBHOOK_ROUTING_KEY);
    assert byTask in WEBHOOK_LAYOUT.bindings && byName in WEBHOOK_LAYOUT.bindings;
    assert forall b <- WEBHOOK_LAYOUT.bindings :: b.exchange == EventsExchange ==> b == byTask || b == byName;
    if |key| == 2 && key[0] == "task" {
      assert Accepts(WEBHOOK_LAYOUT, byTask, EventsExchange, key);
      assert WebhookQueue in r;
    } else if key == WEBHOOK_ROUTING_KEY {
      assert Accepts(WEBHOOK_LAYOUT, byName, EventsExchange, key);
      assert WebhookQueue in r;
    }
  }

  /** The bindings of the direct exchanges. */
  lemma DirectBindings(b: Binding)
    requires b in WEBHOOK_LAYOUT.bindings
    ensures b.exchange == RetryExchange ==>
              exists level :: b == Binding(RetryExchange, RetryQueue(level), RetryKey(level))
    ensures b.exchange == DlxExchange ==> b == Binding(DlxExchange, WebhooksDlq, WEBHOOK_DLQ_ROUTING_KEY)
  {
  }

  lemma RetryKeysDiffer(l: Level, m: Level)
    requires RetryKey(l) == RetryKey(m)
    ensures l == m
  {
    assert RetryKey(l)[2] == RetryKey(m)[2];
    assert RetryKey(l)[2][0] == RetryKey(m)[2][0];
  }

  /** A retry key reaches its own retry queue and no other. */
  lemma RetryKeyReachesItsQueue(level: Level)
    ensures Routes(WEBHOOK_LAYOUT, RetryExchange, RetryKey(level)) == {RetryQueue(level)}
    ensures RetryKey(level) == match level
                               case After10s => ["webhooks", "retry", "10s"]
                               case After60s => ["webhooks", "retry", "60s"]
                               case After300s => ["webhooks", "retry", "300s"]
  {
    var l := WEBHOOK_LAYOUT;
    var mine := Binding(RetryExchange, RetryQueue(level), RetryKey(level));
    assert mine in l.bindings && Accepts(l, mine, RetryExchange, RetryKey(level));
    forall q <- Routes(l, RetryExchange, RetryKey(level)) ensures q == RetryQueue(level) {
      var b :| b in l.bindings && Accepts(l, b, RetryExchange, RetryKey(level)) && b.queue == q;
      DirectBindings(b);
      var m :| b == Binding(RetryExchange, RetryQueue(m), RetryKey(m));
      RetryKeysDiffer(level, m);
    }
    assert RetryQueue(level) in Routes(l, RetryExchange, RetryKey(level));
  }

  /** A message that expires in a retry queue returns to the webhook queue,
      and not through the `task.*` binding. */
  lemma RetryQueueReturnsToWebhooks(level: Level)
    ensures RetryQueue(level) in WEBHOOK_LAYOUT.queues
    ensures var args := WEBHOOK_LAYOUT.queues[RetryQueue(level)];
            && args.ttl == Some(match level
                                case After10s => 10_000
                                case After60s => 60_000
                                case After300s => 300_000)
            && args.deadLetter == Some(DeadLetter(EventsExchange, ["webhooks", "events"]))
            && !Matches(["task", "*"], args.deadLetter.value.key)
    ensures DeadLetterRoutes(WEBHOOK_LAYOUT, RetryQueue(level)) == {WebhookQueue}
  {
    assert RetryQueue(level) in RETRY_PART.queues && RETRY_PART.queues[RetryQueue(level)] == RETRY_ARGS(level);
    EventsExchangeRoutes(WEBHOOK_ROUTING_KEY);
    WebhookPatterns(WEBHOOK_ROUTING_KEY);
    assert WEBHOOK_ROUTING_KEY[0] == "webhooks";
  }

  /** A rejected message ends in the dead-letter queue, which leads nowhere. */
  lemma RejectedMessagesAreKept()
    ensures DeadLetterRoutes(WEBHOOK_LAYOUT, WebhookQueue) == {WebhooksDlq}
    ensures DeadLetterRoutes(WEBHOOK_LAYOUT, WebhooksDlq) == {}
    ensures forall q <- [WebhookQueue, WebhooksDlq] :: q in WEBHOOK_LAYOUT.queues && WEBHOOK_LAYOUT.queues[q].ttl == None
  {
    var l := WEBHOOK_LAYOUT;
    var dead := Binding(DlxExchange, WebhooksDlq, WEBHOOK_DLQ_ROUTING_KEY);
    assert dead in l.bindings && Accepts(l, dead, DlxExchange, WEBHOOK_DLQ_ROUTING_KEY);
    forall q <- Routes(l, DlxExchange, WEBHOOK_DLQ_ROUTING_KEY) ensures q == WebhooksDlq {
      var b :| b in l.bindings && Accepts(l, b, DlxExchange, WEBHOOK_DLQ_ROUTING_KEY) && b.queue == q;
      DirectBindings(b);
    }
    assert WebhooksDlq in Routes(l, DlxExchange, WEBHOOK_DLQ_ROUTING_KEY);
  }
}
