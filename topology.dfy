/** The broker topology commands the wrapper issues on a channel, kept as an
    abstract list instead of calls into the client library. */
module Topology {
  import opened Basics

  /** Every exchange and queue the wrapper declares is durable ... */
  const Durable := true
  /** ... not exclusive ... */
  const Exclusive := false
  /** ... and not deleted automatically. */
  const AutoDelete := false

  /** The exchange types the client library names `ExchangeType.Fanout` and `ExchangeType.Direct`. */
  const Fanout := "fanout"
  const Direct := "direct"

  datatype Declaration =
    | ExchangeDeclare(exchange: string, kind: string, durable: bool, autoDelete: bool, arguments: Headers)
    | QueueDeclare(queue: string, durable: bool, exclusive: bool, autoDelete: bool, arguments: Headers)
    | QueueBind(queue: string, exchange: string, routingKey: string)

  /** A channel, seen through the declarations issued on it. */
  datatype Channel = Channel(declarations: seq<Declaration>)

  /** How the wrapper declares an exchange: durable, kept, no arguments. */
  function DeclareExchange(exchange: string, kind: string): Declaration {
    ExchangeDeclare(exchange, kind, Durable, AutoDelete, map[])
  }

  /** How the wrapper declares a queue: durable, shared, kept, no arguments. */
  function DeclareQueue(queue: string): Declaration {
    QueueDeclare(queue, Durable, Exclusive, AutoDelete, map[])
  }

  /** One binding of `queue` to `exchange` per routing key, in the keys' order. */
  function Bindings(queue: string, exchange: string, keys: seq<string>): (r: seq<Declaration>)
    ensures |r| == |keys|
    ensures forall i :: 0 <= i < |keys| ==> r[i] == QueueBind(queue, exchange, keys[i])
  {
    if keys == [] then []
    else Bindings(queue, exchange, keys[..|keys| - 1]) + [QueueBind(queue, exchange, keys[|keys| - 1])]
  }

  /** A declaration made with the wrapper's fixed flags and an empty argument table. */
  predicate Standard(d: Declaration) {
    match d
    case ExchangeDeclare(_, _, durable, autoDelete, arguments) =>
      durable && !autoDelete && arguments == map[]
    case QueueDeclare(_, durable, exclusive, autoDelete, arguments) =>
      durable && !exclusive && !autoDelete && arguments == map[]
    case QueueBind(_, _, _) => true
  }

  /** The queues declared on a channel, in declaration order. */
  function DeclaredQueues(ds: seq<Declaration>): seq<string> {
    if ds == [] then []
    else DeclaredQueues(ds[..|ds| - 1]) + (if ds[|ds| - 1].QueueDeclare? then [ds[|ds| - 1].queue] else [])
  }

  lemma {:induction false} DeclaredQueuesAppend(a: seq<Declaration>, b: seq<Declaration>)
    ensures DeclaredQueues(a + b) == DeclaredQueues(a) + DeclaredQueues(b)
    decreases |b|
  {
    if b == [] {
      assert a + b == a;
    } else {
      var b' := b[..|b| - 1];
      assert (a + b)[..|a + b| - 1] == a + b';
      DeclaredQueuesAppend(a, b');
    }
  }

  /** Binding commands declare no queue. */
  lemma {:induction false} BindingsDeclareNoQueue(queue: string, exchange: string, keys: seq<string>)
    ensures DeclaredQueues(Bindings(queue, exchange, keys)) == []
    decreases |keys|
  {
    if keys != [] {
      var keys' := keys[..|keys| - 1];
      BindingsDeclareNoQueue(queue, exchange, keys');
      DeclaredQueuesAppend(Bindings(queue, exchange, keys'), [QueueBind(queue, exchange, keys[|keys| - 1])]);
    }
  }

  /** A binding occurs among a queue's bindings as often as its routing key is listed, and no
      other command occurs there. */
  lemma {:induction false} BindingsCount(queue: string, exchange: string, keys: seq<string>, d: Declaration)
    ensures multiset(Bindings(queue, exchange, keys))[d] ==
      if d.QueueBind? && d.queue == queue && d.exchange == exchange then multiset(keys)[d.routingKey] else 0
    decreases |keys|
  {
    if keys != [] {
      var keys' := keys[..|keys| - 1];
      var k := keys[|keys| - 1];
      BindingsCount(queue, exchange, keys', d);
      assert keys == keys' + [k];
      assert multiset(Bindings(queue, exchange, keys)) ==
        multiset(Bindings(queue, exchange, keys')) + multiset{QueueBind(queue, exchange, k)};
    }
  }

  /** `n` channels, each carrying the same declarations. */
  function Repeat(ch: Channel, n: nat): (r: seq<Channel>)
    ensures |r| == n
    ensures forall i :: 0 <= i < n ==> r[i] == ch
  {
    if n == 0 then [] else Repeat(ch, n - 1) + [ch]
  }
}
