/** The legacy channel-owning base (RabbitBase.cs) and its configuration
    (RabbitConfiguration.cs): `Start` checks the configuration, fixes the
    worker count, the batch size and the routing keys in place, and opens one
    channel per worker on which it declares the exchange, the queue and their
    bindings. */
module LegacyEndpoints {
  import opened Basics
  import opened Topology

  /** The legacy configuration. `exchange`, `exchangeType`, `routingKeys` and `arguments`
      are read by `Start` although the configuration class does not declare them. */
  datatype LegacyConfiguration = LegacyConfiguration(
    hosts: Option<seq<string>>,
    virtualHost: string,
    port: Short,
    userName: string,
    password: string,
    queue: string,
    exchange: string,
    exchangeType: string,
    routingKeys: Option<seq<string>>,
    arguments: Option<Headers>,
    batchSize: UShort,
    workers: Short)

  /** The checks of `Start`, in their order. `publisherSubclass` is whether the object is of a
      class derived from the publisher (the publisher itself is not). */
  function StartCheck(c: Option<LegacyConfiguration>, publisherSubclass: bool): (r: Option<Error>)
    ensures r.None? <==>
      c.Some? && HasItems(c.value.hosts) &&
      (HasText(c.value.queue) || HasText(c.value.exchange)) &&
      (IsBlank(c.value.exchange) || HasText(c.value.exchangeType)) &&
      !(publisherSubclass && HasText(c.value.queue) && HasText(c.value.exchange)) &&
      (c.value.exchangeType == Fanout || c.value.exchangeType == Direct)
    ensures c.None? ==> r == Some(ArgumentError(General, "Configuration"))
    ensures c.Some? && !HasItems(c.value.hosts) ==> r == Some(ArgumentError(General, "Hosts"))
    ensures (c.Some? && HasItems(c.value.hosts) && IsBlank(c.value.queue) && IsBlank(c.value.exchange)) ==>
      r == Some(ArgumentError(General, "Queue/Exchange"))
    ensures (c.Some? && HasItems(c.value.hosts) && HasText(c.value.exchange) && IsBlank(c.value.exchangeType)) ==>
      r == Some(ArgumentError(General, "ExchangeType"))
    ensures r.Some? && r.value.ArgumentError? && r.value.reason == PublisherParameters ==>
      publisherSubclass && HasText(c.value.queue) && HasText(c.value.exchange)
    ensures (c.Some? && HasItems(c.value.hosts) && HasText(c.value.exchange) && HasText(c.value.exchangeType) &&
             publisherSubclass && HasText(c.value.queue)) ==>
      r == Some(ArgumentError(PublisherParameters, "Queue/Exchange"))
    ensures (c.Some? && HasItems(c.value.hosts) && (HasText(c.value.queue) || HasText(c.value.exchange)) &&
             (IsBlank(c.value.exchange) || HasText(c.value.exchangeType)) &&
             !(publisherSubclass && HasText(c.value.queue) && HasText(c.value.exchange)) &&
             c.value.exchangeType != Fanout && c.value.exchangeType != Direct) ==>
      r == Some(NotImplementedError(c.value.exchangeType))
  {
    var invalid :=
      if c.None? then "Configuration"
      else if !HasItems(c.value.hosts) then "Hosts"
      else if IsBlank(c.value.queue) && IsBlank(c.value.exchange) then "Queue/Exchange"
      else if HasText(c.value.exchange) && IsBlank(c.value.exchangeType) then "ExchangeType"
      else "";
    assert invalid != "" ==> !IsWhiteSpace(invalid[0]);
    if HasText(invalid) then Some(ArgumentError(General, invalid))
    else if publisherSubclass && HasText(c.value.queue) && HasText(c.value.exchange) then
      Some(ArgumentError(PublisherParameters, "Queue/Exchange"))
    else if c.value.exchangeType != Fanout && c.value.exchangeType != Direct then
      Some(NotImplementedError(c.value.exchangeType))
    else None
  }

  /** The fixings of `Start`: at least one worker, batches of at least one message, and a single
      empty routing key when none is given; everything else is kept. */
  function Fixed(c: LegacyConfiguration): (r: LegacyConfiguration)
    ensures r.workers >= 1 && r.batchSize >= 1 && HasItems(r.routingKeys)
    ensures c.workers >= 1 ==> r.workers == c.workers
    ensures c.batchSize >= 1 ==> r.batchSize == c.batchSize
    ensures HasItems(c.routingKeys) ==> r.routingKeys == c.routingKeys
    ensures !HasItems(c.routingKeys) ==> r.routingKeys == Some([""])
    ensures r.(workers := c.workers, batchSize := c.batchSize, routingKeys := c.routingKeys) == c
  {
    c.(workers := if c.workers < 1 then 1 else c.workers,
       batchSize := if c.batchSize < 1 then 1 else c.batchSize,
       routingKeys := if HasItems(c.routingKeys) then c.routingKeys else Some([""]))
  }

  /** Fixing a configuration a second time changes nothing. */
  lemma FixedIdempotent(c: LegacyConfiguration)
    ensures Fixed(Fixed(c)) == Fixed(c)
  {
  }

  /** What one worker's channel declares. The argument table handed to the broker is the fresh
      empty one: the copying loop runs over that table, not over the configured arguments. */
  function WorkerDeclarations(c: LegacyConfiguration): (r: seq<Declaration>)
    ensures HasText(c.exchange) ==> r != [] && r[0] == DeclareExchange(c.exchange, c.exchangeType)
    // one command per named exchange and queue, and one binding per key when both are named
    ensures |r| == (if HasText(c.exchange) then 1 else 0) +
      (if HasText(c.queue) then 1 + (if HasText(c.exchange) then |ItemsOf(c.routingKeys)| else 0) else 0)
  {
    (if HasText(c.exchange) then [DeclareExchange(c.exchange, c.exchangeType)] else []) +
    (if HasText(c.queue) then
       [DeclareQueue(c.queue)] + (if HasText(c.exchange) then Bindings(c.queue, c.exchange, ItemsOf(c.routingKeys)) else [])
     else [])
  }

  /** The channels `Start` opens for an accepted configuration: one per (fixed) worker. */
  function StartChannels(c: LegacyConfiguration): (r: seq<Channel>)
    ensures |r| == Fixed(c).workers && |r| >= 1
    ensures forall i :: 0 <= i < |r| ==> r[i].declarations == WorkerDeclarations(Fixed(c))
  {
    Repeat(Channel(WorkerDeclarations(Fixed(c))), Fixed(c).workers)
  }

  /** One worker's declarations: the exchange when one is named, first; everything durable,
      shared, kept and without arguments. */
  lemma WorkerDeclaresExchangeFirst(c: LegacyConfiguration)
    ensures var ds := WorkerDeclarations(c);
      && (forall d :: d in ds ==> Standard(d))
      && ((exists d :: d in ds && d.ExchangeDeclare?) <==> HasText(c.exchange))
      && (HasText(c.exchange) ==> ds[0] == DeclareExchange(c.exchange, c.exchangeType))
  {
    var keys := ItemsOf(c.routingKeys);
    var head := if HasText(c.exchange) then [DeclareExchange(c.exchange, c.exchangeType)] else [];
    var binds := if HasText(c.exchange) then Bindings(c.queue, c.exchange, keys) else [];
    var tail := if HasText(c.queue) then [DeclareQueue(c.queue)] + binds else [];
    assert WorkerDeclarations(c) == head + tail;
    if HasText(c.exchange) {
      assert (head + tail)[0] in head + tail;
    }
  }

  /** One worker declares the queue when one is named, and no other queue. */
  lemma WorkerDeclaresNamedQueue(c: LegacyConfiguration)
    ensures DeclaredQueues(WorkerDeclarations(c)) == (if HasText(c.queue) then [c.queue] else [])
  {
    var keys := ItemsOf(c.routingKeys);
    var head := if HasText(c.exchange) then [DeclareExchange(c.exchange, c.exchangeType)] else [];
    var binds := if HasText(c.exchange) then Bindings(c.queue, c.exchange, keys) else [];
    var tail := if HasText(c.queue) then [DeclareQueue(c.queue)] + binds else [];
    assert WorkerDeclarations(c) == head + tail;
    BindingsDeclareNoQueue(c.queue, c.exchange, keys);
    DeclaredQueuesAppend([DeclareQueue(c.queue)], binds);
    DeclaredQueuesAppend(head, tail);
    assert DeclaredQueues([DeclareQueue(c.queue)]) == [c.queue] by {
      assert [DeclareQueue(c.queue)][..0] == [];
    }
    assert DeclaredQueues(head) == [] by {
      if head != [] { assert head[..0] == []; }
    }
  }

  /** One worker's bindings: only when both a queue and an exchange are named, and then one for
      every routing key and no other; `WorkerBindingCounts` gives how often each occurs. */
  lemma WorkerBindings(c: LegacyConfiguration)
    ensures var ds := WorkerDeclarations(c);
      && (forall d :: d in ds && d.QueueBind? ==>
            HasText(c.queue) && HasText(c.exchange) && d == QueueBind(c.queue, c.exchange, d.routingKey) &&
            d.routingKey in ItemsOf(c.routingKeys))
      && (HasText(c.queue) && HasText(c.exchange) ==>
            forall k :: k in ItemsOf(c.routingKeys) ==> QueueBind(c.queue, c.exchange, k) in ds)
  {
    var keys := ItemsOf(c.routingKeys);
    var head := if HasText(c.exchange) then [DeclareExchange(c.exchange, c.exchangeType)] else [];
    var binds := if HasText(c.exchange) then Bindings(c.queue, c.exchange, keys) else [];
    var tail := if HasText(c.queue) then [DeclareQueue(c.queue)] + binds else [];
    assert WorkerDeclarations(c) == head + tail;
    forall d | d in binds
      ensures d == QueueBind(c.queue, c.exchange, d.routingKey) && d.routingKey in keys
    {
      var j :| 0 <= j < |binds| && binds[j] == d;
    }
    forall k | HasText(c.queue) && HasText(c.exchange) && k in keys
      ensures QueueBind(c.queue, c.exchange, k) in head + tail
    {
      var j :| 0 <= j < |keys| && keys[j] == k;
      assert binds[j] == QueueBind(c.queue, c.exchange, k);
      assert tail[j + 1] == binds[j];
    }
  }

  /** Each binding of a worker occurs as often as its routing key is listed: a key listed twice
      is bound twice. Without a named queue and exchange nothing is bound. */
  lemma WorkerBindingCounts(c: LegacyConfiguration, queue: string, exchange: string, k: string)
    ensures multiset(WorkerDeclarations(c))[QueueBind(queue, exchange, k)] ==
      if HasText(c.queue) && HasText(c.exchange) && queue == c.queue && exchange == c.exchange
      then multiset(ItemsOf(c.routingKeys))[k] else 0
  {
    var keys := ItemsOf(c.routingKeys);
    var head := if HasText(c.exchange) then [DeclareExchange(c.exchange, c.exchangeType)] else [];
    var binds := if HasText(c.exchange) then Bindings(c.queue, c.exchange, keys) else [];
    var tail := if HasText(c.queue) then [DeclareQueue(c.queue)] + binds else [];
    assert WorkerDeclarations(c) == head + tail;
    if HasText(c.exchange) {
      BindingsCount(c.queue, c.exchange, keys, QueueBind(queue, exchange, k));
    }
  }

  /** A queue bound to an exchange without routing keys is bound once, with the empty key. */
  lemma DefaultRoutingKeyIsEmpty(c: LegacyConfiguration)
    requires HasText(c.queue) && HasText(c.exchange) && !HasItems(c.routingKeys)
    ensures var ds := WorkerDeclarations(Fixed(c));
      QueueBind(c.queue, c.exchange, "") in ds &&
      forall d :: d in ds && d.QueueBind? ==> d.routingKey == ""
  {
    WorkerBindings(Fixed(c));
  }

  /** The configured arguments never reach the broker. */
  lemma ArgumentsIgnored(c: LegacyConfiguration, arguments: Option<Headers>)
    ensures StartChannels(c.(arguments := arguments)) == StartChannels(c)
    ensures forall ch :: ch in StartChannels(c) ==> forall d :: d in ch.declarations ==> Standard(d)
  {
    WorkerDeclaresExchangeFirst(Fixed(c));
  }

  /** A plain queue is rejected unless the configuration also names a fanout or direct exchange
      type: the type check is made whether or not there is an exchange. */
  lemma QueueOnlyRejected(c: LegacyConfiguration, publisherSubclass: bool)
    requires HasItems(c.hosts) && HasText(c.queue) && IsBlank(c.exchange) && IsBlank(c.exchangeType)
    ensures StartCheck(Some(c), publisherSubclass) == Some(NotImplementedError(c.exchangeType))
  {
    assert c.exchangeType != Fanout by { assert !IsWhiteSpace(Fanout[0]); }
    assert c.exchangeType != Direct by { assert !IsWhiteSpace(Direct[0]); }
  }

  /** The object `Start` works on: its configuration, fixed in place, and its channels. */
  class LegacyEndpoint {
    var configuration: Option<LegacyConfiguration>
    var channels: seq<Channel>

    /** The constructor stores the configuration; it then calls `Start`, which is the separate
        method below. */
    constructor (configuration: Option<LegacyConfiguration>)
      ensures this.configuration == configuration && channels == []
    {
      this.configuration := configuration;
      channels := [];
    }

    method Start(publisherSubclass: bool) returns (r: Option<Error>)
      modifies this
      ensures r == StartCheck(old(configuration), publisherSubclass)
      ensures r.Some? ==> configuration == old(configuration) && channels == old(channels)
      ensures r.None? ==>
        configuration == Some(Fixed(old(configuration).value)) &&
        channels == old(channels) + StartChannels(old(configuration).value)
    {
      r := StartCheck(configuration, publisherSubclass);
      if r.Some? {
        return;
      }
      var c := configuration.value;
      // Fixings
      c := c.(workers := if c.workers < 1 then 1 else c.workers);
      c := c.(batchSize := if c.batchSize < 1 then 1 else c.batchSize);
      c := c.(routingKeys := if HasItems(c.routingKeys) then c.routingKeys else Some([""]));
      assert c == Fixed(configuration.value);
      configuration := Some(c);
      var i := 1;
      while i <= c.workers
        invariant 1 <= i <= c.workers + 1
        invariant configuration == Some(c)
        invariant channels == old(channels) + Repeat(Channel(WorkerDeclarations(c)), i - 1)
      {
        var declarations := DeclareWorker(c);
        channels := channels + [Channel(declarations)];
        i := i + 1;
      }
    }
  }

  /** The body of `Start`'s worker loop: the declarations issued on one fresh channel. */
  method DeclareWorker(c: LegacyConfiguration) returns (ds: seq<Declaration>)
    ensures ds == WorkerDeclarations(c)
  {
    ds := [];
    if HasText(c.exchange) {
      ds := ds + [DeclareExchange(c.exchange, c.exchangeType)];
    }
    if HasText(c.queue) {
      ds := ds + [DeclareQueue(c.queue)];
      if HasText(c.exchange) {
        var keys := ItemsOf(c.routingKeys);
        ghost var head := ds;
        for j := 0 to |keys|
          invariant ds == head + Bindings(c.queue, c.exchange, keys[..j])
        {
          assert keys[..j + 1][..j] == keys[..j];
          ds := ds + [QueueBind(c.queue, c.exchange, keys[j])];
        }
        assert keys[..|keys|] == keys;
      }
    }
  }
}
