/** The channel-owning base of publishers and consumers (RabbitBase2.cs):
    the validation chains of its constructors, the fixing of a publisher's
    queues and routing keys, and the declarations each constructor issues.
    Opening connections and channels is network I/O and is not modelled;
    a channel is the list of declarations issued on it. */
module Endpoints {
  import opened Basics
  import opened Configurations
  import opened Topology
  import RetryConfiguration

  function PublisherBase(c: Option<PublisherConfiguration>): Option<BaseConfiguration> {
    if c.Some? then Some(c.value.base) else None
  }

  function ConsumerBase(c: Option<ConsumerConfiguration>): Option<BaseConfiguration> {
    if c.Some? then Some(c.value.base) else None
  }

  /** The base constructor's checks: the first of configuration, hosts and name found missing. */
  function BaseCheck(c: Option<BaseConfiguration>): (r: Option<Error>)
    ensures r.None? <==> c.Some? && HasItems(c.value.hosts) && HasText(c.value.name)
    ensures c.None? ==> r == Some(ArgumentError(General, "Configuration"))
    ensures c.Some? && !HasItems(c.value.hosts) ==> r == Some(ArgumentError(General, "Hosts"))
    ensures c.Some? && HasItems(c.value.hosts) && IsBlank(c.value.name) ==> r == Some(ArgumentError(General, "Name"))
  {
    var invalid :=
      if c.None? then "Configuration"
      else if !HasItems(c.value.hosts) then "Hosts"
      else if IsBlank(c.value.name) then "Name"
      else "";
    assert invalid != "" ==> !IsWhiteSpace(invalid[0]);
    if HasText(invalid) then Some(ArgumentError(General, invalid)) else None
  }

  /** The publisher constructor's checks, made only for exchanges: no queue without a name,
      then an exchange type the wrapper implements. */
  function PublisherCheck(c: PublisherConfiguration): (r: Option<Error>)
    ensures r.None? <==>
      !IsExchange(c) ||
      ((forall q :: q in ItemsOf(c.queues) ==> HasText(q.name)) && (c.exchangeType == Fanout || c.exchangeType == Direct))
    ensures IsExchange(c) && (exists q :: q in ItemsOf(c.queues) && IsBlank(q.name)) ==>
      r == Some(ArgumentError(PublisherParameters, "Queues.Name"))
    ensures (IsExchange(c) && (forall q :: q in ItemsOf(c.queues) ==> HasText(q.name)) &&
             c.exchangeType != Fanout && c.exchangeType != Direct) ==>
      r == Some(NotImplementedError(c.exchangeType))
  {
    if !IsExchange(c) then None
    else if HasItems(c.queues) && exists q :: q in c.queues.value && IsBlank(q.name) then
      Some(ArgumentError(PublisherParameters, "Queues.Name"))
    else if c.exchangeType != Fanout && c.exchangeType != Direct then
      Some(NotImplementedError(c.exchangeType))
    else None
  }

  /** The queues a publisher declares before their keys are fixed: its own list for an exchange
      that has one, otherwise one queue named after the publisher and routed by that name. */
  function SelectedQueues(c: PublisherConfiguration): (r: seq<Queue>)
    ensures |r| >= 1
  {
    if !IsExchange(c) || !HasItems(c.queues) then [Queue(c.base.name, Some([c.base.name]))]
    else c.queues.value
  }

  function KeysOf(q: Queue): seq<string> {
    ItemsOf(q.routingKeys)
  }

  /** A queue whose blank routing keys are dropped, falling back to its own name. */
  function FixedQueue(q: Queue): (r: Queue)
    ensures r.name == q.name && HasItems(r.routingKeys)
  {
    var kept := NonBlank(KeysOf(q));
    Queue(q.name, Some(if kept == [] then [q.name] else kept))
  }

  function FixedQueues(qs: seq<Queue>): (r: seq<Queue>)
    ensures |r| == |qs|
  {
    if qs == [] then [] else FixedQueues(qs[..|qs| - 1]) + [FixedQueue(qs[|qs| - 1])]
  }

  /** Fixing one more queue of a prefix appends its fixed form. */
  lemma FixedQueuesExtend(qs: seq<Queue>, i: nat)
    requires i < |qs|
    ensures FixedQueues(qs[..i + 1]) == FixedQueues(qs[..i]) + [FixedQueue(qs[i])]
  {
    assert qs[..i + 1][..i] == qs[..i];
  }

  /** Every queue is fixed on its own, in place. */
  lemma {:induction false} FixedQueuesPointwise(qs: seq<Queue>)
    ensures forall i :: 0 <= i < |qs| ==> FixedQueues(qs)[i] == FixedQueue(qs[i])
    decreases |qs|
  {
    if qs != [] {
      FixedQueuesPointwise(qs[..|qs| - 1]);
    }
  }

  /** What the publisher constructor does to its configuration: every check passes and every
      selected queue has a routing-key list (filtering a null list raises), and then only the
      queues change. */
  function PublisherSetup(c: Option<PublisherConfiguration>): (r: Result<PublisherConfiguration, Error>)
    ensures r.Success? <==>
      BaseCheck(PublisherBase(c)).None? && PublisherCheck(c.value).None? &&
      forall q :: q in SelectedQueues(c.value) ==> q.routingKeys.Some?
    ensures r.Success? ==> r.value == c.value.(queues := Some(FixedQueues(SelectedQueues(c.value))))
    // the failures in the order they are raised: base checks, publisher checks, then the null key list
    ensures BaseCheck(PublisherBase(c)).Some? ==> r == Failure(BaseCheck(PublisherBase(c)).value)
    ensures BaseCheck(PublisherBase(c)).None? && PublisherCheck(c.value).Some? ==>
      r == Failure(PublisherCheck(c.value).value)
    ensures BaseCheck(PublisherBase(c)).None? && PublisherCheck(c.value).None? && r.Failure? ==>
      r.error == ArgumentNullError("source")
  {
    var invalid := BaseCheck(PublisherBase(c));
    if invalid.Some? then Failure(invalid.value)
    else
      var checked := PublisherCheck(c.value);
      if checked.Some? then Failure(checked.value)
      else
        var qs := SelectedQueues(c.value);
        if exists q :: q in qs && q.routingKeys.None? then Failure(ArgumentNullError("source"))
        else Success(c.value.(queues := Some(FixedQueues(qs))))
  }

  /** Fixing keeps every queue name and leaves each queue at least one routing key, none blank. */
  lemma FixedQueuesWellFormed(qs: seq<Queue>)
    requires forall q :: q in qs ==> HasText(q.name)
    ensures forall q :: q in FixedQueues(qs) ==>
      HasText(q.name) && HasItems(q.routingKeys) && forall k :: k in q.routingKeys.value ==> HasText(k)
  {
    var fixed := FixedQueues(qs);
    FixedQueuesPointwise(qs);
    forall q | q in fixed
      ensures HasText(q.name) && HasItems(q.routingKeys) && forall k :: k in q.routingKeys.value ==> HasText(k)
    {
      var i :| 0 <= i < |fixed| && fixed[i] == q;
      NonBlankFilters(KeysOf(qs[i]));
      assert qs[i] in qs;
    }
  }

  /** After a successful setup the publisher has at least one queue; every queue has a name and
      at least one routing key, and no key is blank. */
  lemma SetupQueuesWellFormed(c: Option<PublisherConfiguration>)
    requires PublisherSetup(c).Success?
    ensures var s := PublisherSetup(c).value;
      HasItems(s.queues) &&
      forall q :: q in s.queues.value ==>
        HasText(q.name) && HasItems(q.routingKeys) && forall k :: k in q.routingKeys.value ==> HasText(k)
  {
    var qs := SelectedQueues(c.value);
    assert forall q :: q in qs ==> HasText(q.name) by {
      if IsExchange(c.value) && HasItems(c.value.queues) {
        assert qs == ItemsOf(c.value.queues);
      }
    }
    FixedQueuesWellFormed(qs);
  }

  /** Without a type, or with a type but no queues, the publisher uses exactly one queue named
      after itself and routed by its own name; the configured queues are ignored. */
  lemma DefaultQueueSetup(c: PublisherConfiguration)
    requires PublisherSetup(Some(c)).Success?
    requires !IsExchange(c) || !HasItems(c.queues)
    ensures PublisherSetup(Some(c)).value.queues == Some([Queue(c.base.name, Some([c.base.name]))])
  {
    var q := Queue(c.base.name, Some([c.base.name]));
    assert SelectedQueues(c) == [q];
    assert HasText(c.base.name);
    NonBlankKeepsText([c.base.name]);
    assert FixedQueue(q) == q;
    assert FixedQueues([q]) == [q];
  }

  /** For an exchange with its own queues, names and order are kept, and each queue keeps its
      non-blank keys in order, or is routed by its own name when none is left. */
  lemma ConfiguredQueuesKept(c: PublisherConfiguration)
    requires PublisherSetup(Some(c)).Success?
    requires IsExchange(c) && HasItems(c.queues)
    ensures var qs := PublisherSetup(Some(c)).value.queues.value;
      |qs| == |c.queues.value| &&
      forall i :: 0 <= i < |qs| ==>
        qs[i].name == c.queues.value[i].name &&
        var kept := NonBlank(c.queues.value[i].routingKeys.value);
        qs[i].routingKeys == Some(if kept == [] then [qs[i].name] else kept)
  {
    FixedQueuesPointwise(c.queues.value);
  }

  /** A queue given without a routing-key list is not defaulted to its name: filtering the null
      list raises, and the publisher is not created. */
  lemma AbsentRoutingKeysRejected(c: PublisherConfiguration, i: nat)
    requires BaseCheck(Some(c.base)).None? && PublisherCheck(c).None?
    requires IsExchange(c) && HasItems(c.queues)
    requires i < |c.queues.value| && c.queues.value[i].routingKeys.None?
    ensures PublisherSetup(Some(c)) == Failure(ArgumentNullError("source"))
  {
  }

  /** A consumer's retry exchange cannot be set up as a publisher here: its delayed-message type
      is neither fanout nor direct, so it fails even when hosts and name are present. */
  lemma {:induction false} RetryExchangeRejected(c: ConsumerConfiguration)
    ensures PublisherSetup(Some(RetryConfiguration.RetryExchangeConfiguration(c))).Failure?
    ensures HasItems(c.base.hosts) ==>
      PublisherSetup(Some(RetryConfiguration.RetryExchangeConfiguration(c))) ==
      Failure(NotImplementedError(RetryConfiguration.RetryType))
  {
    var r := RetryConfiguration.RetryExchangeConfiguration(c);
    var n := r.base.name;
    assert n == c.base.name + RetryConfiguration.RetrySuffix;
    assert n[|n| - 1] == 'y' && HasText(n);
  }

  // ---------------------------------------------------------------------------
  // The declaration plan of a publisher

  /** What is declared for one queue: the queue, then its bindings when the publisher is an exchange. */
  function QueueEntries(exchange: string, isExchange: bool, q: Queue): seq<Declaration> {
    [DeclareQueue(q.name)] + (if isExchange then Bindings(q.name, exchange, KeysOf(q)) else [])
  }

  function QueueDeclarations(exchange: string, isExchange: bool, qs: seq<Queue>): seq<Declaration> {
    if qs == [] then []
    else QueueDeclarations(exchange, isExchange, qs[..|qs| - 1]) + QueueEntries(exchange, isExchange, qs[|qs| - 1])
  }

  /** How often routing key `k` is listed for the queues named `name`. */
  function KeyCount(qs: seq<Queue>, name: string, k: string): nat {
    if qs == [] then 0
    else
      var q := qs[|qs| - 1];
      KeyCount(qs[..|qs| - 1], name, k) + (if q.name == name then multiset(KeysOf(q))[k] else 0)
  }

  /** The declarations the publisher constructor issues on its channel. */
  function PublisherDeclarations(c: PublisherConfiguration): (r: seq<Declaration>)
    ensures IsExchange(c) ==> r != [] && r[0] == DeclareExchange(c.base.name, c.exchangeType)
  {
    (if IsExchange(c) then [DeclareExchange(c.base.name, c.exchangeType)] else [])
    + QueueDeclarations(c.base.name, IsExchange(c), ItemsOf(c.queues))
  }

  function Names(qs: seq<Queue>): (r: seq<string>)
    ensures |r| == |qs| && forall i :: 0 <= i < |qs| ==> r[i] == qs[i].name
  {
    seq(|qs|, i requires 0 <= i < |qs| => qs[i].name)
  }

  /** A command is in the queue part of a plan exactly when it is among the entries of one of its queues. */
  lemma {:induction false} QueueDeclarationsMembers(exchange: string, isExchange: bool, qs: seq<Queue>)
    ensures forall d :: d in QueueDeclarations(exchange, isExchange, qs) <==>
      exists q :: q in qs && d in QueueEntries(exchange, isExchange, q)
    decreases |qs|
  {
    if qs != [] {
      var init := qs[..|qs| - 1];
      QueueDeclarationsMembers(exchange, isExchange, init);
      assert qs == init + [qs[|qs| - 1]];
    }
  }

  /** Each queue is declared once, in order; bindings declare no queue. */
  lemma {:induction false} QueueDeclarationsQueues(exchange: string, isExchange: bool, qs: seq<Queue>)
    ensures DeclaredQueues(QueueDeclarations(exchange, isExchange, qs)) == Names(qs)
    decreases |qs|
  {
    if qs != [] {
      var init := qs[..|qs| - 1];
      var last := qs[|qs| - 1];
      var entries := QueueEntries(exchange, isExchange, last);
      assert DeclaredQueues(QueueDeclarations(exchange, isExchange, init)) == Names(init) by {
        QueueDeclarationsQueues(exchange, isExchange, init);
      }
      assert DeclaredQueues(entries) == [last.name] by {
        QueueEntriesQueues(exchange, isExchange, last);
      }
      DeclaredQueuesAppend(QueueDeclarations(exchange, isExchange, init), entries);
      assert Names(qs) == Names(init) + [last.name];
    }
  }

  lemma QueueEntriesQueues(exchange: string, isExchange: bool, q: Queue)
    ensures DeclaredQueues(QueueEntries(exchange, isExchange, q)) == [q.name]
  {
    var binds := if isExchange then Bindings(q.name, exchange, KeysOf(q)) else [];
    BindingsDeclareNoQueue(q.name, exchange, KeysOf(q));
    DeclaredQueuesAppend([DeclareQueue(q.name)], binds);
    assert DeclaredQueues([DeclareQueue(q.name)]) == [q.name] by {
      assert [DeclareQueue(q.name)][..0] == [];
    }
  }

  /** The queue part of a plan declares no exchange. */
  lemma {:induction false} QueueDeclarationsDeclareNoExchange(exchange: string, isExchange: bool, qs: seq<Queue>)
    ensures forall d :: d in QueueDeclarations(exchange, isExchange, qs) ==> !d.ExchangeDeclare?
    decreases |qs|
  {
    if qs != [] {
      var last := qs[|qs| - 1];
      QueueDeclarationsDeclareNoExchange(exchange, isExchange, qs[..|qs| - 1]);
      var binds := if isExchange then Bindings(last.name, exchange, KeysOf(last)) else [];
      assert forall d :: d in binds ==> d.QueueBind?;
    }
  }

  /** The entries of one queue: its declaration, and for an exchange one binding per routing key. */
  lemma QueueEntriesMembers(exchange: string, isExchange: bool, q: Queue)
    ensures forall d :: d in QueueEntries(exchange, isExchange, q) <==>
      d == DeclareQueue(q.name) || (isExchange && exists k :: k in KeysOf(q) && d == QueueBind(q.name, exchange, k))
  {
    var binds := if isExchange then Bindings(q.name, exchange, KeysOf(q)) else [];
    forall k | isExchange && k in KeysOf(q)
      ensures QueueBind(q.name, exchange, k) in binds
    {
      var j :| 0 <= j < |KeysOf(q)| && KeysOf(q)[j] == k;
      assert binds[j] == QueueBind(q.name, exchange, k);
    }
  }

  /** The entries of one queue are one declaration and, for an exchange, one binding per listed
      routing key: a key listed twice is bound twice. */
  lemma QueueEntriesCounts(exchange: string, isExchange: bool, q: Queue)
    ensures |QueueEntries(exchange, isExchange, q)| == 1 + (if isExchange then |KeysOf(q)| else 0)
    ensures forall k :: (multiset(QueueEntries(exchange, isExchange, q))[QueueBind(q.name, exchange, k)] ==
                         if isExchange then multiset(KeysOf(q))[k] else 0)
  {
    forall k
      ensures multiset(QueueEntries(exchange, isExchange, q))[QueueBind(q.name, exchange, k)] ==
              (if isExchange then multiset(KeysOf(q))[k] else 0)
    {
      if isExchange {
        BindingsCount(q.name, exchange, KeysOf(q), QueueBind(q.name, exchange, k));
      }
    }
  }

  /** A binding occurs in the queue part as often as its routing key is listed for queues of its
      name, and only for an exchange. */
  lemma {:induction false} QueueDeclarationsBindingCount(exchange: string, isExchange: bool, qs: seq<Queue>,
                                                         name: string, k: string)
    ensures multiset(QueueDeclarations(exchange, isExchange, qs))[QueueBind(name, exchange, k)] ==
      if isExchange then KeyCount(qs, name, k) else 0
    decreases |qs|
  {
    if qs != [] {
      var q := qs[|qs| - 1];
      QueueDeclarationsBindingCount(exchange, isExchange, qs[..|qs| - 1], name, k);
      if isExchange {
        BindingsCount(q.name, exchange, KeysOf(q), QueueBind(name, exchange, k));
      }
    }
  }

  /** The exchange is declared exactly when the publisher is one, and then first and only once. */
  lemma PlanDeclaresExchangeFirst(c: PublisherConfiguration)
    ensures var ds := PublisherDeclarations(c);
      && ((exists d :: d in ds && d.ExchangeDeclare?) <==> IsExchange(c))
      && (forall i :: 0 <= i < |ds| && ds[i].ExchangeDeclare? ==> i == 0 && ds[i] == DeclareExchange(c.base.name, c.exchangeType))
  {
    var qs := ItemsOf(c.queues);
    var head := if IsExchange(c) then [DeclareExchange(c.base.name, c.exchangeType)] else [];
    var tail := QueueDeclarations(c.base.name, IsExchange(c), qs);
    var ds := head + tail;
    QueueDeclarationsDeclareNoExchange(c.base.name, IsExchange(c), qs);
    assert forall i :: |head| <= i < |ds| ==> ds[i] == tail[i - |head|] && tail[i - |head|] in tail;
    if IsExchange(c) {
      assert ds[0] in ds;
    }
  }

  /** The plan declares the publisher's queues, each once and in their order. */
  lemma PlanDeclaresQueuesInOrder(c: PublisherConfiguration)
    ensures DeclaredQueues(PublisherDeclarations(c)) == Names(ItemsOf(c.queues))
  {
    var qs := ItemsOf(c.queues);
    var head := if IsExchange(c) then [DeclareExchange(c.base.name, c.exchangeType)] else [];
    var tail := QueueDeclarations(c.base.name, IsExchange(c), qs);
    assert DeclaredQueues(head) == [] by {
      if head != [] { assert head[..0] == []; }
    }
    assert DeclaredQueues(tail) == Names(qs) by {
      QueueDeclarationsQueues(c.base.name, IsExchange(c), qs);
    }
    DeclaredQueuesAppend(head, tail);
  }

  /** Every command of the plan is durable, shared, kept and without arguments; bindings exist
      only for an exchange, exactly one per queue and routing key. */
  lemma PlanBindings(c: PublisherConfiguration)
    ensures var ds := PublisherDeclarations(c);
      && (forall d :: d in ds ==> Standard(d))
      && (forall d :: d in ds && d.QueueBind? ==>
            IsExchange(c) && d.exchange == c.base.name &&
            exists q :: q in ItemsOf(c.queues) && d.queue == q.name && d.routingKey in KeysOf(q))
      && (IsExchange(c) ==> forall q, k :: q in ItemsOf(c.queues) && k in KeysOf(q) ==>
            QueueBind(q.name, c.base.name, k) in ds)
  {
    var qs := ItemsOf(c.queues);
    QueueDeclarationsMembers(c.base.name, IsExchange(c), qs);
    forall q | q in qs {
      QueueEntriesMembers(c.base.name, IsExchange(c), q);
    }
  }

  /** Each binding of the plan occurs as often as its routing key is listed for queues of that
      name: exactly once per queue and key when names and keys are distinct. A plain-queue plan
      binds nothing. */
  lemma PlanBindingCounts(c: PublisherConfiguration, name: string, k: string)
    ensures multiset(PublisherDeclarations(c))[QueueBind(name, c.base.name, k)] ==
      if IsExchange(c) then KeyCount(ItemsOf(c.queues), name, k) else 0
  {
    QueueDeclarationsBindingCount(c.base.name, IsExchange(c), ItemsOf(c.queues), name, k);
  }

  // ---------------------------------------------------------------------------
  // The consumer side

  /** The consumer constructor's channels: one per worker, each declaring the consumer's queue.
      The worker count is used as configured, so zero workers open no channel. */
  function ConsumerChannels(c: ConsumerConfiguration): (r: seq<Channel>)
    ensures |r| == c.workers
    ensures forall i :: 0 <= i < |r| ==> r[i].declarations == [DeclareQueue(c.base.name)]
  {
    Repeat(Channel([DeclareQueue(c.base.name)]), c.workers)
  }

  /** A consumer configuration converted with the default worker count opens no channel at all. */
  lemma DefaultWorkersOpenNoChannel(b: BaseConfiguration, name: string)
    ensures ConsumerChannels(ToConsumerConfiguration(b, name)) == []
  {
  }

  /** The constructor's fixing loop: drops the blank routing keys of every queue, falling back
      to the queue's name. A queue without a key list yields the error of filtering null. */
  method FixQueues(queues: seq<Queue>) returns (r: Result<seq<Queue>, Error>)
    ensures r.Success? <==> forall q :: q in queues ==> q.routingKeys.Some?
    ensures r.Success? ==> r.value == FixedQueues(queues)
    ensures r.Failure? ==> r.error == ArgumentNullError("source")
  {
    if exists q :: q in queues && q.routingKeys.None? {
      return Failure(ArgumentNullError("source"));
    }
    var fixed: seq<Queue> := [];
    for i := 0 to |queues|
      invariant fixed == FixedQueues(queues[..i])
    {
      assert queues[i] in queues;
      fixed := FixQueue(queues, i, fixed);
    }
    assert queues[..|queues|] == queues;
    r := Success(fixed);
  }

  /** The body of the fixing loop: the next queue, which has a routing-key list, is fixed and
      appended to the queues fixed so far. */
  method FixQueue(queues: seq<Queue>, i: nat, fixed: seq<Queue>) returns (extended: seq<Queue>)
    requires i < |queues| && queues[i].routingKeys.Some?
    requires fixed == FixedQueues(queues[..i])
    ensures extended == FixedQueues(queues[..i + 1])
  {
    var q := queues[i];
    var keys := NonBlank(q.routingKeys.value);
    if keys == [] {
      keys := [q.name];
    }
    FixedQueuesExtend(queues, i);
    extended := fixed + [Queue(q.name, Some(keys))];
  }

  /** The constructor's declaration loop over the fixed queues. */
  method DeclareQueues(exchange: string, isExchange: bool, queues: seq<Queue>) returns (ds: seq<Declaration>)
    ensures ds == QueueDeclarations(exchange, isExchange, queues)
  {
    ds := [];
    for i := 0 to |queues|
      invariant ds == QueueDeclarations(exchange, isExchange, queues[..i])
    {
      var q := queues[i];
      var entries := [DeclareQueue(q.name)];
      if isExchange {
        entries := entries + Bindings(q.name, exchange, KeysOf(q));
      }
      assert queues[..i + 1][..i] == queues[..i];
      ds := ds + entries;
    }
    assert queues[..|queues|] == queues;
  }

  /** The object both constructors build: the channels they open. */
  class Endpoint {
    var channels: seq<Channel>

    constructor ()
      ensures channels == []
    {
      channels := [];
    }

    /** The publisher constructor: checks, fixes the queues, then opens one channel and
        declares the exchange, the queues and their bindings on it. */
    method InitPublisher(configuration: Option<PublisherConfiguration>) returns (r: Result<PublisherConfiguration, Error>)
      modifies this
      ensures r == PublisherSetup(configuration)
      ensures r.Success? ==> channels == old(channels) + [Channel(PublisherDeclarations(r.value))]
      ensures r.Failure? ==> channels == old(channels)
    {
      var invalid := BaseCheck(PublisherBase(configuration));
      if invalid.Some? {
        return Failure(invalid.value);
      }
      var c := configuration.value;
      invalid := PublisherCheck(c);
      if invalid.Some? {
        return Failure(invalid.value);
      }
      var fixed := FixQueues(SelectedQueues(c));
      if fixed.Failure? {
        return Failure(fixed.error);
      }
      c := c.(queues := Some(fixed.value));
      var declarations: seq<Declaration> := [];
      if IsExchange(c) {
        declarations := [DeclareExchange(c.base.name, c.exchangeType)];
      }
      var queueDeclarations := DeclareQueues(c.base.name, IsExchange(c), fixed.value);
      declarations := declarations + queueDeclarations;
      channels := channels + [Channel(declarations)];
      r := Success(c);
    }

    /** The consumer constructor: checks, then one channel per worker, each declaring the queue. */
    method InitConsumer(configuration: Option<ConsumerConfiguration>) returns (r: Option<Error>)
      modifies this
      ensures r == BaseCheck(ConsumerBase(configuration))
      ensures r.None? ==> channels == old(channels) + ConsumerChannels(configuration.value)
      ensures r.Some? ==> channels == old(channels)
    {
      r := BaseCheck(ConsumerBase(configuration));
      if r.Some? {
        return;
      }
      var c := configuration.value;
      var channel := Channel([DeclareQueue(c.base.name)]);
      for i := 1 to c.workers + 1
        invariant channels == old(channels) + Repeat(channel, i - 1)
      {
        channels := channels + [channel];
      }
    }
  }
}
