/** The wrapper's configuration records and the two conversions from the
    shared base configuration (RabbitConfigurationBase.cs,
    RabbitPublisherConfiguration.cs, RabbitConsumerConfiguration.cs).
    The source's subclassing is modelled by composition: a publisher or
    consumer configuration holds the base fields in `base`. */
module Configurations {
  import opened Basics

  /** A dependency: an exchange or queue the configured one routes to. */
  datatype Dependency = Dependency(route: string, name: string, kind: string, arguments: Option<Headers>)

  /** A binding of the configured exchange or queue to an existing one. */
  datatype Binding = Binding(route: string, name: string)

  /** The fields every configuration shares. */
  datatype BaseConfiguration = BaseConfiguration(
    hosts: Option<seq<string>>,
    virtualHost: string,
    port: UShort,
    user: string,
    password: string,
    name: string,
    arguments: Option<Headers>,
    bindings: Option<seq<Binding>>,
    dependencies: Option<seq<Dependency>>)

  /** A queue bound to a publisher's exchange. */
  datatype Queue = Queue(name: string, routingKeys: Option<seq<string>>)

  /** A publisher's configuration. `exchangeType` is the source's `Type`; `headers`,
      `exchange` and `fanout` are read by the publisher although the configuration
      class does not declare them, so they are plain fields here. */
  datatype PublisherConfiguration = PublisherConfiguration(
    base: BaseConfiguration,
    exchangeType: string,
    queues: Option<seq<Queue>>,
    headers: Option<Headers>,
    exchange: bool,
    fanout: bool)

  /** A consumer's configuration. */
  datatype ConsumerConfiguration = ConsumerConfiguration(
    base: BaseConfiguration,
    retryIntervals: Option<seq<ULong>>,
    batchSize: UShort,
    workers: UShort)

  /** The connection settings a derived configuration inherits. */
  datatype Connection = Connection(hosts: Option<seq<string>>, virtualHost: string, port: UShort, user: string, password: string)

  function ConnectionOf(c: BaseConfiguration): Connection {
    Connection(c.hosts, c.virtualHost, c.port, c.user, c.password)
  }

  /** A publisher is an exchange exactly when it has a type; otherwise it publishes straight to a queue. */
  predicate IsExchange(c: PublisherConfiguration)
    ensures IsExchange(c) ==> c.exchangeType != ""
  {
    HasText(c.exchangeType)
  }

  /** A publisher configuration built from a base one: the connection settings and
      arguments come from the base, the identity from the arguments. */
  function ToPublisherConfiguration(
    c: BaseConfiguration,
    name: string := "",
    exchangeType: string := "",
    headers: Option<Headers> := None,
    dependencies: Option<seq<Dependency>> := None): (r: PublisherConfiguration)
    ensures ConnectionOf(r.base) == ConnectionOf(c) && r.base.arguments == c.arguments
    ensures r.base.name == name && r.exchangeType == exchangeType
    ensures r.headers == headers && r.base.dependencies == dependencies
    ensures r.base.bindings == None && r.queues == None
    ensures IsExchange(r) <==> HasText(exchangeType)
    // the initialiser sets neither flag, so both keep the default of an unset bool
    ensures !r.exchange && !r.fanout
  {
    PublisherConfiguration(
      BaseConfiguration(c.hosts, c.virtualHost, c.port, c.user, c.password, name, c.arguments, None, dependencies),
      exchangeType, None, headers, false, false)
  }

  /** A consumer configuration built from a base one; workers and batch size are passed
      through as given, without raising them to one. */
  function ToConsumerConfiguration(
    c: BaseConfiguration,
    name: string,
    workers: UShort := 0,
    batchSize: UShort := 0,
    retryIntervals: Option<seq<ULong>> := None,
    dependencies: Option<seq<Dependency>> := None,
    bindings: Option<seq<Binding>> := None): (r: ConsumerConfiguration)
    ensures ConnectionOf(r.base) == ConnectionOf(c) && r.base.arguments == c.arguments
    ensures r.base.name == name && r.workers == workers && r.batchSize == batchSize
    ensures r.retryIntervals == retryIntervals
    ensures r.base.dependencies == dependencies && r.base.bindings == bindings
  {
    ConsumerConfiguration(
      BaseConfiguration(c.hosts, c.virtualHost, c.port, c.user, c.password, name, c.arguments, bindings, dependencies),
      retryIntervals, batchSize, workers)
  }

  /** The base's own name, bindings and dependencies never reach a converted configuration:
      two bases with the same connection settings and arguments convert alike, whatever the
      other parameters of the conversion. */
  lemma ConversionsIgnoreBaseIdentity(
    c: BaseConfiguration,
    d: BaseConfiguration,
    name: string,
    exchangeType: string,
    headers: Option<Headers>,
    workers: UShort,
    batchSize: UShort,
    retryIntervals: Option<seq<ULong>>,
    dependencies: Option<seq<Dependency>>,
    bindings: Option<seq<Binding>>)
    requires ConnectionOf(c) == ConnectionOf(d) && c.arguments == d.arguments
    ensures ToPublisherConfiguration(c, name, exchangeType, headers, dependencies)
         == ToPublisherConfiguration(d, name, exchangeType, headers, dependencies)
    ensures ToConsumerConfiguration(c, name, workers, batchSize, retryIntervals, dependencies, bindings)
         == ToConsumerConfiguration(d, name, workers, batchSize, retryIntervals, dependencies, bindings)
  {
  }
}
