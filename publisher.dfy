/** The publisher (RabbitPublisher.cs): where it sends (destination and
    routes, fixed at construction), which routes it accepts, the headers it
    attaches to each message and the retry publish with its delay header.
    The broker call and the serialisation of the message are not modelled: a
    publish yields the `Delivery` it would hand to the broker. */
module Publishers {
  import opened Basics
  import opened Configurations
  import opened Topology
  import opened Endpoints
  import RetryConfiguration

  /** What one publish hands to the broker: the exchange (empty for the default exchange),
      the routing key, the message properties and the message. */
  datatype Delivery<T> = Delivery(exchange: string, routingKey: string, headers: Headers, persistent: bool, message: T)

  /** Messages are persistent: the broker keeps them on disk until they are consumed. */
  const Persistent := true

  /** The publish headers: every configured header and every per-publish header, the per-publish
      value winning for a key both define. */
  function MergeHeaders(configured: Option<Headers>, merge: Option<Headers>): (r: Headers)
    ensures r.Keys == EntriesOf(configured).Keys + EntriesOf(merge).Keys
    ensures forall k :: k in EntriesOf(merge) ==> r[k] == EntriesOf(merge)[k]
    ensures forall k :: k in EntriesOf(configured) && k !in EntriesOf(merge) ==> r[k] == EntriesOf(configured)[k]
    ensures configured.None? && merge.None? ==> r == map[]
  {
    EntriesOf(configured) + EntriesOf(merge)
  }

  /** The `foreach` over one source of `PublishHeaders`: each pair is added, or overwrites the
      value already there. */
  method MergeInto(headers: Headers, source: Headers) returns (r: Headers)
    ensures r == headers + source
  {
    r := headers;
    var pending := source.Keys;
    while pending != {}
      invariant pending <= source.Keys
      invariant r.Keys == headers.Keys + (source.Keys - pending)
      invariant forall k :: k in r ==> r[k] == if k in source && k !in pending then source[k] else headers[k]
      decreases pending
    {
      var k :| k in pending;
      r := r[k := source[k]];
      pending := pending - {k};
    }
    assert r.Keys == (headers + source).Keys;
  }

  /** The routes a publisher accepts: the routes of its dependencies that have text, in their
      order, or its own name when there are none. */
  function RoutesOf(name: string, dependencies: seq<Dependency>): (r: seq<string>)
    ensures |r| >= 1
    ensures HasText(name) ==> forall i :: 0 <= i < |r| ==> HasText(r[i])
    ensures (exists d :: d in dependencies && HasText(d.route)) ==>
      forall x :: x in r <==> exists d :: d in dependencies && d.route == x && HasText(x)
    ensures (forall d :: d in dependencies ==> IsBlank(d.route)) ==> r == [name]
    // the routes that have text keep their order and how often they occur
    ensures (exists d :: d in dependencies && HasText(d.route)) ==> r == NonBlank(Routes(dependencies))
    ensures (exists d :: d in dependencies && HasText(d.route)) ==>
      forall x :: multiset(r)[x] == if HasText(x) then multiset(Routes(dependencies))[x] else 0
  {
    var routes := Routes(dependencies);
    var kept := NonBlank(routes);
    NonBlankFilters(routes);
    NonBlankCounts(routes);
    forall x
      ensures x in routes <==> exists d :: d in dependencies && d.route == x
    {
      if x in routes {
        var i :| 0 <= i < |routes| && routes[i] == x;
        assert dependencies[i] in dependencies;
      }
    }
    if kept == [] then [name] else kept
  }

  /** Two dependencies with the same route give that route twice, so there is no default route:
      routes are counted, not deduplicated. */
  lemma RepeatedRouteHasNoDefault(name: string, first: Dependency, second: Dependency)
    requires HasText(first.route) && second.route == first.route
    ensures RoutesOf(name, [first, second]) == [first.route, first.route]
    ensures DefaultRouteOf(RoutesOf(name, [first, second])) == ""
  {
    var routes := Routes([first, second]);
    assert routes == [first.route] + [first.route];
    NonBlankAppend([first.route], [first.route]);
    NonBlankSingleton(first.route);
    assert first in [first, second];
  }

  /** The route of each dependency, in order. */
  function Routes(dependencies: seq<Dependency>): (r: seq<string>)
    ensures |r| == |dependencies| && forall i :: 0 <= i < |r| ==> r[i] == dependencies[i].route
  {
    seq(|dependencies|, i requires 0 <= i < |dependencies| => dependencies[i].route)
  }

  /** The route used when none is given: the only route, or the empty route when there are several. */
  function DefaultRouteOf(routes: seq<string>): (r: string)
    ensures |routes| == 1 ==> r == routes[0]
    ensures |routes| != 1 ==> r == ""
  {
    if |routes| == 1 then routes[0] else ""
  }

  /** Where a publisher sends: its own name when it is flagged as an exchange, otherwise the
      default exchange, which routes by queue name. */
  function DestinationOf(c: PublisherConfiguration): (r: string)
    ensures c.exchange ==> r == c.base.name
    ensures !c.exchange ==> r == ""
  {
    if c.exchange then c.base.name else ""
  }

  class Publisher<T> {
    /** The configuration after the base constructor has fixed its queues. */
    const configuration: PublisherConfiguration
    /** The channel-owning base the publisher extends. */
    const endpoint: Endpoint
    const routes: seq<string>
    const defaultRoute: string
    const destination: string
    /** The headers of the publish properties, replaced on every accepted publish. */
    var headers: Headers

    ghost predicate Valid()
      reads this
    {
      && configuration.base.dependencies.Some?
      && routes == RoutesOf(configuration.base.name, configuration.base.dependencies.value)
      && defaultRoute == DefaultRouteOf(routes)
      && destination == DestinationOf(configuration)
    }

    constructor (endpoint: Endpoint, configuration: PublisherConfiguration)
      requires configuration.base.dependencies.Some?
      ensures this.endpoint == endpoint && this.configuration == configuration
      ensures headers == map[]
      ensures Valid()
    {
      this.endpoint := endpoint;
      this.configuration := configuration;
      headers := map[];
      destination := DestinationOf(configuration);
      var rs := NonBlank(Routes(configuration.base.dependencies.value));
      if |rs| == 0 {
        rs := rs + [configuration.base.name];
      }
      routes := rs;
      defaultRoute := if |rs| == 1 then rs[0] else "";
    }

    /** Whether a publish to `route` is accepted: always unless the publisher is a routed
        exchange, and then exactly for its routes. */
    predicate ValidateRoute(route: string)
      ensures route in routes ==> ValidateRoute(route)
      ensures !configuration.exchange ==> ValidateRoute(route)
      ensures configuration.fanout ==> ValidateRoute(route)
      ensures configuration.exchange && !configuration.fanout && route !in routes ==> !ValidateRoute(route)
    {
      !configuration.exchange || configuration.fanout || route in routes
    }

    /** The headers of one publish. */
    method PublishHeaders(merge: Option<Headers>) returns (r: Headers)
      ensures r == MergeHeaders(configuration.headers, merge)
    {
      r := MergeInto(map[], EntriesOf(configuration.headers));
      r := MergeInto(r, EntriesOf(merge));
      assert map[] + EntriesOf(configuration.headers) == EntriesOf(configuration.headers);
    }

    /** The publish every other one ends in: an invalid route raises an argument error naming it
        and nothing is sent; otherwise the headers are merged and the message goes to the
        destination under `route`. */
    method Publish(message: T, route: string, merge: Option<Headers>) returns (r: Result<Delivery<T>, Error>)
      modifies this`headers
      ensures ValidateRoute(route) ==>
        headers == MergeHeaders(configuration.headers, merge) &&
        r == Success(Delivery(destination, route, headers, Persistent, message))
      ensures !ValidateRoute(route) ==>
        headers == old(headers) && r == Failure(ArgumentError(InvalidRoute(route), "route"))
    {
      if !ValidateRoute(route) {
        return Failure(ArgumentError(InvalidRoute(route), "route"));
      }
      headers := PublishHeaders(merge);
      r := Success(Delivery(destination, route, headers, Persistent, message));
    }

    /** A single message under a given route. */
    method PublishTo(message: T, route: string) returns (r: Result<Delivery<T>, Error>)
      modifies this`headers
      ensures ValidateRoute(route) ==>
        headers == MergeHeaders(configuration.headers, None) &&
        r == Success(Delivery(destination, route, headers, Persistent, message))
      ensures !ValidateRoute(route) ==>
        headers == old(headers) && r == Failure(ArgumentError(InvalidRoute(route), "route"))
    {
      r := Publish(message, route, None);
    }

    /** A single message under the default route. */
    method PublishDefault(message: T) returns (r: Result<Delivery<T>, Error>)
      modifies this`headers
      ensures ValidateRoute(defaultRoute) ==>
        headers == MergeHeaders(configuration.headers, None) &&
        r == Success(Delivery(destination, defaultRoute, headers, Persistent, message))
      ensures !ValidateRoute(defaultRoute) ==>
        headers == old(headers) && r == Failure(ArgumentError(InvalidRoute(defaultRoute), "route"))
    {
      r := PublishTo(message, defaultRoute);
    }

    /** The retry publish: under the default route, with the delay in the `x-delay` header as a
        signed 64-bit value, over the configured headers. */
    method PublishDelayed(message: T, delay: ULong) returns (r: Result<Delivery<T>, Error>)
      modifies this`headers
      ensures ValidateRoute(defaultRoute) ==>
        headers == MergeHeaders(configuration.headers, Some(map[RetryConfiguration.RetryHeaderKey := LongValue(AsLong(delay))])) &&
        headers[RetryConfiguration.RetryHeaderKey] == LongValue(AsLong(delay)) &&
        r == Success(Delivery(destination, defaultRoute, headers, Persistent, message))
      ensures !ValidateRoute(defaultRoute) ==>
        headers == old(headers) && r == Failure(ArgumentError(InvalidRoute(defaultRoute), "route"))
    {
      r := Publish(message, defaultRoute, Some(map[RetryConfiguration.RetryHeaderKey := LongValue(AsLong(delay))]));
    }

    /** Several messages under one route, in their order; a null list publishes nothing. The first
        failure stops the others, and as the route alone decides, that is the first message. */
    method PublishMany(messages: Option<seq<T>>, route: string) returns (r: Result<seq<Delivery<T>>, Error>)
      modifies this`headers
      ensures ItemsOf(messages) == [] ==> r == Success([]) && headers == old(headers)
      ensures ItemsOf(messages) != [] && !ValidateRoute(route) ==>
        r == Failure(ArgumentError(InvalidRoute(route), "route")) && headers == old(headers)
      ensures ItemsOf(messages) != [] && ValidateRoute(route) ==>
        headers == MergeHeaders(configuration.headers, None) &&
        r.Success? && |r.value| == |ItemsOf(messages)| &&
        forall i :: 0 <= i < |r.value| ==>
          r.value[i] == Delivery(destination, route, headers, Persistent, ItemsOf(messages)[i])
    {
      var items := ItemsOf(messages);
      var sent: seq<Delivery<T>> := [];
      for i := 0 to |items|
        invariant |sent| == i
        invariant i == 0 ==> headers == old(headers)
        invariant i > 0 ==> ValidateRoute(route) && headers == MergeHeaders(configuration.headers, None)
        invariant forall j :: 0 <= j < i ==> sent[j] == Delivery(destination, route, headers, Persistent, items[j])
      {
        var one := Publish(items[i], route, None);
        if one.Failure? {
          return Failure(one.error);
        }
        sent := sent + [one.value];
      }
      r := Success(sent);
    }

    /** The default route of a publisher with several routes is empty, so a routed exchange
        rejects every publish without an explicit route. */
    lemma AmbiguousDefaultRouteRejected()
      requires Valid()
      requires configuration.exchange && !configuration.fanout && |routes| > 1
      ensures !ValidateRoute(defaultRoute)
    {
    }

    /** A publisher with a single route accepts a publish without an explicit route, and then
        sends under that route. */
    lemma SingleRouteIsDefault()
      requires Valid() && |routes| == 1
      ensures ValidateRoute(defaultRoute) && defaultRoute == routes[0]
    {
    }

    /** A blank route is rejected by a routed exchange whose name has text. */
    lemma BlankRouteRejected(route: string)
      requires Valid() && HasText(configuration.base.name)
      requires configuration.exchange && !configuration.fanout && IsBlank(route)
      ensures !ValidateRoute(route)
    {
    }
  }

  /** The publisher's construction: the base sets up its configuration and channel, then the
      routes are derived from the dependencies, which must be given. The base part is returned
      whatever the outcome: when the dependencies are missing, its channel and the declarations
      issued on it exist before the publisher fails. */
  method Open<T>(configuration: Option<PublisherConfiguration>) returns (endpoint: Endpoint, r: Result<Publisher<T>, Error>)
    ensures fresh(endpoint)
    ensures PublisherSetup(configuration).Failure? ==>
      r == Failure(PublisherSetup(configuration).error) && endpoint.channels == []
    ensures PublisherSetup(configuration).Success? ==>
      endpoint.channels == [Channel(PublisherDeclarations(PublisherSetup(configuration).value))]
    ensures PublisherSetup(configuration).Success? && PublisherSetup(configuration).value.base.dependencies.None? ==>
      r == Failure(ArgumentNullError("source"))
    ensures PublisherSetup(configuration).Success? && PublisherSetup(configuration).value.base.dependencies.Some? ==>
      r.Success?
    ensures r.Success? ==>
      && fresh(r.value) && r.value.endpoint == endpoint
      && r.value.Valid() && r.value.configuration == PublisherSetup(configuration).value
      && r.value.headers == map[]
  {
    endpoint := new Endpoint();
    var setup := endpoint.InitPublisher(configuration);
    if setup.Failure? {
      return endpoint, Failure(setup.error);
    }
    if setup.value.base.dependencies.None? {
      return endpoint, Failure(ArgumentNullError("source"));
    }
    var publisher := new Publisher<T>(endpoint, setup.value);
    r := Success(publisher);
  }

  /** The publisher built from a base configuration and the publisher's own name, type, headers
      and dependencies. */
  method OpenFromBase<T>(
    configuration: BaseConfiguration,
    name: string,
    exchangeType: string,
    headers: Option<Headers>,
    dependencies: Option<seq<Dependency>>) returns (endpoint: Endpoint, r: Result<Publisher<T>, Error>)
    ensures fresh(endpoint)
    ensures var setup := PublisherSetup(Some(ToPublisherConfiguration(configuration, name, exchangeType, headers, dependencies)));
      && (setup.Failure? ==> r == Failure(setup.error) && endpoint.channels == [])
      && (setup.Success? ==> endpoint.channels == [Channel(PublisherDeclarations(setup.value))])
      && (setup.Success? && dependencies.Some? ==> r.Success?)
    ensures dependencies.None? ==> r.Failure?
    ensures r.Success? ==>
      fresh(r.value) && r.value.endpoint == endpoint &&
      r.value.Valid() && r.value.configuration.base.name == name && r.value.configuration.exchangeType == exchangeType &&
      r.value.configuration.headers == headers && r.value.configuration.base.dependencies == dependencies &&
      !r.value.configuration.exchange && r.value.destination == ""
  {
    endpoint, r := Open(Some(ToPublisherConfiguration(configuration, name, exchangeType, headers, dependencies)));
  }

  /** The delay header survives the merge whatever the configured headers hold. */
  lemma DelayHeaderWins(configured: Option<Headers>, delay: ULong)
    ensures var h := MergeHeaders(configured, Some(map[RetryConfiguration.RetryHeaderKey := LongValue(AsLong(delay))]));
      h[RetryConfiguration.RetryHeaderKey] == LongValue(AsLong(delay)) &&
      (delay < 0x8000_0000_0000_0000 ==> h[RetryConfiguration.RetryHeaderKey] == LongValue(delay))
  {
  }
}
