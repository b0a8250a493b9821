# RabbitMQ client wrapper — a Dafny model

This project models the core of RabbitMq.Client.Wrapper, a C# library that wraps the RabbitMQ
.NET client with configuration-driven publishers and consumers:

- **Configurations**: the shared base configuration, the publisher and consumer configurations
  built from it, and what a consumer configuration derives for its retry exchange and its dead
  queue. The retry-interval ladder documented on `RetryIntervals` is modelled as well (sorted
  ascending, intervals below 5000 ms ignored, one try per interval).
- **The channel-owning base `RabbitBase2`** (class `Endpoint`). `RabbitPublisher<T>` names a
  non-generic `RabbitBase` as its base (RabbitMq.Client.Wrapper/RabbitPublisher.cs:16), and no
  class of that name is defined; its base call passes a publisher configuration
  (RabbitPublisher.cs:73), which matches `RabbitBase2`'s publisher constructor. The model takes
  that constructor as the publisher's base. `RabbitConsumer<T>` derives from the legacy
  `RabbitBase<T>` instead (RabbitConsumer.cs:18), and no class uses `RabbitBase2`'s consumer
  constructor; the model covers it as written. This covers the validation chain of both
  constructors, the fixing of a publisher's queues and routing keys, and the declaration plan of
  each constructor. A channel is seen as the list of exchange, queue and binding declarations
  issued on it.
- **The legacy base** (class `LegacyEndpoint`). Its `Start` checks the configuration, fixes the
  worker count, the batch size and the routing keys, and opens one channel per worker.
- **The publisher** (class `Publisher<T>`). This covers the destination, the accepted routes and
  the default route, route validation, and the merging of configured and per-publish headers. It
  also covers the retry publish with its `x-delay` header, and publishing several messages. A
  publish yields the `Delivery` the wrapper would hand to the broker.
- **The consumer's batch accumulator** (class `Accumulator<T>`). Messages are buffered with the
  latest delivery tag. A batch is handed on when the buffer reaches the batch size, or when the
  discharge timer fires on a non-empty buffer. The class keeps ghost logs of everything preserved
  and every batch handed on. Each method is specified against the pure transition `Step`, and the
  properties of whole runs are lemmas about `Replay`.

Null strings are modelled as the empty string: every use in the core treats null and blank
alike. The string and list tests come from the CoreKit extension library, whose source is not
part of this model. The model assumes that `HasValue` on a string means neither null nor
whitespace and `IsEmpty` its negation. On a list, it assumes `HasValue` means non-null and
non-empty and `IsEmpty` its negation. Null lists and dictionaries are `Option`s, because there null and empty behave
differently. The source's configuration subclasses become records that hold the base fields in
`base`. .NET `ushort`, `short` and `ulong` are bounded subtypes of `int`. The unchecked
`(long)` cast of a `ulong` delay is written out as `AsLong`. The publisher reads `Exchange` and
`Fanout` properties of its configuration that no class of the repository declares. They are
modelled as booleans that stay false unless set, which is C#'s default for an unset `bool`; no
configuration built in the core sets them. Its `Headers` property is not declared either: the
conversion sets it (RabbitMq.Client.Wrapper/RabbitConfigurationBase.cs:88) and the header merge
reads it (RabbitMq.Client.Wrapper/RabbitPublisher.cs:150-151). It is assumed to be a
`Dictionary<string, object>` that may be null, the type of the `headers` parameter it is set
from. The model holds it as `Option<Headers>`, a map from string keys to `HeaderValue`s, which
are only copied, never inspected.

Files: `basics.dfy` (shared types and string/list tests), `topology.dfy` (declarations),
`configurations.dfy`, `retry_configuration.dfy`, `endpoints.dfy`, `legacy_endpoint.dfy`,
`publisher.dfy`, `batching.dfy`.

## Model

| member | source | states |
|---|---|---|
| Basics.AsLong | RabbitMq.Client.Wrapper/RabbitPublisher.cs:256 | the `(long)` cast of a delay is congruent to it modulo 2^64, lies in the signed 64-bit range, and keeps the value exactly when it is below 2^63 |
| Basics.NonBlankFilters | RabbitMq.Client.Wrapper/RabbitPublisher.cs:86-89 | filtering out blank strings keeps exactly the strings with text, and leaves nothing exactly when every string is blank |
| Basics.IsBlank | RabbitMq.Client.Wrapper/RabbitBase2.cs:102-103 | `IsEmpty` on a string: the null (empty) string is blank |
| Basics.HasText | RabbitMq.Client.Wrapper/RabbitBase2.cs:105 | `HasValue` on a string: a string with text is not the null (empty) string |
| Basics.HasItems | RabbitMq.Client.Wrapper/RabbitBase2.cs:102 | `HasValue` on a list: the list is present and non-empty, that is, its items are not empty |
| Basics.NonBlank | RabbitMq.Client.Wrapper/RabbitPublisher.cs:86-89 | the filter that drops blank strings never lengthens the list |
| Basics.NonBlankSingleton | RabbitMq.Client.Wrapper/RabbitPublisher.cs:86-89 | a single string is kept exactly when it has text |
| Basics.NonBlankCounts | RabbitMq.Client.Wrapper/RabbitPublisher.cs:86-89 | every string with text is kept as often as it occurs, and no blank string is kept |
| Basics.NonBlankKeepsText | RabbitMq.Client.Wrapper/RabbitBase2.cs:151 | a key list without blank keys passes the filter unchanged |
| Topology.Bindings | RabbitMq.Client.Wrapper/RabbitBase2.cs:285-296 | one binding of the queue to the exchange per routing key, in the keys' order |
| Topology.BindingsDeclareNoQueue | RabbitMq.Client.Wrapper/RabbitBase2.cs:285-296 | binding commands declare no queue |
| Topology.BindingsCount | RabbitMq.Client.Wrapper/RabbitBase2.cs:285-296 | each binding occurs as often as its routing key is listed, and no other command occurs |
| Topology.Repeat | RabbitMq.Client.Wrapper/RabbitBase2.cs:188-197 | `n` channels, each with the same declarations |
| Configurations.IsExchange | RabbitMq.Client.Wrapper/RabbitPublisherConfiguration.cs:55 | a publisher is an exchange only when its type is not the null (empty) string |
| Configurations.ToPublisherConfiguration | RabbitMq.Client.Wrapper/RabbitConfigurationBase.cs:69-91 | connection settings and arguments come from the base; name, type, headers and dependencies from the arguments; no bindings and no queues; an exchange exactly when the type has text; neither the exchange nor the fanout flag is set |
| Configurations.ToConsumerConfiguration | RabbitMq.Client.Wrapper/RabbitConfigurationBase.cs:104-130 | connection settings and arguments come from the base; name, workers, batch size, retry intervals, dependencies and bindings are passed through unchanged, so none is raised to one |
| Configurations.ConversionsIgnoreBaseIdentity | RabbitMq.Client.Wrapper/RabbitConfigurationBase.cs:78-90 | two bases with the same connection settings and arguments convert alike, whatever name, type, headers, workers, batch size, retry intervals, dependencies and bindings are passed: the base's own name, bindings and dependencies are dropped |
| RetryConfiguration.RetryExchangeConfiguration | RabbitMq.Client.Wrapper/RabbitConsumerConfiguration.cs:36-57 | the consumer's connection settings, the name with `-retry` appended, type `x-delayed-message` (so an exchange), the argument `x-delayed-type` = `fanout`, neither flag set, and nothing else |
| RetryConfiguration.DeadQueueConfiguration | RabbitMq.Client.Wrapper/RabbitConsumerConfiguration.cs:62-76 | the consumer's connection settings, the name with `-dead` appended, no type (so a plain queue), no arguments, neither flag set |
| RetryConfiguration.DerivedConfigurationsIgnoreConsumerSettings | RabbitMq.Client.Wrapper/RabbitConsumerConfiguration.cs:36-76 | neither derived configuration depends on retry intervals, batch size or workers |
| RetryConfiguration.DerivedNamesDistinct | RabbitMq.Client.Wrapper/RabbitAnnotations.cs:19-33 | the queue, its retry exchange and its dead queue have three distinct names |
| RetryConfiguration.AtLeastFloor | RabbitMq.Client.Wrapper/RabbitConsumerConfiguration.cs:18 | keeps exactly the intervals of at least 5000 ms, each with its multiplicity |
| RetryConfiguration.SortAscending | RabbitMq.Client.Wrapper/RabbitConsumerConfiguration.cs:17 | ascending, and a permutation of its input |
| RetryConfiguration.RetryLadder | RabbitMq.Client.Wrapper/RabbitConsumerConfiguration.cs:16-19 | ascending, every interval at least 5000 ms, each admitted interval kept with its multiplicity, empty without a list |
| RetryConfiguration.Tries | RabbitMq.Client.Wrapper/RabbitConsumerConfiguration.cs:16-19 | the number of tries is the number of admitted intervals: zero without a list, never more than configured |
| RetryConfiguration.LadderKeepsAdmittedIntervals | RabbitMq.Client.Wrapper/RabbitConsumerConfiguration.cs:16-19 | every configured interval of at least 5000 ms is on the ladder; a list of only smaller values gives no tries |
| Endpoints.BaseCheck | RabbitMq.Client.Wrapper/RabbitBase2.cs:95-109 | accepted exactly when the configuration, its hosts and its name are present; otherwise the first missing one is named in an argument error |
| Endpoints.PublisherCheck | RabbitMq.Client.Wrapper/RabbitBase2.cs:122-135 | a plain queue always passes; an exchange passes exactly when every queue has a name and the type is fanout or direct; the two failures raise `Queues.Name` and not-implemented, in that order |
| Endpoints.SelectedQueues | RabbitMq.Client.Wrapper/RabbitBase2.cs:137-148 | a publisher always has at least one queue to fix |
| Endpoints.FixedQueue | RabbitMq.Client.Wrapper/RabbitBase2.cs:151-155 | fixing keeps the queue's name and leaves it at least one routing key |
| Endpoints.FixedQueues | RabbitMq.Client.Wrapper/RabbitBase2.cs:149-156 | fixing keeps the number of queues |
| Endpoints.FixedQueuesWellFormed | RabbitMq.Client.Wrapper/RabbitBase2.cs:149-156 | queues with names keep them when fixed; each gets at least one key, and no key is blank |
| Endpoints.FixedQueuesPointwise | RabbitMq.Client.Wrapper/RabbitBase2.cs:149-156 | each queue is fixed on its own and in place |
| Endpoints.PublisherSetup | RabbitMq.Client.Wrapper/RabbitBase2.cs:116-156 | succeeds exactly when both checks pass and every selected queue has a key list; the result is the configuration with the selected queues fixed; a failure carries the base check's error first, then the publisher check's, then the null-argument error of the filter |
| Endpoints.SetupQueuesWellFormed | RabbitMq.Client.Wrapper/RabbitBase2.cs:137-156 | after setup there is at least one queue; every queue has a name and at least one key, and no key is blank |
| Endpoints.DefaultQueueSetup | RabbitMq.Client.Wrapper/RabbitBase2.cs:137-148 | without a type, or without queues, the only queue is named after the publisher and routed by that name |
| Endpoints.ConfiguredQueuesKept | RabbitMq.Client.Wrapper/RabbitBase2.cs:149-156 | an exchange's own queues keep their names and order; each keeps its non-blank keys in order, or gets its own name as key when none is left |
| Endpoints.AbsentRoutingKeysRejected | RabbitMq.Client.Wrapper/RabbitBase2.cs:151 | a queue without a key list makes setup fail with the null-argument error of the filter |
| Endpoints.RetryExchangeRejected | RabbitMq.Client.Wrapper/RabbitBase2.cs:131-134 | a consumer's retry-exchange configuration cannot be set up here: its type is neither fanout nor direct |
| Endpoints.PublisherDeclarations | RabbitMq.Client.Wrapper/RabbitBase2.cs:158-169 | an exchange publisher's plan starts with the declaration of its exchange, under its name and type |
| Endpoints.QueueDeclarationsMembers | RabbitMq.Client.Wrapper/RabbitBase2.cs:162-169 | a command is in the queue part of the plan exactly when it is an entry of one of the queues |
| Endpoints.QueueEntriesMembers | RabbitMq.Client.Wrapper/RabbitBase2.cs:164-168 | a command is among a queue's entries exactly when it is the queue's declaration or, for an exchange, a binding of the queue under one of its routing keys |
| Endpoints.QueueEntriesCounts | RabbitMq.Client.Wrapper/RabbitBase2.cs:164-168 | a queue has one declaration plus, for an exchange, one binding per listed routing key: each key is bound as often as it is listed |
| Endpoints.QueueEntriesQueues | RabbitMq.Client.Wrapper/RabbitBase2.cs:164-168 | a queue's entries declare that queue and no other |
| Endpoints.QueueDeclarationsQueues | RabbitMq.Client.Wrapper/RabbitBase2.cs:162-169 | the queue part declares each queue once, in order |
| Endpoints.QueueDeclarationsDeclareNoExchange | RabbitMq.Client.Wrapper/RabbitBase2.cs:162-169 | the queue part declares no exchange |
| Endpoints.QueueDeclarationsBindingCount | RabbitMq.Client.Wrapper/RabbitBase2.cs:162-169 | in the queue part each binding occurs as often as its routing key is listed for queues of that name, and never for a plain queue |
| Endpoints.PlanDeclaresExchangeFirst | RabbitMq.Client.Wrapper/RabbitBase2.cs:158-161 | the exchange is declared exactly when the publisher is one, and then only as the first command |
| Endpoints.PlanDeclaresQueuesInOrder | RabbitMq.Client.Wrapper/RabbitBase2.cs:158-169 | the plan declares the publisher's queues, each once and in order |
| Endpoints.PlanBindings | RabbitMq.Client.Wrapper/RabbitBase2.cs:249-296 | every command is durable, non-exclusive, kept and without arguments; bindings exist only for an exchange, each for one of its queues and routing keys, and every queue and routing key has one |
| Endpoints.PlanBindingCounts | RabbitMq.Client.Wrapper/RabbitBase2.cs:158-169 | each binding of the plan occurs as often as its routing key is listed for queues of that name, so exactly once per queue and key when names and keys are distinct; a plain queue binds nothing |
| Endpoints.ConsumerChannels | RabbitMq.Client.Wrapper/RabbitBase2.cs:188-197 | one channel per configured worker, each declaring the consumer's queue |
| Endpoints.DefaultWorkersOpenNoChannel | RabbitMq.Client.Wrapper/RabbitConfigurationBase.cs:107 | a consumer configuration converted with the default worker count of zero opens no channel |
| Endpoints.FixQueues | RabbitMq.Client.Wrapper/RabbitBase2.cs:149-156 | the fixing loop succeeds exactly when every queue has a key list, and then yields the fixed queues; otherwise it fails with the null-argument error |
| Endpoints.FixQueue | RabbitMq.Client.Wrapper/RabbitBase2.cs:151-155 | one iteration of the fixing loop appends the next fixed queue to those fixed so far |
| Endpoints.DeclareQueues | RabbitMq.Client.Wrapper/RabbitBase2.cs:162-169 | the declaration loop issues exactly the queue part of the plan |
| Endpoints.Endpoint.constructor | RabbitMq.Client.Wrapper/RabbitBase2.cs:99 | starts without channels |
| Endpoints.Endpoint.InitPublisher | RabbitMq.Client.Wrapper/RabbitBase2.cs:116-172 | returns the setup result; on success exactly one channel carrying the plan is added, on failure none |
| Endpoints.Endpoint.InitConsumer | RabbitMq.Client.Wrapper/RabbitBase2.cs:179-198 | returns the base check; on success the consumer's channels are added, on failure none |
| LegacyEndpoints.StartCheck | RabbitMq.Client.Wrapper/RabbitBase.cs:102-118 | accepted exactly when configuration, hosts, a queue or exchange, a type for an exchange, no queue-and-exchange pair in a publisher subclass, and a fanout or direct type are all present; each failure gives its own error in the source's order |
| LegacyEndpoints.Fixed | RabbitMq.Client.Wrapper/RabbitBase.cs:120-122 | at least one worker, batches of at least one, and `[""]` as routing keys when none are given; values already valid and all other fields are kept |
| LegacyEndpoints.FixedIdempotent | RabbitMq.Client.Wrapper/RabbitBase.cs:120-122 | fixing twice is fixing once |
| LegacyEndpoints.StartChannels | RabbitMq.Client.Wrapper/RabbitBase.cs:124-178 | one channel per fixed worker (at least one), each with the worker declarations |
| LegacyEndpoints.WorkerDeclarations | RabbitMq.Client.Wrapper/RabbitBase.cs:137-174 | a named exchange is declared first; one command per named exchange and per named queue, plus one binding per routing key when both are named |
| LegacyEndpoints.WorkerDeclaresExchangeFirst | RabbitMq.Client.Wrapper/RabbitBase.cs:137-151 | every command is durable, non-exclusive, kept and without arguments; an exchange is declared exactly when one is named, and then first |
| LegacyEndpoints.WorkerDeclaresNamedQueue | RabbitMq.Client.Wrapper/RabbitBase.cs:152-161 | the queue is declared exactly when one is named, and no other queue is |
| LegacyEndpoints.WorkerBindings | RabbitMq.Client.Wrapper/RabbitBase.cs:162-173 | bindings exist only when both queue and exchange are named, each for one of the routing keys, and every routing key has one |
| LegacyEndpoints.WorkerBindingCounts | RabbitMq.Client.Wrapper/RabbitBase.cs:162-173 | each binding occurs as often as its routing key is listed, so exactly once per key when the keys are distinct; nothing is bound unless both queue and exchange are named |
| LegacyEndpoints.DefaultRoutingKeyIsEmpty | RabbitMq.Client.Wrapper/RabbitBase.cs:122 | without routing keys the queue is bound once, with the empty key |
| LegacyEndpoints.ArgumentsIgnored | RabbitMq.Client.Wrapper/RabbitBase.cs:128-136 | the configured arguments never reach the broker: the copying loop runs over the fresh empty table |
| LegacyEndpoints.QueueOnlyRejected | RabbitMq.Client.Wrapper/RabbitBase.cs:115-118 | a plain queue without an exchange type is rejected as not implemented, because the type check applies without an exchange too |
| LegacyEndpoints.LegacyEndpoint.constructor | RabbitMq.Client.Wrapper/RabbitBase.cs:44-54 | stores the configuration, with no channels |
| LegacyEndpoints.LegacyEndpoint.Start | RabbitMq.Client.Wrapper/RabbitBase.cs:99-179 | returns the check's verdict; on success the configuration is fixed in place and one channel per worker is added; on failure nothing changes |
| LegacyEndpoints.DeclareWorker | RabbitMq.Client.Wrapper/RabbitBase.cs:137-174 | one iteration of the worker loop issues exactly the worker declarations |
| Publishers.MergeHeaders | RabbitMq.Client.Wrapper/RabbitPublisher.cs:147-170 | the keys of both sources; the per-publish value wins; configured-only values are kept; two nulls give no headers |
| Publishers.MergeInto | RabbitMq.Client.Wrapper/RabbitPublisher.cs:157-167 | the add-or-overwrite loop yields the map updated with every pair of the source |
| Publishers.RoutesOf | RabbitMq.Client.Wrapper/RabbitPublisher.cs:86-93 | at least one route; when some dependency route has text, the routes are the dependency routes with text, in order and each as often as it occurs; otherwise the publisher's own name |
| Publishers.RepeatedRouteHasNoDefault | RabbitMq.Client.Wrapper/RabbitPublisher.cs:86-94 | two dependencies with the same route give that route twice, so there is no default route |
| Publishers.DefaultRouteOf | RabbitMq.Client.Wrapper/RabbitPublisher.cs:94 | the only route, or empty when there are several |
| Publishers.DestinationOf | RabbitMq.Client.Wrapper/RabbitPublisher.cs:84 | the publisher's name when flagged as an exchange, else the default exchange |
| Publishers.Publisher.constructor | RabbitMq.Client.Wrapper/RabbitPublisher.cs:72-97 | destination, routes and default route derived from the configuration; empty headers |
| Publishers.Publisher.PublishHeaders | RabbitMq.Client.Wrapper/RabbitPublisher.cs:147-170 | the two merge loops compute the merged headers |
| Publishers.Publisher.Publish | RabbitMq.Client.Wrapper/RabbitPublisher.cs:266-297 | an invalid route raises an argument error naming it, with headers untouched; otherwise headers are merged and a persistent delivery goes to the destination under the route |
| Publishers.Publisher.PublishTo | RabbitMq.Client.Wrapper/RabbitPublisher.cs:221-243 | one message under a given route, without extra headers |
| Publishers.Publisher.PublishDefault | RabbitMq.Client.Wrapper/RabbitPublisher.cs:210-214 | one message under the default route |
| Publishers.Publisher.PublishDelayed | RabbitMq.Client.Wrapper/RabbitPublisher.cs:250-258 | under the default route, with `x-delay` set to the signed cast of the delay over the configured headers |
| Publishers.Publisher.PublishMany | RabbitMq.Client.Wrapper/RabbitPublisher.cs:191-204 | a null or empty list sends nothing; an invalid route stops at the first message; otherwise one delivery per message, in order |
| Publishers.Publisher.ValidateRoute | RabbitMq.Client.Wrapper/RabbitPublisher.cs:137-140 | the route check of a publish: every route is accepted by a publisher not flagged as an exchange and by a fanout; otherwise exactly the publisher's own routes are accepted |
| Publishers.Publisher.AmbiguousDefaultRouteRejected | RabbitMq.Client.Wrapper/RabbitPublisher.cs:94 | a routed exchange with several routes rejects every publish without an explicit route, whatever its name |
| Publishers.Publisher.SingleRouteIsDefault | RabbitMq.Client.Wrapper/RabbitPublisher.cs:94 | with a single route, a publish without a route is accepted and uses it |
| Publishers.Publisher.BlankRouteRejected | RabbitMq.Client.Wrapper/RabbitPublisher.cs:137-140 | a routed exchange whose name has text rejects a blank route |
| Publishers.Open | RabbitMq.Client.Wrapper/RabbitPublisher.cs:72-97 | returns the endpoint as well; a failed setup passes on its error and leaves the endpoint without channels; a successful setup issues the plan on one channel even when the dependencies are then found missing, which fails; with dependencies a fresh valid publisher over that endpoint, with the set-up configuration and no headers |
| Publishers.OpenFromBase | RabbitMq.Client.Wrapper/RabbitPublisher.cs:54-65 | the same for a configuration converted from a base: the setup's error is passed on; the plan is issued after a successful setup; missing dependencies fail; with dependencies the publisher has the given name, type, headers and dependencies, is not flagged as an exchange and sends to the default exchange |
| Publishers.DelayHeaderWins | RabbitMq.Client.Wrapper/RabbitPublisher.cs:250-258 | the delay header survives the merge whatever the configured headers hold, and equals the delay below 2^63 |
| Batching.Limit | RabbitMq.Client.Wrapper/RabbitConsumerBase.cs:91 | the effective batch size: at least one, the batch size itself when that is positive, and one for a batch size of zero |
| Batching.Step | RabbitMq.Client.Wrapper/RabbitConsumerBase.cs:21-96 | nothing is lost or duplicated; a message records its tag and is handed on with the buffer exactly when the buffer reaches the batch size; the timer hands on only a non-empty buffer, with the latest tag |
| Batching.ReplayConserves | RabbitMq.Client.Wrapper/RabbitConsumerBase.cs:71-96 | over any run, the batches handed on followed by the buffer are the first buffer followed by every message, in order |
| Batching.ReplayBounded | RabbitMq.Client.Wrapper/RabbitConsumerBase.cs:85-96 | the buffer stays below the batch size; every batch is non-empty and no larger than the batch size |
| Batching.MessagesOnlyFullBatches | RabbitMq.Client.Wrapper/RabbitConsumerBase.cs:85-96 | without timer ticks only full batches are handed on, and the messages fill whole batches plus the buffer |
| Batching.Accumulator.constructor | RabbitMq.Client.Wrapper/RabbitConsumerBase.cs:21-24 | empty buffer, tag zero, the given batch size |
| Batching.Accumulator.Discharge | RabbitMq.Client.Wrapper/RabbitConsumerBase.cs:71-77 | hands on the whole buffer with the latest tag and empties it |
| Batching.Accumulator.Preserve | RabbitMq.Client.Wrapper/RabbitConsumerBase.cs:85-96 | performs one message step in place, logging the package and any batch, and keeps the accumulator valid |
| Batching.Accumulator.TimerElapsed | RabbitMq.Client.Wrapper/RabbitConsumerBase.cs:26-33 | performs one timer step in place, logging any batch, and keeps the accumulator valid |

## Left out

- Connections, channels and the broker: creating the connection factory, connecting and opening
  channels, and `BasicPublish` are network I/O. A channel is modelled only by the declarations
  issued on it, and a publish by the delivery it would send.
- In `RabbitBase2`, the publisher's channel is opened before the publisher checks run. The model
  opens it only after they pass, so a rejected publisher leaves no channel behind.
- JSON serialisation of messages, logging (`OnStart`, `OnPublished`, `OnException`'s log line),
  timings, and `Dispose` are left out. A serialisation failure is not modelled. The exception
  `OnException` rethrows is the `Failure` result.
- Publishers.Publisher.Publish: `Task`-based asynchrony is not modelled; every publish completes
  before the next starts.
- The consumer (RabbitMq.Client.Wrapper/RabbitConsumer.cs) is not part of this model: the
  deserialisation, acknowledgement, retry scheduling and dead-lettering of messages. That includes
  its subscription to the accumulator's `Handle` event. The batch handed on is the result of
  `Preserve`/`TimerElapsed` instead of an event invocation.
- Batching.Accumulator.TimerElapsed: the 60-second timer runs on its own thread. The model treats
  each tick as an atomic step between messages, and leaves out concurrent access to the buffer.
- The legacy configuration's helpers `GetCombinedName` and `Clone`
  (RabbitMq.Client.Wrapper/RabbitConfiguration.cs) are not part of this model.
- Basics.IsWhiteSpace: `char.IsWhiteSpace` is modelled on the Latin-1 range only.
- Null elements inside lists (a null host, a null routing key, a null queue) are not modelled.
  Lists and strings stand for their values.
- Aliasing and in-place mutation of configuration objects are not modelled. `RabbitBase2` rewrites
  the caller's queue objects in place, so queues fixed before a later queue's null key list raises
  stay rewritten. The model returns the fixed configuration as a value instead, and leaves the
  caller's configuration unchanged on failure.
- Configurations.ToPublisherConfiguration and Configurations.ToConsumerConfiguration: a null base
  configuration, which makes the source raise a null-reference exception, is not modelled.
- LegacyEndpoints.LegacyEndpoint.constructor: the source's constructor calls `Start` itself. The
  model keeps `Start` as a separate method on the constructed object. The subclass test
  `GetType().IsSubclassOf(...)` is the parameter `publisherSubclass`.
- Publishers.Publisher.constructor: `Routes` has a public setter in the source; the model fixes it
  at construction, so a later reassignment by the caller is not modelled.
- The `Channel` getter that returns the first channel is not modelled; `channels` is the whole
  list.
- RetryConfiguration.RetryLadder: it follows the `RetryIntervals` documentation, which sorts and
  drops short intervals but does not remove duplicates. Duplicates are kept, one try each. No code
  in the core computes the ladder.
- The consumer's call to the accumulator's `Preserve` is commented out
  (RabbitMq.Client.Wrapper/RabbitConsumer.cs:65). The consumer does subscribe to `Handle`
  (RabbitConsumer.cs:73-76), but that file is not part of this model. The batching is modelled
  from `RabbitConsumerBase` alone.
- Basics.IsBlank, Basics.HasText and Basics.HasItems: the CoreKit `IsEmpty` and `HasValue`
  helpers are not part of this model. Their meaning is assumed as stated above, not derived
  from their code.
