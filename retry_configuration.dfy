/** What a consumer configuration derives for its retry exchange and its dead
    queue, and the retry ladder its `RetryIntervals` documentation promises
    (RabbitConsumerConfiguration.cs, RabbitAnnotations.cs). */
module RetryConfiguration {
  import opened Basics
  import opened Configurations

  /** Suffix of the retry exchange's name. */
  const RetrySuffix := "-retry"
  /** Type of the retry exchange: the broker's delayed-message exchange. */
  const RetryType := "x-delayed-message"
  /** Argument telling the delayed-message exchange how to route once the delay is over. */
  const RetryArgumentKey := "x-delayed-type"
  const RetryArgumentValue := "fanout"
  /** Header carrying a message's delay in milliseconds. */
  const RetryHeaderKey := "x-delay"
  /** Suffix of the dead queue's name. */
  const DeadSuffix := "-dead"
  /** Retry intervals below this many milliseconds are ignored. */
  const MinRetryInterval := 5000

  /** The publisher configuration of a consumer's retry exchange. */
  function RetryExchangeConfiguration(c: ConsumerConfiguration): (r: PublisherConfiguration)
    ensures ConnectionOf(r.base) == ConnectionOf(c.base)
    ensures r.base.name == c.base.name + RetrySuffix
    ensures r.exchangeType == RetryType && IsExchange(r)
    ensures r.base.arguments == Some(map[RetryArgumentKey := TextValue(RetryArgumentValue)])
    ensures r.base.bindings == None && r.base.dependencies == None
    ensures r.queues == None && r.headers == None
    ensures !r.exchange && !r.fanout
  {
    assert !IsWhiteSpace(RetryType[0]);
    PublisherConfiguration(
      BaseConfiguration(c.base.hosts, c.base.virtualHost, c.base.port, c.base.user, c.base.password,
                        c.base.name + RetrySuffix,
                        Some(map[RetryArgumentKey := TextValue(RetryArgumentValue)]), None, None),
      RetryType, None, None, false, false)
  }

  /** The publisher configuration of a consumer's dead queue: no type, so a plain queue. */
  function DeadQueueConfiguration(c: ConsumerConfiguration): (r: PublisherConfiguration)
    ensures ConnectionOf(r.base) == ConnectionOf(c.base)
    ensures r.base.name == c.base.name + DeadSuffix
    ensures !IsExchange(r)
    ensures r.base.arguments == None && r.base.bindings == None && r.base.dependencies == None
    ensures r.queues == None && r.headers == None
    ensures !r.exchange && !r.fanout
  {
    PublisherConfiguration(
      BaseConfiguration(c.base.hosts, c.base.virtualHost, c.base.port, c.base.user, c.base.password,
                        c.base.name + DeadSuffix, None, None, None),
      "", None, None, false, false)
  }

  /** Neither derived configuration depends on the retry intervals, the batch size or the workers. */
  lemma DerivedConfigurationsIgnoreConsumerSettings(c: ConsumerConfiguration, d: ConsumerConfiguration)
    requires c.base == d.base
    ensures RetryExchangeConfiguration(c) == RetryExchangeConfiguration(d)
    ensures DeadQueueConfiguration(c) == DeadQueueConfiguration(d)
  {
  }

  /** The consumer's queue, its retry exchange and its dead queue have three distinct names. */
  lemma {:induction false} DerivedNamesDistinct(c: ConsumerConfiguration)
    ensures RetryExchangeConfiguration(c).base.name != DeadQueueConfiguration(c).base.name
    ensures RetryExchangeConfiguration(c).base.name != c.base.name
    ensures DeadQueueConfiguration(c).base.name != c.base.name
  {
    var n := c.base.name;
    assert |n + RetrySuffix| == |n| + 6;
    assert |n + DeadSuffix| == |n| + 5;
  }

  // ---------------------------------------------------------------------------
  // The retry ladder: sorted ascending, values below the floor ignored,
  // its length the number of tries, no list meaning no retry at all.

  predicate Ascending(xs: seq<ULong>) {
    forall i, j :: 0 <= i < j < |xs| ==> xs[i] <= xs[j]
  }

  /** The intervals that are not ignored, in their original order. */
  function AtLeastFloor(xs: seq<ULong>): (r: seq<ULong>)
    ensures forall i :: 0 <= i < |r| ==> r[i] >= MinRetryInterval
    ensures forall x :: x in r <==> x in xs && x >= MinRetryInterval
    ensures forall x :: multiset(r)[x] == if x >= MinRetryInterval then multiset(xs)[x] else 0
  {
    if xs == [] then []
    else
      assert xs == [xs[0]] + xs[1..];
      (if xs[0] >= MinRetryInterval then [xs[0]] else []) + AtLeastFloor(xs[1..])
  }

  /** `x` placed into an ascending list. */
  function Insert(x: ULong, xs: seq<ULong>): (r: seq<ULong>)
    requires Ascending(xs)
    ensures Ascending(r)
    ensures multiset(r) == multiset(xs) + multiset{x}
    ensures |r| == |xs| + 1 && (r[0] == x || (xs != [] && r[0] == xs[0]))
  {
    if xs == [] || x <= xs[0] then [x] + xs
    else
      assert xs == [xs[0]] + xs[1..];
      var rest := Insert(x, xs[1..]);
      assert xs[0] <= rest[0];
      [xs[0]] + rest
  }

  /** The intervals sorted ascending. */
  function SortAscending(xs: seq<ULong>): (r: seq<ULong>)
    ensures Ascending(r)
    ensures multiset(r) == multiset(xs)
  {
    if xs == [] then []
    else
      assert xs == [xs[0]] + xs[1..];
      Insert(xs[0], SortAscending(xs[1..]))
  }

  /** The effective retry ladder of a configured `RetryIntervals` list. */
  function RetryLadder(intervals: Option<seq<ULong>>): (r: seq<ULong>)
    ensures Ascending(r)
    ensures forall i :: 0 <= i < |r| ==> r[i] >= MinRetryInterval
    ensures intervals.None? ==> r == []
    ensures forall x :: multiset(r)[x] == if x >= MinRetryInterval then multiset(ItemsOf(intervals))[x] else 0
  {
    var r := SortAscending(AtLeastFloor(ItemsOf(intervals)));
    assert forall i :: 0 <= i < |r| ==> r[i] in multiset(r);
    r
  }

  /** The number of tries: one per interval of the ladder. */
  function Tries(intervals: Option<seq<ULong>>): (n: nat)
    ensures intervals.None? ==> n == 0
    ensures n <= |ItemsOf(intervals)|
    ensures n == |AtLeastFloor(ItemsOf(intervals))|
  {
    var ladder := RetryLadder(intervals);
    assert |multiset(ladder)| == |ladder|;
    assert |multiset(AtLeastFloor(ItemsOf(intervals)))| == |AtLeastFloor(ItemsOf(intervals))|;
    LengthAtLeastFloor(ItemsOf(intervals));
    |ladder|
  }

  lemma {:induction false} LengthAtLeastFloor(xs: seq<ULong>)
    ensures |AtLeastFloor(xs)| <= |xs|
  {
    if xs != [] {
      LengthAtLeastFloor(xs[1..]);
    }
  }

  /** Every configured interval of at least the floor is on the ladder, with its multiplicity;
      a list without such values yields no tries. */
  lemma {:induction false} LadderKeepsAdmittedIntervals(intervals: seq<ULong>)
    ensures forall x :: x in intervals && x >= MinRetryInterval ==> x in RetryLadder(Some(intervals))
    ensures (forall i :: 0 <= i < |intervals| ==> intervals[i] < MinRetryInterval) ==> Tries(Some(intervals)) == 0
  {
    var ladder := RetryLadder(Some(intervals));
    forall x: ULong | x in intervals && x >= MinRetryInterval
      ensures x in ladder
    {
      assert x in multiset(intervals);
      assert x in multiset(ladder);
    }
  }
}
