/** The consumer's batch accumulator (RabbitConsumerBase.cs): received
    messages, each with its retry delay, are buffered with the delivery tag of
    the latest one, and handed on as one batch when the buffer reaches the
    batch size or when the discharge timer fires on a non-empty buffer.
    `Step` is the pure transition of one event; the class `Accumulator`
    performs it in place and keeps ghost logs of everything preserved and
    every batch handed on. */
module Batching {
  import opened Basics

  /** A buffered message with its retry delay in milliseconds. */
  datatype Package<T> = Package(message: T, delay: ULong)

  /** What the accumulator hands on: the buffered packages and the latest delivery tag. */
  datatype Batch<T> = Batch(packages: seq<Package<T>>, tag: ULong)

  /** The accumulator's state: its buffer and the latest delivery tag. */
  datatype Accumulation<T> = Accumulation(packages: seq<Package<T>>, lastTag: ULong)

  /** A message received, or the discharge timer firing. */
  datatype Event<T> = Preserved(message: T, tag: ULong, delay: ULong) | Elapsed

  /** The state after one event and the batch it handed on, if any. */
  datatype Transition<T> = Transition(state: Accumulation<T>, emitted: Option<Batch<T>>)

  /** The state after several events and the batches handed on, in order. */
  datatype Run<T> = Run(state: Accumulation<T>, batches: seq<Batch<T>>)

  /** The effective batch size: a batch size of zero discharges on every message, like one. */
  function Limit(batchSize: UShort): (n: nat)
    ensures n >= 1 && n >= batchSize
    ensures batchSize >= 1 ==> n == batchSize
    ensures batchSize == 0 ==> n == 1
  {
    if batchSize < 1 then 1 else batchSize
  }

  function Emitted<T>(o: Option<Batch<T>>): seq<Batch<T>> {
    if o.Some? then [o.value] else []
  }

  /** The package an event adds to the buffer. */
  function Payload<T>(e: Event<T>): seq<Package<T>> {
    if e.Preserved? then [Package(e.message, e.delay)] else []
  }

  /** All packages of a sequence of batches, in order. */
  function Flatten<T>(batches: seq<Batch<T>>): seq<Package<T>> {
    if batches == [] then [] else Flatten(batches[..|batches| - 1]) + batches[|batches| - 1].packages
  }

  /** All packages a sequence of events adds, in order. */
  function Payloads<T>(events: seq<Event<T>>): seq<Package<T>> {
    if events == [] then [] else Payloads(events[..|events| - 1]) + Payload(events[|events| - 1])
  }

  /** One event. A message is appended and remembered as the latest tag; the buffer is handed
      on, with that tag, once it holds a batch. The timer hands on a non-empty buffer with the
      latest tag and leaves an empty one alone. */
  function Step<T>(batchSize: UShort, s: Accumulation<T>, e: Event<T>): (r: Transition<T>)
    // nothing is lost or duplicated
    ensures Flatten(Emitted(r.emitted)) + r.state.packages == s.packages + Payload(e)
    ensures r.emitted.Some? ==> |r.emitted.value.packages| > 0 && r.state.packages == []
    ensures |s.packages| < Limit(batchSize) ==> |r.state.packages| < Limit(batchSize)
    ensures e.Preserved? ==>
      && r.state.lastTag == e.tag
      && (r.emitted.Some? <==> |s.packages| + 1 >= batchSize)
      && (r.emitted.Some? ==> r.emitted.value.tag == e.tag)
      && (|s.packages| < Limit(batchSize) && r.emitted.Some? ==> |r.emitted.value.packages| == Limit(batchSize))
      && (r.emitted.None? ==> r.state.packages == s.packages + [Package(e.message, e.delay)])
    ensures e.Elapsed? && s.packages == [] ==> r == Transition(s, None)
    ensures e.Elapsed? && s.packages != [] ==>
      r.emitted == Some(Batch(s.packages, s.lastTag)) && r.state == Accumulation([], s.lastTag)
  {
    assert Flatten<T>([]) == [];
    match e
    case Preserved(message, tag, delay) =>
      var packages := s.packages + [Package(message, delay)];
      if |packages| >= batchSize then
        assert Flatten([Batch(packages, tag)]) == packages by {
          assert [Batch(packages, tag)][..0] == [];
        }
        Transition(Accumulation([], tag), Some(Batch(packages, tag)))
      else Transition(Accumulation(packages, tag), None)
    case Elapsed =>
      if |s.packages| > 0 then
        assert Flatten([Batch(s.packages, s.lastTag)]) == s.packages by {
          assert [Batch(s.packages, s.lastTag)][..0] == [];
        }
        Transition(Accumulation([], s.lastTag), Some(Batch(s.packages, s.lastTag)))
      else Transition(s, None)
  }

  /** Events applied one after the other. */
  function Replay<T>(batchSize: UShort, s: Accumulation<T>, events: seq<Event<T>>): Run<T> {
    if events == [] then Run(s, [])
    else
      var run := Replay(batchSize, s, events[..|events| - 1]);
      var t := Step(batchSize, run.state, events[|events| - 1]);
      Run(t.state, run.batches + Emitted(t.emitted))
  }

  /** A package appended to the buffer, whether or not the buffer is then handed on as a batch. */
  lemma PreservedBalance<T>(handled: seq<Batch<T>>, packages: seq<Package<T>>, preserved: seq<Package<T>>,
                            p: Package<T>, tag: ULong)
    requires Flatten(handled) + packages == preserved
    ensures Flatten(handled + [Batch(packages + [p], tag)]) + [] == preserved + [p]
    ensures Flatten(handled) + (packages + [p]) == preserved + [p]
  {
    var batch := Batch(packages + [p], tag);
    FlattenAppend(handled, [batch]);
    assert Flatten([batch]) == batch.packages by {
      assert [batch][..0] == [];
    }
  }

  /** Proof helper: regrouping a concatenation, used as a hint in `ReplayConserves`. */
  lemma Associative<X>(a: seq<X>, b: seq<X>, c: seq<X>)
    ensures (a + b) + c == a + (b + c)
  {
  }

  lemma {:induction false} FlattenAppend<T>(a: seq<Batch<T>>, b: seq<Batch<T>>)
    ensures Flatten(a + b) == Flatten(a) + Flatten(b)
    decreases |b|
  {
    if b == [] {
      assert a + b == a;
    } else {
      assert (a + b)[..|a + b| - 1] == a + b[..|b| - 1];
      FlattenAppend(a, b[..|b| - 1]);
    }
  }

  /** No loss and no duplication: the batches handed on, followed by the buffer, are the buffer
      at the start followed by every message received, in order. */
  lemma {:induction false} ReplayConserves<T>(batchSize: UShort, s: Accumulation<T>, events: seq<Event<T>>)
    ensures Flatten(Replay(batchSize, s, events).batches) + Replay(batchSize, s, events).state.packages
      == s.packages + Payloads(events)
    decreases |events|
  {
    if events != [] {
      var init := events[..|events| - 1];
      var run := Replay(batchSize, s, init);
      var t := Step(batchSize, run.state, events[|events| - 1]);
      var last := Payload(events[|events| - 1]);
      var old_, new_, flushed := Flatten(run.batches), t.state.packages, Flatten(Emitted(t.emitted));
      assert flushed + new_ == run.state.packages + last;
      assert old_ + run.state.packages == s.packages + Payloads(init) by {
        ReplayConserves(batchSize, s, init);
      }
      assert Flatten(run.batches + Emitted(t.emitted)) == old_ + flushed by {
        FlattenAppend(run.batches, Emitted(t.emitted));
      }
      assert Payloads(events) == Payloads(init) + last;
      assert Replay(batchSize, s, events) == Run(t.state, run.batches + Emitted(t.emitted));
      calc {
        (old_ + flushed) + new_;
        { Associative(old_, flushed, new_); }
        old_ + (flushed + new_);
        old_ + (run.state.packages + last);
        { Associative(old_, run.state.packages, last); }
        (old_ + run.state.packages) + last;
        (s.packages + Payloads(init)) + last;
        { Associative(s.packages, Payloads(init), last); }
        s.packages + Payloads(events);
      }
    }
  }

  /** From a buffer below the batch size, the buffer stays below it, and every batch handed on
      is non-empty and no larger than the batch size. */
  lemma {:induction false} ReplayBounded<T>(batchSize: UShort, s: Accumulation<T>, events: seq<Event<T>>)
    requires |s.packages| < Limit(batchSize)
    ensures var run := Replay(batchSize, s, events);
      && |run.state.packages| < Limit(batchSize)
      && forall b :: b in run.batches ==> 0 < |b.packages| <= Limit(batchSize)
    decreases |events|
  {
    if events != [] {
      ReplayBounded(batchSize, s, events[..|events| - 1]);
    }
  }

  /** Without timer ticks, messages are handed on in full batches only: from a buffer below the
      batch size, the messages fill whole batches and what is left stays buffered, below the
      batch size. */
  lemma {:induction false} MessagesOnlyFullBatches<T>(batchSize: UShort, s: Accumulation<T>, events: seq<Event<T>>)
    requires |s.packages| < Limit(batchSize)
    requires forall i :: 0 <= i < |events| ==> events[i].Preserved?
    ensures var run := Replay(batchSize, s, events);
      && |run.batches| * Limit(batchSize) + |run.state.packages| == |s.packages| + |events|
      && |run.state.packages| < Limit(batchSize)
      && forall b :: b in run.batches ==> |b.packages| == Limit(batchSize)
    decreases |events|
  {
    if events != [] {
      var init := events[..|events| - 1];
      var run := Replay(batchSize, s, init);
      var t := Step(batchSize, run.state, events[|events| - 1]);
      MessagesOnlyFullBatches(batchSize, s, init);
      ReplayLast(batchSize, s, events);
      var limit := Limit(batchSize);
      if t.emitted.Some? {
        assert t.state.packages == [] && |run.state.packages| + 1 == limit;
        MultiplySuccessor(|run.batches|, limit);
      } else {
        assert |t.state.packages| == |run.state.packages| + 1;
      }
    }
  }

  /** Proof helper: one more full batch adds one batch size, for `MessagesOnlyFullBatches`. */
  lemma MultiplySuccessor(n: nat, m: nat)
    ensures (n + 1) * m == n * m + m
  {
  }

  /** Proof helper: the last event of a replay is one step from the replay of the others. */
  lemma ReplayLast<T>(batchSize: UShort, s: Accumulation<T>, events: seq<Event<T>>)
    requires events != []
    ensures var run := Replay(batchSize, s, events[..|events| - 1]);
      var t := Step(batchSize, run.state, events[|events| - 1]);
      Replay(batchSize, s, events) == Run(t.state, run.batches + Emitted(t.emitted))
  {
  }

  /** The accumulator of one consumer channel. */
  class Accumulator<T> {
    const batchSize: UShort
    var packages: seq<Package<T>>
    var lastTag: ULong
    /** Every package preserved so far, in order. */
    ghost var preserved: seq<Package<T>>
    /** Every batch handed on so far, in order. */
    ghost var handled: seq<Batch<T>>

    ghost predicate Valid()
      reads this
    {
      && Flatten(handled) + packages == preserved
      && |packages| < Limit(batchSize)
      && forall b :: b in handled ==> 0 < |b.packages| <= Limit(batchSize)
    }

    function Current(): Accumulation<T>
      reads this
    {
      Accumulation(packages, lastTag)
    }

    constructor (batchSize: UShort)
      ensures this.batchSize == batchSize
      ensures packages == [] && lastTag == 0
      ensures preserved == [] && handled == []
      ensures Valid()
    {
      this.batchSize := batchSize;
      packages := [];
      lastTag := 0;
      preserved := [];
      handled := [];
    }

    /** Hands the buffer on with the latest tag and starts an empty one. */
    method Discharge() returns (batch: Batch<T>)
      modifies this
      ensures batch == Batch(old(packages), old(lastTag))
      ensures packages == [] && lastTag == old(lastTag)
      ensures handled == old(handled) + [batch] && preserved == old(preserved)
    {
      batch := Batch(packages, lastTag);
      packages := [];
      handled := handled + [batch];
    }

    /** A message received with its delivery tag and retry delay. */
    method Preserve(message: T, tag: ULong, delay: ULong) returns (emitted: Option<Batch<T>>)
      requires Valid()
      modifies this
      ensures Valid()
      ensures Transition(Current(), emitted) == Step(batchSize, old(Current()), Preserved(message, tag, delay))
      ensures preserved == old(preserved) + [Package(message, delay)]
      ensures handled == old(handled) + Emitted(emitted)
    {
      ghost var t := Step(batchSize, Current(), Preserved(message, tag, delay));
      PreservedBalance(handled, packages, preserved, Package(message, delay), tag);
      lastTag := tag;
      packages := packages + [Package(message, delay)];
      preserved := preserved + [Package(message, delay)];
      if |packages| >= batchSize {
        var batch := Discharge();
        emitted := Some(batch);
      } else {
        emitted := None;
        assert handled == old(handled) + [];
      }
      assert Transition(Current(), emitted) == t;
    }

    /** The discharge timer firing. */
    method TimerElapsed() returns (emitted: Option<Batch<T>>)
      requires Valid()
      modifies this
      ensures Valid()
      ensures Transition(Current(), emitted) == Step(batchSize, old(Current()), Elapsed)
      ensures preserved == old(preserved)
      ensures handled == old(handled) + Emitted(emitted)
    {
      emitted := None;
      if |packages| > 0 {
        var batch := Discharge();
        emitted := Some(batch);
      }
      FlattenAppend(old(handled), Emitted(emitted));
    }
  }
}
