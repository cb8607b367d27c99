/** The subscriber of the `aiokafka` backend (faststream/kafka/subscriber/usecase.py):
    its lifecycle over `consumer`, `topics` and `partitions`, the consumption loop
    with its `connected` flag, fixed back-off and terminal `ConsumerStoppedError`,
    the pull-style `get_one`, batch flattening, topic renaming and log contexts. */
module KafkaSubscriber {
  import opened Base
  import opened Text

  /** An `aiokafka` TopicPartition. */
  datatype TopicPartition = TopicPartition(topic: string, partition: int)

  /** An `aiokafka` ConsumerRecord, reduced to what the subscriber reads. */
  datatype ConsumerRecord = ConsumerRecord(topic: string, partition: int, offset: int, value: Bytes)

  /** What `get_msg` returns: one record (default variant) or a tuple of records (batch). */
  datatype Msg = One(record: ConsumerRecord) | Many(records: seq<ConsumerRecord>)

  /** Python truthiness of `get_msg`'s result: a record always, a tuple when not empty. */
  predicate Truthy(m: Msg) {
    m.One? || m.records != []
  }

  /** A parsed message as far as log contexts look at it. */
  datatype StreamMessage = StreamMessage(raw: Msg, messageId: string)

  /** The variant a factory picks. */
  datatype Variant = Default | Concurrent(maxWorkers: int) | Batch(batchTimeoutMs: int, maxRecords: Option<int>)

  /** The subscription options of a subscriber. */
  datatype BaseOptions = BaseOptions(
    topics: seq<string>, partitions: seq<TopicPartition>, pattern: Option<string>,
    groupId: Option<string>, ackPolicy: AckPolicy)

  /** How `start` bound the consumer. */
  datatype Binding =
    | Subscribed(topics: seq<string>, pattern: Option<string>)
    | Assigned(partitions: seq<TopicPartition>)
    | Unbound

  /** The consumer `builder` returns, with its binding; `started` once `consumer.start()` returned. */
  datatype Consumer = Consumer(groupId: Option<string>, clientId: Option<string>, binding: Binding, started: bool)

  /** One turn of the fetch step: `get_msg` returned a message, the batch `get_msg` found no
      partition at all, slept `batch_timeout_ms` and returned the empty tuple (`EmptyBatch`),
      or it raised `KafkaError` (transient) or `ConsumerStoppedError` (terminal). A batch
      whose partitions are all empty is `Fetched(Many([]))`: it gives the empty tuple too, but
      without the wait. */
  datatype Fetch = Fetched(msg: Msg) | EmptyBatch | KafkaError | ConsumerStoppedError

  /** What a run of `_consume` did: the messages given to `consume` (handlers) or to
      `_put_msg` (the worker queue), the number of `sleep(5)` back-offs, the number of
      `batch_timeout_ms` waits the batch `get_msg` made before returning an empty tuple,
      the final `connected` flag, and whether it returned on `ConsumerStoppedError`. */
  datatype LoopRun = LoopRun(consumed: seq<Msg>, queued: seq<Msg>, backoffs: nat, emptyWaits: nat,
                             connected: bool, stopped: bool)

  /** The fixed back-off after a `KafkaError`, in seconds. */
  const BackoffSeconds := 5

  /** The index of the first `ConsumerStoppedError`, or the number of fetches. */
  function StopIndex(fs: seq<Fetch>): (k: nat)
    ensures k <= |fs|
    ensures forall i :: 0 <= i < k ==> !fs[i].ConsumerStoppedError?
    ensures k < |fs| ==> fs[k].ConsumerStoppedError?
  {
    if fs == [] || fs[0].ConsumerStoppedError? then 0 else 1 + StopIndex(fs[1..])
  }

  /** The messages `consume_one` receives from fetches that did not stop the loop, in fetch
      order: only truthy ones. */
  function Delivered(fs: seq<Fetch>): (r: seq<Msg>)
    ensures |r| <= |fs|
  {
    if fs == [] then []
    else
      var last := fs[|fs| - 1];
      Delivered(fs[..|fs| - 1]) + (if last.Fetched? && Truthy(last.msg) then [last.msg] else [])
  }

  /** The number of fetches that raised `KafkaError`. */
  function Backoffs(fs: seq<Fetch>): (r: nat)
    ensures r <= |fs|
  {
    if fs == [] then 0
    else Backoffs(fs[..|fs| - 1]) + (if fs[|fs| - 1].KafkaError? then 1 else 0)
  }

  /** The number of fetches at which the batch `get_msg` found nothing, slept
      `batch_timeout_ms` and returned the empty tuple (only the batch variant returns tuples). */
  function EmptyWaits(fs: seq<Fetch>): (r: nat)
    ensures r <= |fs|
  {
    if fs == [] then 0
    else EmptyWaits(fs[..|fs| - 1]) + (if fs[|fs| - 1].EmptyBatch? then 1 else 0)
  }

  /** The loop is connected unless its latest fetch raised. */
  predicate ConnectedAfter(fs: seq<Fetch>) {
    fs == [] || !fs[|fs| - 1].KafkaError?
  }

  /** The whole effect of `_consume` over the fetches made while `running` held: everything
      after the first `ConsumerStoppedError` is never fetched. */
  function RunOf(fs: seq<Fetch>, concurrent: bool): LoopRun {
    var p := fs[..StopIndex(fs)];
    LoopRun(if concurrent then [] else Delivered(p),
            if concurrent then Delivered(p) else [],
            Backoffs(p), EmptyWaits(p), ConnectedAfter(p), StopIndex(fs) < |fs|)
  }

  /** A message is delivered exactly when it is truthy and some fetch returned it. */
  lemma {:induction false} DeliveredIffFetched(fs: seq<Fetch>, m: Msg)
    ensures m in Delivered(fs) <==> Truthy(m) && exists i :: 0 <= i < |fs| && fs[i] == Fetched(m)
  {
    if fs != [] {
      var init := fs[..|fs| - 1];
      DeliveredIffFetched(init, m);
      if m in Delivered(fs) && m !in Delivered(init) {
        assert fs[|fs| - 1] == Fetched(m);
      }
      if Truthy(m) && exists i :: 0 <= i < |fs| && fs[i] == Fetched(m) {
        var i :| 0 <= i < |fs| && fs[i] == Fetched(m);
        if i < |fs| - 1 {
          assert init[i] == Fetched(m);
        }
      }
    }
  }

  /** The loop's outputs over two fetch sequences in a row are those of the first followed
      by those of the second: deliveries in fetch order, back-offs and empty-batch waits
      adding up. */
  lemma {:induction false} RunAppend(a: seq<Fetch>, b: seq<Fetch>)
    ensures Delivered(a + b) == Delivered(a) + Delivered(b)
    ensures Backoffs(a + b) == Backoffs(a) + Backoffs(b)
    ensures EmptyWaits(a + b) == EmptyWaits(a) + EmptyWaits(b)
    decreases |b|
  {
    if b == [] {
      assert a + b == a;
    } else {
      var b' := b[..|b| - 1];
      assert (a + b)[..|a + b| - 1] == a + b';
      assert (a + b)[|a + b| - 1] == b[|b| - 1];
      RunAppend(a, b');
    }
  }

  /** `k` fetches that raise `KafkaError`. */
  function Failures(k: nat): (r: seq<Fetch>)
    ensures |r| == k && forall i :: 0 <= i < k ==> r[i] == KafkaError
  {
    seq(k, _ => KafkaError)
  }

  /** `k` transient failures: `k` back-offs, no delivery and no empty-batch wait. */
  lemma {:induction false} FailuresOnly(k: nat)
    ensures Backoffs(Failures(k)) == k && Delivered(Failures(k)) == [] && EmptyWaits(Failures(k)) == 0
  {
    if k > 0 {
      assert Failures(k)[..k - 1] == Failures(k - 1);
      FailuresOnly(k - 1);
    }
  }

  /** `k` batch fetches that find nothing. */
  function EmptyBatches(k: nat): (r: seq<Fetch>)
    ensures |r| == k && forall i :: 0 <= i < k ==> r[i] == EmptyBatch
  {
    seq(k, _ => EmptyBatch)
  }

  /** `k` empty batch fetches: `k` waits of `batch_timeout_ms`, nothing delivered, no
      back-off, and the loop stays connected and running. */
  lemma {:induction false} EmptyBatchesOnlyWait(k: nat, concurrent: bool)
    ensures var run := RunOf(EmptyBatches(k), concurrent);
      run.emptyWaits == k && run.backoffs == 0 && run.consumed == [] && run.queued == []
      && run.connected && !run.stopped
  {
    var fs := EmptyBatches(k);
    assert StopIndex(fs) == |fs|;
    assert fs[..StopIndex(fs)] == fs;
    EmptyBatchesCounts(k);
  }

  lemma {:induction false} EmptyBatchesCounts(k: nat)
    ensures EmptyWaits(EmptyBatches(k)) == k && Backoffs(EmptyBatches(k)) == 0
    ensures Delivered(EmptyBatches(k)) == []
  {
    if k > 0 {
      assert EmptyBatches(k)[..k - 1] == EmptyBatches(k - 1);
      EmptyBatchesCounts(k - 1);
    }
  }

  /** A fetch that fails `k` times and then returns a truthy message: exactly `k`
      back-offs, the message is delivered, the loop is connected again and still running. */
  lemma RecoversAfterFailures(k: nat, m: Msg, concurrent: bool)
    requires Truthy(m)
    ensures var run := RunOf(Failures(k) + [Fetched(m)], concurrent);
      && run.backoffs == k && run.emptyWaits == 0
      && (if concurrent then run.queued else run.consumed) == [m]
      && run.connected && !run.stopped
  {
    var fs := Failures(k) + [Fetched(m)];
    assert StopIndex(fs) == |fs|;
    assert fs[..StopIndex(fs)] == fs;
    FailuresOnly(k);
    RunAppend(Failures(k), [Fetched(m)]);
    assert [Fetched(m)][..0] == [];
  }

  /** `ConsumerStoppedError` ends the loop: nothing fetched after it has any effect. */
  lemma StopEndsLoop(a: seq<Fetch>, b: seq<Fetch>, concurrent: bool)
    requires forall i :: 0 <= i < |a| ==> !a[i].ConsumerStoppedError?
    ensures RunOf(a + [ConsumerStoppedError] + b, concurrent) == RunOf(a, concurrent).(stopped := true)
  {
    var fs := a + [ConsumerStoppedError] + b;
    assert fs[|a|].ConsumerStoppedError?;
    assert forall i :: 0 <= i < |a| ==> fs[i] == a[i];
    assert StopIndex(fs) == |a|;
    assert fs[..StopIndex(fs)] == a;
    assert StopIndex(a) == |a|;
    assert a[..StopIndex(a)] == a;
  }

  /** All per-partition record lists of a `getmany` result, in order, as one sequence
      (`chain(*messages.values())`). */
  function Flatten(parts: seq<seq<ConsumerRecord>>): (r: seq<ConsumerRecord>)
  {
    if parts == [] then [] else parts[0] + Flatten(parts[1..])
  }

  lemma {:induction false} FlattenAppend(a: seq<seq<ConsumerRecord>>, b: seq<seq<ConsumerRecord>>)
    ensures Flatten(a + b) == Flatten(a) + Flatten(b)
  {
    if a == [] {
      assert a + b == b;
    } else {
      assert (a + b)[1..] == a[1..] + b;
      FlattenAppend(a[1..], b);
    }
  }

  /** A record is in the flattened batch exactly when some partition list holds it. */
  lemma {:induction false} FlattenMembers(parts: seq<seq<ConsumerRecord>>, rec: ConsumerRecord)
    ensures rec in Flatten(parts) <==> exists i :: 0 <= i < |parts| && rec in parts[i]
  {
    if parts != [] {
      FlattenMembers(parts[1..], rec);
      if exists i :: 0 <= i < |parts| && rec in parts[i] {
        var i :| 0 <= i < |parts| && rec in parts[i];
        if i > 0 {
          assert parts[1..][i - 1] == parts[i];
        }
      }
      if rec in Flatten(parts[1..]) {
        var i :| 0 <= i < |parts[1..]| && rec in parts[1..][i];
        assert rec in parts[i + 1];
      }
    }
  }

  /** The flattened batch has as many records as all partition lists together. */
  function TotalCount(parts: seq<seq<ConsumerRecord>>): nat {
    if parts == [] then 0 else |parts[0]| + TotalCount(parts[1..])
  }

  lemma {:induction false} FlattenLength(parts: seq<seq<ConsumerRecord>>)
    ensures |Flatten(parts)| == TotalCount(parts)
  {
    if parts != [] {
      FlattenLength(parts[1..]);
    }
  }

  /** `BatchSubscriber.get_msg` on the per-partition lists of a `getmany` result: the tuple of
      all records in order; an empty result sleeps `batch_timeout_ms` first (`slept`) and
      gives the empty tuple, which the loop skips. */
  function BatchGetMsg(parts: seq<seq<ConsumerRecord>>): (r: (Msg, bool))
    ensures r.1 <==> parts == []
    ensures r.0 == Many(Flatten(parts))
    ensures parts == [] ==> !Truthy(r.0)
  {
    if parts == [] then (Many([]), true) else (Many(Flatten(parts)), false)
  }

  /** What the loop sees of one batch `get_msg` on a `getmany` result: the wait and the
      empty tuple when no partition came back, otherwise the flattened tuple, which may be
      empty when every partition list is. */
  function BatchFetch(parts: seq<seq<ConsumerRecord>>): (r: Fetch)
    ensures r.EmptyBatch? <==> BatchGetMsg(parts).1
    ensures !r.EmptyBatch? ==> r == Fetched(BatchGetMsg(parts).0)
  {
    if parts == [] then EmptyBatch else Fetched(Many(Flatten(parts)))
  }

  /** The loop's fetches over a run of `getmany` results. */
  function BatchFetches(results: seq<seq<seq<ConsumerRecord>>>): (r: seq<Fetch>)
    ensures |r| == |results| && forall i :: 0 <= i < |results| ==> r[i] == BatchFetch(results[i])
  {
    seq(|results|, i requires 0 <= i < |results| => BatchFetch(results[i]))
  }

  /** The number of `getmany` results with no partition at all. */
  function NoPartitionResults(results: seq<seq<seq<ConsumerRecord>>>): nat {
    if results == [] then 0
    else NoPartitionResults(results[..|results| - 1]) + (if results[|results| - 1] == [] then 1 else 0)
  }

  /** The batch loop waits `batch_timeout_ms` once per `getmany` result that holds no
      partition, and never on a result whose partitions are all empty lists. */
  lemma {:induction false} WaitsOnlyOnNoPartitions(results: seq<seq<seq<ConsumerRecord>>>)
    ensures EmptyWaits(BatchFetches(results)) == NoPartitionResults(results)
  {
    if results != [] {
      var n := |results|;
      assert BatchFetches(results)[..n - 1] == BatchFetches(results[..n - 1]);
      WaitsOnlyOnNoPartitions(results[..n - 1]);
    }
  }

  /** `f"{p.topic}-{p.partition}"`. */
  function PartitionName(p: TopicPartition): string {
    p.topic + "-" + Decimal(p.partition)
  }

  /** `topic_names`: the pattern alone if it is set, else the topics if any, else one name
      per partition. */
  function TopicNames(pattern: Option<string>, topics: seq<string>, partitions: seq<TopicPartition>)
    : (r: seq<string>)
    ensures Given(pattern) ==> r == [pattern.value]
    ensures !Given(pattern) && topics != [] ==> r == topics
    ensures !Given(pattern) && topics == [] ==> |r| == |partitions|
    ensures !Given(pattern) && topics == [] ==>
      forall i :: 0 <= i < |partitions| ==> r[i] == partitions[i].topic + "-" + Decimal(partitions[i].partition)
  {
    if Given(pattern) then [pattern.value]
    else if topics != [] then topics
    else seq(|partitions|, i requires 0 <= i < |partitions| => PartitionName(partitions[i]))
  }

  /** The partitions of `add_prefix`: the topic gets the prefix, the partition number is kept. */
  function PrefixPartitions(prefix: string, ps: seq<TopicPartition>): (r: seq<TopicPartition>)
    ensures |r| == |ps|
    ensures forall i :: 0 <= i < |ps| ==> r[i] == TopicPartition(prefix + ps[i].topic, ps[i].partition)
  {
    seq(|ps|, i requires 0 <= i < |ps| => TopicPartition(prefix + ps[i].topic, ps[i].partition))
  }

  /** An empty prefix changes nothing; prefixes `a` then `b` give `b + a`. */
  lemma PrefixPartitionsLaws(a: string, b: string, ps: seq<TopicPartition>)
    ensures PrefixPartitions("", ps) == ps
    ensures PrefixPartitions(b, PrefixPartitions(a, ps)) == PrefixPartitions(b + a, ps)
  {
    forall i | 0 <= i < |ps| ensures PrefixPartitions("", ps)[i] == ps[i] {
      assert "" + ps[i].topic == ps[i].topic;
    }
    forall i | 0 <= i < |ps|
      ensures PrefixPartitions(b, PrefixPartitions(a, ps))[i] == PrefixPartitions(b + a, ps)[i]
    {
      assert b + (a + ps[i].topic) == (b + a) + ps[i].topic;
    }
  }

  /** Reported names follow a rename, except that a pattern is never renamed. */
  lemma TopicNamesAfterPrefix(prefix: string, pattern: Option<string>, topics: seq<string>,
                              ps: seq<TopicPartition>)
    ensures Given(pattern) ==>
      TopicNames(pattern, PrefixAll(prefix, topics), PrefixPartitions(prefix, ps)) == TopicNames(pattern, topics, ps)
    ensures !Given(pattern) ==>
      TopicNames(pattern, PrefixAll(prefix, topics), PrefixPartitions(prefix, ps))
        == PrefixAll(prefix, TopicNames(pattern, topics, ps))
  {
    if !Given(pattern) && topics == [] {
      var qs := PrefixPartitions(prefix, ps);
      forall i | 0 <= i < |ps|
        ensures TopicNames(pattern, [], qs)[i] == PrefixAll(prefix, TopicNames(pattern, [], ps))[i]
      {
        assert (prefix + ps[i].topic) + "-" + Decimal(ps[i].partition)
            == prefix + (ps[i].topic + "-" + Decimal(ps[i].partition));
      }
    }
  }

  /** `build_log_context`. */
  function BuildLogContext(message: Option<StreamMessage>, topic: string, groupId: Option<string>)
    : (r: map<string, string>)
    ensures r.Keys == {"topic", "group_id", "message_id"}
    ensures r["topic"] == topic
    ensures r["group_id"] == (if Given(groupId) then groupId.value else "")
    ensures r["message_id"] == (if message.Some? then message.value.messageId else "")
  {
    map["topic" := topic,
        "group_id" := if Given(groupId) then groupId.value else "",
        "message_id" := if message.Some? then message.value.messageId else ""]
  }

  class LogicSubscriber {
    const variant: Variant
    const groupId: Option<string>
    const pattern: Option<string>
    const ackPolicy: AckPolicy
    /** Whether the parser builds ackable messages (`KafkaAckableMessage`). */
    const ackableMessages: bool
    var topics: seq<string>
    var partitions: seq<TopicPartition>
    /** Number of registered handlers (`self.calls`). */
    var calls: nat
    var clientId: Option<string>
    /** Whether `_setup` gave the subscriber a consumer builder. */
    var builderSet: bool
    var consumer: Option<Consumer>
    var running: bool
    var tasks: seq<Task>

    /** `DefaultSubscriber.__init__` / `BatchSubscriber.__init__`: messages are ackable exactly
        when the policy is not ACK_FIRST. */
    constructor (options: BaseOptions, variant: Variant)
      ensures this.variant == variant
      ensures topics == options.topics && partitions == options.partitions && pattern == options.pattern
      ensures groupId == options.groupId && ackPolicy == options.ackPolicy
      ensures ackableMessages <==> options.ackPolicy != AckFirst
      ensures calls == 0 && clientId == Some("") && !builderSet
      ensures consumer.None? && !running && tasks == []
    {
      this.variant := variant;
      topics := options.topics;
      partitions := options.partitions;
      pattern := options.pattern;
      groupId := options.groupId;
      ackPolicy := options.ackPolicy;
      ackableMessages := options.ackPolicy != AckFirst;
      calls := 0;
      clientId := Some("");
      builderSet := false;
      consumer := None;
      running := false;
      tasks := [];
    }

    /** `_setup`: stores the client id and the consumer builder. */
    method Setup(clientId: Option<string>)
      modifies this
      ensures this.clientId == clientId && builderSet
      ensures topics == old(topics) && partitions == old(partitions) && calls == old(calls)
      ensures consumer == old(consumer) && running == old(running) && tasks == old(tasks)
    {
      this.clientId := clientId;
      builderSet := true;
    }

    /** `start`: builds the consumer, subscribes by topics or pattern when either is set and
        otherwise assigns the partitions (if any), starts it, and launches the consumption
        loop only when handlers are registered; the concurrent variant also starts its
        worker pool. */
    method Start() returns (r: Outcome<Failure>)
      modifies this
      ensures !old(builderSet) ==> r == Fail(NotSetUp) && unchanged(this)
      ensures old(builderSet) ==> r == Pass && running && consumer.Some? && consumer.value.started
      ensures old(builderSet) ==> consumer.value.groupId == groupId && consumer.value.clientId == clientId
      ensures old(builderSet) && (topics != [] || Given(pattern)) ==>
        consumer.value.binding == Subscribed(topics, pattern)
      ensures old(builderSet) && topics == [] && !Given(pattern) && partitions != [] ==>
        consumer.value.binding == Assigned(partitions)
      ensures old(builderSet) && topics == [] && !Given(pattern) && partitions == [] ==>
        consumer.value.binding == Unbound
      ensures old(builderSet) ==>
        tasks == old(tasks) + (if calls > 0 then [ConsumeLoop] else [])
                            + (if variant.Concurrent? then [WorkerPool] else [])
      ensures topics == old(topics) && partitions == old(partitions) && calls == old(calls)
      ensures clientId == old(clientId) && builderSet == old(builderSet)
    {
      if !builderSet {
        return Fail(NotSetUp);
      }
      var c := Consumer(groupId, clientId, Unbound, false);
      if topics != [] || Given(pattern) {
        c := c.(binding := Subscribed(topics, pattern));
      } else if partitions != [] {
        c := c.(binding := Assigned(partitions));
      }
      c := c.(started := true);
      consumer := Some(c);
      running := true;
      if calls > 0 {
        tasks := tasks + [ConsumeLoop];
      }
      if variant.Concurrent? {
        tasks := tasks + [WorkerPool];
      }
      r := Pass;
    }

    /** `close`: stops the loop, then stops and drops the consumer. */
    method Close()
      modifies this
      ensures consumer.None? && !running && tasks == []
      ensures topics == old(topics) && partitions == old(partitions) && calls == old(calls)
      ensures clientId == old(clientId) && builderSet == old(builderSet)
    {
      running := false;
      tasks := [];
      if consumer.Some? {
        consumer := None;
      }
    }

    /** `get_one`: only on a started subscriber without handlers. `parts` are the
        per-partition lists of `getmany(max_records=1)`: none gives None, exactly one list of
        exactly one record gives that record, and any other shape fails to unpack. */
    method GetOne(parts: seq<seq<ConsumerRecord>>) returns (r: Result<Option<ConsumerRecord>, Failure>)
      ensures consumer.None? ==> r == Err(NotStarted)
      ensures consumer.Some? && calls > 0 ==> r == Err(HandlersRegistered)
      ensures consumer.Some? && calls == 0 && parts == [] ==> r == Ok(None)
      ensures consumer.Some? && calls == 0 && |parts| == 1 && |parts[0]| == 1 ==> r == Ok(Some(parts[0][0]))
      ensures consumer.Some? && calls == 0 && parts != [] && !(|parts| == 1 && |parts[0]| == 1) ==>
        r == Err(UnpackError)
    {
      if consumer.None? {
        return Err(NotStarted);
      }
      if calls > 0 {
        return Err(HandlersRegistered);
      }
      if parts == [] {
        return Ok(None);
      }
      if |parts| != 1 || |parts[0]| != 1 {
        return Err(UnpackError);
      }
      r := Ok(Some(parts[0][0]));
    }

    /** `_consume` over the fetches it makes while `running` holds. */
    method Consume(fetches: seq<Fetch>) returns (r: Result<LoopRun, Failure>)
      ensures consumer.None? ==> r == Err(NotStarted)
      ensures consumer.Some? ==> r == Ok(RunOf(fetches, variant.Concurrent?))
    {
      if consumer.None? {
        return Err(NotStarted);
      }
      var connected := true;
      var consumed: seq<Msg> := [];
      var queued: seq<Msg> := [];
      var backoffs := 0;
      var emptyWaits := 0;
      var i := 0;
      while i < |fetches|
        invariant 0 <= i <= |fetches|
        invariant forall j :: 0 <= j < i ==> !fetches[j].ConsumerStoppedError?
        invariant connected == ConnectedAfter(fetches[..i])
        invariant backoffs == Backoffs(fetches[..i])
        invariant emptyWaits == EmptyWaits(fetches[..i])
        invariant consumed == (if variant.Concurrent? then [] else Delivered(fetches[..i]))
        invariant queued == (if variant.Concurrent? then Delivered(fetches[..i]) else [])
      {
        assert fetches[..i + 1][..i] == fetches[..i];
        match fetches[i] {
          case KafkaError =>
            if connected {
              connected := false;
            }
            backoffs := backoffs + 1;
          case ConsumerStoppedError =>
            assert StopIndex(fetches) == i;
            return Ok(LoopRun(consumed, queued, backoffs, emptyWaits, connected, true));
          case EmptyBatch =>
            emptyWaits := emptyWaits + 1;
            if !connected {
              connected := true;
            }
          case Fetched(msg) =>
            if !connected {
              connected := true;
            }
            if Truthy(msg) {
              if variant.Concurrent? {
                queued := queued + [msg];
              } else {
                consumed := consumed + [msg];
              }
            }
        }
        i := i + 1;
      }
      assert StopIndex(fetches) == |fetches|;
      assert fetches[..i] == fetches;
      r := Ok(LoopRun(consumed, queued, backoffs, emptyWaits, connected, false));
    }

    /** `add_prefix`: prefixes every topic and every partition's topic; the pattern is
        untouched. */
    method AddPrefix(prefix: string)
      modifies this
      ensures topics == PrefixAll(prefix, old(topics))
      ensures partitions == PrefixPartitions(prefix, old(partitions))
      ensures calls == old(calls) && consumer == old(consumer) && running == old(running)
      ensures tasks == old(tasks) && clientId == old(clientId) && builderSet == old(builderSet)
    {
      topics := PrefixAll(prefix, topics);
      partitions := PrefixPartitions(prefix, partitions);
    }

    /** `get_log_context`: without a message, the joined topic names; with one, the topic of
        its record (the first record of a batch). */
    function GetLogContext(message: Option<StreamMessage>): (r: map<string, string>)
      reads this
      requires message.Some? ==> (message.value.raw.Many? <==> variant.Batch?)
      requires message.Some? && message.value.raw.Many? ==> message.value.raw.records != []
      ensures r.Keys == {"topic", "group_id", "message_id"}
      ensures message.None? ==> r["topic"] == Join(",", TopicNames(pattern, topics, partitions))
      ensures message.Some? && !variant.Batch? ==> r["topic"] == message.value.raw.record.topic
      ensures message.Some? && variant.Batch? ==> r["topic"] == message.value.raw.records[0].topic
      ensures r["group_id"] == (if Given(groupId) then groupId.value else "")
    {
      var topic :=
        if message.None? then Join(",", TopicNames(pattern, topics, partitions))
        else if variant.Batch? then message.value.raw.records[0].topic
        else message.value.raw.record.topic;
      BuildLogContext(message, topic, groupId)
    }
  }
}
