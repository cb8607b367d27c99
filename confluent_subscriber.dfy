/** The subscriber of the `confluent_kafka` backend
    (faststream/confluent/subscriber/usecase.py): its lifecycle over the
    fields `consumer`, `topics` and `partitions`, the consumption loop with
    its `connected` flag and fixed back-off, the pull-style `get_one`, topic
    renaming and the names it reports in log contexts. */
module ConfluentSubscriber {
  import opened Base
  import opened Text

  /** A `confluent_kafka` TopicPartition. */
  datatype TopicPartition = TopicPartition(
    topic: string, partition: int, offset: int, metadata: Option<string>, leaderEpoch: Option<int>)

  /** A `confluent_kafka` Message, reduced to what the subscriber reads: `topic()` may be None. */
  datatype Message = Message(topic: Option<string>, value: Bytes)

  /** What the loop hands to `consume_one`: one message, or the tuple of a batch fetch. */
  datatype Msg = One(message: Message) | Many(messages: seq<Message>)

  /** A parsed message as far as log contexts look at it. */
  datatype StreamMessage = StreamMessage(raw: Msg, messageId: string)

  /** A value of the consumer's connection settings dictionary. */
  datatype ConfigValue = BoolValue(b: bool) | StrValue(s: string) | IntValue(i: int)

  /** The caller's `connection_data` dictionary: the factory updates it in place and the
      subscriber keeps a reference to the same object. */
  class ConnectionData {
    var entries: map<string, ConfigValue>

    constructor (entries: map<string, ConfigValue>)
      ensures this.entries == entries
    {
      this.entries := entries;
    }
  }

  /** The variant a factory picks. */
  datatype Variant = Default | Concurrent(maxWorkers: int) | Batch(maxRecords: Option<int>)

  /** The resolved configuration the factory hands to the subscriber. */
  datatype BaseConfigs = BaseConfigs(
    topics: seq<string>, partitions: seq<TopicPartition>, pollingInterval: real,
    groupId: Option<string>, ackPolicy: AckPolicy, noReply: bool)

  /** The consumer `builder` returns: built from the subscriber's fields and a snapshot of
      the connection settings; `started` once `consumer.start()` returned. */
  datatype Consumer = Consumer(
    topics: seq<string>, partitions: seq<TopicPartition>, groupId: Option<string>,
    clientId: Option<string>, settings: map<string, ConfigValue>, started: bool)

  /** One turn of the fetch step: `get_msg` returned (None when nothing arrived before the
      polling interval ran out), or it raised `KafkaException`. */
  datatype Fetch = Fetched(msg: Option<Msg>) | KafkaException

  /** What a run of `_consume` did: the messages given to `consume` (handlers) or to
      `_put_msg` (the worker queue), the number of `sleep(5)` back-offs and the final
      `connected` flag. */
  datatype LoopRun = LoopRun(consumed: seq<Msg>, queued: seq<Msg>, backoffs: nat, connected: bool)

  /** The fixed back-off after a `KafkaException`, in seconds. */
  const BackoffSeconds := 5

  /** The messages `consume_one` receives from a run of fetches, in fetch order. */
  function Delivered(fs: seq<Fetch>): (r: seq<Msg>)
    ensures |r| <= |fs|
  {
    if fs == [] then []
    else
      var last := fs[|fs| - 1];
      Delivered(fs[..|fs| - 1]) + (if last.Fetched? && last.msg.Some? then [last.msg.value] else [])
  }

  /** The number of fetches that raised. */
  function Backoffs(fs: seq<Fetch>): (r: nat)
    ensures r <= |fs|
  {
    if fs == [] then 0
    else Backoffs(fs[..|fs| - 1]) + (if fs[|fs| - 1].KafkaException? then 1 else 0)
  }

  /** The loop is connected unless its latest fetch raised. */
  predicate ConnectedAfter(fs: seq<Fetch>) {
    fs == [] || fs[|fs| - 1].Fetched?
  }

  /** The whole effect of `_consume` over the fetches made while `running` held. */
  function RunOf(fs: seq<Fetch>, concurrent: bool): LoopRun {
    LoopRun(if concurrent then [] else Delivered(fs),
            if concurrent then Delivered(fs) else [],
            Backoffs(fs), ConnectedAfter(fs))
  }

  /** Delivery distributes over consecutive runs of fetches: order is kept. */
  lemma {:induction false} DeliveredAppend(a: seq<Fetch>, b: seq<Fetch>)
    ensures Delivered(a + b) == Delivered(a) + Delivered(b)
    decreases |b|
  {
    if b == [] {
      assert a + b == a;
    } else {
      var b' := b[..|b| - 1];
      assert (a + b)[..|a + b| - 1] == a + b';
      assert (a + b)[|a + b| - 1] == b[|b| - 1];
      DeliveredAppend(a, b');
    }
  }

  /** Back-offs add up over consecutive runs of fetches. */
  lemma {:induction false} BackoffsAppend(a: seq<Fetch>, b: seq<Fetch>)
    ensures Backoffs(a + b) == Backoffs(a) + Backoffs(b)
    decreases |b|
  {
    if b == [] {
      assert a + b == a;
    } else {
      var b' := b[..|b| - 1];
      assert (a + b)[..|a + b| - 1] == a + b';
      assert (a + b)[|a + b| - 1] == b[|b| - 1];
      BackoffsAppend(a, b');
    }
  }

  /** A message is delivered exactly when some fetch returned it (not None). */
  lemma {:induction false} DeliveredIffFetched(fs: seq<Fetch>, m: Msg)
    ensures m in Delivered(fs) <==> exists i :: 0 <= i < |fs| && fs[i] == Fetched(Some(m))
  {
    if fs != [] {
      var init := fs[..|fs| - 1];
      DeliveredIffFetched(init, m);
      if m in Delivered(fs) && m !in Delivered(init) {
        assert fs[|fs| - 1] == Fetched(Some(m));
      }
      if exists i :: 0 <= i < |fs| && fs[i] == Fetched(Some(m)) {
        var i :| 0 <= i < |fs| && fs[i] == Fetched(Some(m));
        if i < |fs| - 1 {
          assert init[i] == Fetched(Some(m));
        }
      }
    }
  }

  /** `k` failing fetches.  */
  function Failures(k: nat): (r: seq<Fetch>)
    ensures |r| == k && forall i :: 0 <= i < k ==> r[i] == KafkaException
  {
    seq(k, _ => KafkaException)
  }

  /** A fetch that fails `k` times and then returns a message: exactly `k` back-offs,
      the message is delivered and the loop is connected again. */
  lemma RecoversAfterFailures(k: nat, m: Msg)
    ensures Backoffs(Failures(k) + [Fetched(Some(m))]) == k
    ensures Delivered(Failures(k) + [Fetched(Some(m))]) == [m]
    ensures ConnectedAfter(Failures(k) + [Fetched(Some(m))])
  {
    FailuresOnly(k);
    BackoffsAppend(Failures(k), [Fetched(Some(m))]);
    DeliveredAppend(Failures(k), [Fetched(Some(m))]);
    assert [Fetched(Some(m))][..0] == [];
  }

  /** `k` exceptions in a row: `k` back-offs, no delivery, and the loop left disconnected. */
  lemma {:induction false} FailuresOnly(k: nat)
    ensures Backoffs(Failures(k)) == k && Delivered(Failures(k)) == []
    ensures k > 0 ==> !ConnectedAfter(Failures(k))
  {
    if k > 0 {
      assert Failures(k)[..k - 1] == Failures(k - 1);
      FailuresOnly(k - 1);
    }
  }

  /** `BatchSubscriber.get_msg`: an empty `getmany` result becomes None. */
  function BatchGetMsg(fetched: seq<Message>): (r: Option<Msg>)
    ensures r.None? <==> fetched == []
    ensures r.Some? ==> r.value == Many(fetched)
  {
    if fetched == [] then None else Some(Many(fetched))
  }

  /** `f"{p.topic}-{p.partition}"`. */
  function PartitionName(p: TopicPartition): string {
    p.topic + "-" + Decimal(p.partition)
  }

  /** `topic_names`: the topics if there are any, otherwise one name per partition. */
  function TopicNames(topics: seq<string>, partitions: seq<TopicPartition>): (r: seq<string>)
    ensures topics != [] ==> r == topics
    ensures topics == [] ==> |r| == |partitions|
    ensures topics == [] ==>
      forall i :: 0 <= i < |partitions| ==> r[i] == partitions[i].topic + "-" + Decimal(partitions[i].partition)
  {
    if topics != [] then topics
    else seq(|partitions|, i requires 0 <= i < |partitions| => PartitionName(partitions[i]))
  }

  /** The partitions of `add_prefix`: the topic gets the prefix, every other field is kept. */
  function PrefixPartitions(prefix: string, ps: seq<TopicPartition>): (r: seq<TopicPartition>)
    ensures |r| == |ps|
    ensures forall i :: 0 <= i < |ps| ==> r[i] == ps[i].(topic := prefix + ps[i].topic)
  {
    seq(|ps|, i requires 0 <= i < |ps| => ps[i].(topic := prefix + ps[i].topic))
  }

  /** Renaming and then reporting names is reporting the renamed names. */
  lemma TopicNamesAfterPrefix(prefix: string, topics: seq<string>, ps: seq<TopicPartition>)
    ensures TopicNames(PrefixAll(prefix, topics), PrefixPartitions(prefix, ps))
         == PrefixAll(prefix, TopicNames(topics, ps))
  {
    if topics == [] {
      var qs := PrefixPartitions(prefix, ps);
      forall i | 0 <= i < |ps|
        ensures TopicNames([], qs)[i] == PrefixAll(prefix, TopicNames([], ps))[i]
      {
        assert (prefix + ps[i].topic) + "-" + Decimal(ps[i].partition)
            == prefix + (ps[i].topic + "-" + Decimal(ps[i].partition));
      }
    }
  }

  /** An empty prefix changes nothing; prefixes `a` then `b` give `b + a`. */
  lemma PrefixPartitionsLaws(a: string, b: string, ps: seq<TopicPartition>)
    ensures PrefixPartitions("", ps) == ps
    ensures PrefixPartitions(b, PrefixPartitions(a, ps)) == PrefixPartitions(b + a, ps)
  {
    forall i | 0 <= i < |ps| ensures PrefixPartitions("", ps)[i] == ps[i] {
      assert "" + ps[i].topic == ps[i].topic;
    }
    forall i | 0 <= i < |ps|
      ensures PrefixPartitions(b, PrefixPartitions(a, ps))[i] == PrefixPartitions(b + a, ps)[i]
    {
      assert b + (a + ps[i].topic) == (b + a) + ps[i].topic;
    }
  }

  /** `build_log_context`. */
  function BuildLogContext(message: Option<StreamMessage>, topic: string, groupId: Option<string>)
    : (r: map<string, string>)
    ensures r.Keys == {"topic", "group_id", "message_id"}
    ensures r["topic"] == topic
    ensures r["group_id"] == (if Given(groupId) then groupId.value else "")
    ensures r["message_id"] == (if message.Some? then message.value.messageId else "")
  {
    map["topic" := topic,
        "group_id" := if Given(groupId) then groupId.value else "",
        "message_id" := if message.Some? then message.value.messageId else ""]
  }

  class LogicSubscriber {
    const variant: Variant
    const groupId: Option<string>
    const pollingInterval: real
    const ackPolicy: AckPolicy
    const noReply: bool
    /** `is_manual` of the parser. */
    const manualParser: bool
    /** The `connection_data` dictionary the subscriber was built with (shared, not copied). */
    const connectionData: ConnectionData
    var topics: seq<string>
    var partitions: seq<TopicPartition>
    /** Number of registered handlers (`self.calls`). */
    var calls: nat
    var clientId: Option<string>
    /** Whether `_setup` gave the subscriber a consumer builder. */
    var builderSet: bool
    var consumer: Option<Consumer>
    var running: bool
    var tasks: seq<Task>

    /** `DefaultSubscriber.__init__` / `BatchSubscriber.__init__`: the parser is manual exactly
        when the policy is not ACK_FIRST. */
    constructor (base: BaseConfigs, variant: Variant, connectionData: ConnectionData)
      ensures this.variant == variant && this.connectionData == connectionData
      ensures topics == base.topics && partitions == base.partitions
      ensures groupId == base.groupId && pollingInterval == base.pollingInterval
      ensures ackPolicy == base.ackPolicy && noReply == base.noReply
      ensures manualParser <==> base.ackPolicy != AckFirst
      ensures calls == 0 && clientId == Some("") && !builderSet
      ensures consumer.None? && !running && tasks == []
    {
      this.variant := variant;
      this.connectionData := connectionData;
      topics := base.topics;
      partitions := base.partitions;
      groupId := base.groupId;
      pollingInterval := base.pollingInterval;
      ackPolicy := base.ackPolicy;
      noReply := base.noReply;
      manualParser := base.ackPolicy != AckFirst;
      calls := 0;
      clientId := Some("");
      builderSet := false;
      consumer := None;
      running := false;
      tasks := [];
    }

    /** `_setup`: stores the client id and the consumer builder. */
    method Setup(clientId: Option<string>)
      modifies this
      ensures this.clientId == clientId && builderSet
      ensures topics == old(topics) && partitions == old(partitions) && calls == old(calls)
      ensures consumer == old(consumer) && running == old(running) && tasks == old(tasks)
    {
      this.clientId := clientId;
      builderSet := true;
    }

    /** `start`: builds and starts the consumer; the consumption loop is launched only when
        handlers are registered, and the concurrent variant also starts its worker pool. */
    method Start() returns (r: Outcome<Failure>)
      modifies this
      ensures !old(builderSet) ==> r == Fail(NotSetUp) && unchanged(this)
      ensures old(builderSet) ==> r == Pass && running
      ensures old(builderSet) ==>
        consumer == Some(Consumer(topics, partitions, groupId, clientId, connectionData.entries, true))
      ensures old(builderSet) ==>
        tasks == old(tasks) + (if calls > 0 then [ConsumeLoop] else [])
                            + (if variant.Concurrent? then [WorkerPool] else [])
      ensures topics == old(topics) && partitions == old(partitions) && calls == old(calls)
      ensures clientId == old(clientId) && builderSet == old(builderSet)
    {
      if !builderSet {
        return Fail(NotSetUp);
      }
      var c := Consumer(topics, partitions, groupId, clientId, connectionData.entries, false);
      consumer := Some(c.(started := true));
      running := true;
      if calls > 0 {
        tasks := tasks + [ConsumeLoop];
      }
      if variant.Concurrent? {
        tasks := tasks + [WorkerPool];
      }
      r := Pass;
    }

    /** `close`: stops the loop and releases the consumer. */
    method Close()
      modifies this
      ensures consumer.None? && !running && tasks == []
      ensures topics == old(topics) && partitions == old(partitions) && calls == old(calls)
      ensures clientId == old(clientId) && builderSet == old(builderSet)
    {
      running := false;
      tasks := [];
      if consumer.Some? {
        consumer := None;
      }
    }

    /** `get_one`: only on a started subscriber without handlers; returns what `getone`
        returned (None when the timeout ran out). */
    method GetOne(fetched: Option<Message>) returns (r: Result<Option<Message>, Failure>)
      ensures consumer.None? ==> r == Err(NotStarted)
      ensures consumer.Some? && calls > 0 ==> r == Err(HandlersRegistered)
      ensures consumer.Some? && calls == 0 ==> r == Ok(fetched)
    {
      if consumer.None? {
        return Err(NotStarted);
      }
      if calls > 0 {
        return Err(HandlersRegistered);
      }
      r := Ok(fetched);
    }

    /** `_consume` over the fetches it makes while `running` holds. */
    method Consume(fetches: seq<Fetch>) returns (r: Result<LoopRun, Failure>)
      ensures consumer.None? ==> r == Err(NotStarted)
      ensures consumer.Some? ==> r == Ok(RunOf(fetches, variant.Concurrent?))
    {
      if consumer.None? {
        return Err(NotStarted);
      }
      var connected := true;
      var consumed: seq<Msg> := [];
      var queued: seq<Msg> := [];
      var backoffs := 0;
      var i := 0;
      while i < |fetches|
        invariant 0 <= i <= |fetches|
        invariant connected == ConnectedAfter(fetches[..i])
        invariant backoffs == Backoffs(fetches[..i])
        invariant consumed == (if variant.Concurrent? then [] else Delivered(fetches[..i]))
        invariant queued == (if variant.Concurrent? then Delivered(fetches[..i]) else [])
      {
        assert fetches[..i + 1][..i] == fetches[..i];
        match fetches[i] {
          case KafkaException =>
            if connected {
              connected := false;
            }
            backoffs := backoffs + 1;
          case Fetched(msg) =>
            if !connected {
              connected := true;
            }
            if msg.Some? {
              if variant.Concurrent? {
                queued := queued + [msg.value];
              } else {
                consumed := consumed + [msg.value];
              }
            }
        }
        i := i + 1;
      }
      assert fetches[..i] == fetches;
      r := Ok(LoopRun(consumed, queued, backoffs, connected));
    }

    /** `add_prefix`: prefixes every topic and every partition's topic. */
    method AddPrefix(prefix: string)
      modifies this
      ensures topics == PrefixAll(prefix, old(topics))
      ensures partitions == PrefixPartitions(prefix, old(partitions))
      ensures calls == old(calls) && consumer == old(consumer) && running == old(running)
      ensures tasks == old(tasks) && clientId == old(clientId) && builderSet == old(builderSet)
    {
      topics := PrefixAll(prefix, topics);
      partitions := PrefixPartitions(prefix, partitions);
    }

    /** `get_log_context`: without a message, the joined topic names; with one, its topic, or
        when that is empty the joined topics (default variant) or topic names (batch variant). */
    function GetLogContext(message: Option<StreamMessage>): (r: map<string, string>)
      reads this
      requires message.Some? ==> (message.value.raw.Many? <==> variant.Batch?)
      requires message.Some? && message.value.raw.Many? ==> message.value.raw.messages != []
      ensures r.Keys == {"topic", "group_id", "message_id"}
      ensures message.None? ==> r["topic"] == Join(",", TopicNames(topics, partitions))
      ensures message.Some? && !variant.Batch? ==>
        r["topic"] == (if Given(message.value.raw.message.topic)
                       then message.value.raw.message.topic.value else Join(",", topics))
      ensures message.Some? && variant.Batch? ==>
        r["topic"] == (if Given(message.value.raw.messages[0].topic)
                       then message.value.raw.messages[0].topic.value else Join(",", TopicNames(topics, partitions)))
      ensures r["group_id"] == (if Given(groupId) then groupId.value else "")
    {
      var topic :=
        if message.None? then Join(",", TopicNames(topics, partitions))
        else if variant.Batch? then
          var t := message.value.raw.messages[0].topic;
          if Given(t) then t.value else Join(",", TopicNames(topics, partitions))
        else
          var t := message.value.raw.message.topic;
          if Given(t) then t.value else Join(",", topics);
      BuildLogContext(message, topic, groupId)
    }
  }
}
