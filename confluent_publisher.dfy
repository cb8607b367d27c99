/** The publishers of the `confluent_kafka` backend (faststream/confluent/publisher/usecase.py):
    how `publish`, `request` and the subscriber-flow `_publish` build a publish command from
    the caller's values and the publisher's defaults. `gen_cor_id` is a `freshId` parameter. */
module ConfluentPublisher {
  import opened Base

  datatype PublishType = Publish | Request

  /** `KafkaPublishCommand`. */
  datatype PublishCommand = PublishCommand(
    bodies: seq<Bytes>, destination: string, key: Option<Bytes>, partition: Option<int>,
    replyTo: string, headers: map<string, string>, correlationId: string,
    timestampMs: Option<int>, noConfirm: bool, timeout: Option<real>, publishType: PublishType)

  datatype Variant = Default | Batch

  /** `ConfluentPublisherBaseConfigs`. */
  datatype PublisherBaseConfigs = PublisherBaseConfigs(
    topic: string, partition: Option<int>, replyTo: string, headers: Option<map<string, string>>,
    key: Option<Bytes>, brokerMiddlewares: seq<Middleware>, middlewares: seq<Middleware>)

  /** `base | over`: every key of either map, with the value of `over` where both have one. */
  function Merge(base: map<string, string>, over: map<string, string>): (r: map<string, string>)
    ensures forall k :: k in r <==> k in base || k in over
    ensures forall k :: k in over ==> r[k] == over[k]
    ensures forall k :: k in base && k !in over ==> r[k] == base[k]
  {
    base + over
  }

  /** Merging the same defaults again changes nothing. */
  lemma MergeAbsorbs(base: map<string, string>, over: map<string, string>)
    ensures Merge(base, Merge(base, over)) == Merge(base, over)
  {
  }

  /** `headers or {}`. */
  function OrEmpty(headers: Option<map<string, string>>): (r: map<string, string>)
    ensures headers.Some? ==> r == headers.value
    ensures headers.None? ==> r == map[]
  {
    if headers.Some? then headers.value else map[]
  }

  /** `correlation_id or gen_cor_id()`: a new id only when none is supplied. */
  function CorrelationId(given: Option<string>, freshId: string): (r: string)
    ensures Given(given) ==> r == given.value
    ensures !Given(given) ==> r == freshId
  {
    if Given(given) then given.value else freshId
  }

  class LogicPublisher {
    const variant: Variant
    var topic: string
    const partition: Option<int>
    const replyTo: string
    const headers: map<string, string>
    /** `self.key`; only the default publisher has one. */
    const key: Option<Bytes>
    const brokerMiddlewares: seq<Middleware>
    const middlewares: seq<Middleware>

    /** `LogicPublisher.__init__` / `DefaultPublisher.__init__`: missing headers become `{}`. */
    constructor (configs: PublisherBaseConfigs, variant: Variant)
      ensures this.variant == variant && topic == configs.topic
      ensures partition == configs.partition && replyTo == configs.replyTo
      ensures headers == OrEmpty(configs.headers)
      ensures key == (if variant.Default? then configs.key else None)
      ensures brokerMiddlewares == configs.brokerMiddlewares && middlewares == configs.middlewares
    {
      this.variant := variant;
      topic := configs.topic;
      partition := configs.partition;
      replyTo := configs.replyTo;
      headers := OrEmpty(configs.headers);
      key := if variant.Default? then configs.key else None;
      brokerMiddlewares := configs.brokerMiddlewares;
      middlewares := configs.middlewares;
    }

    /** `add_prefix`. */
    method AddPrefix(prefix: string)
      modifies this
      ensures topic == prefix + old(topic)
    {
      topic := prefix + topic;
    }

    /** `DefaultPublisher.publish`: every falsy caller value (an empty topic, key or reply-to,
        a missing or zero partition) falls back to the publisher's own; the caller's headers
        win over the publisher's; a correlation id is generated only when none is given. */
    function PublishOne(message: Bytes, topic: string, key: Option<Bytes>, partition: Option<int>,
                        timestampMs: Option<int>, headers: Option<map<string, string>>,
                        correlationId: Option<string>, replyTo: string, noConfirm: bool,
                        freshId: string): (cmd: PublishCommand)
      reads this
      requires variant.Default?
      ensures cmd.bodies == [message] && cmd.publishType == Publish && cmd.timeout.None?
      ensures cmd.destination == (if topic != "" then topic else this.topic)
      ensures cmd.key == (if key.Some? && key.value != [] then key else this.key)
      ensures cmd.partition == (if partition.Some? && partition.value != 0 then partition else this.partition)
      ensures cmd.replyTo == (if replyTo != "" then replyTo else this.replyTo)
      ensures cmd.headers == Merge(this.headers, OrEmpty(headers))
      ensures cmd.correlationId == CorrelationId(correlationId, freshId)
      ensures cmd.timestampMs == timestampMs && cmd.noConfirm == noConfirm
    {
      PublishCommand([message], OrString(topic, this.topic), OrSeq(key, this.key),
                     OrInt(partition, this.partition), OrString(replyTo, this.replyTo),
                     Merge(this.headers, OrEmpty(headers)), CorrelationId(correlationId, freshId),
                     timestampMs, noConfirm, None, Publish)
    }

    /** `BatchPublisher.publish`: the same fallbacks, for several messages, and never a key. */
    function PublishBatch(messages: seq<Bytes>, topic: string, partition: Option<int>,
                          timestampMs: Option<int>, headers: Option<map<string, string>>,
                          correlationId: Option<string>, replyTo: string, noConfirm: bool,
                          freshId: string): (cmd: PublishCommand)
      reads this
      requires variant.Batch?
      ensures cmd.bodies == messages && cmd.publishType == Publish && cmd.timeout.None?
      ensures cmd.key.None?
      ensures cmd.destination == (if topic != "" then topic else this.topic)
      ensures cmd.partition == (if partition.Some? && partition.value != 0 then partition else this.partition)
      ensures cmd.replyTo == (if replyTo != "" then replyTo else this.replyTo)
      ensures cmd.headers == Merge(this.headers, OrEmpty(headers))
      ensures cmd.correlationId == CorrelationId(correlationId, freshId)
      ensures cmd.timestampMs == timestampMs && cmd.noConfirm == noConfirm
    {
      PublishCommand(messages, OrString(topic, this.topic), None,
                     OrInt(partition, this.partition), OrString(replyTo, this.replyTo),
                     Merge(this.headers, OrEmpty(headers)), CorrelationId(correlationId, freshId),
                     timestampMs, noConfirm, None, Publish)
    }

    /** `request` (and `DefaultPublisher.request`, which first falls back to its own key): a
        REQUEST command that carries the timeout and no reply-to; topic, partition, headers
        and correlation id fall back as in `publish`. */
    function RequestOne(message: Bytes, topic: string, key: Option<Bytes>, partition: Option<int>,
                        timestampMs: Option<int>, headers: Option<map<string, string>>,
                        correlationId: Option<string>, timeout: real, freshId: string)
      : (cmd: PublishCommand)
      reads this
      ensures cmd.bodies == [message] && cmd.publishType == Request && cmd.timeout == Some(timeout)
      ensures variant.Default? ==> cmd.key == (if key.Some? && key.value != [] then key else this.key)
      ensures variant.Batch? ==> cmd.key == key
      ensures cmd.destination == (if topic != "" then topic else this.topic)
      ensures cmd.partition == (if partition.Some? && partition.value != 0 then partition else this.partition)
      ensures cmd.replyTo == "" && !cmd.noConfirm
      ensures cmd.headers == Merge(this.headers, OrEmpty(headers))
      ensures cmd.correlationId == CorrelationId(correlationId, freshId)
      ensures cmd.timestampMs == timestampMs
    {
      var k := if variant.Default? then OrSeq(key, this.key) else key;
      PublishCommand([message], OrString(topic, this.topic), k, OrInt(partition, this.partition), "",
                     Merge(this.headers, OrEmpty(headers)), CorrelationId(correlationId, freshId),
                     timestampMs, false, Some(timeout), Request)
    }

    /** The command `_publish` sends in the subscriber flow: the destination is always this
        publisher's topic, headers already on the command win over the defaults, and reply-to,
        partition and (for the default publisher only) key are filled in only when falsy. */
    function FlowCommand(cmd: PublishCommand): (r: PublishCommand)
      reads this
      ensures r.destination == topic
      ensures forall h :: h in cmd.headers ==> h in r.headers && r.headers[h] == cmd.headers[h]
      ensures forall h :: h in r.headers <==> h in cmd.headers || h in headers
      ensures forall h :: h in headers && h !in cmd.headers ==> r.headers[h] == headers[h]
      ensures r.replyTo == (if cmd.replyTo != "" then cmd.replyTo else replyTo)
      ensures r.partition == (if cmd.partition.Some? && cmd.partition.value != 0 then cmd.partition else partition)
      ensures variant.Default? ==> r.key == (if cmd.key.Some? && cmd.key.value != [] then cmd.key else key)
      ensures variant.Batch? ==> r.key == cmd.key
      ensures r.bodies == cmd.bodies && r.correlationId == cmd.correlationId
      ensures r.timestampMs == cmd.timestampMs && r.noConfirm == cmd.noConfirm
      ensures r.timeout == cmd.timeout && r.publishType == cmd.publishType
    {
      cmd.(destination := topic, headers := Merge(headers, cmd.headers),
           replyTo := OrString(cmd.replyTo, replyTo), partition := OrInt(cmd.partition, partition),
           key := if variant.Default? then OrSeq(cmd.key, key) else cmd.key)
    }

    /** `_publish`: the command is updated field by field, as the source does. */
    method PublishInFlow(cmd: PublishCommand) returns (r: PublishCommand)
      ensures r == FlowCommand(cmd)
    {
      r := cmd;
      r := r.(destination := topic);
      r := r.(headers := Merge(headers, r.headers));
      r := r.(replyTo := OrString(r.replyTo, replyTo));
      r := r.(partition := OrInt(r.partition, partition));
      if variant.Default? {
        r := r.(key := OrSeq(r.key, key));
      }
    }

    /** Filling in the defaults twice is filling them in once. */
    lemma FlowCommandIdempotent(cmd: PublishCommand)
      ensures FlowCommand(FlowCommand(cmd)) == FlowCommand(cmd)
    {
      MergeAbsorbs(headers, cmd.headers);
    }

    /** A command that `publish` built already carries every default, so sending it through
        the subscriber flow only redirects it to this publisher's topic. */
    lemma FlowAfterPublish(message: Bytes, topic: string, key: Option<Bytes>, partition: Option<int>,
                           timestampMs: Option<int>, headers: Option<map<string, string>>,
                           correlationId: Option<string>, replyTo: string, noConfirm: bool,
                           freshId: string)
      requires variant.Default?
      ensures var cmd := PublishOne(message, topic, key, partition, timestampMs, headers,
                                    correlationId, replyTo, noConfirm, freshId);
        FlowCommand(cmd) == cmd.(destination := this.topic)
    {
      MergeAbsorbs(this.headers, OrEmpty(headers));
    }
  }
}
