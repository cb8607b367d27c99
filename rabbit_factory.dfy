/** The subscriber factory of the RabbitMQ backend
    (faststream/rabbit/subscriber/factory.py): the deprecated `no_ack` flag is
    checked against `ack_policy`, and one specification subscriber is built
    from two config objects that share the same queue and exchange. */
module RabbitFactory {
  import opened Base
  import opened RabbitExchangeSchema

  /** A queue, by name (the queue schema is not part of this model). */
  datatype RabbitQueue = RabbitQueue(name: string)

  /** A channel configuration, kept opaque. */
  datatype Channel = Channel(settings: map<string, string>)

  /** `RabbitSubscriberBaseConfigs`: the policy and `no_ack` are carried as given. */
  datatype SubscriberBaseConfigs = SubscriberBaseConfigs(
    ackPolicy: Option<AckPolicy>, noAck: Option<bool>, noReply: bool,
    consumeArgs: Option<map<string, string>>, queue: RabbitQueue, channel: Option<Channel>,
    exchange: RabbitExchange)

  /** `RabbitBaseConfigs`. */
  datatype RabbitBaseConfigs = RabbitBaseConfigs(queue: RabbitQueue, exchange: RabbitExchange)

  /** `SpecificationSubscriber`, the only kind this factory returns. */
  datatype SpecificationSubscriber = SpecificationSubscriber(
    channel: Option<Channel>, baseConfigs: SubscriberBaseConfigs, rabbitConfigs: RabbitBaseConfigs)

  /** `_validate_input_for_misconfigure`: only `no_ack` together with `ack_policy` raises;
      `no_ack` alone only warns, and without `no_ack` nothing raises. */
  function ValidateInput(ackPolicy: Option<AckPolicy>, noAck: Option<bool>): (r: Outcome<SetupError>)
    ensures r.Fail? <==> noAck.Some? && ackPolicy.Some?
    ensures r.Fail? ==> r.error == NoAckWithAckPolicy
  {
    if noAck.Some? && ackPolicy.Some? then Fail(NoAckWithAckPolicy) else Pass
  }

  /** `create_subscriber`: validation comes first, so a `SetupError` builds nothing; otherwise
      `ack_policy` and `no_ack` reach the base configs unchanged (no mapping of one onto the
      other here) and both config objects carry the same queue and exchange. */
  function CreateSubscriber(
    queue: RabbitQueue, exchange: RabbitExchange, consumeArgs: Option<map<string, string>>,
    channel: Option<Channel>, noReply: bool, ackPolicy: Option<AckPolicy>, noAck: Option<bool>)
    : (r: Result<SpecificationSubscriber, SetupError>)
    ensures r.Err? <==> noAck.Some? && ackPolicy.Some?
    ensures r.Err? ==> r.error == NoAckWithAckPolicy
    ensures r.Ok? ==> r.value.baseConfigs.ackPolicy == ackPolicy && r.value.baseConfigs.noAck == noAck
    ensures r.Ok? ==> r.value.baseConfigs.queue == r.value.rabbitConfigs.queue == queue
    ensures r.Ok? ==> r.value.baseConfigs.exchange == r.value.rabbitConfigs.exchange == exchange
    ensures r.Ok? ==> r.value.channel == r.value.baseConfigs.channel == channel
    ensures r.Ok? ==> r.value.baseConfigs.noReply == noReply && r.value.baseConfigs.consumeArgs == consumeArgs
  {
    match ValidateInput(ackPolicy, noAck)
    case Fail(e) => Err(e)
    case Pass =>
      var base := SubscriberBaseConfigs(ackPolicy, noAck, noReply, consumeArgs, queue, channel, exchange);
      var rabbit := RabbitBaseConfigs(queue, exchange);
      Ok(SpecificationSubscriber(channel, base, rabbit))
  }
}
