/** The publisher factory of the `aiokafka` backend
    (faststream/kafka/publisher/factory.py): a batch publisher refuses a key,
    otherwise the batch or default publisher is built from the same options. */
module KafkaPublisherFactory {
  import opened Base

  /** `PublisherLogicOptions`. */
  datatype LogicOptions = LogicOptions(
    key: Option<Bytes>, topic: string, partition: Option<int>,
    headers: Option<map<string, string>>, replyTo: string,
    brokerMiddlewares: seq<Middleware>, middlewares: seq<Middleware>)

  /** The two publishers this factory builds. */
  datatype Publisher = DefaultPublisher(options: LogicOptions) | BatchPublisher(options: LogicOptions)

  /** `create_publisher`: a batch publisher with a truthy key raises before any publisher is
      built; a batch publisher with no key or an empty one is built; a default publisher is
      built whatever the key. The arguments reach the options unchanged. */
  function CreatePublisher(
    batch: bool, key: Option<Bytes>, topic: string, partition: Option<int>,
    headers: Option<map<string, string>>, replyTo: string,
    brokerMiddlewares: seq<Middleware>, middlewares: seq<Middleware>)
    : (r: Result<Publisher, SetupError>)
    ensures r.Err? <==> batch && key.Some? && key.value != []
    ensures r.Err? ==> r.error == KeyWithBatchPublisher
    ensures r.Ok? ==> (r.value.BatchPublisher? <==> batch)
    ensures r.Ok? ==> r.value.options.key == key && r.value.options.topic == topic
    ensures r.Ok? ==> r.value.options.partition == partition && r.value.options.headers == headers
    ensures r.Ok? ==> r.value.options.replyTo == replyTo
    ensures r.Ok? ==> r.value.options.brokerMiddlewares == brokerMiddlewares
    ensures r.Ok? ==> r.value.options.middlewares == middlewares
  {
    var options := LogicOptions(key, topic, partition, headers, replyTo, brokerMiddlewares, middlewares);
    if batch then
      if key.Some? && key.value != [] then Err(KeyWithBatchPublisher)
      else Ok(BatchPublisher(options))
    else Ok(DefaultPublisher(options))
  }
}
