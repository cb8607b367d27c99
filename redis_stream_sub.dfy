/** The Redis stream subscription schema (faststream/redis/schemas/stream_sub.py):
    `group` and `consumer` come together or not at all, and `last_id` defaults to "$". */
module RedisStreamSub {
  import opened Base

  const DefaultPollingInterval: int := 100
  const LatestId: string := "$"

  datatype StreamSub = StreamSub(
    name: string, pollingInterval: Option<int>, group: Option<string>, consumer: Option<string>,
    batch: bool, noAck: bool, lastId: string, maxlen: Option<int>, maxRecords: Option<int>)

  /** The `RuntimeWarning` branch: `no_ack` is ignored by a consumer group. */
  predicate NoAckWarning(group: Option<string>, consumer: Option<string>, noAck: bool) {
    Given(group) && Given(consumer) && noAck
  }

  /** `StreamSub.__init__`: exactly one truthy `group`/`consumer` raises; otherwise every
      argument is stored as given (`no_ack` too, even when it only warns) except that a
      missing `last_id` becomes "$". */
  function NewStreamSub(
    stream: string, pollingInterval: Option<int>, group: Option<string>, consumer: Option<string>,
    batch: bool, noAck: bool, lastId: Option<string>, maxlen: Option<int>, maxRecords: Option<int>)
    : (r: Result<StreamSub, SetupError>)
    ensures r.Err? <==> Given(group) != Given(consumer)
    ensures r.Err? ==> r.error == GroupWithoutConsumer
    ensures r.Ok? ==> r.value.lastId == (if lastId.None? then LatestId else lastId.value)
    ensures r.Ok? ==> r.value.name == stream && r.value.pollingInterval == pollingInterval
    ensures r.Ok? ==> r.value.group == group && r.value.consumer == consumer
    ensures r.Ok? ==> r.value.batch == batch && r.value.noAck == noAck
    ensures r.Ok? ==> r.value.maxlen == maxlen && r.value.maxRecords == maxRecords
  {
    if (Given(group) && !Given(consumer)) || (!Given(group) && Given(consumer)) then
      Err(GroupWithoutConsumer)
    else
      var id := if lastId.None? then LatestId else lastId.value;
      Ok(StreamSub(stream, pollingInterval, group, consumer, batch, noAck, id, maxlen, maxRecords))
  }

  /** `StreamSub(stream)`: the defaults are accepted and give polling interval 100, no group,
      no batch, no `no_ack`, the "$" id and no limits. */
  lemma DefaultsAccepted(stream: string)
    ensures NewStreamSub(stream, Some(DefaultPollingInterval), None, None, false, false, None, None, None)
      == Ok(StreamSub(stream, Some(100), None, None, false, false, "$", None, None))
  {
  }

  /** Giving both `group` and `consumer` is accepted whatever `no_ack` is: the warning never
      turns into an error, and `no_ack` is kept. */
  lemma NoAckWithGroupOnlyWarns(stream: string, group: string, consumer: string, noAck: bool)
    requires group != "" && consumer != ""
    ensures NoAckWarning(Some(group), Some(consumer), noAck) == noAck
    ensures NewStreamSub(stream, None, Some(group), Some(consumer), false, noAck, None, None, None).Ok?
    ensures NewStreamSub(stream, None, Some(group), Some(consumer), false, noAck, None, None, None).value.noAck == noAck
  {
  }
}
