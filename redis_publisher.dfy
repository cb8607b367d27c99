/** The Redis publisher factory (faststream/redis/publisher/publisher.py): a channel wins over
    a stream, a stream over a list, and a list becomes the batch publisher when its `batch`
    flag is set. Each variant names itself and its AsyncAPI channel binding. */
module RedisPublisher {
  import opened Base
  import opened RedisStreamSub

  /** A Redis pub/sub channel, by name. */
  datatype PubSub = PubSub(name: string)

  /** The parts of a `ListSub` the publishers use. */
  datatype ListTarget = ListTarget(name: string, batch: bool)

  /** The arguments every variant receives unchanged. */
  datatype Common = Common(
    headers: Option<map<string, string>>, replyTo: string,
    brokerMiddlewares: seq<Middleware>, middlewares: seq<Middleware>,
    title: Option<string>, description: Option<string>, includeInSchema: bool)

  datatype Publisher =
    | ChannelPublisher(channel: PubSub, common: Common)
    | StreamPublisher(stream: StreamSub, common: Common)
    | ListPublisher(list: ListTarget, common: Common)
    | ListBatchPublisher(list: ListTarget, common: Common)

  /** `redis.ChannelBinding`. */
  datatype ChannelBinding = ChannelBinding(channel: string, command: string)

  /** `SpecificationPublisher.create`. Each option is `None` when it was not passed or
      validated to nothing. The first of channel, stream and list that is present decides the
      variant; with none of them it raises `SetupError(INCORRECT_SETUP_MSG)`. */
  function Create(channel: Option<PubSub>, list: Option<ListTarget>, stream: Option<StreamSub>, common: Common)
    : (r: Result<Publisher, SetupError>)
    ensures r.Err? <==> channel.None? && stream.None? && list.None?
    ensures r.Err? ==> r.error == IncorrectSetup
    ensures channel.Some? ==> r == Ok(ChannelPublisher(channel.value, common))
    ensures channel.None? && stream.Some? ==> r == Ok(StreamPublisher(stream.value, common))
    ensures channel.None? && stream.None? && list.Some? ==>
      r == Ok(if list.value.batch then ListBatchPublisher(list.value, common) else ListPublisher(list.value, common))
    ensures r.Ok? ==> r.value.common == common
  {
    if channel.Some? then Ok(ChannelPublisher(channel.value, common))
    else if stream.Some? then Ok(StreamPublisher(stream.value, common))
    else if list.Some? then
      if list.value.batch then Ok(ListBatchPublisher(list.value, common))
      else Ok(ListPublisher(list.value, common))
    else Err(IncorrectSetup)
  }

  /** The name of the channel, stream or list a publisher writes to. */
  function TargetName(p: Publisher): string {
    match p
    case ChannelPublisher(c, _) => c.name
    case StreamPublisher(s, _) => s.name
    case ListPublisher(l, _) => l.name
    case ListBatchPublisher(l, _) => l.name
  }

  /** `get_name`: the target's name followed by ":Publisher". */
  function GetName(p: Publisher): (r: string)
    ensures |r| > |TargetName(p)| && r[..|TargetName(p)|] == TargetName(p)
    ensures r[|TargetName(p)|..] == ":Publisher"
  {
    TargetName(p) + ":Publisher"
  }

  /** `channel_binding`: the target's name and the Redis command that writes to it. */
  function Binding(p: Publisher): (r: ChannelBinding)
    ensures r.channel == TargetName(p)
    ensures p.ChannelPublisher? <==> r.command == "publish"
    ensures p.StreamPublisher? <==> r.command == "xadd"
    ensures (p.ListPublisher? || p.ListBatchPublisher?) <==> r.command == "rpush"
  {
    match p
    case ChannelPublisher(c, _) => ChannelBinding(c.name, "publish")
    case StreamPublisher(s, _) => ChannelBinding(s.name, "xadd")
    case ListPublisher(l, _) => ChannelBinding(l.name, "rpush")
    case ListBatchPublisher(l, _) => ChannelBinding(l.name, "rpush")
  }

  /** The publisher `create` builds is named after, and bound to, the option that won. */
  lemma CreatedPublisherNamedAfterTarget(channel: Option<PubSub>, list: Option<ListTarget>,
                                         stream: Option<StreamSub>, common: Common)
    requires channel.Some? || stream.Some? || list.Some?
    ensures var r := Create(channel, list, stream, common);
      var target := if channel.Some? then channel.value.name
                    else if stream.Some? then stream.value.name
                    else list.value.name;
      r.Ok? && GetName(r.value) == target + ":Publisher" && Binding(r.value).channel == target
  {
  }
}
