/** The RabbitMQ exchange value object (faststream/rabbit/schemas/exchange.py):
    its constructor with the deprecated `passive` flag, the derived routing key,
    the hash and `validate`. */
module RabbitExchangeSchema {
  import opened Base

  datatype ExchangeType = Direct | Fanout | Topic | Headers | XDelayedMessage | XConsistentHash | XModulusHash

  /** An exchange, with every field `__init__` stores. `passive` is kept as given (None when
      the caller left it unset); `arguments` and the binding arguments are string maps. */
  datatype RabbitExchange = RabbitExchange(
    name: string, kind: ExchangeType, durable: bool, autoDelete: bool, declare: bool,
    passive: Option<bool>, arguments: Option<map<string, string>>, timeout: Option<real>,
    robust: bool, bindTo: Option<RabbitExchange>, bindArguments: Option<map<string, string>>,
    routingKey: string)

  /** `RabbitExchange.__init__`. A given `passive` overrides `declare` with its negation; a
      routing key without `bind_to` only warns and is stored all the same. */
  function NewExchange(
    name: string, kind: ExchangeType, durable: bool, autoDelete: bool, declare: bool,
    passive: Option<bool>, arguments: Option<map<string, string>>, timeout: Option<real>,
    robust: bool, bindTo: Option<RabbitExchange>, bindArguments: Option<map<string, string>>,
    routingKey: string): (e: RabbitExchange)
    ensures passive.Some? ==> e.declare == !passive.value
    ensures passive.None? ==> e.declare == declare
    ensures e.routingKey == routingKey && e.bindTo == bindTo && e.passive == passive
    ensures e.name == name && e.kind == kind && e.durable == durable && e.autoDelete == autoDelete
    ensures e.robust == robust && e.arguments == arguments && e.timeout == timeout
    ensures e.bindArguments == bindArguments
  {
    var declared := if passive.Some? then !passive.value else declare;
    RabbitExchange(name, kind, durable, autoDelete, declared, passive, arguments, timeout,
                   robust, bindTo, bindArguments, routingKey)
  }

  /** `RabbitExchange(name)`: every other argument at its default. */
  function Named(name: string): (e: RabbitExchange)
    ensures e.name == name && e.kind == Direct && !e.durable && !e.autoDelete
    ensures e.declare && e.passive.None? && e.robust && e.routingKey == ""
    ensures e.arguments.None? && e.timeout.None? && e.bindTo.None? && e.bindArguments.None?
  {
    NewExchange(name, Direct, false, false, true, None, None, None, true, None, None, "")
  }

  /** `routing`: the routing key when it is not empty, else the name. */
  function Routing(e: RabbitExchange): (r: string)
    ensures e.routingKey != "" ==> r == e.routingKey
    ensures e.routingKey == "" ==> r == e.name
  {
    if e.routingKey != "" then e.routingKey else e.name
  }

  /** `__hash__`: the sum of the hashes of the name, the type and the routing key and of the
      two flags. Python's string and enum hashes are given as parameters. */
  function Hash(e: RabbitExchange, strHash: string -> int, typeHash: ExchangeType -> int): int {
    strHash(e.name) + typeHash(e.kind) + strHash(e.routingKey)
      + (if e.durable then 1 else 0) + (if e.autoDelete then 1 else 0)
  }

  /** Two exchanges that agree on name, type, routing key, durability and auto-delete hash
      alike, whatever their arguments, robustness, binding or timeout, for any string and
      type hash. */
  lemma HashIgnoresOtherFields(a: RabbitExchange, b: RabbitExchange,
                               strHash: string -> int, typeHash: ExchangeType -> int)
    requires a.name == b.name && a.kind == b.kind && a.routingKey == b.routingKey
    requires a.durable == b.durable && a.autoDelete == b.autoDelete
    ensures Hash(a, strHash, typeHash) == Hash(b, strHash, typeHash)
  {
  }

  /** What `validate` accepts: nothing, a name, or an exchange. */
  datatype ExchangeArg = NoExchange | ByName(name: string) | Exchange(exchange: RabbitExchange)

  /** `validate`: a name builds an exchange with defaults, an exchange is kept, and nothing
      gives the default exchange (empty name, DIRECT, not durable). */
  function Validate(value: ExchangeArg): (e: RabbitExchange)
    ensures value.NoExchange? ==> e == Named("") && e.name == "" && e.kind == Direct && !e.durable
    ensures value.ByName? ==> e == Named(value.name)
    ensures value.Exchange? ==> e == value.exchange
  {
    match value
    case NoExchange => Named("")
    case ByName(n) => Named(n)
    case Exchange(x) => x
  }
}
