/** Types shared by every part of the model: the "unset" sentinel as an Option,
    results that carry a configuration error, the acknowledgement policies,
    the assertion failures of the pull-style API and the background tasks a
    subscriber owns. */
module Base {

  /** `EMPTY` (the caller did not pass the argument) is `None`. */
  datatype Option<+T> = None | Some(value: T)

  /** A value, or the error a call raises instead of returning it. */
  datatype Result<+T, +E> = Ok(value: T) | Err(error: E)

  /** A check that either passes or raises. */
  datatype Outcome<+E> = Pass | Fail(error: E)

  /** The acknowledgement policy of a subscriber. */
  datatype AckPolicy = AckFirst | RejectOnError | ManualAck | DoNothing

  /** The kinds of `SetupError` the configuration code raises. */
  datatype SetupError =
    | AutoCommitWithAckPolicy     // deprecated `auto_commit` together with `ack_policy`
    | NoAckWithAckPolicy          // deprecated `no_ack` together with `ack_policy`
    | MaxWorkersWithManualCommit  // several workers with a manual commit mode
    | KeyWithBatchPublisher       // a `key` on a batch publisher
    | GroupWithoutConsumer        // only one of a stream's `group` and `consumer`
    | IncorrectSetup              // no channel, list or stream to publish to

  /** The failures of the pull-style API: the `assert` statements of the subscribers, each
      raising `AssertionError`, and one unpacking error. */
  datatype Failure =
    | NotSetUp            // "You should setup subscriber at first."
    | NotStarted          // "You should start subscriber at first."
    | HandlersRegistered  // `get_one` or the iterator while handlers are registered
    | UnpackError         // `ValueError` of `((msg,),) = raw_messages.values()` on another shape

  /** Background tasks: the consumption loop, and the worker pool of a concurrent subscriber. */
  datatype Task = ConsumeLoop | WorkerPool

  /** A publisher or broker middleware; the model only forwards them. */
  datatype Middleware = Middleware(name: string)

  type Byte = x: int | 0 <= x < 256
  type Bytes = seq<Byte>

  /** Python truthiness of an optional string: `None` and `""` are false. */
  predicate Given(s: Option<string>) {
    s.Some? && s.value != ""
  }

  /** `a or b` on optional values whose falsy values are `None` and the empty sequence. */
  function OrSeq<T>(a: Option<seq<T>>, b: Option<seq<T>>): (r: Option<seq<T>>)
    ensures a.Some? && a.value != [] ==> r == a
    ensures (a.None? || a.value == []) ==> r == b
  {
    if a.Some? && a.value != [] then a else b
  }

  /** `a or b` on optional integers: `None` and `0` are both falsy. */
  function OrInt(a: Option<int>, b: Option<int>): (r: Option<int>)
    ensures a.Some? && a.value != 0 ==> r == a
    ensures (a.None? || a.value == 0) ==> r == b
  {
    if a.Some? && a.value != 0 then a else b
  }

  /** `a or b` on strings. */
  function OrString(a: string, b: string): (r: string)
    ensures a != "" ==> r == a
    ensures a == "" ==> r == b
  {
    if a != "" then a else b
  }
}
