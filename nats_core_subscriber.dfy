/** The core NATS subscribers (faststream/nats/subscriber/usecases/core_subscriber.py): the
    pull-style `get_one` and iterator share one lazily created fetch subscription, and the
    push-style subscription is created once, with the handler or (concurrent variant) the
    worker queue as its callback. */
module NatsCoreSubscriber {
  import opened Base

  /** A raw NATS message. */
  datatype NatsMsg = NatsMsg(subject: string, data: Bytes)

  /** What a subscription calls for each message: nothing (pull-style), the subscriber's
      `consume`, or the concurrent variant's `_put_msg`. */
  datatype Callback = NoCallback | ConsumeCallback | PutMsgCallback

  datatype Variant = Default | Concurrent(maxWorkers: int)

  /** A subscription returned by `client.subscribe`; each call gives a new object. */
  class Subscription {
    const subject: string
    const queue: string
    const callback: Callback

    constructor (subject: string, queue: string, callback: Callback)
      ensures this.subject == subject && this.queue == queue && this.callback == callback
    {
      this.subject := subject;
      this.queue := queue;
      this.callback := callback;
    }
  }

  class CoreSubscriber {
    const variant: Variant
    /** `clear_subject`: the subject the client subscribes to. */
    const clearSubject: string
    const queue: string
    const ackPolicy: AckPolicy
    /** The parser's `is_ack_disabled` flag. */
    const isAckDisabled: bool
    /** Number of registered handlers (`self.calls`). */
    var calls: nat
    var fetchSub: Option<Subscription>
    var subscription: Option<Subscription>
    var tasks: seq<Task>

    /** `CoreSubscriber.__init__`: the parser's `is_ack_disabled` is set exactly when the
        policy is not DO_NOTHING. */
    constructor (clearSubject: string, queue: string, ackPolicy: AckPolicy, variant: Variant)
      ensures this.clearSubject == clearSubject && this.queue == queue && this.variant == variant
      ensures this.ackPolicy == ackPolicy
      ensures isAckDisabled <==> ackPolicy != DoNothing
      ensures calls == 0 && fetchSub.None? && subscription.None? && tasks == []
    {
      this.clearSubject := clearSubject;
      this.queue := queue;
      this.ackPolicy := ackPolicy;
      this.variant := variant;
      isAckDisabled := ackPolicy != DoNothing;
      calls := 0;
      fetchSub := None;
      subscription := None;
      tasks := [];
    }

    /** The fetch subscription: the existing one, or a new one without a callback on the
        subject and queue, stored for later calls. */
    method EnsureFetchSub() returns (sub: Subscription)
      modifies this
      ensures old(fetchSub).Some? ==> sub == old(fetchSub).value
      ensures old(fetchSub).None? ==>
        fresh(sub) && sub.subject == clearSubject && sub.queue == queue && sub.callback == NoCallback
      ensures fetchSub == Some(sub)
      ensures calls == old(calls) && subscription == old(subscription) && tasks == old(tasks)
    {
      if fetchSub.None? {
        sub := new Subscription(clearSubject, queue, NoCallback);
        fetchSub := Some(sub);
      } else {
        sub := fetchSub.value;
      }
    }

    /** `get_one`: refused while handlers are registered; otherwise waits on the fetch
        subscription, where `next` is the message that arrives before the timeout (`None`
        for a `TimeoutError`, which gives `None`). */
    method GetOne(next: Option<NatsMsg>) returns (r: Result<Option<NatsMsg>, Failure>)
      modifies this
      ensures old(calls) > 0 ==> r == Err(HandlersRegistered) && fetchSub == old(fetchSub)
      ensures old(calls) == 0 ==> r == Ok(next) && fetchSub.Some?
      ensures old(calls) == 0 && old(fetchSub).Some? ==> fetchSub == old(fetchSub)
      ensures old(calls) == 0 && old(fetchSub).None? ==>
        fresh(fetchSub.value) && fetchSub.value.subject == clearSubject
        && fetchSub.value.queue == queue && fetchSub.value.callback == NoCallback
      ensures calls == old(calls) && subscription == old(subscription) && tasks == old(tasks)
    {
      if calls > 0 {
        return Err(HandlersRegistered);
      }
      var sub := EnsureFetchSub();
      r := Ok(next);
    }

    /** `__aiter__`: refused while handlers are registered; otherwise yields every message of
        the fetch subscription, in arrival order (`arrived` are those delivered until the
        caller stops iterating). */
    method Iterate(arrived: seq<NatsMsg>) returns (r: Result<seq<NatsMsg>, Failure>)
      modifies this
      ensures old(calls) > 0 ==> r == Err(HandlersRegistered) && fetchSub == old(fetchSub)
      ensures old(calls) == 0 ==> r == Ok(arrived) && fetchSub.Some?
      ensures old(calls) == 0 && old(fetchSub).Some? ==> fetchSub == old(fetchSub)
      ensures old(calls) == 0 && old(fetchSub).None? ==>
        fresh(fetchSub.value) && fetchSub.value.callback == NoCallback
      ensures calls == old(calls) && subscription == old(subscription) && tasks == old(tasks)
    {
      if calls > 0 {
        return Err(HandlersRegistered);
      }
      var sub := EnsureFetchSub();
      r := Ok(arrived);
    }

    /** `_create_subscription` of both variants: nothing happens when a subscription exists;
        otherwise the concurrent variant first starts its worker pool and subscribes with
        `_put_msg`, the default variant subscribes with `consume`. */
    method CreateSubscription()
      modifies this
      ensures old(subscription).Some? ==> subscription == old(subscription) && tasks == old(tasks)
      ensures old(subscription).None? ==>
        subscription.Some? && fresh(subscription.value)
        && subscription.value.subject == clearSubject && subscription.value.queue == queue
        && subscription.value.callback == (if variant.Concurrent? then PutMsgCallback else ConsumeCallback)
        && tasks == old(tasks) + (if variant.Concurrent? then [WorkerPool] else [])
      ensures calls == old(calls) && fetchSub == old(fetchSub)
    {
      if subscription.Some? {
        return;
      }
      var callback := ConsumeCallback;
      if variant.Concurrent? {
        tasks := tasks + [WorkerPool];
        callback := PutMsgCallback;
      }
      var sub := new Subscription(clearSubject, queue, callback);
      subscription := Some(sub);
    }
  }

  /** Two `get_one` calls on a fresh subscriber share one fetch subscription, a pull-style
      one on the subscriber's subject and queue, and return what arrived. */
  method GetOneTwice(subject: string, queue: string, ackPolicy: AckPolicy,
                     first: Option<NatsMsg>, second: Option<NatsMsg>)
    returns (r1: Result<Option<NatsMsg>, Failure>, r2: Result<Option<NatsMsg>, Failure>,
             sameSubscription: bool, pullStyle: bool)
    ensures r1 == Ok(first) && r2 == Ok(second)
    ensures sameSubscription && pullStyle
  {
    var s := new CoreSubscriber(subject, queue, ackPolicy, Default);
    r1 := s.GetOne(first);
    var sub1 := s.fetchSub.value;
    r2 := s.GetOne(second);
    var sub2 := s.fetchSub.value;
    sameSubscription := sub1 == sub2;
    pullStyle := sub2.callback == NoCallback && sub2.subject == subject && sub2.queue == queue;
  }

  /** Creating the subscription twice subscribes once and starts at most one worker pool. */
  method CreateSubscriptionTwice(subject: string, queue: string, ackPolicy: AckPolicy, variant: Variant)
    returns (workerPools: nat, callback: Callback)
    ensures workerPools == (if variant.Concurrent? then 1 else 0)
    ensures callback == (if variant.Concurrent? then PutMsgCallback else ConsumeCallback)
  {
    var s := new CoreSubscriber(subject, queue, ackPolicy, variant);
    s.CreateSubscription();
    s.CreateSubscription();
    workerPools := |s.tasks|;
    callback := s.subscription.value.callback;
  }
}
