/** The Redis list subscribers (faststream/redis/subscriber/usecases/list_subscriber.py): one
    class for the plain, batch and concurrent variants. The Redis server's list is a sequence
    of byte strings handed to each operation; the pops that complete before a timeout are a
    sequence of `lpop` results. */
module RedisListSubscriber {
  import opened Base
  import opened RedisListSub

  datatype Variant = Default | Batch | Concurrent(maxWorkers: int)

  /** `DefaultListMessage` (type "list") and `BatchListMessage` (type "blist"). */
  datatype ListMessage =
    | DefaultListMessage(channel: string, data: Bytes)
    | BatchListMessage(channel: string, items: seq<Bytes>)

  function Kind(m: ListMessage): (k: string)
    ensures m.DefaultListMessage? <==> k == "list"
    ensures m.BatchListMessage? <==> k == "blist"
  {
    if m.DefaultListMessage? then "list" else "blist"
  }

  /** The byte strings a message carries, in order. */
  function Payload(m: ListMessage): seq<Bytes> {
    if m.DefaultListMessage? then [m.data] else m.items
  }

  /** What one `_get_msgs` call hands on: messages to the handler (`consume_one`), messages to
      the worker queue (`_put_msg`, the concurrent variant), whether it slept, and what is left
      in the Redis list. */
  datatype Step = Step(consumed: seq<ListMessage>, queued: seq<ListMessage>, slept: bool, rest: seq<Bytes>)

  /** `LPOP name count`: up to `count` items from the head (a count below one pops nothing). */
  function PopCount(stored: seq<Bytes>, count: int): (n: nat)
    ensures n <= |stored|
    ensures count >= 1 ==> n == (if count < |stored| then count else |stored|)
  {
    if count < 1 then 0 else if count < |stored| then count else |stored|
  }

  /** The index of the first completed `lpop` that found an item, or `|pops|` when none did. */
  function FirstHit(pops: seq<Option<Bytes>>): (k: nat)
    ensures k <= |pops|
    ensures forall i :: 0 <= i < k ==> pops[i].None?
    ensures k < |pops| ==> pops[k].Some?
  {
    if pops == [] then 0
    else if pops[0].Some? then 0
    else 1 + FirstHit(pops[1..])
  }

  /** The value of `raw_message` after one polling window in which `pops` completed: the item
      of the first successful pop, `None` if some pop completed but none found anything, and
      `before` (left untouched) if the deadline hit during the very first `lpop`. */
  function WindowResult(pops: seq<Option<Bytes>>, before: Option<Bytes>): (r: Option<Bytes>)
    ensures FirstHit(pops) < |pops| ==> r == pops[FirstHit(pops)]
    ensures FirstHit(pops) == |pops| && pops != [] ==> r.None?
    ensures pops == [] ==> r == before
  {
    if pops == [] then before
    else if FirstHit(pops) < |pops| then pops[FirstHit(pops)]
    else None
  }

  /** The message a window yields, given the value of `raw_message` after it. */
  function YieldOf(name: string, raw: Option<Bytes>): seq<ListMessage> {
    if raw.Some? && raw.value != [] then [DefaultListMessage(name, raw.value)] else []
  }

  /** `raw_message` after all windows, as the iterator is written: it is assigned only when a
      pop completes, so it carries over from one window to the next. */
  function CarriedRaw(windows: seq<seq<Option<Bytes>>>): Option<Bytes>
    decreases |windows|
  {
    if windows == [] then None
    else WindowResult(windows[|windows| - 1], CarriedRaw(windows[..|windows| - 1]))
  }

  /** The messages yielded by `__aiter__` as written, window by window. */
  function YieldedAsWritten(name: string, windows: seq<seq<Option<Bytes>>>): seq<ListMessage>
    decreases |windows|
  {
    if windows == [] then []
    else YieldedAsWritten(name, windows[..|windows| - 1]) + YieldOf(name, CarriedRaw(windows))
  }

  /** The messages the iterator is meant to yield: each window's first popped item, if it is
      a non-empty byte string, and nothing for a window in which nothing was popped. */
  function Yielded(name: string, windows: seq<seq<Option<Bytes>>>): (r: seq<ListMessage>)
    ensures |r| <= |windows|
    decreases |windows|
  {
    if windows == [] then []
    else Yielded(name, windows[..|windows| - 1]) + YieldOf(name, WindowResult(windows[|windows| - 1], None))
  }

  /** A message is yielded exactly when some window's first hit is a non-empty byte string. */
  lemma {:induction false} YieldedIffPopped(name: string, windows: seq<seq<Option<Bytes>>>, data: Bytes)
    ensures DefaultListMessage(name, data) in Yielded(name, windows) <==>
      data != [] && exists w :: w in windows && FirstHit(w) < |w| && w[FirstHit(w)] == Some(data)
    decreases |windows|
  {
    if windows != [] {
      var init := windows[..|windows| - 1];
      var last := windows[|windows| - 1];
      YieldedIffPopped(name, init, data);
      assert windows == init + [last];
      if data != [] && (exists w :: w in windows && FirstHit(w) < |w| && w[FirstHit(w)] == Some(data)) {
        var w :| w in windows && FirstHit(w) < |w| && w[FirstHit(w)] == Some(data);
        if w != last {
          assert w in init;
        }
      }
    }
  }

  /** Where every window completed at least one pop, the iterator as written yields what it
      is meant to: the carried-over value is always overwritten. */
  lemma {:induction false} AsWrittenAgreesWhenEveryWindowPops(name: string, windows: seq<seq<Option<Bytes>>>)
    requires forall i :: 0 <= i < |windows| ==> windows[i] != []
    ensures YieldedAsWritten(name, windows) == Yielded(name, windows)
    decreases |windows|
  {
    if windows != [] {
      AsWrittenAgreesWhenEveryWindowPops(name, windows[..|windows| - 1]);
    }
  }

  /** The discrepancy: a message popped in one window, then a window whose deadline hits during
      its first `lpop`. The iterator as written yields the message twice; the intended
      iterator yields it once. */
  lemma StaleMessageYieldedTwice(name: string, data: Bytes)
    requires data != []
    ensures YieldedAsWritten(name, [[Some(data)], []]) == [DefaultListMessage(name, data), DefaultListMessage(name, data)]
    ensures Yielded(name, [[Some(data)], []]) == [DefaultListMessage(name, data)]
  {
    var ws: seq<seq<Option<Bytes>>> := [[Some(data)], []];
    assert ws[..1] == [[Some(data)]];
    assert ws[..1][..0] == [];
    assert FirstHit([Some(data)]) == 0;
    assert CarriedRaw(ws[..1]) == Some(data);
    assert CarriedRaw(ws) == Some(data);
    assert YieldedAsWritten(name, ws[..1]) == [DefaultListMessage(name, data)];
  }

  class ListSubscriber {
    const variant: Variant
    /** Forced to DO_NOTHING by every variant's constructor. */
    const ackPolicy: AckPolicy
    var listSub: ListSub
    /** Number of registered handlers (`self.calls`). */
    var calls: nat
    /** Whether `_setup` gave the subscriber a client (`self._client`). */
    var clientSet: bool
    var tasks: seq<Task>

    /** `ListSubscriber.__init__` / `BatchListSubscriber.__init__`: the configured policy is
        replaced by DO_NOTHING. */
    constructor (list: ListSub, configuredPolicy: AckPolicy, variant: Variant)
      ensures this.variant == variant && listSub == list
      ensures ackPolicy == DoNothing
      ensures calls == 0 && !clientSet && tasks == []
    {
      this.variant := variant;
      ackPolicy := DoNothing;
      listSub := list;
      calls := 0;
      clientSet := false;
      tasks := [];
    }

    /** `_setup`: hands the subscriber its client. */
    method Setup()
      modifies this
      ensures clientSet && calls == old(calls) && tasks == old(tasks) && listSub == old(listSub)
    {
      clientSet := true;
    }

    /** `start` (and `ConcurrentListSubscriber.start`): with tasks already running it returns
        at once, except that the concurrent variant still starts another worker pool;
        otherwise it asserts the client and launches the consumption loop when handlers are
        registered. */
    method Start() returns (r: Outcome<Failure>)
      modifies this
      ensures old(tasks) != [] ==>
        r == Pass && tasks == old(tasks) + (if variant.Concurrent? then [WorkerPool] else [])
      ensures old(tasks) == [] && !clientSet ==> r == Fail(NotSetUp) && tasks == []
      ensures old(tasks) == [] && clientSet ==>
        r == Pass && tasks == (if calls > 0 then [ConsumeLoop] else [])
                             + (if variant.Concurrent? then [WorkerPool] else [])
      ensures calls == old(calls) && clientSet == old(clientSet) && listSub == old(listSub)
    {
      if tasks == [] {
        if !clientSet {
          return Fail(NotSetUp);
        }
        if calls > 0 {
          tasks := tasks + [ConsumeLoop];
        }
      }
      if variant.Concurrent? {
        tasks := tasks + [WorkerPool];
      }
      r := Pass;
    }

    /** `get_one`: polls `lpop` until an item comes or the timeout ends, sleeping after each
        empty pop; `pops` are the pops that complete before the timeout. The result is `None`
        when nothing was popped, and also when the popped item is an empty byte string. */
    method GetOne(pops: seq<Option<Bytes>>) returns (r: Result<Option<ListMessage>, Failure>, sleeps: nat)
      ensures !clientSet ==> r == Err(NotStarted)
      ensures clientSet && calls > 0 ==> r == Err(HandlersRegistered)
      ensures clientSet && calls == 0 ==> r.Ok? && sleeps == FirstHit(pops)
      ensures r.Ok? ==>
        var raw := WindowResult(pops, None);
        r.value == (if raw.Some? && raw.value != [] then Some(DefaultListMessage(listSub.name, raw.value)) else None)
    {
      sleeps := 0;
      if !clientSet {
        return Err(NotStarted), sleeps;
      }
      if calls > 0 {
        return Err(HandlersRegistered), sleeps;
      }
      var raw: Option<Bytes> := None;
      var i := 0;
      while i < |pops|
        invariant 0 <= i <= FirstHit(pops)
        invariant sleeps == i
        invariant raw == (if i == 0 then None else pops[i - 1])
        decreases |pops| - i
      {
        raw := pops[i];
        if raw.Some? {
          break;
        }
        sleeps := sleeps + 1;
        i := i + 1;
      }
      if raw.None? || raw.value == [] {
        return Ok(None), sleeps;
      }
      r := Ok(Some(DefaultListMessage(listSub.name, raw.value)));
    }

    /** `__aiter__`, intended behaviour: `raw_message` starts each window unset, so a window
        in which no pop completes yields nothing. `windows` are the pops completed in each
        five-second window, up to the point where the caller stops iterating. */
    method Iterate(windows: seq<seq<Option<Bytes>>>) returns (r: Result<seq<ListMessage>, Failure>)
      ensures !clientSet ==> r == Err(NotStarted)
      ensures clientSet && calls > 0 ==> r == Err(HandlersRegistered)
      ensures clientSet && calls == 0 ==> r == Ok(Yielded(listSub.name, windows))
    {
      if !clientSet {
        return Err(NotStarted);
      }
      if calls > 0 {
        return Err(HandlersRegistered);
      }
      var out: seq<ListMessage> := [];
      var w := 0;
      while w < |windows|
        invariant 0 <= w <= |windows|
        invariant out == Yielded(listSub.name, windows[..w])
      {
        var raw := PollWindow(windows[w], None);
        if raw.Some? && raw.value != [] {
          out := out + [DefaultListMessage(listSub.name, raw.value)];
        }
        assert windows[..w + 1][..w] == windows[..w];
        w := w + 1;
      }
      assert windows[..|windows|] == windows;
      r := Ok(out);
    }

    /** `__aiter__` as written: `raw_message` is set once before the outer loop and carries
        over into the next window. */
    method IterateAsWritten(windows: seq<seq<Option<Bytes>>>) returns (r: Result<seq<ListMessage>, Failure>)
      ensures !clientSet ==> r == Err(NotStarted)
      ensures clientSet && calls > 0 ==> r == Err(HandlersRegistered)
      ensures clientSet && calls == 0 ==> r == Ok(YieldedAsWritten(listSub.name, windows))
    {
      if !clientSet {
        return Err(NotStarted);
      }
      if calls > 0 {
        return Err(HandlersRegistered);
      }
      var out: seq<ListMessage> := [];
      var raw: Option<Bytes> := None;
      var w := 0;
      while w < |windows|
        invariant 0 <= w <= |windows|
        invariant raw == CarriedRaw(windows[..w])
        invariant out == YieldedAsWritten(listSub.name, windows[..w])
      {
        raw := PollWindow(windows[w], raw);
        if raw.Some? && raw.value != [] {
          out := out + [DefaultListMessage(listSub.name, raw.value)];
        }
        assert windows[..w + 1][..w] == windows[..w];
        w := w + 1;
      }
      assert windows[..|windows|] == windows;
      r := Ok(out);
    }

    /** `add_prefix`: a deep copy of the list subscription, renamed to `prefix + name`,
        replaces the old one, which is left as it was. */
    method AddPrefix(prefix: string)
      modifies this
      ensures fresh(listSub)
      ensures listSub.name == prefix + old(listSub.name)
      ensures listSub.batch == old(listSub.batch) && listSub.maxRecords == old(listSub.maxRecords)
      ensures listSub.pollingInterval == old(listSub.pollingInterval)
      ensures listSub.recordsCache == old(listSub.recordsCache)
      ensures unchanged(old(listSub))
      ensures calls == old(calls) && clientSet == old(clientSet) && tasks == old(tasks)
    {
      var copy := listSub.Copy();
      copy.name := prefix + copy.name;
      listSub := copy;
    }
  }

  /** One polling window: `lpop` until an item comes; `raw` is reassigned at each completed pop. */
  method PollWindow(pops: seq<Option<Bytes>>, before: Option<Bytes>) returns (raw: Option<Bytes>)
    ensures raw == WindowResult(pops, before)
  {
    raw := before;
    var i := 0;
    while i < |pops|
      invariant 0 <= i <= FirstHit(pops)
      invariant raw == (if i == 0 then before else pops[i - 1])
      decreases |pops| - i
    {
      raw := pops[i];
      if raw.Some? {
        break;
      }
      i := i + 1;
    }
  }

  /** `_get_msgs` of the plain and concurrent variants (`blpop`, which hands on the head item
      if there is one) and of the batch variant (`lpop` with `count=max_records`, sleeping
      for the polling interval when nothing came). */
  function GetMsgs(variant: Variant, name: string, maxRecords: int, stored: seq<Bytes>): (r: Step)
    ensures |r.consumed| + |r.queued| <= 1
    ensures forall m :: m in r.consumed + r.queued ==> m.channel == name
  {
    if variant.Batch? then
      var n := PopCount(stored, maxRecords);
      if n > 0 then Step([BatchListMessage(name, stored[..n])], [], false, stored[n..])
      else Step([], [], true, stored)
    else if stored == [] then Step([], [], false, stored)
    else if variant.Concurrent? then Step([], [DefaultListMessage(name, stored[0])], false, stored[1..])
    else Step([DefaultListMessage(name, stored[0])], [], false, stored[1..])
  }

  /** All byte strings a list of messages carries, in order. */
  function Payloads(ms: seq<ListMessage>): seq<Bytes>
    decreases |ms|
  {
    if ms == [] then [] else Payload(ms[0]) + Payloads(ms[1..])
  }

  /** No item is lost or duplicated by `_get_msgs`: what was handed on, followed by what is
      left, is the list as it was, in order. The plain and concurrent variants hand on at most
      one "list" message and never sleep; the batch variant hands on one "blist" message with
      at most `max_records` items, and sleeps exactly when nothing was popped. */
  lemma GetMsgsTakesFromHead(variant: Variant, name: string, maxRecords: int, stored: seq<Bytes>)
    ensures var r := GetMsgs(variant, name, maxRecords, stored);
      Payloads(r.consumed + r.queued) + r.rest == stored
    ensures var r := GetMsgs(variant, name, maxRecords, stored);
      !variant.Batch? ==> !r.slept && |Payloads(r.consumed + r.queued)| == (if stored == [] then 0 else 1)
    ensures var r := GetMsgs(variant, name, maxRecords, stored);
      !variant.Batch? ==> forall m :: m in r.consumed + r.queued ==> Kind(m) == "list"
    ensures var r := GetMsgs(variant, name, maxRecords, stored);
      variant.Batch? ==> (r.slept <==> r.consumed == []) && r.queued == []
    ensures var r := GetMsgs(variant, name, maxRecords, stored);
      variant.Batch? ==> forall m :: m in r.consumed ==> Kind(m) == "blist" && |m.items| <= maxRecords
    ensures var r := GetMsgs(variant, name, maxRecords, stored);
      variant.Concurrent? ==> r.consumed == []
  {
    var r := GetMsgs(variant, name, maxRecords, stored);
    var ms := r.consumed + r.queued;
    if |ms| == 1 {
      assert Payloads(ms) == Payload(ms[0]) + Payloads([]);
    }
  }
}
