/** The subscriber factory of the `confluent_kafka` backend
    (faststream/confluent/subscriber/factory.py): the deprecated `auto_commit`
    and `no_ack` flags are checked against `ack_policy` and mapped onto a
    policy, ACK_FIRST is turned into the consumer's own auto-commit, and one
    of the three variants is built. */
module ConfluentFactory {
  import opened Base
  import opened ConfluentSubscriber

  /** `_validate_input_for_misconfigure`: `auto_commit` conflicts with an explicit
      `ack_policy`; `no_ack` conflicts with an explicit `ack_policy` and with `auto_commit`
      (which has already set the validator's local policy). The max-workers guard compares
      ACK_FIRST with itself and never raises. */
  function ValidateInput(ackPolicy: Option<AckPolicy>, autoCommit: Option<bool>,
                         noAck: Option<bool>, maxWorkers: int): (r: Outcome<SetupError>)
    ensures r.Fail? <==>
      ((autoCommit.Some? && ackPolicy.Some?) || (noAck.Some? && (ackPolicy.Some? || autoCommit.Some?)))
    ensures autoCommit.Some? && ackPolicy.Some? ==> r == Fail(AutoCommitWithAckPolicy)
    ensures r.Fail? && !(autoCommit.Some? && ackPolicy.Some?) ==> r == Fail(NoAckWithAckPolicy)
    ensures r != Fail(MaxWorkersWithManualCommit)
  {
    if autoCommit.Some? && ackPolicy.Some? then Fail(AutoCommitWithAckPolicy)
    else
      var policy := if autoCommit.Some? then Some(if autoCommit.value then AckFirst else RejectOnError)
                    else ackPolicy;
      if noAck.Some? && policy.Some? then Fail(NoAckWithAckPolicy)
      else
        var policy := if noAck.Some? then (if noAck.value then Some(DoNothing) else None) else policy;
        var policy := if policy.None? then Some(AckFirst) else policy;
        if AckFirst != AckFirst && maxWorkers > 1 then Fail(MaxWorkersWithManualCommit)
        else Pass
  }

  /** The policy `create_subscriber` resolves before the ACK_FIRST rewrite: `no_ack` decides
      when given (`False` leaves the policy unset), otherwise `auto_commit` when given,
      otherwise `ack_policy`; an unset policy defaults to ACK_FIRST. */
  function ResolvePolicy(ackPolicy: Option<AckPolicy>, autoCommit: Option<bool>, noAck: Option<bool>)
    : (r: AckPolicy)
    ensures noAck == Some(true) ==> r == DoNothing
    ensures noAck == Some(false) ==> r == AckFirst
    ensures noAck.None? && autoCommit == Some(true) ==> r == AckFirst
    ensures noAck.None? && autoCommit == Some(false) ==> r == RejectOnError
    ensures noAck.None? && autoCommit.None? && ackPolicy.Some? ==> r == ackPolicy.value
    ensures noAck.None? && autoCommit.None? && ackPolicy.None? ==> r == AckFirst
  {
    var policy := if autoCommit.Some? then Some(if autoCommit.value then AckFirst else RejectOnError)
                  else ackPolicy;
    var policy := if noAck.Some? then (if noAck.value then Some(DoNothing) else None) else policy;
    if policy.None? then AckFirst else policy.value
  }

  /** The policy stored in the subscriber configs: ACK_FIRST is left to the consumer's
      `enable_auto_commit`, and the subscriber itself does nothing. */
  function StoredPolicy(resolved: AckPolicy): (r: AckPolicy)
    ensures r != AckFirst
    ensures resolved != AckFirst ==> r == resolved
  {
    if resolved == AckFirst then DoNothing else resolved
  }

  /** The variant: a batch subscriber whatever `max_workers` is, else a concurrent one for
      more than one worker, else the default one. */
  function ChooseVariant(batch: bool, maxRecords: Option<int>, maxWorkers: int): (r: Variant)
    ensures r.Batch? <==> batch
    ensures r.Concurrent? <==> !batch && maxWorkers > 1
    ensures r.Batch? ==> r.maxRecords == maxRecords
    ensures r.Concurrent? ==> r.maxWorkers == maxWorkers
  {
    if batch then Batch(maxRecords)
    else if maxWorkers > 1 then Concurrent(maxWorkers)
    else Default
  }

  /** Every combination `ValidateInput` accepts is one of: only `ack_policy`, only
      `auto_commit`, only `no_ack`, or none of them. */
  lemma AcceptedFlagsAreExclusive(ackPolicy: Option<AckPolicy>, autoCommit: Option<bool>,
                                  noAck: Option<bool>, maxWorkers: int)
    requires ValidateInput(ackPolicy, autoCommit, noAck, maxWorkers) == Pass
    ensures (if ackPolicy.Some? then 1 else 0) + (if autoCommit.Some? then 1 else 0)
          + (if noAck.Some? then 1 else 0) <= 1
  {
  }

  /** `create_subscriber`. On a `SetupError` nothing is built and `connection_data` is
      untouched. Otherwise the local policy is reassigned step by step as the source does,
      an ACK_FIRST policy sets `enable_auto_commit` in the caller's dictionary (the same
      object the subscriber then holds) and is stored as DO_NOTHING. Since the stored policy
      is never ACK_FIRST, the parser of a subscriber built here is always manual. */
  method CreateSubscriber(
    topics: seq<string>, partitions: seq<TopicPartition>, pollingInterval: real,
    batch: bool, maxRecords: Option<int>, groupId: Option<string>,
    connectionData: ConnectionData, autoCommit: Option<bool>,
    ackPolicy: Option<AckPolicy>, noAck: Option<bool>, maxWorkers: int, noReply: bool)
    returns (r: Result<LogicSubscriber, SetupError>)
    modifies connectionData
    ensures ValidateInput(ackPolicy, autoCommit, noAck, maxWorkers).Fail? ==>
      r == Err(ValidateInput(ackPolicy, autoCommit, noAck, maxWorkers).error)
      && connectionData.entries == old(connectionData.entries)
    ensures ValidateInput(ackPolicy, autoCommit, noAck, maxWorkers).Pass? ==> r.Ok? && fresh(r.value)
    ensures r.Ok? ==>
      var resolved := ResolvePolicy(ackPolicy, autoCommit, noAck);
      && r.value.ackPolicy == StoredPolicy(resolved)
      && r.value.variant == ChooseVariant(batch, maxRecords, maxWorkers)
      && r.value.connectionData == connectionData
      && connectionData.entries == (if resolved == AckFirst
                                    then old(connectionData.entries)["enable_auto_commit" := BoolValue(true)]
                                    else old(connectionData.entries))
      && r.value.topics == topics && r.value.partitions == partitions
      && r.value.groupId == groupId && r.value.pollingInterval == pollingInterval
      && r.value.noReply == noReply
      && r.value.manualParser
      && r.value.consumer.None? && r.value.tasks == []
  {
    var check := ValidateInput(ackPolicy, autoCommit, noAck, maxWorkers);
    if check.Fail? {
      return Err(check.error);
    }
    var policy := ackPolicy;
    if autoCommit.Some? {
      policy := Some(if autoCommit.value then AckFirst else RejectOnError);
    }
    if noAck.Some? {
      policy := if noAck.value then Some(DoNothing) else None;
    }
    if policy.None? {
      policy := Some(AckFirst);
    }
    if policy == Some(AckFirst) {
      connectionData.entries := connectionData.entries["enable_auto_commit" := BoolValue(true)];
      policy := Some(DoNothing);
    }
    var base := BaseConfigs(topics, partitions, pollingInterval, groupId, policy.value, noReply);
    var variant: Variant;
    if batch {
      variant := Batch(maxRecords);
    } else if maxWorkers > 1 {
      variant := Concurrent(maxWorkers);
    } else {
      variant := Default;
    }
    var s := new LogicSubscriber(base, variant, connectionData);
    r := Ok(s);
  }
}
