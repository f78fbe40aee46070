/** What the heartbeat endpoint does with a comparison result: the
    automatic lock and the tamper signals of `DeviceDataPostView.post`,
    the recommendations for support staff, and the `content` and
    `deactivation` parts of `_build_device_response`. Database reads
    (an overdue installment of the active loan, the device's own
    deactivation request) are inputs. */
module DeviceActions {
  import opened Wrappers
  import opened PyValue
  import opened FieldRules
  import opened Heartbeat
  import HeartbeatProperties

  // ---------------------------------------------------------------------
  // Comparison results the endpoint can receive

  /** The facts about a comparison result the endpoint relies on: the
      totals agree with the mismatch list, a lock is asked for exactly when
      some mismatch is of high severity, and then with a reason. */
  predicate Consistent(c: Comparison)
  {
    && c.totalMismatches == |c.mismatches| == c.highSeverityCount + c.mediumSeverityCount
    && (c.shouldAutoLock <==> c.highSeverityCount > 0)
    && (c.shouldAutoLock <==> c.lockReason.Some?)
  }

  /** Every result `_compare_heartbeat_with_registration` returns is
      consistent, skipped comparisons included. */
  lemma ComparisonIsConsistent(createEntry: Option<Value>, incoming: map<string, Value>, deviceType: string)
    requires CompareSpec(createEntry, incoming, deviceType).Success?
    ensures Consistent(CompareSpec(createEntry, incoming, deviceType).value)
  {
    var c := CompareSpec(createEntry, incoming, deviceType).value;
    if c.baselineStatus == Compared {
      HeartbeatProperties.ComparisonCounts(createEntry, incoming, deviceType);
      HeartbeatProperties.CountHighPositive(c.mismatches);
    }
  }

  // ---------------------------------------------------------------------
  // Automatic lock and tamper signals

  datatype SignalType = DeviceTampered | SecurityBreach | SystemAlert

  /** A `DeviceTemperSignal` row: its type, level, description and whether
      an automatic action was taken. */
  datatype TamperSignal = TamperSignal(signalType: SignalType, level: Severity,
                                       description: Option<string>, autoActionTaken: bool)

  /** `should_auto_lock and not device.is_locked` */
  predicate AutoLocks(c: Comparison, wasLocked: bool)
  {
    c.shouldAutoLock && !wasLocked
  }

  /** `[m["field"] for m in mismatches]` */
  function MismatchFields(mismatches: seq<Mismatch>): (r: seq<string>)
    ensures |r| == |mismatches|
    ensures forall k :: 0 <= k < |r| ==> r[k] == mismatches[k].field
  {
    seq(|mismatches|, k requires 0 <= k < |mismatches| => mismatches[k].field)
  }

  const MismatchDescriptionPrefix := "Device data mismatch detected: "

  /** The signal recorded with an automatic lock. */
  function LockSignal(c: Comparison): TamperSignal
  {
    TamperSignal(DeviceTampered, High, c.lockReason, true)
  }

  /** The alert raised for a heartbeat with mismatches. */
  function MismatchAlert(c: Comparison): TamperSignal
  {
    var high := c.highSeverityCount > 0;
    TamperSignal(if high then SecurityBreach else SystemAlert, if high then High else Medium,
                 Some(MismatchDescriptionPrefix + Join(", ", MismatchFields(c.mismatches))), false)
  }

  /** The signals one heartbeat adds, in the order they are created. */
  function HeartbeatSignals(c: Comparison, wasLocked: bool): seq<TamperSignal>
  {
    (if AutoLocks(c, wasLocked) then [LockSignal(c)] else [])
    + (if c.totalMismatches > 0 then [MismatchAlert(c)] else [])
  }

  /** The lock state of a device and the records one heartbeat writes:
      the management record's lock flag and block reason, the heartbeat
      history entry's lock fields, and the device's tamper signals. */
  class DeviceState {
    var isLocked: bool
    var blockReason: Option<string>
    var autoLocked: bool
    var historyLockReason: Option<string>
    var signals: seq<TamperSignal>

    /** A device as the heartbeat finds it, before its history entry
        records anything. */
    constructor(locked: bool, reason: Option<string>, existing: seq<TamperSignal>)
      ensures isLocked == locked && blockReason == reason
      ensures !autoLocked && historyLockReason == None && signals == existing
    {
      isLocked := locked;
      blockReason := reason;
      autoLocked := false;
      historyLockReason := None;
      signals := existing;
    }

    /** The auto-lock step and the mismatch alert for comparison `c`. */
    method ApplyComparison(c: Comparison)
      modifies this
      ensures AutoLocks(c, old(isLocked)) ==>
        isLocked && blockReason == c.lockReason && autoLocked && historyLockReason == c.lockReason
      ensures !AutoLocks(c, old(isLocked)) ==>
        isLocked == old(isLocked) && blockReason == old(blockReason)
        && autoLocked == old(autoLocked) && historyLockReason == old(historyLockReason)
      ensures signals == old(signals) + HeartbeatSignals(c, old(isLocked))
    {
      if c.shouldAutoLock && !isLocked {
        blockReason := c.lockReason;
        isLocked := true;
        autoLocked := true;
        historyLockReason := c.lockReason;
        signals := signals + [TamperSignal(DeviceTampered, High, c.lockReason, true)];
      }
      if c.totalMismatches > 0 {
        var level := if c.highSeverityCount > 0 then High else Medium;
        var signalType := if c.highSeverityCount > 0 then SecurityBreach else SystemAlert;
        var fields := MismatchFields(c.mismatches);
        signals := signals + [TamperSignal(signalType, level, Some(MismatchDescriptionPrefix + Join(", ", fields)), false)];
      }
    }
  }

  /** An automatic lock always comes with a high-level breach alert, and
      the lock signal carries the comparison's lock reason. */
  lemma LockComesWithBreachAlert(c: Comparison, wasLocked: bool)
    requires Consistent(c) && AutoLocks(c, wasLocked)
    ensures |HeartbeatSignals(c, wasLocked)| == 2
    ensures HeartbeatSignals(c, wasLocked)[0] == TamperSignal(DeviceTampered, High, c.lockReason, true)
    ensures HeartbeatSignals(c, wasLocked)[0].description.Some?
    ensures HeartbeatSignals(c, wasLocked)[1].signalType == SecurityBreach
    ensures HeartbeatSignals(c, wasLocked)[1].level == High
  {
  }

  /** Every signal of a heartbeat is of high level exactly when some
      mismatch is of high severity; a signal is raised only when there is
      a mismatch. */
  lemma SignalLevels(c: Comparison, wasLocked: bool)
    requires Consistent(c)
    ensures forall s :: s in HeartbeatSignals(c, wasLocked) ==> (s.level == High <==> c.highSeverityCount > 0)
    ensures HeartbeatSignals(c, wasLocked) != [] <==> c.totalMismatches > 0
  {
  }

  /** A device that is already locked is not locked again and gets no
      tampering signal. */
  lemma LockedDeviceNotRelocked(c: Comparison)
    ensures !AutoLocks(c, true)
    ensures forall s :: s in HeartbeatSignals(c, true) ==> s.signalType != DeviceTampered
  {
  }

  /** Resending the baseline leaves the device as it was: no lock and no
      signal. */
  lemma ResendingBaselineChangesNothing(createEntry: Option<Value>, incoming: map<string, Value>,
                                        deviceType: string, wasLocked: bool)
    requires createEntry.Some? && createEntry.value.Dict?
    requires forall f :: f in TrackedFields && f in incoming ==> incoming[f] == Get(createEntry.value.entries, f)
    requires "device_imeis" in incoming && Truthy(incoming["device_imeis"]) ==> IterItems(incoming["device_imeis"]).Some?
    ensures CompareSpec(createEntry, incoming, deviceType).Success?
    ensures HeartbeatSignals(CompareSpec(createEntry, incoming, deviceType).value, wasLocked) == []
  {
    HeartbeatProperties.ResendingBaselineNeverLocks(createEntry, incoming, deviceType);
    ComparisonIsConsistent(createEntry, incoming, deviceType);
  }

  // ---------------------------------------------------------------------
  // Recommendations

  datatype Recommendation = VisitShop | LogOnly | Continue

  /** The `action` of each recommendation, in the order they are added. */
  function Recommendations(high: nat, medium: nat, total: nat): (r: seq<Recommendation>)
    ensures VisitShop in r <==> high > 0
    ensures LogOnly in r <==> medium > 0
    ensures Continue in r <==> total == 0
    ensures forall i, j :: 0 <= i < j < |r| ==> r[i] != r[j]
  {
    (if high > 0 then [VisitShop] else [])
    + (if medium > 0 then [LogOnly] else [])
    + (if total == 0 then [Continue] else [])
  }

  /** For a consistent comparison, "continue" is recommended exactly when
      nothing else is. */
  lemma ContinueAlone(c: Comparison)
    requires Consistent(c)
    ensures Recommendations(c.highSeverityCount, c.mediumSeverityCount, c.totalMismatches) == [Continue]
            <==> c.mismatches == []
    ensures Continue in Recommendations(c.highSeverityCount, c.mediumSeverityCount, c.totalMismatches)
            ==> |Recommendations(c.highSeverityCount, c.mediumSeverityCount, c.totalMismatches)| == 1
  {
  }

  // ---------------------------------------------------------------------
  // The response content

  datatype LockReason = PaymentOverdue | SecurityIssue
  {
    function Text(): string
    {
      match this
      case PaymentOverdue => "Payment overdue"
      case SecurityIssue => "Security issue"
    }
  }

  /** The `content` of the response: unlocked, or locked with a reason. */
  datatype Content = Unlocked | Locked(reason: LockReason)

  /** `content` for a device whose lock flag is `isLocked`, whose active
      loan has an overdue installment when `hasOverdue`, with `highCount`
      high-severity mismatches: an overdue payment takes priority, then a
      security violation, and a lock without either is reported as a
      payment matter. */
  function ResponseContent(isLocked: bool, hasOverdue: bool, highCount: int): (r: Content)
    ensures r.Locked? <==> isLocked
    ensures r == Locked(SecurityIssue) <==> isLocked && !hasOverdue && highCount > 0
    ensures isLocked && hasOverdue ==> r == Locked(PaymentOverdue)
  {
    if isLocked then
      if hasOverdue then Locked(PaymentOverdue)
      else if highCount > 0 then Locked(SecurityIssue)
      else Locked(PaymentOverdue)
    else Unlocked
  }

  /** A device this heartbeat locked, with no overdue installment, is
      reported as locked for a security issue. */
  lemma AutoLockReportedAsSecurityIssue(c: Comparison, wasLocked: bool)
    requires Consistent(c) && AutoLocks(c, wasLocked)
    ensures ResponseContent(true, false, c.highSeverityCount) == Locked(SecurityIssue)
    ensures ResponseContent(true, false, c.highSeverityCount).reason.Text() == "Security issue"
  {
  }

  // ---------------------------------------------------------------------
  // Deactivation

  const LoanCompleted := "loan_completed"
  const AgentNotice := "Time to remove the device agent."

  /** Whether deactivation is requested: by the device's own flag or by
      a truthy `should_deactivate` of the loan-completion metadata. */
  predicate DeactivationRequested(deviceRequested: bool, meta: map<string, Value>)
  {
    deviceRequested || Truthy(Get(meta, "should_deactivate"))
  }

  /** The `deactivation` dictionary of the response; `meta` is the
      metadata of the automatic request, `{}` when there is none. */
  function Deactivation(deviceRequested: bool, meta: map<string, Value>): (r: map<string, Value>)
    ensures "status" in r
    ensures r["status"] == Str("requested") <==> DeactivationRequested(deviceRequested, meta)
    ensures r["status"] == Str("none") <==> !DeactivationRequested(deviceRequested, meta)
    ensures "command" in r <==> DeactivationRequested(deviceRequested, meta)
    ensures "command" in r ==> r["command"] == Str("DEACTIVATE_NOW")
    ensures "reason" in r <==> DeactivationRequested(deviceRequested, meta) && Get(meta, "reason") == Str(LoanCompleted)
    ensures "reason" in r ==> r["reason"] == Str(LoanCompleted)
    ensures "agent_notice" in r <==> "reason" in r
    ensures "agent_notice" in r ==> r["agent_notice"] == Str(AgentNotice)
    ensures "loan_number" in r <==> "reason" in r && Truthy(Get(meta, "loan_number"))
    ensures "loan_number" in r ==> r["loan_number"] == Get(meta, "loan_number")
    ensures r.Keys <= {"status", "command", "reason", "agent_notice", "loan_number"}
  {
    if !DeactivationRequested(deviceRequested, meta) then map["status" := Str("none")]
    else
      var requested := map["status" := Str("requested"), "command" := Str("DEACTIVATE_NOW")];
      if Get(meta, "reason") != Str(LoanCompleted) then requested
      else
        var completed := requested["reason" := Str(LoanCompleted)]["agent_notice" := Str(AgentNotice)];
        if Truthy(Get(meta, "loan_number")) then completed["loan_number" := Get(meta, "loan_number")]
        else completed
  }
}
