/** `_compare_heartbeat_with_registration`: the integrity comparison of a
    heartbeat against the registration baseline. The tracked fields are
    examined in order; each is matched, matched with a warning, empty on
    both sides, or a mismatch with a severity and a value-free reason; the
    device is to be locked exactly when some mismatch is of high severity. */
module Heartbeat {
  import opened Wrappers
  import opened PyValue
  import opened CompareNormalize
  import opened FieldRules
  import opened ImeiCompare
  import opened RamCompare

  /** Fields a desktop or laptop never reports on. */
  const MobileOnlyFields: set<string> := {
    "device_imeis",
    "is_device_rooted",
    "is_usb_debugging_enabled",
    "is_developer_mode_enabled",
    "is_bootloader_unlocked"
  }

  /** Fields a desktop or laptop is not compared on. */
  const DesktopSkipFields: set<string> := {
    "serial_number",
    "total_storage",
    "is_custom_rom"
  }

  /** `device.device_type in ['desktop', 'laptop']` */
  predicate IsDesktop(deviceType: string)
  {
    deviceType == "desktop" || deviceType == "laptop"
  }

  /** The reason attached to a mismatch: the fixed text of the field, or,
      for a desktop RAM drop, the message quoting the three RAM figures. */
  datatype Reason =
    | FieldReason(text: string)
    | RamReason(registeredGb: real, currentGb: real, minAllowedGb: real)

  datatype Mismatch = Mismatch(field: string, severity: Severity, reason: Reason)

  /** The `status` of a field's entry in `comparison_details`, with the
      entry's extra keys. */
  datatype FieldStatus =
    | Matched
    | MatchedWithWarning(warning: ImeiWarning)
    | BothEmpty
    | Mismatched(severity: Severity, reason: Reason)

  /** One entry of `comparison_details`: the status and both raw values. */
  datatype FieldDetail = FieldDetail(status: FieldStatus, registered: Value, current: Value)

  /** `baseline_status`: present only when the comparison was skipped. */
  datatype BaselineStatus = NotEstablished | EmptyBaseline | Compared

  /** The dictionary the comparison returns. */
  datatype Comparison = Comparison(
    mismatches: seq<Mismatch>,
    highSeverityCount: nat,
    mediumSeverityCount: nat,
    totalMismatches: nat,
    shouldAutoLock: bool,
    lockReason: Option<string>,
    details: map<string, FieldDetail>,
    baselineStatus: BaselineStatus)

  /** What the loop has gathered so far. */
  datatype Tally = Tally(mismatches: seq<Mismatch>, high: nat, medium: nat, details: map<string, FieldDetail>)

  const EmptyTally := Tally([], 0, 0, map[])

  /** `_get_registration_baseline`: the `new_values` of the device's
      creation history entry when there is one and they are non-empty,
      otherwise an empty dictionary. */
  function RegistrationBaseline(createEntry: Option<Value>): (r: Value)
    ensures createEntry.Some? && Truthy(createEntry.value) ==> r == createEntry.value
    ensures !(createEntry.Some? && Truthy(createEntry.value)) ==> r == Dict(map[])
  {
    if createEntry.Some? && Truthy(createEntry.value) then createEntry.value else Dict(map[])
  }

  /** `v is not None and v != "" and v != []` */
  predicate IsBaselineData(v: Value)
  {
    v != Null && v != Str("") && v != List([])
  }

  /** `any(... for v in registration_data.values())` */
  predicate HasBaselineData(baseline: map<string, Value>)
  {
    exists f :: f in baseline && IsBaselineData(baseline[f])
  }

  /** The result returned without comparing anything. */
  function SkippedComparison(status: BaselineStatus): Comparison
  {
    Comparison([], 0, 0, 0, false, None, map[], status)
  }

  /** Whether the loop looks at `field` at all: it must be in the heartbeat,
      and a desktop or laptop skips the mobile-only and skipped fields. */
  predicate Considered(field: string, incoming: map<string, Value>, desktop: bool)
  {
    field in incoming && !(desktop && (field in MobileOnlyFields || field in DesktopSkipFields))
  }

  /** The verdict on one considered field: the IMEI subset match, the
      desktop RAM tolerance, or equality after normalisation. */
  function FieldStatusOf(field: string, desktop: bool, registered: Value, current: Value): (r: Result<FieldStatus, PyError>)
    ensures r.Failure? ==> field == "device_imeis"
    ensures r.Success? && r.value.MatchedWithWarning? ==> field == "device_imeis"
    ensures r.Success? && r.value.BothEmpty? ==> field != "device_imeis" && !(field == "installed_ram" && desktop)
    ensures r.Success? && r.value.Mismatched? && field == "installed_ram" && desktop ==>
      r.value.severity == High && r.value.reason.RamReason?
    ensures r.Success? && r.value.Mismatched? && !(field == "installed_ram" && desktop) ==>
      r.value.severity == CalculateSeverity(field) && r.value.reason == FieldReason(MismatchReason(field))
    ensures field == "device_imeis" ==>
      (r.Failure? <==> ImeiVerdict(registered, current).Failure?)
      && (r.Success? ==> (r.value.Mismatched? <==> ImeiVerdict(registered, current) == Success(ImeiMismatch)))
    ensures field == "device_imeis" && ImeiVerdict(registered, current).Success?
            && ImeiVerdict(registered, current).value.ImeiOk? ==>
      var w := ImeiVerdict(registered, current).value.warning;
      r == Success(if w.Some? then MatchedWithWarning(w.value) else Matched)
    ensures field != "device_imeis" && field == "installed_ram" && desktop ==>
      r.Success? && (r.value.Mismatched? <==> RamVerdict(registered, current).RamDecreased?)
    ensures field != "device_imeis" && !(field == "installed_ram" && desktop) ==>
      var reg, cur := NormalizeForComparison(registered), NormalizeForComparison(current);
      && r.Success?
      && (r.value.Matched? <==> PyEq(reg, cur))
      && (r.value.BothEmpty? <==> !PyEq(reg, cur) && !Truthy(reg) && !Truthy(cur))
      && (r.value.Mismatched? <==> !PyEq(reg, cur) && (Truthy(reg) || Truthy(cur)))
  {
    if field == "device_imeis" then
      var verdict :- ImeiVerdict(registered, current);
      Success(
        match verdict
        case ImeiMismatch => Mismatched(CalculateSeverity(field), FieldReason(MismatchReason(field)))
        case ImeiOk(None) => Matched
        case ImeiOk(Some(w)) => MatchedWithWarning(w))
    else if field == "installed_ram" && desktop then
      Success(
        match RamVerdict(registered, current)
        case RamOk => Matched
        case RamDecreased(reg, cur, least) => Mismatched(High, RamReason(reg, cur, least)))
    else
      var registeredNormalized := NormalizeForComparison(registered);
      var currentNormalized := NormalizeForComparison(current);
      if PyEq(registeredNormalized, currentNormalized) then Success(Matched)
      else if !Truthy(registeredNormalized) && !Truthy(currentNormalized) then Success(BothEmpty)
      else Success(Mismatched(CalculateSeverity(field), FieldReason(MismatchReason(field))))
  }

  /** Records the verdict on `field`: its detail entry, and for a mismatch
      the list entry and the counter of its severity. */
  function Record(t: Tally, field: string, status: FieldStatus, registered: Value, current: Value): (r: Tally)
    ensures r.details == t.details[field := FieldDetail(status, registered, current)]
    ensures status.Mismatched? ==> r.mismatches == t.mismatches + [Mismatch(field, status.severity, status.reason)]
    ensures !status.Mismatched? ==> r.mismatches == t.mismatches
    ensures r.high + r.medium == t.high + t.medium + |r.mismatches| - |t.mismatches|
  {
    var details := t.details[field := FieldDetail(status, registered, current)];
    match status
    case Mismatched(severity, reason) =>
      var mismatches := t.mismatches + [Mismatch(field, severity, reason)];
      if severity == High then Tally(mismatches, t.high + 1, t.medium, details)
      else Tally(mismatches, t.high, t.medium + 1, details)
    case _ => Tally(t.mismatches, t.high, t.medium, details)
  }

  /** One turn of the loop. */
  function Step(t: Tally, field: string, baseline: map<string, Value>, incoming: map<string, Value>, desktop: bool): Result<Tally, PyError>
  {
    if !Considered(field, incoming, desktop) then Success(t)
    else
      var registered := Get(baseline, field);
      var current := incoming[field];
      var status :- FieldStatusOf(field, desktop, registered, current);
      Success(Record(t, field, status, registered, current))
  }

  /** The loop over `fields`, as a fold; an exception ends it. */
  function CompareFields(fields: seq<string>, baseline: map<string, Value>, incoming: map<string, Value>, desktop: bool): Result<Tally, PyError>
    decreases |fields|
  {
    if fields == [] then Success(EmptyTally)
    else
      var t :- CompareFields(fields[..|fields| - 1], baseline, incoming, desktop);
      Step(t, fields[|fields| - 1], baseline, incoming, desktop)
  }

  /** `[m["field"] for m in mismatches if m["severity"] == "high"]` */
  function HighFields(mismatches: seq<Mismatch>): seq<string>
  {
    if mismatches == [] then []
    else (if mismatches[0].severity == High then [mismatches[0].field] else []) + HighFields(mismatches[1..])
  }

  const LockReasonPrefix := "Device security compromised: "

  /** The result built after the loop. */
  function Finish(t: Tally): Comparison
  {
    var lock := t.high > 0;
    Comparison(t.mismatches, t.high, t.medium, |t.mismatches|, lock,
               if lock then Some(LockReasonPrefix + Join(", ", HighFields(t.mismatches))) else None,
               t.details, Compared)
  }

  /** The whole comparison, for a device whose creation entry carries
      `createEntry`, a heartbeat `incoming` and a device type. */
  function CompareSpec(createEntry: Option<Value>, incoming: map<string, Value>, deviceType: string): Result<Comparison, PyError>
  {
    var registrationData := RegistrationBaseline(createEntry);
    if !Truthy(registrationData) then Success(SkippedComparison(NotEstablished))
    else if !registrationData.Dict? then Failure(AttributeError)
    else if !HasBaselineData(registrationData.entries) then Success(SkippedComparison(EmptyBaseline))
    else
      var t :- CompareFields(TrackedFields, registrationData.entries, incoming, IsDesktop(deviceType));
      Success(Finish(t))
  }

  /** `_compare_heartbeat_with_registration(device, incoming_data)`; an
      exception raised while comparing is the `Failure` result. */
  method CompareHeartbeatWithRegistration(createEntry: Option<Value>, incoming: map<string, Value>, deviceType: string)
    returns (r: Result<Comparison, PyError>)
    ensures r == CompareSpec(createEntry, incoming, deviceType)
  {
    var registrationData := RegistrationBaseline(createEntry);
    if !Truthy(registrationData) {
      return Success(SkippedComparison(NotEstablished));
    }
    if !registrationData.Dict? {
      return Failure(AttributeError);
    }
    var baseline := registrationData.entries;
    if !HasBaselineData(baseline) {
      return Success(SkippedComparison(EmptyBaseline));
    }
    var tally :- CompareTrackedFields(TrackedFields, baseline, incoming, IsDesktop(deviceType));
    var lockReason: Option<string> := None;
    if tally.high > 0 {
      lockReason := Some(LockReasonPrefix + Join(", ", HighFields(tally.mismatches)));
    }
    return Success(Comparison(tally.mismatches, tally.high, tally.medium, |tally.mismatches|,
                              tally.high > 0, lockReason, tally.details, Compared));
  }

  /** The loop of the comparison over the tracked fields. */
  method CompareTrackedFields(fields: seq<string>, baseline: map<string, Value>, incoming: map<string, Value>, desktop: bool)
    returns (r: Result<Tally, PyError>)
    ensures r == CompareFields(fields, baseline, incoming, desktop)
  {
    var mismatches: seq<Mismatch> := [];
    var high, medium := 0, 0;
    var details: map<string, FieldDetail> := map[];
    var i := 0;
    while i < |fields|
      invariant 0 <= i <= |fields|
      invariant CompareFields(fields[..i], baseline, incoming, desktop) == Success(Tally(mismatches, high, medium, details))
    {
      var field := fields[i];
      ghost var before := Tally(mismatches, high, medium, details);
      StepOfPrefix(fields, i, baseline, incoming, desktop);
      if Considered(field, incoming, desktop) {
        var registered := Get(baseline, field);
        var current := incoming[field];
        var verdict := CompareField(field, desktop, registered, current);
        StepConsidered(before, field, baseline, incoming, desktop, verdict);
        if verdict.Failure? {
          FailureIsFinal(fields, i, baseline, incoming, desktop);
          return Failure(verdict.error);
        }
        var status := verdict.value;
        details := details[field := FieldDetail(status, registered, current)];
        if status.Mismatched? {
          mismatches := mismatches + [Mismatch(field, status.severity, status.reason)];
          if status.severity == High {
            high := high + 1;
          } else {
            medium := medium + 1;
          }
        }
        assert Tally(mismatches, high, medium, details) == Record(before, field, status, registered, current);
      }
      i := i + 1;
    }
    assert fields[..i] == fields;
    return Success(Tally(mismatches, high, medium, details));
  }

  /** The body of the loop for one considered field. */
  method CompareField(field: string, desktop: bool, registered: Value, current: Value)
    returns (r: Result<FieldStatus, PyError>)
    ensures r == FieldStatusOf(field, desktop, registered, current)
  {
    if field == "device_imeis" {
      r := CompareImeiField(field, desktop, registered, current);
    } else if field == "installed_ram" && desktop {
      r := CompareRamField(field, desktop, registered, current);
    } else {
      r := CompareNormalizedField(field, desktop, registered, current);
    }
  }

  /** The IMEI branch: an exception of the subset comparison propagates. */
  method CompareImeiField(field: string, desktop: bool, registered: Value, current: Value)
    returns (r: Result<FieldStatus, PyError>)
    requires field == "device_imeis"
    ensures r == FieldStatusOf(field, desktop, registered, current)
  {
    var verdict := CompareImeiLists(registered, current);
    if verdict.Failure? {
      return Failure(verdict.error);
    }
    match verdict.value
    case ImeiMismatch =>
      return Success(Mismatched(CalculateSeverity(field), FieldReason(MismatchReason(field))));
    case ImeiOk(warning) =>
      return Success(if warning.Some? then MatchedWithWarning(warning.value) else Matched);
  }

  /** The desktop RAM branch: only a decrease beyond the tolerance counts. */
  method CompareRamField(field: string, desktop: bool, registered: Value, current: Value)
    returns (r: Result<FieldStatus, PyError>)
    requires field == "installed_ram" && desktop
    ensures r == FieldStatusOf(field, desktop, registered, current)
  {
    var ram := RamVerdict(registered, current);
    if ram.RamDecreased? {
      return Success(Mismatched(High, RamReason(ram.registeredGb, ram.currentGb, ram.minAllowedGb)));
    }
    return Success(Matched);
  }

  /** Every other field: equality after normalisation, two empty values
      being no mismatch. */
  method CompareNormalizedField(field: string, desktop: bool, registered: Value, current: Value)
    returns (r: Result<FieldStatus, PyError>)
    requires field != "device_imeis" && !(field == "installed_ram" && desktop)
    ensures r == FieldStatusOf(field, desktop, registered, current)
  {
    var registeredNormalized := NormalizeForComparison(registered);
    var currentNormalized := NormalizeForComparison(current);
    if PyEq(registeredNormalized, currentNormalized) {
      return Success(Matched);
    }
    if !Truthy(registeredNormalized) && !Truthy(currentNormalized) {
      return Success(BothEmpty);
    }
    return Success(Mismatched(CalculateSeverity(field), FieldReason(MismatchReason(field))));
  }

  /** The fold over one more field is one more step. */
  lemma StepOfPrefix(fields: seq<string>, i: nat, baseline: map<string, Value>,
                     incoming: map<string, Value>, desktop: bool)
    requires i < |fields|
    ensures var prefix := CompareFields(fields[..i], baseline, incoming, desktop);
      CompareFields(fields[..i + 1], baseline, incoming, desktop)
        == if prefix.Failure? then prefix else Step(prefix.value, fields[i], baseline, incoming, desktop)
  {
    assert fields[..i + 1][..i] == fields[..i];
  }

  /** A step on a considered field records the field's verdict. */
  lemma StepConsidered(t: Tally, field: string, baseline: map<string, Value>, incoming: map<string, Value>,
                       desktop: bool, verdict: Result<FieldStatus, PyError>)
    requires Considered(field, incoming, desktop)
    requires verdict == FieldStatusOf(field, desktop, Get(baseline, field), incoming[field])
    ensures verdict.Failure? ==> Step(t, field, baseline, incoming, desktop) == Failure(verdict.error)
    ensures verdict.Success? ==>
      Step(t, field, baseline, incoming, desktop)
        == Success(Record(t, field, verdict.value, Get(baseline, field), incoming[field]))
  {
  }

  /** An IMEI list accepted by the subset comparison is stored in the
      field's detail entry as "matched_with_warning" carrying exactly the
      comparison's warning, or as "matched" when there is none. */
  lemma ImeiWarningRecorded(t: Tally, baseline: map<string, Value>, incoming: map<string, Value>, desktop: bool)
    requires Considered("device_imeis", incoming, desktop)
    requires ImeiVerdict(Get(baseline, "device_imeis"), incoming["device_imeis"]).Success?
    requires ImeiVerdict(Get(baseline, "device_imeis"), incoming["device_imeis"]).value.ImeiOk?
    ensures var w := ImeiVerdict(Get(baseline, "device_imeis"), incoming["device_imeis"]).value.warning;
      var step := Step(t, "device_imeis", baseline, incoming, desktop);
      && step.Success?
      && step.value.mismatches == t.mismatches
      && "device_imeis" in step.value.details
      && step.value.details["device_imeis"].status == (if w.Some? then MatchedWithWarning(w.value) else Matched)
  {
    var verdict := FieldStatusOf("device_imeis", desktop, Get(baseline, "device_imeis"), incoming["device_imeis"]);
    StepConsidered(t, "device_imeis", baseline, incoming, desktop, verdict);
  }

  /** An exception at field `i` is the result of the whole loop. */
  lemma {:induction false} FailureIsFinal(fields: seq<string>, i: nat, baseline: map<string, Value>,
                                          incoming: map<string, Value>, desktop: bool)
    requires i < |fields|
    requires CompareFields(fields[..i + 1], baseline, incoming, desktop).Failure?
    ensures CompareFields(fields, baseline, incoming, desktop) == CompareFields(fields[..i + 1], baseline, incoming, desktop)
    decreases |fields| - i
  {
    if i + 1 < |fields| {
      assert fields[..i + 2][..i + 1] == fields[..i + 1];
      FailureIsFinal(fields, i + 1, baseline, incoming, desktop);
    } else {
      assert fields[..i + 1] == fields;
    }
  }
}
