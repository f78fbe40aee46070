/** What the heartbeat comparison guarantees: which fields it reports on,
    how mismatches are counted and classified, when it asks for a lock,
    and that resending the baseline is never a mismatch. */
module HeartbeatProperties {
  import opened Wrappers
  import opened PyValue
  import opened CompareNormalize
  import opened FieldRules
  import opened ImeiCompare
  import opened RamCompare
  import opened Heartbeat

  /** The number of high-severity entries of a mismatch list. */
  function CountHigh(mismatches: seq<Mismatch>): nat
  {
    if mismatches == [] then 0
    else (if mismatches[0].severity == High then 1 else 0) + CountHigh(mismatches[1..])
  }

  /** The severity and reason a mismatch of `field` carries. */
  predicate ClassifiedAsSource(m: Mismatch, desktop: bool)
  {
    if m.field == "installed_ram" && desktop then m.severity == High && m.reason.RamReason?
    else m.severity == CalculateSeverity(m.field) && m.reason == FieldReason(MismatchReason(m.field))
  }

  /** What the loop keeps true of what it has gathered after `fields`. */
  predicate TallyInvariant(t: Tally, fields: seq<string>, incoming: map<string, Value>, desktop: bool)
  {
    && TallyCounts(t)
    && t.details.Keys == (set f | f in fields && Considered(f, incoming, desktop))
    && MismatchesDetailed(t, desktop)
    && MismatchesListed(t)
  }

  /** The counters agree with the mismatch list. */
  predicate TallyCounts(t: Tally)
  {
    |t.mismatches| == t.high + t.medium && t.high == CountHigh(t.mismatches)
  }

  /** Every listed mismatch has its detail entry and the source's classification. */
  predicate MismatchesDetailed(t: Tally, desktop: bool)
  {
    forall k :: 0 <= k < |t.mismatches| ==>
      var m := t.mismatches[k];
      && m.field in t.details
      && t.details[m.field].status == Mismatched(m.severity, m.reason)
      && ClassifiedAsSource(m, desktop)
  }

  /** Every detail entry that is a mismatch is listed. */
  predicate MismatchesListed(t: Tally)
  {
    forall f :: f in t.details && t.details[f].status.Mismatched? ==>
      exists k :: 0 <= k < |t.mismatches| && t.mismatches[k].field == f
  }

  lemma {:induction false} CountHighAppend(ms: seq<Mismatch>, m: Mismatch)
    ensures CountHigh(ms + [m]) == CountHigh(ms) + (if m.severity == High then 1 else 0)
  {
    if ms != [] {
      assert (ms + [m])[1..] == ms[1..] + [m];
      CountHighAppend(ms[1..], m);
    }
  }

  /** Recording the verdict on a new considered field keeps the invariant. */
  lemma RecordKeepsInvariant(t: Tally, fields: seq<string>, field: string, status: FieldStatus,
                             registered: Value, current: Value, incoming: map<string, Value>, desktop: bool)
    requires TallyInvariant(t, fields, incoming, desktop)
    requires field !in fields && Considered(field, incoming, desktop)
    requires status.Mismatched? ==> ClassifiedAsSource(Mismatch(field, status.severity, status.reason), desktop)
    ensures TallyInvariant(Record(t, field, status, registered, current), fields + [field], incoming, desktop)
  {
    var fs := fields + [field];
    assert (set f | f in fs && Considered(f, incoming, desktop))
      == (set f | f in fields && Considered(f, incoming, desktop)) + {field};
    RecordKeepsCounts(t, field, status, registered, current);
    RecordKeepsDetailed(t, field, status, registered, current, desktop);
    RecordKeepsListed(t, field, status, registered, current);
  }

  lemma RecordKeepsCounts(t: Tally, field: string, status: FieldStatus, registered: Value, current: Value)
    requires TallyCounts(t)
    ensures TallyCounts(Record(t, field, status, registered, current))
  {
    if status.Mismatched? {
      CountHighAppend(t.mismatches, Mismatch(field, status.severity, status.reason));
    }
  }

  lemma RecordKeepsDetailed(t: Tally, field: string, status: FieldStatus, registered: Value, current: Value, desktop: bool)
    requires MismatchesDetailed(t, desktop) && field !in t.details
    requires status.Mismatched? ==> ClassifiedAsSource(Mismatch(field, status.severity, status.reason), desktop)
    ensures MismatchesDetailed(Record(t, field, status, registered, current), desktop)
  {
    var r := Record(t, field, status, registered, current);
    forall k | 0 <= k < |r.mismatches|
      ensures r.mismatches[k].field in r.details
      ensures r.details[r.mismatches[k].field].status == Mismatched(r.mismatches[k].severity, r.mismatches[k].reason)
      ensures ClassifiedAsSource(r.mismatches[k], desktop)
    {
      if k < |t.mismatches| {
        assert r.mismatches[k] == t.mismatches[k];
        assert t.mismatches[k].field != field;
      }
    }
  }

  lemma RecordKeepsListed(t: Tally, field: string, status: FieldStatus, registered: Value, current: Value)
    requires MismatchesListed(t)
    ensures MismatchesListed(Record(t, field, status, registered, current))
  {
    var r := Record(t, field, status, registered, current);
    forall f | f in r.details && r.details[f].status.Mismatched?
      ensures exists k :: 0 <= k < |r.mismatches| && r.mismatches[k].field == f
    {
      if f != field {
        var k :| 0 <= k < |t.mismatches| && t.mismatches[k].field == f;
        assert r.mismatches[k] == t.mismatches[k];
      } else {
        assert r.mismatches[|t.mismatches|].field == f;
      }
    }
  }

  /** One step keeps the invariant. */
  lemma StepKeepsInvariant(t: Tally, fields: seq<string>, field: string, baseline: map<string, Value>,
                           incoming: map<string, Value>, desktop: bool)
    requires TallyInvariant(t, fields, incoming, desktop)
    requires field !in fields
    requires Step(t, field, baseline, incoming, desktop).Success?
    ensures TallyInvariant(Step(t, field, baseline, incoming, desktop).value, fields + [field], incoming, desktop)
  {
    if Considered(field, incoming, desktop) {
      var registered, current := Get(baseline, field), incoming[field];
      var status := FieldStatusOf(field, desktop, registered, current).value;
      RecordKeepsInvariant(t, fields, field, status, registered, current, incoming, desktop);
    } else {
      assert (set f | f in fields + [field] && Considered(f, incoming, desktop))
        == (set f | f in fields && Considered(f, incoming, desktop));
    }
  }

  /** The fold keeps the invariant, over fields listed once each. */
  lemma {:induction false} CompareFieldsInvariant(fields: seq<string>, baseline: map<string, Value>,
                                                  incoming: map<string, Value>, desktop: bool)
    requires forall i, j :: 0 <= i < j < |fields| ==> fields[i] != fields[j]
    requires CompareFields(fields, baseline, incoming, desktop).Success?
    ensures TallyInvariant(CompareFields(fields, baseline, incoming, desktop).value, fields, incoming, desktop)
    decreases |fields|
  {
    if fields == [] {
      assert (set f | f in fields && Considered(f, incoming, desktop)) == {};
    } else {
      var init, last := fields[..|fields| - 1], fields[|fields| - 1];
      assert fields == init + [last];
      CompareFieldsInvariant(init, baseline, incoming, desktop);
      StepKeepsInvariant(CompareFields(init, baseline, incoming, desktop).value, init, last,
                         baseline, incoming, desktop);
    }
  }

  lemma {:induction false} CountHighPositive(ms: seq<Mismatch>)
    ensures CountHigh(ms) > 0 <==> exists k :: 0 <= k < |ms| && ms[k].severity == High
  {
    if ms != [] {
      CountHighPositive(ms[1..]);
      if ms[0].severity != High && CountHigh(ms) == 0 {
        forall k | 0 <= k < |ms| ensures ms[k].severity != High {
          if k > 0 { assert ms[k] == ms[1..][k - 1]; }
        }
      }
      if CountHigh(ms[1..]) > 0 {
        var k :| 0 <= k < |ms[1..]| && ms[1..][k].severity == High;
        assert ms[k + 1].severity == High;
      }
    }
  }

  /** The fields named in the lock reason are exactly the fields of the
      high-severity mismatches. */
  lemma {:induction false} HighFieldsAreHighMismatches(ms: seq<Mismatch>, f: string)
    ensures f in HighFields(ms) <==> exists k :: 0 <= k < |ms| && ms[k].severity == High && ms[k].field == f
  {
    if ms != [] {
      HighFieldsAreHighMismatches(ms[1..], f);
      if exists k :: 0 <= k < |ms[1..]| && ms[1..][k].severity == High && ms[1..][k].field == f {
        var k :| 0 <= k < |ms[1..]| && ms[1..][k].severity == High && ms[1..][k].field == f;
        assert ms[k + 1] == ms[1..][k];
      }
      if exists k :: 0 <= k < |ms| && ms[k].severity == High && ms[k].field == f {
        var k :| 0 <= k < |ms| && ms[k].severity == High && ms[k].field == f;
        if k > 0 { assert ms[1..][k - 1] == ms[k]; }
      }
    }
  }

  /** A detail entry recording a high-severity mismatch. */
  predicate IsHighMismatch(d: FieldDetail)
  {
    d.status.Mismatched? && d.status.severity == High
  }

  /** The fields of `fields`, in that order, whose detail entry records a
      high-severity mismatch. */
  function HighInOrder(fields: seq<string>, details: map<string, FieldDetail>): seq<string>
    decreases |fields|
  {
    if fields == [] then []
    else
      var last := fields[|fields| - 1];
      HighInOrder(fields[..|fields| - 1], details)
        + (if last in details && IsHighMismatch(details[last]) then [last] else [])
  }

  /** The list holds exactly the walked fields recorded as high mismatches. */
  lemma {:induction false} HighInOrderMembers(fields: seq<string>, details: map<string, FieldDetail>, x: string)
    ensures x in HighInOrder(fields, details) <==> x in fields && x in details && IsHighMismatch(details[x])
    decreases |fields|
  {
    if fields != [] {
      var init := fields[..|fields| - 1];
      HighInOrderMembers(init, details, x);
      assert fields == init + [fields[|fields| - 1]];
    }
  }

  /** Of two entries of the list, the earlier one comes from an earlier
      position of the walked fields. */
  lemma {:induction false} HighInOrderFollowsFields(fields: seq<string>, details: map<string, FieldDetail>, i: nat, j: nat)
    requires i < j < |HighInOrder(fields, details)|
    ensures exists p, q ::
              0 <= p < q < |fields| && fields[p] == HighInOrder(fields, details)[i] && fields[q] == HighInOrder(fields, details)[j]
    decreases |fields|
  {
    var init := fields[..|fields| - 1];
    var h := HighInOrder(init, details);
    var r := HighInOrder(fields, details);
    assert r[i] == h[i];
    if j < |h| {
      HighInOrderFollowsFields(init, details, i, j);
      var p, q :| 0 <= p < q < |init| && init[p] == h[i] && init[q] == h[j];
      assert fields[p] == r[i] && fields[q] == r[j];
    } else {
      HighInOrderMembers(init, details, h[i]);
      var p :| 0 <= p < |init| && init[p] == h[i];
      assert fields[p] == r[i] && fields[|fields| - 1] == r[j];
    }
  }

  lemma {:induction false} HighFieldsAppend(ms: seq<Mismatch>, m: Mismatch)
    ensures HighFields(ms + [m]) == HighFields(ms) + (if m.severity == High then [m.field] else [])
  {
    if ms != [] {
      assert (ms + [m])[1..] == ms[1..] + [m];
      HighFieldsAppend(ms[1..], m);
    }
  }

  /** An entry for a field outside `fields` does not change their order. */
  lemma {:induction false} HighInOrderFrame(fields: seq<string>, details: map<string, FieldDetail>, f: string, d: FieldDetail)
    requires f !in fields
    ensures HighInOrder(fields, details[f := d]) == HighInOrder(fields, details)
    decreases |fields|
  {
    if fields != [] {
      HighInOrderFrame(fields[..|fields| - 1], details, f, d);
    }
  }

  /** The loop lists the high-severity mismatches in the order of the
      fields it walks. */
  lemma {:induction false} HighFieldsInFieldOrder(fields: seq<string>, baseline: map<string, Value>,
                                                  incoming: map<string, Value>, desktop: bool)
    requires forall i, j :: 0 <= i < j < |fields| ==> fields[i] != fields[j]
    requires CompareFields(fields, baseline, incoming, desktop).Success?
    ensures var t := CompareFields(fields, baseline, incoming, desktop).value;
      HighFields(t.mismatches) == HighInOrder(fields, t.details)
    decreases |fields|
  {
    if fields != [] {
      var init, last := fields[..|fields| - 1], fields[|fields| - 1];
      assert fields == init + [last];
      HighFieldsInFieldOrder(init, baseline, incoming, desktop);
      CompareFieldsInvariant(init, baseline, incoming, desktop);
      StepKeepsOrder(CompareFields(init, baseline, incoming, desktop).value, init, last, baseline, incoming, desktop);
    }
  }

  /** One step keeps the high-severity fields in field order. */
  lemma StepKeepsOrder(t: Tally, fields: seq<string>, field: string, baseline: map<string, Value>,
                       incoming: map<string, Value>, desktop: bool)
    requires HighFields(t.mismatches) == HighInOrder(fields, t.details)
    requires field !in fields && field !in t.details
    requires Step(t, field, baseline, incoming, desktop).Success?
    ensures var r := Step(t, field, baseline, incoming, desktop).value;
      HighFields(r.mismatches) == HighInOrder(fields + [field], r.details)
  {
    var fs := fields + [field];
    assert fs[..|fs| - 1] == fields;
    if Considered(field, incoming, desktop) {
      var registered, current := Get(baseline, field), incoming[field];
      RecordKeepsOrder(t, fields, field, FieldStatusOf(field, desktop, registered, current).value, registered, current);
    }
  }

  lemma RecordKeepsOrder(t: Tally, fields: seq<string>, field: string, status: FieldStatus, registered: Value, current: Value)
    requires HighFields(t.mismatches) == HighInOrder(fields, t.details)
    requires field !in fields
    ensures var r := Record(t, field, status, registered, current);
      HighFields(r.mismatches) == HighInOrder(fields + [field], r.details)
  {
    var fs := fields + [field];
    assert fs[..|fs| - 1] == fields;
    HighInOrderFrame(fields, t.details, field, FieldDetail(status, registered, current));
    if status.Mismatched? {
      HighFieldsAppend(t.mismatches, Mismatch(field, status.severity, status.reason));
    }
  }

  // ---------------------------------------------------------------------
  // The comparison result
  // ---------------------------------------------------------------------

  /** The baseline gate: no truthy creation entry skips the comparison as
      not established; a truthy entry that is not a dictionary raises
      `AttributeError`; a dictionary holding only `None`, `""` and `[]`
      skips it as an empty baseline. A skipped comparison reports nothing
      and never locks. */
  lemma BaselineGate(createEntry: Option<Value>, incoming: map<string, Value>, deviceType: string)
    ensures !(createEntry.Some? && Truthy(createEntry.value)) ==>
      CompareSpec(createEntry, incoming, deviceType) == Success(SkippedComparison(NotEstablished))
    ensures createEntry.Some? && Truthy(createEntry.value) && !createEntry.value.Dict? ==>
      CompareSpec(createEntry, incoming, deviceType) == Failure(AttributeError)
    ensures createEntry.Some? && Truthy(createEntry.value) && createEntry.value.Dict?
            && (forall f :: f in createEntry.value.entries ==> !IsBaselineData(createEntry.value.entries[f])) ==>
      CompareSpec(createEntry, incoming, deviceType) == Success(SkippedComparison(EmptyBaseline))
    ensures var r := CompareSpec(createEntry, incoming, deviceType);
      r.Success? && r.value.baselineStatus != Compared ==>
        r.value.mismatches == [] && r.value.totalMismatches == 0 && !r.value.shouldAutoLock
        && r.value.lockReason.None? && r.value.details == map[]
  {
  }

  /** A completed comparison: the total is the length of the mismatch
      list and the sum of the two counters, the high counter counts the
      high-severity entries, the device is to be locked exactly when one
      of them is high, and the lock reason is given exactly then and
      names exactly the high-severity fields. */
  lemma ComparisonCounts(createEntry: Option<Value>, incoming: map<string, Value>, deviceType: string)
    ensures var r := CompareSpec(createEntry, incoming, deviceType);
      r.Success? && r.value.baselineStatus == Compared ==>
        var c := r.value;
        && c.totalMismatches == |c.mismatches| == c.highSeverityCount + c.mediumSeverityCount
        && c.highSeverityCount == CountHigh(c.mismatches)
        && (c.shouldAutoLock <==> exists k :: 0 <= k < |c.mismatches| && c.mismatches[k].severity == High)
        && (c.lockReason.Some? <==> c.shouldAutoLock)
        && (c.shouldAutoLock ==>
              c.lockReason.value == LockReasonPrefix + Join(", ", HighFields(c.mismatches))
              && forall f :: f in HighFields(c.mismatches) <==>
                   exists k :: 0 <= k < |c.mismatches| && c.mismatches[k].severity == High && c.mismatches[k].field == f)
  {
    var r := CompareSpec(createEntry, incoming, deviceType);
    if r.Success? && r.value.baselineStatus == Compared {
      var baseline := RegistrationBaseline(createEntry).entries;
      var desktop := IsDesktop(deviceType);
      TrackedFieldsPartitioned();
      CompareFieldsInvariant(TrackedFields, baseline, incoming, desktop);
      CountHighPositive(r.value.mismatches);
      forall f ensures f in HighFields(r.value.mismatches) <==>
          exists k :: 0 <= k < |r.value.mismatches| && r.value.mismatches[k].severity == High && r.value.mismatches[k].field == f
      {
        HighFieldsAreHighMismatches(r.value.mismatches, f);
      }
    }
  }

  /** The lock reason names the high-severity fields in the order of the
      tracked-field list, each once. */
  lemma LockReasonInTrackedOrder(createEntry: Option<Value>, incoming: map<string, Value>, deviceType: string)
    ensures var r := CompareSpec(createEntry, incoming, deviceType);
      r.Success? && r.value.shouldAutoLock ==>
        r.value.lockReason == Some(LockReasonPrefix + Join(", ", HighInOrder(TrackedFields, r.value.details)))
  {
    var r := CompareSpec(createEntry, incoming, deviceType);
    if r.Success? && r.value.baselineStatus == Compared {
      TrackedFieldsPartitioned();
      HighFieldsInFieldOrder(TrackedFields, RegistrationBaseline(createEntry).entries, incoming, IsDesktop(deviceType));
    }
  }

  /** A completed comparison reports on exactly the tracked fields the
      heartbeat carries and the device type does not skip; each mismatch
      has a detail entry saying so and vice versa; and each mismatch is
      classified as the severity table and the reason table say, except a
      desktop RAM drop, which is always high and quotes the RAM figures. */
  lemma ComparisonReportsConsideredFields(createEntry: Option<Value>, incoming: map<string, Value>, deviceType: string)
    ensures var r := CompareSpec(createEntry, incoming, deviceType);
      r.Success? && r.value.baselineStatus == Compared ==>
        var c := r.value;
        && c.details.Keys == (set f | f in TrackedFields && Considered(f, incoming, IsDesktop(deviceType)))
        && (forall k :: 0 <= k < |c.mismatches| ==>
              && c.mismatches[k].field in c.details
              && c.details[c.mismatches[k].field].status == Mismatched(c.mismatches[k].severity, c.mismatches[k].reason)
              && ClassifiedAsSource(c.mismatches[k], IsDesktop(deviceType)))
        && (forall f :: f in c.details && c.details[f].status.Mismatched? ==>
              exists k :: 0 <= k < |c.mismatches| && c.mismatches[k].field == f)
  {
    var r := CompareSpec(createEntry, incoming, deviceType);
    if r.Success? && r.value.baselineStatus == Compared {
      TrackedFieldsPartitioned();
      CompareFieldsInvariant(TrackedFields, RegistrationBaseline(createEntry).entries, incoming, IsDesktop(deviceType));
    }
  }

  /** On a desktop or laptop only the installed RAM is compared, so the
      only possible mismatch is a RAM drop, which locks the device. */
  lemma DesktopComparesRamOnly(createEntry: Option<Value>, incoming: map<string, Value>, deviceType: string)
    requires IsDesktop(deviceType)
    ensures var r := CompareSpec(createEntry, incoming, deviceType);
      r.Success? && r.value.baselineStatus == Compared ==>
        && r.value.details.Keys <= {"installed_ram"}
        && (forall k :: 0 <= k < |r.value.mismatches| ==>
              r.value.mismatches[k].field == "installed_ram" && r.value.mismatches[k].severity == High)
  {
    var r := CompareSpec(createEntry, incoming, deviceType);
    if r.Success? && r.value.baselineStatus == Compared {
      ComparisonReportsConsideredFields(createEntry, incoming, deviceType);
      forall f | f in TrackedFields && Considered(f, incoming, true) ensures f == "installed_ram" {
      }
    }
  }

  // ---------------------------------------------------------------------
  // Resending the baseline
  // ---------------------------------------------------------------------

  /** A field whose heartbeat value is its baseline value matches, provided
      the IMEI value, when truthy, can be iterated (otherwise the source
      raises `TypeError` even on equal values). */
  lemma SameValueMatches(field: string, desktop: bool, v: Value)
    requires field == "device_imeis" && Truthy(v) ==> IterItems(v).Some?
    ensures FieldStatusOf(field, desktop, v, v) == Success(Matched)
  {
    if field == "device_imeis" {
      if Truthy(v) {
        var keys := ImeiKeys(IterItems(v).value);
        assert AllRegistered(keys, keys);
      }
    } else if !(field == "installed_ram" && desktop) {
      PyEqRefl(NormalizeForComparison(v));
    }
  }

  /** Over fields whose heartbeat values equal their baseline values, the
      loop records no mismatch. */
  lemma {:induction false} SameValuesRecordNoMismatch(fields: seq<string>, baseline: map<string, Value>,
                                                      incoming: map<string, Value>, desktop: bool)
    requires forall f :: f in fields && f in incoming ==> incoming[f] == Get(baseline, f)
    requires "device_imeis" in incoming && Truthy(incoming["device_imeis"]) ==> IterItems(incoming["device_imeis"]).Some?
    ensures CompareFields(fields, baseline, incoming, desktop).Success?
    ensures CompareFields(fields, baseline, incoming, desktop).value.mismatches == []
    ensures CompareFields(fields, baseline, incoming, desktop).value.high == 0
    decreases |fields|
  {
    if fields != [] {
      var init, last := fields[..|fields| - 1], fields[|fields| - 1];
      SameValuesRecordNoMismatch(init, baseline, incoming, desktop);
      if Considered(last, incoming, desktop) {
        SameValueMatches(last, desktop, incoming[last]);
      }
    }
  }

  /** A heartbeat that carries, for every tracked field it reports, the
      value registered for it never yields a mismatch and never locks. */
  lemma ResendingBaselineNeverLocks(createEntry: Option<Value>, incoming: map<string, Value>, deviceType: string)
    requires createEntry.Some? && createEntry.value.Dict?
    requires forall f :: f in TrackedFields && f in incoming ==> incoming[f] == Get(createEntry.value.entries, f)
    requires "device_imeis" in incoming && Truthy(incoming["device_imeis"]) ==> IterItems(incoming["device_imeis"]).Some?
    ensures CompareSpec(createEntry, incoming, deviceType).Success?
    ensures CompareSpec(createEntry, incoming, deviceType).value.mismatches == []
    ensures !CompareSpec(createEntry, incoming, deviceType).value.shouldAutoLock
  {
    var b := RegistrationBaseline(createEntry);
    if Truthy(b) && HasBaselineData(b.entries) {
      SameValuesRecordNoMismatch(TrackedFields, b.entries, incoming, IsDesktop(deviceType));
    }
  }
}
