/** The tracked heartbeat fields, their severity classes and the fixed,
    value-free reason attached to a mismatch of each field
    (`HEARTBEAT_TRACKED_FIELDS`, `HIGH_SEVERITY_FIELDS`,
    `MEDIUM_SEVERITY_FIELDS`, `_calculate_severity`, `_get_mismatch_reason`). */
module FieldRules {

  /** The fields a heartbeat is compared on, in the order they are examined. */
  const TrackedFields: seq<string> := [
    "device_imeis",
    "serial_number",
    "installed_ram",
    "total_storage",
    "is_device_rooted",
    "is_usb_debugging_enabled",
    "is_developer_mode_enabled",
    "is_bootloader_unlocked",
    "is_custom_rom"
  ]

  /** Fields whose mismatch locks the device. */
  const HighSeverityFields: set<string> := {
    "serial_number",
    "device_imeis",
    "is_device_rooted",
    "is_usb_debugging_enabled",
    "is_developer_mode_enabled",
    "is_bootloader_unlocked"
  }

  /** Fields whose mismatch is only logged. */
  const MediumSeverityFields: set<string> := {
    "installed_ram",
    "total_storage",
    "is_custom_rom"
  }

  datatype Severity = High | Medium

  /** `_calculate_severity(field)`: "high" for the high-severity fields and
      "medium" for every other name, listed as medium or not. */
  function CalculateSeverity(field: string): (s: Severity)
  {
    if field in HighSeverityFields then High
    else if field in MediumSeverityFields then Medium
    else Medium
  }

  /** Only the fields of the high set are high. */
  lemma SeverityHighIff(field: string)
    ensures CalculateSeverity(field) == High <==> field in HighSeverityFields
  {
  }

  /** The high and medium sets split the tracked fields: disjoint, and
      together exactly the tracked fields, which are listed once each. */
  lemma TrackedFieldsPartitioned()
    ensures HighSeverityFields !! MediumSeverityFields
    ensures HighSeverityFields + MediumSeverityFields == set f | f in TrackedFields
    ensures forall i, j :: 0 <= i < j < |TrackedFields| ==> TrackedFields[i] != TrackedFields[j]
  {
  }

  /** The reason table of `_get_mismatch_reason`. */
  const ReasonTable: map<string, string> := map[
    "serial_number" := "Device serial number mismatch detected",
    "device_imeis" := "Device IMEI mismatch detected",
    "is_device_rooted" := "Device rooting status changed",
    "is_usb_debugging_enabled" := "USB debugging status changed",
    "is_developer_mode_enabled" := "Developer mode status changed",
    "is_bootloader_unlocked" := "Bootloader unlock status changed",
    "is_custom_rom" := "Custom ROM status changed",
    "installed_ram" := "Device RAM configuration changed",
    "total_storage" := "Device storage configuration changed"
  ]

  /** The text of the generic reason for a field outside the table. */
  function GenericReason(field: string): string
  {
    "Field '" + field + "' value changed"
  }

  /** `_get_mismatch_reason(field)`: a reason that depends on the field name
      alone. Every tracked field has its own fixed text, and any other name
      gets the generic text naming the field. */
  function MismatchReason(field: string): (r: string)
  {
    if field in ReasonTable then ReasonTable[field] else GenericReason(field)
  }

  /** A tracked field gets its row of the table, any name outside the
      table the generic text. */
  lemma MismatchReasonOf(field: string)
    ensures field in TrackedFields ==> MismatchReason(field) == ReasonTable[field]
    ensures field !in ReasonTable ==> MismatchReason(field) == GenericReason(field)
  {
  }

  lemma GenericReasonInjective(f: string, g: string)
    requires GenericReason(f) == GenericReason(g)
    ensures f == g
  {
    var a, b := GenericReason(f), GenericReason(g);
    assert f == a[7..|a| - 15];
    assert g == b[7..|b| - 15];
  }

  /** Different fields are never reported with the same reason, so the
      reason alone tells which field changed. */
  lemma MismatchReasonInjective(f: string, g: string)
    requires f != g
    ensures MismatchReason(f) != MismatchReason(g)
  {
    if f !in ReasonTable && g !in ReasonTable {
      if GenericReason(f) == GenericReason(g) { GenericReasonInjective(f, g); }
    } else if f in ReasonTable && g !in ReasonTable {
      assert GenericReason(g)[0] == 'F';
      assert ReasonTable[f][0] != 'F';
    } else if f !in ReasonTable && g in ReasonTable {
      assert GenericReason(f)[0] == 'F';
      assert ReasonTable[g][0] != 'F';
    }
  }
}
