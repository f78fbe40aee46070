# Device integrity engine and button-combo filter

This project models two parts of a device-financing platform.

1. The heartbeat integrity engine of the backend (`sponsa_backend/devices/views.py`).
   - A financed phone or laptop registers once. Its registration payload is flattened into a fixed set of field names and kept as the device's baseline.
   - The device then sends heartbeats. Each heartbeat is flattened the same way and compared field by field with the baseline:
     - the IMEI list passes when every current IMEI was registered;
     - on desktops the installed RAM may drop by up to one gigabyte;
     - every other field is compared after normalisation.
   - Every mismatch carries a severity and a reason. A high-severity mismatch asks for the device to be locked automatically. The lock reason names the high-severity fields.
   - The view then records tamper signals and recommendations, and answers with the lock state and any deactivation command.
   - The model also covers the validators that go with registration:
     - rejection of unexpected keys;
     - coercion of category field values;
     - extraction of category data.
2. The kernel input filter of the firmware (`docs/android-firmware-security-complete/kernel-driver/input_security_filter.c`).
   - It tracks the power, volume and home keys. The home keys take part in no combination: the Power+Home combination that the driver's header lists is not implemented by its code.
   - After every power, volume or home key event (a press, an autorepeat or a release), it checks for a recovery, fastboot or EDL button combination within two seconds of pressing power.
   - It blocks every such event after which a combination holds, and counts each blocked event as an attempt.
   - Two sysfs entries switch the filter on or off and reset its counters.

Python values are modelled by a `Value` datatype (`PyValue`):
- `None`, booleans, integers, strings, lists, tuples and dictionaries;
- Python truthiness, `str()`, `.lower()`, `.upper()`, `.strip()`, `.replace(" ", "")` and equality on them.

An exception raised by the Python code becomes the `Failure` side of a `Result` (`Wrappers`). The dictionary produced by a normaliser is a `map` keyed by a datatype of the accepted field names.

Modules:
- `PyValue`, `Wrappers`, `Ordering`: the Python values, `Result`/`Option`, and `sorted()` on strings.
- `FieldRules`: the tracked fields, their severities and their mismatch reasons.
- `CompareNormalize`: `_normalize_for_comparison`.
- `ImeiCompare`: `_compare_imei_lists`.
- `RamCompare`: `_compare_ram_with_tolerance`, with its regular expression written out as a scanner.
- `Heartbeat`: the orchestrator as a method with its loop, proved equal to a fold (`CompareSpec`).
- `HeartbeatProperties`: what the comparison guarantees.
- `DeviceActions`: what the heartbeat view does with a comparison. This covers the auto-lock, the tamper signals, the recommendations, the lock reason in the response, and the deactivation block.
- `MobilePayload`: `_normalize_mobile_heartbeat`.
- `RegistrationPayload`: `_normalize_mobile_payload`, and the default device type and field check of the mobile registration view.
- `FieldValidation`: `_reject_unexpected_fields`, `_coerce_category_value` and `_extract_category_data`.
- `InputFilter`: the button state, the filter and the sysfs stores. The driver's global state is a class whose methods update its fields.

## Model

| member | source | states |
|---|---|---|
| FieldRules.SeverityHighIff | sponsa_backend/devices/views.py:1435-1445 | a field is rated high exactly when it is in the high-severity set; every other field is medium |
| FieldRules.TrackedFieldsPartitioned | sponsa_backend/devices/views.py:1376-1403 | the high and medium sets are disjoint, together they are exactly the tracked fields, and no tracked field is listed twice |
| FieldRules.MismatchReasonOf | sponsa_backend/devices/views.py:1417-1432 | a tracked field gets the fixed reason of its table entry; a field missing from the table gets `Field '<field>' value changed` |
| FieldRules.MismatchReasonInjective | sponsa_backend/devices/views.py:1417-1432 | two different fields never share a mismatch reason |
| CompareNormalize.NormalizeForComparison | sponsa_backend/devices/views.py:1448-1484 | `None` stays `None`; booleans, integers and tuples pass unchanged; a list becomes a tuple of the same length; a string stays a string that is no longer; a dictionary keeps its keys |
| CompareNormalize.NormalizeIdempotent | sponsa_backend/devices/views.py:1448-1484 | normalising a normalised value changes nothing, for every value including nested dictionaries |
| CompareNormalize.ListPermutationNormalizesEqual | sponsa_backend/devices/views.py:1462-1469 | two lists with the same elements in any order normalise to the same tuple |
| CompareNormalize.NormalizedListIsSortedItems | sponsa_backend/devices/views.py:1462-1469 | a list normalises to the sorted tuple of its stripped, lower-cased items, a permutation of those items |
| CompareNormalize.CaseIgnored | sponsa_backend/devices/views.py:1471-1477 | two strings that agree once lower-cased normalise to the same value |
| CompareNormalize.SpacesIgnoredInSizes | sponsa_backend/devices/views.py:1473-1475 | spaces inserted into a size value, outside its unit token, do not change its normal form ("16 GB" and "16GB" compare equal) |
| CompareNormalize.StringsCompareEqual | sponsa_backend/devices/views.py:1471-1477 | two size values compare equal exactly when they agree lower-cased without spaces; two other strings exactly when they agree stripped and lower-cased; a size value never equals another string |
| CompareNormalize.UnitInConcat | sponsa_backend/devices/views.py:1473 | a string containing a unit token keeps it inside any longer string |
| Ordering.SortStrings | sponsa_backend/devices/views.py:1469 | `sorted()` on strings gives a sorted permutation of its input |
| Ordering.SetToSorted | sponsa_backend/devices/views.py:275 | a set of strings becomes a strictly sorted list holding exactly its members |
| ImeiCompare.AllCurrentRegistered | sponsa_backend/devices/views.py:1525-1528 | the loop answers true exactly when every current IMEI occurs among the registered ones, and on false there is a witness that is not registered |
| ImeiCompare.CompareImeiLists | sponsa_backend/devices/views.py:1487-1545 | the method computes the IMEI verdict, including the error raised when a value cannot be iterated |
| ImeiCompare.ImeiVerdictOfLists | sponsa_backend/devices/views.py:1516-1545 | for non-empty lists: a match exactly when every current IMEI, stripped and lower-cased, is registered; a warning with both counts exactly when, in addition, fewer IMEIs are reported than were registered |
| ImeiCompare.ImeiEmptySideSkips | sponsa_backend/devices/views.py:1513-1514 | an empty or missing side is a match without warning |
| ImeiCompare.ImeiSameSetMatches | sponsa_backend/devices/views.py:1497-1505 | the same number of IMEIs, all registered, matches without warning |
| ImeiCompare.ImeiDocumentedExamples | sponsa_backend/devices/views.py:1497-1505 | the eight examples of the docstring give the documented verdicts |
| RamCompare.MatchAt | sponsa_backend/devices/views.py:1580 | a match of `\d+\.?\d*\s*GB` (case-insensitive) at a position is a well-formed token whose text occurs there, followed by whitespace and "gb" in any case |
| RamCompare.MatchAtComplete | sponsa_backend/devices/views.py:1580 | conversely, a token followed by any run of whitespace, possibly none, and "gb" in any case is matched at its position with exactly that token |
| RamCompare.TokenScanned | sponsa_backend/devices/views.py:1580 | a token not followed by a digit or a point is scanned whole, and matches exactly when "gb" follows the whitespace after it |
| RamCompare.SkipSpacesStops | sponsa_backend/devices/views.py:1580 | `\s*` stops at the first character that is not whitespace |
| RamCompare.SearchFrom | sponsa_backend/devices/views.py:1580 | `re.search` finds the leftmost position where the pattern matches, and none when no position matches |
| RamCompare.SearchFromReaches | sponsa_backend/devices/views.py:1580 | the search reaches the first position that matches |
| RamCompare.ReadsLeftmostMatch | sponsa_backend/devices/views.py:1580-1582 | the value read is that of the leftmost match, whatever follows it |
| RamCompare.ExtractRamGb | sponsa_backend/devices/views.py:1574-1583 | a number is read only from a non-empty string; which number is stated by `ReadsLeftmostMatch` and `TokenRead` |
| RamCompare.RamVerdict | sponsa_backend/devices/views.py:1570-1600 | RAM has decreased exactly when both sides are truthy, both parse, and current < registered - 1; only then is the reason given |
| RamCompare.TokenRead | sponsa_backend/devices/views.py:1574-1583 | text with no digit before a token followed by optional whitespace and "gb" in any case reads as that token's value, whatever follows ("16GB", "16 GB", "RAM: 15.79 gb total") |
| RamCompare.TokenAloneRead | sponsa_backend/devices/views.py:1574-1583 | a value that is a token, optional whitespace and "gb" reads as the token's value |
| RamCompare.WholeGigabytesRead | sponsa_backend/devices/views.py:1580-1582 | "n GB", "nGB" and every other spacing and case of the unit are read as n |
| RamCompare.DecimalGigabytesRead | sponsa_backend/devices/views.py:1580-1582 | "n.m GB", with any spacing and case of the unit, is read as n plus m's digits after the point |
| RamCompare.RamToleranceIsOneGigabyte | sponsa_backend/devices/views.py:1592-1600 | with whole gigabytes, spaced or not, a decrease is reported exactly when current < registered - 1 |
| RamCompare.RamToleranceWithFraction | sponsa_backend/devices/views.py:1557-1600 | with a fractional current value, spaced or not, a decrease is reported exactly when current < registered - 1, with the three figures ("16 GB" against "15.79GB" passes) |
| Heartbeat.RegistrationBaseline | sponsa_backend/devices/views.py:1406-1414 | the baseline is the creation entry's values when they are truthy, otherwise an empty dictionary |
| Heartbeat.FieldStatusOf | sponsa_backend/devices/views.py:1698-1813 | the IMEI field fails exactly when the IMEI comparison raises and is a mismatch exactly when it reports one, and an accepted IMEI list is "matched_with_warning" carrying exactly the comparison's warning when there is one and "matched" otherwise; a desktop RAM field is a mismatch exactly when RAM decreased, high with the RAM reason; any other field matches exactly when the normalised values are equal, is "both empty" exactly when they differ and both are falsy, and is otherwise a mismatch with the field's own severity and reason |
| Heartbeat.Record | sponsa_backend/devices/views.py:1724-1813 | recording a verdict sets the field's detail entry, appends a mismatch entry exactly for a mismatch, and bumps one counter per appended entry |
| Heartbeat.CompareHeartbeatWithRegistration | sponsa_backend/devices/views.py:1603-1831 | the method returns the comparison the fold defines: not established, empty baseline, the error of a raising comparison, or the counted result with its lock reason |
| Heartbeat.CompareTrackedFields | sponsa_backend/devices/views.py:1682-1813 | the loop over the tracked fields computes the fold, and stops at the first exception |
| Heartbeat.CompareField | sponsa_backend/devices/views.py:1698-1813 | one turn of the loop yields the field's verdict |
| Heartbeat.CompareImeiField | sponsa_backend/devices/views.py:1698-1736 | the IMEI branch yields the field's verdict, passing on the error of the subset comparison |
| Heartbeat.CompareRamField | sponsa_backend/devices/views.py:1739-1769 | the desktop RAM branch yields the field's verdict |
| Heartbeat.CompareNormalizedField | sponsa_backend/devices/views.py:1772-1813 | the normalised-equality branch yields the field's verdict |
| Heartbeat.StepConsidered | sponsa_backend/devices/views.py:1682-1813 | a step on a considered field records that field's verdict, or ends with its exception |
| Heartbeat.ImeiWarningRecorded | sponsa_backend/devices/views.py:1724-1736 | an accepted IMEI list adds no mismatch, and its detail entry's status is "matched_with_warning" with exactly the comparison's warning, or "matched" when there is no warning |
| Heartbeat.FailureIsFinal | sponsa_backend/devices/views.py:1603-1831 | an exception at one field is the result of the whole loop |
| HeartbeatProperties.CompareFieldsInvariant | sponsa_backend/devices/views.py:1682-1813 | after the loop, each counter matches its severity in the mismatch list; the details hold exactly the considered fields; every listed mismatch has its detail entry and classification; every detail mismatch is listed |
| HeartbeatProperties.CountHighPositive | sponsa_backend/devices/views.py:1816-1821 | the high count is positive exactly when some mismatch is high |
| HeartbeatProperties.HighFieldsAreHighMismatches | sponsa_backend/devices/views.py:1818-1820 | the fields named in the lock reason are exactly the fields of high-severity mismatches |
| HeartbeatProperties.HighFieldsInFieldOrder | sponsa_backend/devices/views.py:1682-1820 | the high-severity fields are listed in the order of the fields the loop walks |
| HeartbeatProperties.HighFieldsAppend | sponsa_backend/devices/views.py:1820 | a high mismatch appended to the list appends its field to the high fields |
| HeartbeatProperties.HighInOrderFrame | sponsa_backend/devices/views.py:1682-1813 | recording a field outside the walked fields does not change their high-severity list |
| HeartbeatProperties.HighInOrderMembers | sponsa_backend/devices/views.py:1820 | the ordered list holds exactly the walked fields whose entry records a high-severity mismatch |
| HeartbeatProperties.HighInOrderFollowsFields | sponsa_backend/devices/views.py:1682-1820 | of two fields in the ordered list, the earlier one comes from an earlier position of the walked fields |
| HeartbeatProperties.RecordKeepsOrder | sponsa_backend/devices/views.py:1724-1820 | recording a verdict on a new field keeps the high-severity fields in field order |
| HeartbeatProperties.StepKeepsOrder | sponsa_backend/devices/views.py:1682-1820 | one turn of the loop keeps the high-severity fields in field order |
| HeartbeatProperties.BaselineGate | sponsa_backend/devices/views.py:1629-1659 | without a truthy creation entry the comparison is skipped as not established; a non-dictionary baseline raises; a baseline without data is skipped as empty |
| HeartbeatProperties.ComparisonCounts | sponsa_backend/devices/views.py:1816-1831 | a completed comparison has total = mismatch count = high + medium; it asks for an auto-lock exactly when some mismatch is high; the lock reason is present exactly then |
| HeartbeatProperties.LockReasonInTrackedOrder | sponsa_backend/devices/views.py:1603-1831 | the lock reason names the high-severity fields in the order of the tracked-field list, each once |
| HeartbeatProperties.ComparisonReportsConsideredFields | sponsa_backend/devices/views.py:1667-1696 | the details cover exactly the tracked fields present in the heartbeat and not skipped for the device type |
| HeartbeatProperties.DesktopComparesRamOnly | sponsa_backend/devices/views.py:1667-1680 | on a desktop or laptop only the installed RAM is reported on |
| HeartbeatProperties.SameValueMatches | sponsa_backend/devices/views.py:1698-1813 | a field whose heartbeat value equals its baseline value matches |
| HeartbeatProperties.SameValuesRecordNoMismatch | sponsa_backend/devices/views.py:1682-1813 | over fields that repeat their baseline values the loop finishes with no mismatch and no high count |
| HeartbeatProperties.ResendingBaselineNeverLocks | sponsa_backend/devices/views.py:1603-1831 | a heartbeat repeating the baseline for every tracked field it carries yields no mismatch and no auto-lock |
| DeviceActions.ComparisonIsConsistent | sponsa_backend/devices/views.py:1816-1831 | every completed comparison has consistent counts, flag and lock reason |
| DeviceActions.MismatchFields | sponsa_backend/devices/views.py:2244 | the alert lists the field of each mismatch, in order |
| DeviceActions.DeviceState.ApplyComparison | sponsa_backend/devices/views.py:2209-2251 | an unlocked device asked to auto-lock becomes locked with the lock reason as block and history reason, and gets a high "device tampered" signal; otherwise the lock fields do not change; a mismatch alert follows when there are mismatches |
| DeviceActions.DeviceState.constructor | sponsa_backend/devices/views.py:2209 | the state starts from the device's lock flag, block reason and signals |
| DeviceActions.LockComesWithBreachAlert | sponsa_backend/devices/views.py:2209-2251 | an auto-lock emits exactly two signals: the tamper signal carrying the lock reason, then a high security-breach alert |
| DeviceActions.SignalLevels | sponsa_backend/devices/views.py:2209-2251 | every signal is high exactly when some mismatch is high; a signal is emitted exactly when there are mismatches |
| DeviceActions.LockedDeviceNotRelocked | sponsa_backend/devices/views.py:2209 | a device that is already locked is not locked again and gets no tamper signal |
| DeviceActions.ResendingBaselineChangesNothing | sponsa_backend/devices/views.py:2209-2251 | a heartbeat that repeats the baseline emits no signal |
| DeviceActions.Recommendations | sponsa_backend/devices/views.py:2278-2302 | "visit shop" exactly when a mismatch is high, "log only" exactly when one is medium, "continue" exactly when there is none; none is repeated |
| DeviceActions.ContinueAlone | sponsa_backend/devices/views.py:2278-2302 | for a consistent comparison "continue" is the only recommendation exactly when there are no mismatches |
| DeviceActions.ResponseContent | sponsa_backend/devices/views.py:2004-2042 | the content is locked exactly when the device is; the reason is "Security issue" exactly when it is locked, nothing is overdue and a mismatch is high; otherwise it is "Payment overdue" |
| DeviceActions.AutoLockReportedAsSecurityIssue | sponsa_backend/devices/views.py:2004-2042 | without an overdue payment, an auto-locked device is answered with "Security issue" |
| DeviceActions.Deactivation | sponsa_backend/devices/views.py:1986-2001 | the status is "requested" exactly when the device or the metadata asks for deactivation, else "none"; the command `DEACTIVATE_NOW` appears exactly then; the reason `loan_completed` and the agent notice appear exactly when, in addition, the metadata's reason is a completed loan; the loan number appears exactly when, in addition, it is truthy |
| FieldValidation.RejectUnexpectedFields | sponsa_backend/devices/views.py:268-279 | no rejection exactly when every key is allowed; otherwise the sorted list of exactly the keys not allowed |
| FieldValidation.RejectionListsEachKeyOnce | sponsa_backend/devices/views.py:268-279 | the rejection lists no key twice |
| FieldValidation.CoerceCategoryValue | sponsa_backend/devices/views.py:591-630 | a string field succeeds exactly when `str(value)` (`""` for `None`) fits the optional non-zero maximum length, and then holds that text, else fails with the limit; integers parse and respect the optional bounds; a boolean field keeps booleans, reads "true"/"1"/"yes" and "false"/"0"/"no" after strip and lower, and fails with "invalid boolean" exactly otherwise; lists must be lists; JSON accepts dictionaries and lists; other types pass unchanged |
| FieldValidation.CoercionIdempotent | sponsa_backend/devices/views.py:591-630 | coercing an accepted value again gives the same result |
| FieldValidation.IntegerTextRoundTrip | sponsa_backend/devices/views.py:604-606 | `int()` reads the decimal spelling of any integer back |
| FieldValidation.BooleanTextRoundTrip | sponsa_backend/devices/views.py:611-620 | a boolean stored as its `str` is read back as that boolean |
| FieldValidation.ExtractCategoryData | sponsa_backend/devices/views.py:633-656 | a missing category yields two empty dictionaries; otherwise the loop yields the fold over the category's fields |
| FieldValidation.ExtractedKeys | sponsa_backend/devices/views.py:633-656 | only names of category fields appear in the data and error dictionaries |
| FieldValidation.ExtractedField | sponsa_backend/devices/views.py:633-656 | each field ends in exactly one state: a required blank value is an error, an optional blank value is absent, a coerced value is stored, and a failed coercion records its error |
| MobilePayload.OrGet | sponsa_backend/devices/views.py:389-433 | `first or wrapper.get(key)` raises `AttributeError` exactly when it consults a wrapper that is not a dictionary |
| MobilePayload.DropEmpty | sponsa_backend/devices/views.py:450 | exactly the entries whose value is neither `None` nor `""` are kept, unchanged |
| MobilePayload.CoerceImeis | sponsa_backend/devices/views.py:424-433 | the IMEIs are always a non-empty list |
| MobilePayload.SpacelessText | sponsa_backend/devices/views.py:413-420 | RAM and storage become text without spaces |
| MobilePayload.AssignmentLookup | sponsa_backend/devices/views.py:389-450 | after the assignments every key holds its own chosen value; RAM and storage are present only when assigned |
| MobilePayload.NormalizeMobileHeartbeat | sponsa_backend/devices/views.py:389-475 | the method returns the flattened heartbeat and its extra data, or the error of a failed lookup |
| MobilePayload.ChainKept | sponsa_backend/devices/views.py:389-450 | whatever the values, a key survives exactly when it is assigned and its value is neither `None` nor `""` |
| MobilePayload.HeartbeatImeisKept | sponsa_backend/devices/views.py:424-450 | the IMEIs are never dropped |
| MobilePayload.HeartbeatShape | sponsa_backend/devices/views.py:389-450 | each key of the result holds the value chosen for it, and is present exactly when assigned and not empty |
| MobilePayload.HeartbeatFlatFirst | sponsa_backend/devices/views.py:393-420 | a truthy flat field wins over its wrapper's entry |
| MobilePayload.HeartbeatSerialAlias | sponsa_backend/devices/views.py:404 | `serial` wins over `serial_number` in a heartbeat |
| MobilePayload.HeartbeatImeis | sponsa_backend/devices/views.py:424-433 | the IMEIs come from a truthy `device_imeis`, else from `imei_info`'s `device_imeis`; a string becomes a one-element list; a non-empty list is kept; a missing value or an empty list becomes `["NO_IMEI_FOUND"]` |
| MobilePayload.HeartbeatStorageSpaceless | sponsa_backend/devices/views.py:413-420 | RAM and storage are assigned only when the value found is truthy, and then as text without spaces |
| MobilePayload.HeartbeatErrors | sponsa_backend/devices/views.py:389-475 | the only error is `AttributeError`, raised only when a consulted wrapper is not a dictionary; success yields the flattened heartbeat |
| RegistrationPayload.KeyNameAccepted | sponsa_backend/devices/views.py:44-165 | every key the normaliser can produce is an accepted mobile field |
| RegistrationPayload.Convert | sponsa_backend/devices/views.py:329-374 | RAM and storage become text without spaces, and the IMEIs always a non-empty list |
| RegistrationPayload.AssignmentLookup | sponsa_backend/devices/views.py:282-378 | after the assignments every key holds its chosen value; RAM and storage are present only when assigned |
| RegistrationPayload.KeepFlatFields | sponsa_backend/devices/views.py:380-383 | the copy loop adds each accepted key that the payload carries and the result lacks |
| RegistrationPayload.AssignIdentityAndHardware | sponsa_backend/devices/views.py:305-335 | the identity and hardware assignments give the values chosen for those keys |
| RegistrationPayload.AssignBuildAndIntegrity | sponsa_backend/devices/views.py:338-345 | the build and integrity assignments give the values chosen for those keys |
| RegistrationPayload.AssignSecurityAndAliases | sponsa_backend/devices/views.py:348-378 | the security, location and identifier assignments give the values chosen for those keys |
| RegistrationPayload.NormalizeMobilePayload | sponsa_backend/devices/views.py:282-386 | the method returns the flattened registration, or the error of a failed lookup |
| RegistrationPayload.KeptFlatLookup | sponsa_backend/devices/views.py:380-383 | the copy adds exactly the accepted keys the payload carries, and never overwrites an assigned key |
| RegistrationPayload.FieldOutcome | sponsa_backend/devices/views.py:282-386 | whatever the values: an assigned key keeps its assigned value, an unassigned one takes the payload's, and empty values are dropped |
| RegistrationPayload.RegistrationKeyOutcome | sponsa_backend/devices/views.py:282-386 | each key of the flattened registration holds the value found for it, and is present exactly when that value is neither `None` nor `""` |
| RegistrationPayload.ChoicesFromDeviceInfo | sponsa_backend/devices/views.py:312-378 | device id, model, manufacturer, bootloader and machine name come flat first, else from `device_info` |
| RegistrationPayload.ChoicesFromAndroidInfo | sponsa_backend/devices/views.py:339-341 | the OS edition, SDK version and patch level fall back to their `android_info` entries |
| RegistrationPayload.ChoicesFromIntegrityInfo | sponsa_backend/devices/views.py:344-345 | the integrity hashes fall back to `system_integrity` |
| RegistrationPayload.ChoicesFromLocationInfo | sponsa_backend/devices/views.py:355-356 | the coordinates fall back to `location_info` |
| RegistrationPayload.ChoicesFromSecurityInfo | sponsa_backend/devices/views.py:348-352 | the five security flags fall back to `security_info` |
| RegistrationPayload.ChoicesIdentityAliases | sponsa_backend/devices/views.py:305-377 | the loan number, Android id and serial take the first truthy alias in the source's order |
| RegistrationPayload.ChoicesHardwareAliases | sponsa_backend/devices/views.py:322-342 | platform, processor, system type, OS version and fingerprint take the first truthy alias in the source's order |
| RegistrationPayload.ChoicesStorage | sponsa_backend/devices/views.py:329-335 | RAM and storage come flat first, else from `storage_info` |
| RegistrationPayload.StorageAssignedWhenTruthy | sponsa_backend/devices/views.py:329-335 | RAM and storage are assigned by name exactly when the value found is truthy |
| RegistrationPayload.ChoicesImeis | sponsa_backend/devices/views.py:362-374 | the IMEIs come from the first truthy of their aliases and are always assigned |
| RegistrationPayload.RegistrationCopiedAsSent | sponsa_backend/devices/views.py:380-386 | the device type and tamper fields are copied as sent, unless empty |
| RegistrationPayload.SerialPriorityReversed | sponsa_backend/devices/views.py:377-404 | given both, registration keeps `serial_number` while the heartbeat keeps `serial` |
| RegistrationPayload.WithDefaultDeviceType | sponsa_backend/devices/views.py:715-718 | the device type defaults to "phone" and no other entry changes |
| RegistrationPayload.RegistrationPassesFieldCheck | sponsa_backend/devices/views.py:715-732 | whatever the agent sends, the normalised payload with its default type passes the unexpected-field check |
| RegistrationPayload.LookupsSucceedWithDictionaries | sponsa_backend/devices/views.py:293-300 | when every wrapper is a dictionary, no lookup raises |
| RegistrationPayload.LookupFailureCause | sponsa_backend/devices/views.py:293-300 | a lookup fails only on a wrapper that is not a dictionary |
| RegistrationPayload.RegistrationErrors | sponsa_backend/devices/views.py:282-386 | the only error is `AttributeError`, raised only when a consulted wrapper is not a dictionary; success yields the flattened registration |
| InputFilter.MsDelta | docs/android-firmware-security-complete/kernel-driver/input_security_filter.c:80-98 | a nanosecond difference becomes milliseconds, truncated toward zero |
| InputFilter.StrToBool | docs/android-firmware-security-complete/kernel-driver/input_security_filter.c:276-292 | in the on/off `kstrtobool` rule, only a string starting with y, Y, 1, n, N, 0 or "on"/"off" is read as a switch |
| InputFilter.InputSecurityFilter.constructor | docs/android-firmware-security-complete/kernel-driver/input_security_filter.c:61-62 | the state starts all zero and the filter switched off |
| InputFilter.InputSecurityFilter.IsDangerousCombination | docs/android-firmware-security-complete/kernel-driver/input_security_filter.c:70-123 | the check blocks exactly when a combination is recognised, and bumps that combination's counter and the total |
| InputFilter.InputSecurityFilter.Filter | docs/android-firmware-security-complete/kernel-driver/input_security_filter.c:128-190 | the filter updates the state and decides on blocking as the event-by-event specification says |
| InputFilter.InputSecurityFilter.ResetStats | docs/android-firmware-security-complete/kernel-driver/input_security_filter.c:314-321 | the reset clears the whole button state and leaves the switch alone |
| InputFilter.InputSecurityFilter.EnabledStore | docs/android-firmware-security-complete/kernel-driver/input_security_filter.c:276-292 | a readable switch sets the flag and returns the length written; anything else returns -EINVAL and changes nothing |
| InputFilter.IgnoredEventsChangeNothing | docs/android-firmware-security-complete/kernel-driver/input_security_filter.c:135-178 | non-key events, events while switched off, and untracked keys pass unchanged |
| InputFilter.PressAndRelease | docs/android-firmware-security-complete/kernel-driver/input_security_filter.c:147-178 | a press records the key as held since now; a release clears the flag and keeps the press time |
| InputFilter.NoBlockWithoutPower | docs/android-firmware-security-complete/kernel-driver/input_security_filter.c:76-181 | nothing is blocked unless power is held, and releasing power is never blocked |
| InputFilter.OneCounterPerEvent | docs/android-firmware-security-complete/kernel-driver/input_security_filter.c:83-122 | an event bumps at most one attempt counter, together with the total, exactly when it is blocked |
| InputFilter.RunKeepsBalance | docs/android-firmware-security-complete/kernel-driver/input_security_filter.c:83-122 | over any sequence of events the total stays the sum of the three attempt counters |
| InputFilter.BalancedFromZero | docs/android-firmware-security-complete/kernel-driver/input_security_filter.c:314-321 | from the initial or reset state the total is always the sum of the attempt counters |
| InputFilter.WithinWindow | docs/android-firmware-security-complete/kernel-driver/input_security_filter.c:80-86 | within two seconds in milliseconds means within two seconds in nanoseconds |
| InputFilter.EdlOnlyWithStaleVolumes | docs/android-firmware-security-complete/kernel-driver/input_security_filter.c:83-122 | EDL is recognised only with power recent and both volume keys held longer than the window |
| InputFilter.RecoveryComboBlocked | docs/android-firmware-security-complete/kernel-driver/input_security_filter.c:83-95 | pressing volume up within two seconds of power is blocked and counted as a recovery attempt |
| InputFilter.FastbootComboBlocked | docs/android-firmware-security-complete/kernel-driver/input_security_filter.c:98-110 | pressing volume down within two seconds of power, with volume up not held or pressed two seconds ago or earlier, is blocked and counted as a fastboot attempt |
| InputFilter.HomeNeverDecides | docs/android-firmware-security-complete/kernel-driver/input_security_filter.c:70-123 | whether a home key is held never changes the combination recognised |
| InputFilter.HomeEventsNotFiltered | docs/android-firmware-security-complete/kernel-driver/input_security_filter.c:128-190 | a home key event is blocked exactly when the power and volume keys already held make a combination, so Power+Home alone is never blocked |
| InputFilter.SwitchSpellings | docs/android-firmware-security-complete/kernel-driver/input_security_filter.c:276-292 | the first character decides a switch (y, Y, 1 on; n, N, 0 off), or the first two for on/off in any case, whatever follows such as `echo`'s newline; any other first character is refused |

## Left out

- Django, the ORM, HTTP responses, authentication and logging are not modelled. The database reads the views make become parameters:
  - the creation history entry;
  - the device type;
  - the lock flag and block reason;
  - whether a payment is overdue;
  - the device's deactivation flag and the deactivation metadata.
- The response view's other parts are not modelled: the next-payment information and the automatic deactivation request for completed loans.
- `lock_device` is taken to set the device's lock flag. The timestamps (`blocked_at`, history times) and the history records' JSON notes are not modelled.
- DeviceActions.DeviceState.ApplyComparison: the auto-lock branch of the source swallows any exception. The model assumes the lock succeeds.
- RamCompare.ExtractRamGb: `float()` is modelled by exact decimal reals. Binary rounding of the parsed value is not modelled.
- The RAM reason text is not modelled, and neither are the IMEI warning text and the Python float formatting inside them. Only their presence and the counts they carry are.
- Python `str()` of containers, dictionary ordering and the exact texts of coercion errors are not modelled.
- FieldValidation.CoerceCategoryValue: category fields of type `float` are not modelled, because the value model has no floats. Such a field falls under the model's other types and passes its value through uncoerced, whereas the source converts it with `float()` and applies the bounds.
- `.lower()` and `.upper()` act on ASCII letters only; Unicode case mapping is not modelled. `.strip()` and the regular expression's `\s` use Python's whitespace set in full; `.replace(" ", "")` removes U+0020 only, as in the source.
- RamCompare.MatchAt: the regular expression's `\d` is modelled as the ASCII digits. Python's `\d` and `float()` also accept other Unicode decimal digits, so a RAM value written with them is unreadable in the model.
- FieldValidation.CoerceCategoryValue: `int()` is modelled for optional whitespace, an optional sign and ASCII digits. Underscore separators and non-ASCII digits are not accepted, although Python would accept them.
- The two mobile normalisers disagree on the serial number alias: registration prefers `serial_number`, the heartbeat prefers `serial`. The model keeps both orders as written; `RegistrationPayload.SerialPriorityReversed` states the difference.
- The normalisers are specified through the value chosen for each key, plus its presence. The dictionary's insertion order is not modelled.
- The driver's spinlock and concurrent calls are not modelled; each call is atomic in the model.
- The driver reads `ktime_get()` once per check. Both reads are modelled by one `now` argument.
- The driver's `unsigned long` counters are unbounded naturals in the model, so wrap-around is not modelled.
- `log_violations_store`, `stats_show`, `enabled_show` and the kernel log messages are not modelled, and neither is the connect/disconnect/registration boilerplate.
- `strtobool` is modelled by the `kstrtobool` rule that accepts y, Y, 1, n, N, 0, and "on"/"off" by their second letter. The driver names no kernel version, and the accepted set differs between kernels.
- InputFilter.StrToBool: refuses the t, T, f and F spellings (so "true" and "false") that newer kernels' `kstrtobool` accepts, and older kernels' refusal of "on"/"off" is not modelled either, because the driver does not fix which kernel it is built against.
- The JNI bridge and the fastboot security source are not part of this model.
