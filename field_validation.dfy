/** The field validators of device registration: the check that a payload
    carries no field outside the allowed set (`_reject_unexpected_fields`),
    the coercion of one category field (`_coerce_category_value`) and the
    extraction of a category's fields from a payload
    (`_extract_category_data`). */
module FieldValidation {
  import opened Wrappers
  import opened PyValue
  import Ordering
  import RamCompare

  // ---------------------------------------------------------------------
  // Unexpected fields

  /** `_reject_unexpected_fields(payload, allowed)`: `None` when every key
      is allowed, otherwise the sorted `extra_fields` of the 400 response. */
  function RejectUnexpectedFields(payload: map<string, Value>, allowed: set<string>): (r: Option<seq<string>>)
    ensures r.None? <==> payload.Keys <= allowed
    ensures r.Some? ==> Ordering.Sorted(r.value) && |r.value| == |payload.Keys - allowed|
    ensures r.Some? ==> forall k :: k in r.value <==> k in payload && k !in allowed
  {
    var extra := payload.Keys - allowed;
    if extra == {} then
      assert payload.Keys <= allowed by {
        forall k | k in payload.Keys ensures k in allowed {
          assert k !in extra;
        }
      }
      None
    else
      var sorted := Ordering.SetToSorted(extra);
      assert forall k :: k in sorted <==> k in extra;
      assert forall k :: k in extra <==> k in payload && k !in allowed;
      Some(sorted)
  }

  /** The rejection lists each offending key once. */
  lemma RejectionListsEachKeyOnce(payload: map<string, Value>, allowed: set<string>, i: nat, j: nat)
    requires RejectUnexpectedFields(payload, allowed).Some?
    requires i < j < |RejectUnexpectedFields(payload, allowed).value|
    ensures RejectUnexpectedFields(payload, allowed).value[i] != RejectUnexpectedFields(payload, allowed).value[j]
  {
    var extra := RejectUnexpectedFields(payload, allowed).value;
    var keys := payload.Keys - allowed;
    assert forall k :: k in extra <==> k in keys;
    if extra[i] == extra[j] {
      // A duplicate would leave fewer distinct elements than positions.
      var rest := extra[..j] + extra[j + 1..];
      assert forall k :: k in keys ==> k in rest by {
        forall k | k in keys ensures k in rest {
          var p :| 0 <= p < |extra| && extra[p] == k;
          if p == j {
            assert rest[i] == k;
          } else if p < j {
            assert rest[p] == k;
          } else {
            assert rest[p - 1] == k;
          }
        }
      }
      SetOfSeqBound(keys, rest);
    }
  }

  /** A set whose members all occur in a sequence has at most its length. */
  lemma {:induction false} SetOfSeqBound(s: set<string>, q: seq<string>)
    requires forall k :: k in s ==> k in q
    ensures |s| <= |q|
    decreases |q|
  {
    if q != [] {
      var s' := s - {q[0]};
      assert forall k :: k in s' ==> k in q[1..] by {
        forall k | k in s' ensures k in q[1..] {
          var p :| 0 <= p < |q| && q[p] == k;
          assert p != 0;
          assert q[1..][p - 1] == k;
        }
      }
      SetOfSeqBound(s', q[1..]);
    }
  }

  // ---------------------------------------------------------------------
  // Coercion of one category field

  /** The field types a category field can have (`float` is not modelled). */
  datatype FieldType =
    | StringField
    | IntegerField
    | BooleanField
    | ListField
    | JsonField
    | OtherField(typeName: string)

  /** A category field definition: its name, type, whether it is required,
      and its optional limits. */
  datatype CategoryField = CategoryField(
    name: string,
    fieldType: FieldType,
    required: bool,
    maxLength: Option<nat>,
    minValue: Option<real>,
    maxValue: Option<real>)

  /** Why a value was refused; `str(exc)` of the exception raised. */
  datatype CoercionError =
    | TooLong(limit: nat)
    | BelowMinimum(minimum: real)
    | AboveMaximum(maximum: real)
    | NotAnInteger
    | InvalidBoolean
    | InvalidList
    | InvalidJson

  /** `int(text)` for a decimal text: surrounding whitespace, an optional
      sign, then at least one ASCII digit. */
  function ParseIntText(text: string): (r: Option<int>)
  {
    var t := Strip(text);
    if t != [] && (t[0] == '-' || t[0] == '+') then
      var digits := t[1..];
      if digits != [] && RamCompare.AllDigits(digits) then
        var n: int := RamCompare.DigitsValue(digits);
        Some(if t[0] == '-' then -n else n)
      else None
    else if t != [] && RamCompare.AllDigits(t) then Some(RamCompare.DigitsValue(t))
    else None
  }

  /** `int(value)`: a bool is 0 or 1, an int itself, a text is parsed;
      anything else raises. */
  function IntOf(value: Value): Option<int>
  {
    match value
    case Bool(b) => Some(if b then 1 else 0)
    case Int(i) => Some(i)
    case Str(s) => ParseIntText(s)
    case _ => None
  }

  /** The texts `_coerce_category_value` reads as `True` and as `False`. */
  const TrueSpellings: seq<string> := ["true", "1", "yes"]
  const FalseSpellings: seq<string> := ["false", "0", "no"]

  /** `_coerce_category_value(field, value)`. */
  function CoerceCategoryValue(field: CategoryField, value: Value): (r: Result<Value, CoercionError>)
    ensures field.fieldType == StringField ==>
      (r.Success? ==> r.value.Str? && (field.maxLength.Some? && field.maxLength.value > 0 ==>
                                          |r.value.s| <= field.maxLength.value))
    ensures field.fieldType == IntegerField ==>
      (r.Success? <==> IntOf(value).Some? && InBounds(field, IntOf(value).value))
      && (r.Success? ==> r.value == Int(IntOf(value).value))
    ensures field.fieldType == StringField ==>
      var text := if value.Null? then "" else PyStr(value);
      && (r.Success? <==> field.maxLength.None? || field.maxLength.value == 0 || |text| <= field.maxLength.value)
      && (r.Success? ==> r.value == Str(text))
      && (r.Failure? ==> r.error == TooLong(field.maxLength.value))
    ensures field.fieldType == BooleanField && r.Success? ==> r.value.Bool?
    ensures field.fieldType == BooleanField && value.Bool? ==> r == Success(value)
    ensures field.fieldType == BooleanField && value.Str? ==>
      && (Lower(Strip(value.s)) in TrueSpellings ==> r == Success(Bool(true)))
      && (Lower(Strip(value.s)) in FalseSpellings ==> r == Success(Bool(false)))
    ensures field.fieldType == BooleanField ==>
      (r.Failure? <==> !value.Bool? && !(value.Str? && (Lower(Strip(value.s)) in TrueSpellings
                                                         || Lower(Strip(value.s)) in FalseSpellings)))
      && (r.Failure? ==> r.error == InvalidBoolean)
    ensures field.fieldType == ListField ==> (r.Success? <==> value.List?) && (r.Success? ==> r.value == value)
    ensures field.fieldType == JsonField ==>
      (r.Success? <==> value.List? || value.Dict?) && (r.Success? ==> r.value == value)
    ensures field.fieldType.OtherField? ==> r == Success(value)
  {
    match field.fieldType
    case StringField =>
      var text := if value.Null? then "" else PyStr(value);
      if field.maxLength.Some? && field.maxLength.value > 0 && |text| > field.maxLength.value
      then Failure(TooLong(field.maxLength.value))
      else Success(Str(text))
    case IntegerField =>
      if IntOf(value).None? then Failure(NotAnInteger)
      else
        var iv := IntOf(value).value;
        if field.minValue.Some? && (iv as real) < field.minValue.value then Failure(BelowMinimum(field.minValue.value))
        else if field.maxValue.Some? && (iv as real) > field.maxValue.value then Failure(AboveMaximum(field.maxValue.value))
        else Success(Int(iv))
    case BooleanField =>
      if value.Bool? then Success(value)
      else if value.Str? && Lower(Strip(value.s)) in TrueSpellings then Success(Bool(true))
      else if value.Str? && Lower(Strip(value.s)) in FalseSpellings then Success(Bool(false))
      else Failure(InvalidBoolean)
    case ListField =>
      if value.List? then Success(value) else Failure(InvalidList)
    case JsonField =>
      if value.Dict? || value.List? then Success(value) else Failure(InvalidJson)
    case OtherField(_) =>
      Success(value)
  }

  /** The integer lies within the field's optional minimum and maximum. */
  predicate InBounds(field: CategoryField, i: int)
  {
    (field.minValue.Some? ==> field.minValue.value <= i as real)
    && (field.maxValue.Some? ==> i as real <= field.maxValue.value)
  }

  /** Coercing an already coerced value changes nothing. */
  lemma CoercionIdempotent(field: CategoryField, value: Value)
    requires CoerceCategoryValue(field, value).Success?
    ensures CoerceCategoryValue(field, CoerceCategoryValue(field, value).value) == CoerceCategoryValue(field, value)
  {
    if field.fieldType == StringField {
      var r := CoerceCategoryValue(field, value).value;
      assert PyStr(r) == r.s;
    }
  }

  /** The decimal spelling of an integer is read back as that integer. */
  lemma IntegerTextRoundTrip(i: int)
    ensures ParseIntText(IntToDecimal(i)) == Some(i)
  {
    var n: nat := if i < 0 then -i else i;
    RamCompare.DecimalDigits(n);
    IntToDecimalDigits(i);
    if i < 0 {
      NegativeDigitTextParses(NatToDecimal(n));
    } else {
      DigitTextParses(NatToDecimal(n));
    }
  }

  /** A boolean stored as its `str` ("True" or "False") is read back as
      that boolean by a boolean field. */
  lemma BooleanTextRoundTrip(field: CategoryField, b: bool)
    requires field.fieldType == BooleanField
    ensures CoerceCategoryValue(field, Str(PyStr(Bool(b)))) == Success(Bool(b))
  {
    var text := PyStr(Bool(b));
    StripOfStripped(text);
    assert Lower(text) == if b then "true" else "false";
  }

  /** A run of digits is read as its value. */
  lemma DigitTextParses(d: string)
    requires d != [] && RamCompare.AllDigits(d)
    ensures ParseIntText(d) == Some(RamCompare.DigitsValue(d) as int)
  {
    StripOfStripped(d);
  }

  /** A run of digits after a minus sign is read as the negated value. */
  lemma NegativeDigitTextParses(d: string)
    requires d != [] && RamCompare.AllDigits(d)
    ensures ParseIntText("-" + d) == Some(-(RamCompare.DigitsValue(d) as int))
  {
    StripOfStripped("-" + d);
    assert ("-" + d)[1..] == d;
  }

  // ---------------------------------------------------------------------
  // Extraction of a category's fields

  /** What a field reports when it is not stored. */
  datatype FieldError = Required | Invalid(reason: CoercionError)

  /** The `data` and `errors` dictionaries `_extract_category_data` returns. */
  datatype Extraction = Extraction(data: map<string, Value>, errors: map<string, FieldError>)

  /** `raw is None or raw == ""` */
  predicate IsBlank(raw: Value)
  {
    raw == Null || raw == Str("")
  }

  /** One pass of the loop of `_extract_category_data`. */
  function ExtractStep(acc: Extraction, field: CategoryField, payload: map<string, Value>): Extraction
  {
    var key := field.name;
    var raw := if key in payload then payload[key] else Null;
    if IsBlank(raw) && field.required then acc.(errors := acc.errors[key := Required])
    else if key !in payload || IsBlank(raw) then acc
    else match CoerceCategoryValue(field, raw)
      case Success(v) => acc.(data := acc.data[key := v])
      case Failure(e) => acc.(errors := acc.errors[key := Invalid(e)])
  }

  /** The dictionaries after the loop has visited `fields` in order. */
  function Extracted(fields: seq<CategoryField>, payload: map<string, Value>): Extraction
    decreases |fields|
  {
    if fields == [] then Extraction(map[], map[])
    else ExtractStep(Extracted(fields[..|fields| - 1], payload), fields[|fields| - 1], payload)
  }

  /** `_extract_category_data(category, payload)`: a missing category gives
      two empty dictionaries; otherwise every field of the category is
      visited in order. */
  method ExtractCategoryData(category: Option<seq<CategoryField>>, payload: map<string, Value>)
    returns (r: Extraction)
    ensures category.None? ==> r == Extraction(map[], map[])
    ensures category.Some? ==> r == Extracted(category.value, payload)
  {
    r := Extraction(map[], map[]);
    if category.None? {
      return;
    }
    var fields := category.value;
    for i := 0 to |fields|
      invariant r == Extracted(fields[..i], payload)
    {
      assert fields[..i + 1][..i] == fields[..i];
      var field := fields[i];
      var key := field.name;
      var hasKey := key in payload;
      var raw := if hasKey then payload[key] else Null;
      if IsBlank(raw) && field.required {
        r := r.(errors := r.errors[key := Required]);
        continue;
      }
      if !hasKey || IsBlank(raw) {
        continue;
      }
      var coerced := CoerceCategoryValue(field, raw);
      if coerced.Success? {
        r := r.(data := r.data[key := coerced.value]);
      } else {
        r := r.(errors := r.errors[key := Invalid(coerced.error)]);
      }
    }
    assert fields[..|fields|] == fields;
  }

  /** No two fields of the category share a name. */
  predicate DistinctNames(fields: seq<CategoryField>)
  {
    forall a, b :: 0 <= a < b < |fields| ==> fields[a].name != fields[b].name
  }

  /** The names of the category's fields. */
  function FieldNames(fields: seq<CategoryField>): set<string>
  {
    set j | 0 <= j < |fields| :: fields[j].name
  }

  /** Only the names of the category's fields are reported. */
  lemma {:induction false} ExtractedKeys(fields: seq<CategoryField>, payload: map<string, Value>)
    ensures var e := Extracted(fields, payload);
      e.data.Keys + e.errors.Keys <= FieldNames(fields)
    decreases |fields|
  {
    if fields != [] {
      var init := fields[..|fields| - 1];
      ExtractedKeys(init, payload);
      assert FieldNames(init) <= FieldNames(fields) by {
        forall k | k in FieldNames(init) ensures k in FieldNames(fields) {
          var j :| 0 <= j < |init| && init[j].name == k;
          assert fields[j] == init[j];
        }
      }
      assert fields[|fields| - 1].name in FieldNames(fields);
    }
  }

  /** With distinct names, each field ends in exactly one of four states:
      reported as required (blank and required), skipped (blank and
      optional), stored with its coerced value, or reported with the reason
      its coercion failed. */
  lemma {:induction false} ExtractedField(fields: seq<CategoryField>, payload: map<string, Value>, j: nat)
    requires DistinctNames(fields) && j < |fields|
    ensures var e := Extracted(fields, payload);
      var f := fields[j];
      var raw := if f.name in payload then payload[f.name] else Null;
      && (IsBlank(raw) && f.required ==> f.name !in e.data && f.name in e.errors && e.errors[f.name] == Required)
      && (IsBlank(raw) && !f.required ==> f.name !in e.data && f.name !in e.errors)
      && (!IsBlank(raw) && CoerceCategoryValue(f, raw).Success? ==>
            f.name !in e.errors && f.name in e.data && e.data[f.name] == CoerceCategoryValue(f, raw).value)
      && (!IsBlank(raw) && CoerceCategoryValue(f, raw).Failure? ==>
            f.name !in e.data && f.name in e.errors && e.errors[f.name] == Invalid(CoerceCategoryValue(f, raw).error))
    decreases |fields|
  {
    var init := fields[..|fields| - 1];
    var last := fields[|fields| - 1];
    if j == |fields| - 1 {
      assert last.name !in FieldNames(init) by {
        forall a | 0 <= a < |init| ensures init[a].name != last.name {
          assert fields[a] == init[a];
        }
      }
      AbsentBefore(init, payload, last.name);
    } else {
      assert init[j] == fields[j];
      assert DistinctNames(init) by {
        forall a, b | 0 <= a < b < |init| ensures init[a].name != init[b].name {
          assert init[a] == fields[a] && init[b] == fields[b];
        }
      }
      ExtractedField(init, payload, j);
    }
  }

  /** A name no field carries is in neither dictionary. */
  lemma AbsentBefore(fields: seq<CategoryField>, payload: map<string, Value>, name: string)
    requires name !in FieldNames(fields)
    ensures name !in Extracted(fields, payload).data && name !in Extracted(fields, payload).errors
  {
    ExtractedKeys(fields, payload);
  }
}
