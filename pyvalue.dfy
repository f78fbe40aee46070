/** The dynamically typed values the backend moves around (decoded JSON and
    the few Python values built from it), with the pieces of Python
    semantics the heartbeat engine relies on: truthiness, `dict.get`,
    `a or b`, `str(...)`, `==`, and the string methods `lower`, `upper`,
    `strip` and `replace(" ", "")`. */
module PyValue {
  import Ordering
  import opened Wrappers

  /** A Python value: `None`, `bool`, `int`, `str`, `list`, `tuple`, or a
      `dict` with string keys. */
  datatype Value =
    | Null
    | Bool(b: bool)
    | Int(i: int)
    | Str(s: string)
    | List(items: seq<Value>)
    | Tuple(elems: seq<Value>)
    | Dict(entries: map<string, Value>)

  /** Python's `bool(v)`. */
  predicate Truthy(v: Value)
  {
    match v
    case Null => false
    case Bool(b) => b
    case Int(i) => i != 0
    case Str(s) => s != ""
    case List(items) => items != []
    case Tuple(elems) => elems != []
    case Dict(m) => m != map[]
  }

  /** The Python exceptions the modelled code can raise on malformed input. */
  datatype PyError =
    | TypeError       // iterating over, or calling `len` on, a non-container
    | AttributeError  // calling a `dict` method on something else
    | ValueError      // `int(...)` of a string that is not a number

  /** The elements `for x in v` visits; `None` when `v` is not iterable
      (iterating raises `TypeError`). Iterating a `str` gives its characters
      and a `dict` gives its keys (here in ascending order; the source's
      dictionaries keep insertion order, which the model does not track). */
  function IterItems(v: Value): (r: Option<seq<Value>>)
    ensures r.None? <==> v.Null? || v.Bool? || v.Int?
    ensures v.List? ==> r == Some(v.items)
    ensures v.Tuple? ==> r == Some(v.elems)
    ensures v.Str? ==> r.Some? && |r.value| == |v.s|
    ensures v.Dict? ==> r.Some? && |r.value| == |v.entries|
  {
    match v
    case List(items) => Some(items)
    case Tuple(elems) => Some(elems)
    case Str(s) => Some(seq(|s|, k requires 0 <= k < |s| => Str([s[k]])))
    case Dict(m) =>
      var keys := Ordering.SetToSorted(m.Keys);
      Some(seq(|keys|, k requires 0 <= k < |keys| => Str(keys[k])))
    case _ => None
  }

  /** `d.get(k)` */
  function Get(d: map<string, Value>, k: string): Value
  {
    if k in d then d[k] else Null
  }

  /** Python's `a or b`: the first operand when it is truthy, else the second. */
  function Or(a: Value, b: Value): Value
  {
    if Truthy(a) then a else b
  }

  // ---------------------------------------------------------------------
  // Characters and strings
  // ---------------------------------------------------------------------

  /** Python's `str.isspace()` on one character. */
  predicate IsSpace(c: char)
  {
    var n := c as int;
    n == 0x20 || 0x09 <= n <= 0x0D || 0x1C <= n <= 0x1F || n == 0x85 || n == 0xA0
    || n == 0x1680 || 0x2000 <= n <= 0x200A || n == 0x2028 || n == 0x2029
    || n == 0x202F || n == 0x205F || n == 0x3000
  }

  function LowerChar(c: char): char
  {
    if 'A' <= c <= 'Z' then (c as int + 32) as char else c
  }

  function UpperChar(c: char): char
  {
    if 'a' <= c <= 'z' then (c as int - 32) as char else c
  }

  /** `s.lower()` (on the ASCII letters). */
  function Lower(s: string): (r: string)
    ensures |r| == |s|
    ensures forall i :: 0 <= i < |s| ==> r[i] == LowerChar(s[i])
  {
    seq(|s|, i requires 0 <= i < |s| => LowerChar(s[i]))
  }

  /** `s.upper()` (on the ASCII letters). */
  function Upper(s: string): (r: string)
    ensures |r| == |s|
    ensures forall i :: 0 <= i < |s| ==> r[i] == UpperChar(s[i])
  {
    seq(|s|, i requires 0 <= i < |s| => UpperChar(s[i]))
  }

  /** The first index at or after `i` that does not hold whitespace. */
  function SkipSpaces(s: string, i: nat): (j: nat)
    requires i <= |s|
    ensures i <= j <= |s|
    ensures forall k :: i <= k < j ==> IsSpace(s[k])
    ensures j == |s| || !IsSpace(s[j])
    decreases |s| - i
  {
    if i < |s| && IsSpace(s[i]) then SkipSpaces(s, i + 1) else i
  }

  /** The end of `s[lo..j]` once the whitespace at its end is dropped. */
  function TrimEnd(s: string, lo: nat, j: nat): (e: nat)
    requires lo <= j <= |s|
    ensures lo <= e <= j
    ensures forall k :: e <= k < j ==> IsSpace(s[k])
    ensures e == lo || !IsSpace(s[e - 1])
    decreases j
  {
    if lo < j && IsSpace(s[j - 1]) then TrimEnd(s, lo, j - 1) else j
  }

  /** Where the slice kept by `strip` starts and ends. */
  function StripStart(s: string): nat
  {
    SkipSpaces(s, 0)
  }

  function StripEnd(s: string): nat
  {
    TrimEnd(s, StripStart(s), |s|)
  }

  /** `s.strip()`: the slice of `s` left after removing whitespace at both
      ends (`StripTrimmed` shows it neither starts nor ends with
      whitespace). */
  function Strip(s: string): (r: string)
    ensures |r| <= |s|
  {
    s[StripStart(s)..StripEnd(s)]
  }

  /** What `strip` removes is whitespace, and what it keeps neither starts
      nor ends with whitespace. */
  lemma StripTrimmed(s: string)
    ensures var r := Strip(s);
      && (r == [] || (!IsSpace(r[0]) && !IsSpace(r[|r| - 1])))
      && (forall k :: 0 <= k < StripStart(s) ==> IsSpace(s[k]))
      && (forall k :: StripEnd(s) <= k < |s| ==> IsSpace(s[k]))
  {
    var i, j := StripStart(s), StripEnd(s);
    if i < j {
      assert !IsSpace(s[i]);
    }
  }

  /** `s.replace(" ", "")`: only the space character U+0020 goes. */
  function RemoveSpaces(s: string): (r: string)
    ensures ' ' !in r
    ensures |r| <= |s|
  {
    if s == [] then []
    else if s[0] == ' ' then RemoveSpaces(s[1..])
    else [s[0]] + RemoveSpaces(s[1..])
  }

  /** `t in s` for strings (substring test). */
  predicate Contains(s: string, t: string)
    decreases |s|
  {
    t <= s || (s != [] && Contains(s[1..], t))
  }

  // ---------------------------------------------------------------------
  // Facts about the string operations
  // ---------------------------------------------------------------------

  lemma LowerIdempotent(s: string)
    ensures Lower(Lower(s)) == Lower(s)
  {
  }

  lemma UpperOfLower(s: string)
    ensures Upper(Lower(s)) == Upper(s)
  {
  }

  lemma StripOfStripped(s: string)
    requires s == [] || (!IsSpace(s[0]) && !IsSpace(s[|s| - 1]))
    ensures Strip(s) == s
  {
    assert StripStart(s) == 0;
    assert StripEnd(s) == |s|;
  }

  lemma StripIdempotent(s: string)
    ensures Strip(Strip(s)) == Strip(s)
  {
    StripTrimmed(s);
    StripOfStripped(Strip(s));
  }

  /** A slice of a lower-cased string is already lower-case. */
  lemma LowerOfLoweredSlice(s: string, i: nat, j: nat)
    requires i <= j <= |s|
    ensures Lower(Lower(s)[i..j]) == Lower(s)[i..j]
  {
    var t := Lower(s)[i..j];
    assert forall k :: 0 <= k < |t| ==> t[k] == LowerChar(s[i + k]);
  }

  /** Lower-casing commutes with the slice that `strip` keeps. */
  lemma {:induction false} LowerOfStrippedLower(s: string)
    ensures Lower(Strip(Lower(s))) == Strip(Lower(s))
  {
    var t := Lower(s);
    var i := StripStart(t);
    LowerOfLoweredSlice(s, i, StripEnd(t));
  }

  lemma {:induction false} SkipSpacesLower(s: string, i: nat)
    requires i <= |s|
    ensures SkipSpaces(Lower(s), i) == SkipSpaces(s, i)
    decreases |s| - i
  {
    if i < |s| && IsSpace(s[i]) {
      SkipSpacesLower(s, i + 1);
    }
  }

  lemma {:induction false} TrimEndLower(s: string, lo: nat, j: nat)
    requires lo <= j <= |s|
    ensures TrimEnd(Lower(s), lo, j) == TrimEnd(s, lo, j)
    decreases j
  {
    if lo < j && IsSpace(s[j - 1]) {
      TrimEndLower(s, lo, j - 1);
    }
  }

  /** Lower-casing leaves whitespace alone, so it commutes with `strip`. */
  lemma StripLower(s: string)
    ensures Strip(Lower(s)) == Lower(Strip(s))
  {
    SkipSpacesLower(s, 0);
    TrimEndLower(s, StripStart(s), |s|);
  }

  /** Removing spaces from a run of spaces leaves nothing. */
  lemma {:induction false} RemoveSpacesOfSpaces(s: string)
    requires forall k :: 0 <= k < |s| ==> s[k] == ' '
    ensures RemoveSpaces(s) == []
    decreases |s|
  {
    if s != [] {
      RemoveSpacesOfSpaces(s[1..]);
    }
  }

  lemma {:induction false} RemoveSpacesConcat(a: string, b: string)
    ensures RemoveSpaces(a + b) == RemoveSpaces(a) + RemoveSpaces(b)
    decreases |a|
  {
    if a == [] {
      assert a + b == b;
    } else {
      assert (a + b)[1..] == a[1..] + b;
      RemoveSpacesConcat(a[1..], b);
    }
  }

  lemma {:induction false} RemoveSpacesNoSpaces(s: string)
    requires ' ' !in s
    ensures RemoveSpaces(s) == s
    decreases |s|
  {
    if s != [] {
      assert s[0] != ' ';
      assert ' ' !in s[1..];
      RemoveSpacesNoSpaces(s[1..]);
      assert s == [s[0]] + s[1..];
    }
  }

  lemma {:induction false} RemoveSpacesIdempotent(s: string)
    ensures RemoveSpaces(RemoveSpaces(s)) == RemoveSpaces(s)
  {
    RemoveSpacesNoSpaces(RemoveSpaces(s));
  }

  /** Upper-casing maps the space to itself and nothing else onto it. */
  lemma {:induction false} UpperRemoveSpaces(s: string)
    ensures Upper(RemoveSpaces(s)) == RemoveSpaces(Upper(s))
    decreases |s|
  {
    if s != [] {
      UpperRemoveSpaces(s[1..]);
      assert Upper(s)[1..] == Upper(s[1..]);
      if s[0] != ' ' {
        assert Upper([s[0]] + RemoveSpaces(s[1..])) == [UpperChar(s[0])] + Upper(RemoveSpaces(s[1..]));
      }
    }
  }

  lemma {:induction false} LowerRemoveSpaces(s: string)
    ensures Lower(RemoveSpaces(s)) == RemoveSpaces(Lower(s))
    decreases |s|
  {
    if s != [] {
      LowerRemoveSpaces(s[1..]);
      assert Lower(s)[1..] == Lower(s[1..]);
      if s[0] != ' ' {
        assert Lower([s[0]] + RemoveSpaces(s[1..])) == [LowerChar(s[0])] + Lower(RemoveSpaces(s[1..]));
      }
    }
  }

  lemma {:induction false} ContainsAppendRight(a: string, b: string, t: string)
    requires Contains(a, t)
    ensures Contains(a + b, t)
    decreases |a|
  {
    if t <= a {
      assert t <= a + b;
    } else {
      assert (a + b)[1..] == a[1..] + b;
      ContainsAppendRight(a[1..], b, t);
    }
  }

  lemma {:induction false} ContainsAppendLeft(a: string, b: string, t: string)
    requires Contains(b, t)
    ensures Contains(a + b, t)
    decreases |a|
  {
    if a == [] {
      assert a + b == b;
    } else {
      assert (a + b)[1..] == a[1..] + b;
      ContainsAppendLeft(a[1..], b, t);
    }
  }

  /** A substring of a slice is a substring of the whole. */
  lemma ContainsSlice(s: string, i: nat, j: nat, t: string)
    requires i <= j <= |s| && Contains(s[i..j], t)
    ensures Contains(s, t)
  {
    ContainsAppendRight(s[i..j], s[j..], t);
    assert s[i..j] + s[j..] == s[i..];
    ContainsAppendLeft(s[..i], s[i..], t);
    assert s[..i] + s[i..] == s;
  }

  /** Removing spaces keeps a space-free substring in place. */
  lemma {:induction false} ContainsRemoveSpaces(s: string, t: string)
    requires ' ' !in t && Contains(s, t)
    ensures Contains(RemoveSpaces(s), t)
    decreases |s|
  {
    if t <= s {
      assert s == t + s[|t|..];
      RemoveSpacesConcat(t, s[|t|..]);
      RemoveSpacesNoSpaces(t);
      assert t <= RemoveSpaces(s);
    } else {
      ContainsRemoveSpaces(s[1..], t);
      if s[0] != ' ' {
        ContainsAppendLeft([s[0]], RemoveSpaces(s[1..]), t);
      }
    }
  }

  // ---------------------------------------------------------------------
  // str(v) and repr(v)
  // ---------------------------------------------------------------------

  /** The decimal digit `d` as a character. */
  function DigitChar(d: nat): char
    requires d < 10
  {
    "0123456789"[d]
  }

  /** Decimal digits of a natural number, most significant first. */
  function NatToDecimal(n: nat): (r: string)
    ensures r != []
    decreases n
  {
    if n < 10 then [DigitChar(n)] else NatToDecimal(n / 10) + [DigitChar(n % 10)]
  }

  /** `str(i)` for an `int`. */
  function IntToDecimal(i: int): string
    decreases if i < 0 then 1 - i else i
  {
    if i < 0 then "-" + IntToDecimal(-i)
    else if i < 10 then [DigitChar(i)]
    else IntToDecimal(i / 10) + [DigitChar(i % 10)]
  }

  /** `str(i)` is the sign, when negative, followed by the digits of `|i|`. */
  lemma {:induction false} IntToDecimalDigits(i: int)
    ensures IntToDecimal(i) == if i < 0 then "-" + NatToDecimal(-i) else NatToDecimal(i)
    decreases if i < 0 then 1 - i else i
  {
    if i < 0 {
      IntToDecimalDigits(-i);
    } else if i >= 10 {
      IntToDecimalDigits(i / 10);
    }
  }

  /** `sep.join(parts)` */
  function Join(sep: string, parts: seq<string>): string
  {
    if parts == [] then "" else if |parts| == 1 then parts[0] else parts[0] + sep + Join(sep, parts[1..])
  }

  /** `str(v)`. */
  function PyStr(v: Value): string
    decreases v, 0
  {
    match v
    case Null => "None"
    case Bool(b) => if b then "True" else "False"
    case Int(i) => IntToDecimal(i)
    case Str(s) => s
    case List(items) =>
      "[" + Join(", ", seq(|items|, k requires 0 <= k < |items| => Repr(items[k]))) + "]"
    case Tuple(elems) =>
      "(" + Join(", ", seq(|elems|, k requires 0 <= k < |elems| => Repr(elems[k])))
        + (if |elems| == 1 then ",)" else ")")
    case Dict(m) =>
      var keys := Ordering.SetToSorted(m.Keys);
      "{" + Join(", ", seq(|keys|, k requires 0 <= k < |keys| => "'" + keys[k] + "': " + Repr(m[keys[k]]))) + "}"
  }

  /** `repr(v)`: strings are quoted, everything else prints as `str`. */
  function Repr(v: Value): string
    decreases v, 1
  {
    if v.Str? then "'" + v.s + "'" else PyStr(v)
  }

  // ---------------------------------------------------------------------
  // Python's `==`
  // ---------------------------------------------------------------------

  function BoolAsInt(b: bool): int
  {
    if b then 1 else 0
  }

  /** Python's `a == b`: `bool` compares as the integers 0 and 1, a `list`
      never equals a `tuple`, containers compare element by element and
      dictionaries by their key sets and values. */
  predicate PyEq(a: Value, b: Value)
    decreases a
  {
    match a
    case Null => b.Null?
    case Bool(x) => (b.Bool? && b.b == x) || (b.Int? && b.i == BoolAsInt(x))
    case Int(n) => (b.Int? && b.i == n) || (b.Bool? && BoolAsInt(b.b) == n)
    case Str(s) => b.Str? && b.s == s
    case List(xs) =>
      b.List? && |xs| == |b.items| && forall k :: 0 <= k < |xs| ==> PyEq(xs[k], b.items[k])
    case Tuple(xs) =>
      b.Tuple? && |xs| == |b.elems| && forall k :: 0 <= k < |xs| ==> PyEq(xs[k], b.elems[k])
    case Dict(m) =>
      b.Dict? && m.Keys == b.entries.Keys && forall k :: k in m ==> PyEq(m[k], b.entries[k])
  }

  /** Every value equals itself under Python's `==` (there are no floats,
      so no NaN, among these values). */
  lemma {:induction false} PyEqRefl(v: Value)
    ensures PyEq(v, v)
    decreases v
  {
    match v
    case List(xs) =>
      forall k | 0 <= k < |xs| ensures PyEq(xs[k], xs[k]) { PyEqRefl(xs[k]); }
    case Tuple(xs) =>
      forall k | 0 <= k < |xs| ensures PyEq(xs[k], xs[k]) { PyEqRefl(xs[k]); }
    case Dict(m) =>
      forall k | k in m ensures PyEq(m[k], m[k]) { PyEqRefl(m[k]); }
    case _ =>
  }
}
