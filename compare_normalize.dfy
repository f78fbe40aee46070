/** The canonical form a baseline value and a heartbeat value are brought to
    before they are tested for equality (`_normalize_for_comparison`). */
module CompareNormalize {
  import opened PyValue
  import Ordering

  /** The unit tokens whose presence makes a string a size value. */
  const SizeUnits: seq<string> := ["GB", "MB", "TB", "KB"]

  /** `any(unit in value.upper() for unit in ["GB", "MB", "TB", "KB"])` */
  predicate HasSizeUnit(s: string)
  {
    exists k :: 0 <= k < |SizeUnits| && Contains(Upper(s), SizeUnits[k])
  }

  /** One list element: a string is stripped then lower-cased, anything
      else is turned into its `str` and lower-cased. */
  function NormalizeItem(item: Value): string
  {
    if item.Str? then Lower(Strip(item.s)) else Lower(PyStr(item))
  }

  /** `[f(x) for x in s]` */
  function MapSeq<A, B>(f: A -> B, s: seq<A>): (r: seq<B>)
    ensures |r| == |s|
    ensures forall k :: 0 <= k < |s| ==> r[k] == f(s[k])
  {
    seq(|s|, k requires 0 <= k < |s| => f(s[k]))
  }

  function NormalizeItems(items: seq<Value>): (r: seq<string>)
    ensures |r| == |items|
    ensures forall k :: 0 <= k < |items| ==> r[k] == NormalizeItem(items[k])
  {
    MapSeq(NormalizeItem, items)
  }

  function AsStrValues(ss: seq<string>): (r: seq<Value>)
    ensures |r| == |ss|
    ensures forall k :: 0 <= k < |ss| ==> r[k] == Str(ss[k])
  {
    seq(|ss|, k requires 0 <= k < |ss| => Str(ss[k]))
  }

  /** `_normalize_for_comparison(value)` */
  function NormalizeForComparison(v: Value): (r: Value)
    ensures v.Null? ==> r.Null?
    ensures v.Bool? || v.Int? || v.Tuple? ==> r == v
    ensures v.List? ==> r.Tuple? && |r.elems| == |v.items|
    ensures v.Str? ==> r.Str? && |r.s| <= |v.s|
    ensures v.Dict? ==> r.Dict? && r.entries.Keys == v.entries.Keys
    decreases v
  {
    match v
    case List(items) => Tuple(AsStrValues(Ordering.SortStrings(NormalizeItems(items))))
    case Str(s) =>
      if HasSizeUnit(s) then Str(Lower(RemoveSpaces(s))) else Str(Strip(Lower(s)))
    case Dict(m) => Dict(map k | k in m :: NormalizeForComparison(m[k]))
    case _ => v
  }

  // ---------------------------------------------------------------------
  // Idempotence
  // ---------------------------------------------------------------------

  lemma UpperSlice(s: string, i: nat, j: nat)
    requires i <= j <= |s|
    ensures Upper(s[i..j]) == Upper(s)[i..j]
  {
  }

  /** A string without a unit token keeps none after lower-casing and
      stripping. */
  lemma {:induction false} NoUnitAfterStripLower(s: string)
    requires !HasSizeUnit(s)
    ensures !HasSizeUnit(Strip(Lower(s)))
  {
    var t := Lower(s);
    var i := StripStart(t);
    var j := i + |Strip(t)|;
    UpperSlice(t, i, j);
    UpperOfLower(s);
    forall k | 0 <= k < |SizeUnits| ensures !Contains(Upper(Strip(t)), SizeUnits[k]) {
      if Contains(Upper(Strip(t)), SizeUnits[k]) {
        ContainsSlice(Upper(t), i, j, SizeUnits[k]);
      }
    }
  }

  /** A string with a unit token keeps it after its spaces are removed and
      it is lower-cased. */
  lemma {:induction false} UnitAfterRemoveSpacesLower(s: string)
    requires HasSizeUnit(s)
    ensures HasSizeUnit(Lower(RemoveSpaces(s)))
  {
    var k :| 0 <= k < |SizeUnits| && Contains(Upper(s), SizeUnits[k]);
    var u := SizeUnits[k];
    assert ' ' !in u;
    ContainsRemoveSpaces(Upper(s), u);
    UpperRemoveSpaces(s);
    UpperOfLower(RemoveSpaces(s));
    assert Contains(Upper(Lower(RemoveSpaces(s))), u);
  }

  lemma {:induction false} NormalizeStrIdempotent(s: string)
    ensures NormalizeForComparison(NormalizeForComparison(Str(s))) == NormalizeForComparison(Str(s))
  {
    if HasSizeUnit(s) {
      var t := Lower(RemoveSpaces(s));
      UnitAfterRemoveSpacesLower(s);
      LowerRemoveSpaces(s);
      assert ' ' !in t;
      RemoveSpacesNoSpaces(t);
      LowerIdempotent(RemoveSpaces(s));
    } else {
      var t := Strip(Lower(s));
      NoUnitAfterStripLower(s);
      LowerOfStrippedLower(s);
      StripIdempotent(Lower(s));
    }
  }

  /** Normalising twice gives the same value as normalising once, for
      every shape of value. */
  lemma {:induction false} NormalizeIdempotent(v: Value)
    ensures NormalizeForComparison(NormalizeForComparison(v)) == NormalizeForComparison(v)
    decreases v
  {
    match v
    case Str(s) => NormalizeStrIdempotent(s);
    case Dict(m) =>
      forall k | k in m
        ensures NormalizeForComparison(NormalizeForComparison(m[k])) == NormalizeForComparison(m[k])
      {
        NormalizeIdempotent(m[k]);
      }
    case _ =>
  }

  // ---------------------------------------------------------------------
  // When two strings compare equal
  // ---------------------------------------------------------------------

  /** Letter case never matters. */
  lemma CaseIgnored(a: string, b: string)
    requires Lower(a) == Lower(b)
    ensures NormalizeForComparison(Str(a)) == NormalizeForComparison(Str(b))
  {
    UpperOfLower(a);
    UpperOfLower(b);
    LowerRemoveSpaces(a);
    LowerRemoveSpaces(b);
  }

  /** A unit token survives concatenation. */
  lemma UnitInConcat(x: string, y: string)
    requires HasSizeUnit(x) || HasSizeUnit(y)
    ensures HasSizeUnit(x + y)
  {
    assert Upper(x + y) == Upper(x) + Upper(y);
    if HasSizeUnit(x) {
      var k :| 0 <= k < |SizeUnits| && Contains(Upper(x), SizeUnits[k]);
      ContainsAppendRight(Upper(x), Upper(y), SizeUnits[k]);
    } else {
      var k :| 0 <= k < |SizeUnits| && Contains(Upper(y), SizeUnits[k]);
      ContainsAppendLeft(Upper(x), Upper(y), SizeUnits[k]);
    }
  }

  /** In a size value, spaces put between its parts do not matter
      ("16 GB" and "16GB" compare equal), as long as they do not split
      the unit token itself. */
  lemma SpacesIgnoredInSizes(p: string, spaces: string, q: string)
    requires HasSizeUnit(p) || HasSizeUnit(q)
    requires forall k :: 0 <= k < |spaces| ==> spaces[k] == ' '
    ensures NormalizeForComparison(Str(p + spaces + q)) == NormalizeForComparison(Str(p + q))
  {
    var s := p + spaces + q;
    assert HasSizeUnit(s) && HasSizeUnit(p + q) by {
      if HasSizeUnit(p) {
        UnitInConcat(p, spaces);
      }
      UnitInConcat(p + spaces, q);
      UnitInConcat(p, q);
    }
    assert RemoveSpaces(s) == RemoveSpaces(p + q) by {
      RemoveSpacesConcat(p + spaces, q);
      RemoveSpacesConcat(p, spaces);
      RemoveSpacesConcat(p, q);
      RemoveSpacesOfSpaces(spaces);
    }
  }

  /** When two strings compare equal: two size values exactly when they
      agree once lower-cased with their spaces removed; two other strings
      exactly when they agree once stripped and lower-cased, so the
      whitespace around them never matters; a size value and another
      string never. */
  lemma StringsCompareEqual(a: string, b: string)
    ensures HasSizeUnit(a) && HasSizeUnit(b) ==>
      (NormalizeForComparison(Str(a)) == NormalizeForComparison(Str(b))
       <==> RemoveSpaces(Lower(a)) == RemoveSpaces(Lower(b)))
    ensures !HasSizeUnit(a) && !HasSizeUnit(b) ==>
      (NormalizeForComparison(Str(a)) == NormalizeForComparison(Str(b))
       <==> Lower(Strip(a)) == Lower(Strip(b)))
    ensures HasSizeUnit(a) != HasSizeUnit(b) ==>
      NormalizeForComparison(Str(a)) != NormalizeForComparison(Str(b))
  {
    LowerRemoveSpaces(a);
    LowerRemoveSpaces(b);
    StripLower(a);
    StripLower(b);
    if HasSizeUnit(a) && !HasSizeUnit(b) {
      UnitAfterRemoveSpacesLower(a);
      NoUnitAfterStripLower(b);
    } else if !HasSizeUnit(a) && HasSizeUnit(b) {
      NoUnitAfterStripLower(a);
      UnitAfterRemoveSpacesLower(b);
    }
  }

  // ---------------------------------------------------------------------
  // Lists compare as multisets
  // ---------------------------------------------------------------------

  /** Removing the element at `i` removes one copy of it from the multiset. */
  lemma RemoveAtMultiset<T>(b: seq<T>, i: nat)
    requires i < |b|
    ensures multiset(b[..i] + b[i + 1..]) == multiset(b) - multiset{b[i]}
  {
    assert b == b[..i] + [b[i]] + b[i + 1..];
  }

  lemma MapSeqRemoveAt<A, B>(f: A -> B, b: seq<A>, i: nat)
    requires i < |b|
    ensures multiset(MapSeq(f, b)) == multiset(MapSeq(f, b[..i] + b[i + 1..])) + multiset{f(b[i])}
  {
    var n := MapSeq(f, b);
    assert MapSeq(f, b[..i] + b[i + 1..]) == n[..i] + n[i + 1..];
    RemoveAtMultiset(n, i);
  }

  lemma MapSeqHead<A, B>(f: A -> B, a: seq<A>)
    requires a != []
    ensures multiset(MapSeq(f, a)) == multiset(MapSeq(f, a[1..])) + multiset{f(a[0])}
  {
    assert MapSeq(f, a) == [f(a[0])] + MapSeq(f, a[1..]);
  }

  /** The first element of a sequence can be taken out of any permutation
      of it, leaving a permutation of the rest. */
  lemma PermutationHead<A>(a: seq<A>, b: seq<A>) returns (i: nat)
    requires multiset(a) == multiset(b) && a != []
    ensures i < |b| && b[i] == a[0]
    ensures multiset(a[1..]) == multiset(b[..i] + b[i + 1..])
  {
    assert a[0] in multiset(b);
    i :| 0 <= i < |b| && b[i] == a[0];
    RemoveAtMultiset(b, i);
    RemoveAtMultiset(a, 0);
    assert a[..0] + a[1..] == a[1..];
  }

  /** Mapping a function over a permutation gives a permutation. */
  lemma {:induction false} MapSeqPermutation<A, B>(f: A -> B, a: seq<A>, b: seq<A>)
    requires multiset(a) == multiset(b)
    ensures multiset(MapSeq(f, a)) == multiset(MapSeq(f, b))
    decreases |a|
  {
    if a == [] {
      assert |multiset(b)| == 0;
    } else {
      var i := PermutationHead(a, b);
      var rest := b[..i] + b[i + 1..];
      var tail, one := multiset(MapSeq(f, a[1..])), multiset{f(a[0])};
      MapSeqPermutation(f, a[1..], rest);
      MapSeqHead(f, a);
      MapSeqRemoveAt(f, b, i);
      assert multiset(MapSeq(f, b)) == tail + one;
    }
  }

  /** Two lists holding the same elements in any order normalise to the
      same tuple. */
  lemma ListPermutationNormalizesEqual(a: seq<Value>, b: seq<Value>)
    requires multiset(a) == multiset(b)
    ensures NormalizeForComparison(List(a)) == NormalizeForComparison(List(b))
  {
    MapSeqPermutation(NormalizeItem, a, b);
    Ordering.SortStringsPermutation(NormalizeItems(a), NormalizeItems(b));
  }

  /** The tuple a list normalises to holds the normalised elements in
      ascending order. */
  lemma NormalizedListIsSortedItems(items: seq<Value>)
    ensures var r := NormalizeForComparison(List(items));
      && (forall k :: 0 <= k < |r.elems| ==> r.elems[k].Str?)
      && Ordering.Sorted(seq(|r.elems|, k requires 0 <= k < |r.elems| => r.elems[k].s))
      && multiset(seq(|r.elems|, k requires 0 <= k < |r.elems| => r.elems[k].s)) == multiset(NormalizeItems(items))
  {
    var sorted := Ordering.SortStrings(NormalizeItems(items));
    var r := NormalizeForComparison(List(items));
    assert seq(|r.elems|, k requires 0 <= k < |r.elems| => r.elems[k].s) == sorted;
  }
}
