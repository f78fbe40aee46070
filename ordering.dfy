/** Python's ordering of `str` values (code point by code point) and the
    `sorted(...)` of a list of strings, with the facts the rest of the model
    needs: the result is ordered, is a permutation of the input, and is the
    ONLY ordered permutation of the input. */
module Ordering {

  /** `a <= b` for Python strings: lexicographic on code points. */
  predicate LexLe(a: string, b: string)
    decreases |a|
  {
    a == [] || (b != [] && (a[0] < b[0] || (a[0] == b[0] && LexLe(a[1..], b[1..]))))
  }

  lemma {:induction false} LexLeRefl(a: string)
    ensures LexLe(a, a)
    decreases |a|
  {
    if a != [] { LexLeRefl(a[1..]); }
  }

  lemma {:induction false} LexLeTotal(a: string, b: string)
    ensures LexLe(a, b) || LexLe(b, a)
    decreases |a|
  {
    if a != [] && b != [] && a[0] == b[0] { LexLeTotal(a[1..], b[1..]); }
  }

  lemma {:induction false} LexLeAntisym(a: string, b: string)
    requires LexLe(a, b) && LexLe(b, a)
    ensures a == b
    decreases |a|
  {
    if a != [] {
      LexLeAntisym(a[1..], b[1..]);
      assert a == [a[0]] + a[1..];
      assert b == [b[0]] + b[1..];
    }
  }

  lemma {:induction false} LexLeTrans(a: string, b: string, c: string)
    requires LexLe(a, b) && LexLe(b, c)
    ensures LexLe(a, c)
    decreases |a|
  {
    if a != [] && a[0] == b[0] && b[0] == c[0] { LexLeTrans(a[1..], b[1..], c[1..]); }
  }

  lemma LexLeAntisymAll()
    ensures forall a, b :: LexLe(a, b) && LexLe(b, a) ==> a == b
  {
    forall a, b | LexLe(a, b) && LexLe(b, a) ensures a == b { LexLeAntisym(a, b); }
  }

  predicate Sorted(s: seq<string>)
  {
    forall i, j :: 0 <= i < j < |s| ==> LexLe(s[i], s[j])
  }

  /** Inserts `x` in front of the first element that is not below it. */
  function Insert(x: string, s: seq<string>): (r: seq<string>)
    requires Sorted(s)
    ensures Sorted(r)
    ensures multiset(r) == multiset(s) + multiset{x}
    ensures |r| == |s| + 1
  {
    if s == [] then [x]
    else if LexLe(x, s[0]) then
      PrependLeast(x, s);
      [x] + s
    else
      LexLeTotal(x, s[0]);
      var t := Insert(x, s[1..]);
      PrependHead(s, x, t);
      assert s == [s[0]] + s[1..];
      [s[0]] + t
  }

  /** A value not above the head of a sorted sequence can go in front. */
  lemma PrependLeast(x: string, s: seq<string>)
    requires Sorted(s) && s != [] && LexLe(x, s[0])
    ensures Sorted([x] + s)
  {
    forall j | 0 <= j < |s| ensures LexLe(x, s[j]) { if j > 0 { LexLeTrans(x, s[0], s[j]); } }
  }

  /** The head of a sorted sequence can go in front of its tail with a
      value not below the head inserted. */
  lemma PrependHead(s: seq<string>, x: string, t: seq<string>)
    requires Sorted(s) && s != [] && LexLe(s[0], x)
    requires Sorted(t) && multiset(t) == multiset(s[1..]) + multiset{x}
    ensures Sorted([s[0]] + t)
  {
    forall k | 0 <= k < |t| ensures LexLe(s[0], t[k]) {
      assert t[k] in multiset(t);
      if t[k] != x {
        assert t[k] in s[1..];
        var m :| 0 <= m < |s[1..]| && s[1..][m] == t[k];
        assert s[m + 1] == t[k];
      }
    }
  }

  /** Python's `sorted(list_of_strings)`; its contract is proved from
      `Insert`'s, so the recursive call's contract is what carries it. */
  function SortStrings(s: seq<string>): (r: seq<string>)
    ensures Sorted(r)
    ensures multiset(r) == multiset(s)
    ensures |r| == |s|
  {
    if s == [] then []
    else
      assert s == [s[0]] + s[1..];
      Insert(s[0], SortStrings(s[1..]))
  }

  lemma {:induction false} SortedHeadIsLeast(s: seq<string>, x: string)
    requires Sorted(s) && x in multiset(s)
    ensures s != [] && LexLe(s[0], x)
  {
    assert x in s;
    var k :| 0 <= k < |s| && s[k] == x;
    if k == 0 { LexLeRefl(x); }
  }

  /** An ordered permutation is unique: two ordered sequences with the same
      elements are equal. */
  lemma {:induction false} SortedUnique(a: seq<string>, b: seq<string>)
    requires Sorted(a) && Sorted(b)
    requires multiset(a) == multiset(b)
    ensures a == b
    decreases |a|
  {
    if a == [] {
      assert |multiset(b)| == 0;
    } else {
      assert b != [] by { assert |multiset(b)| == |a|; }
      assert a[0] == b[0] by {
        assert a[0] in multiset(a) && b[0] in multiset(b);
        SortedHeadIsLeast(b, a[0]);
        SortedHeadIsLeast(a, b[0]);
        LexLeAntisym(a[0], b[0]);
      }
      assert multiset(a[1..]) == multiset(b[1..]) by {
        assert a == [a[0]] + a[1..];
        assert b == [b[0]] + b[1..];
        assert multiset(a[1..]) == multiset(a) - multiset{a[0]};
        assert multiset(b[1..]) == multiset(b) - multiset{b[0]};
      }
      SortedUnique(a[1..], b[1..]);
      assert a == [a[0]] + a[1..];
      assert b == [b[0]] + b[1..];
    }
  }

  /** Sorting depends only on the multiset of its input. */
  lemma SortStringsPermutation(a: seq<string>, b: seq<string>)
    requires multiset(a) == multiset(b)
    ensures SortStrings(a) == SortStrings(b)
  {
    SortedUnique(SortStrings(a), SortStrings(b));
  }

  /** Sorting a sorted sequence changes nothing. */
  lemma SortSortedIsIdentity(s: seq<string>)
    requires Sorted(s)
    ensures SortStrings(s) == s
  {
    SortedUnique(SortStrings(s), s);
  }

  predicate IsLeast(m: string, s: set<string>)
  {
    m in s && forall x :: x in s ==> LexLe(m, x)
  }

  lemma {:induction false} LeastExists(s: set<string>)
    requires s != {}
    ensures exists m :: IsLeast(m, s)
    decreases |s|
  {
    var x :| x in s;
    if s == {x} {
      LexLeRefl(x);
      assert IsLeast(x, s);
    } else {
      LeastExists(s - {x});
      var m :| IsLeast(m, s - {x});
      LexLeTotal(m, x);
      if LexLe(m, x) {
        assert IsLeast(m, s);
      } else {
        forall y | y in s ensures LexLe(x, y) {
          if y == x { LexLeRefl(x); } else { LexLeTrans(x, m, y); }
        }
        assert IsLeast(x, s);
      }
    }
  }

  /** The elements of a set of strings in ascending order (Python's
      `sorted(some_set)`). */
  function SetToSorted(s: set<string>): (r: seq<string>)
    ensures Sorted(r)
    ensures |r| == |s|
    ensures forall x :: x in r <==> x in s
    decreases |s|
  {
    if s == {} then []
    else
      LeastExists(s);
      LexLeAntisymAll();
      var m :| IsLeast(m, s);
      var t := SetToSorted(s - {m});
      assert forall k :: 0 <= k < |t| ==> LexLe(m, t[k]) by {
        forall k | 0 <= k < |t| ensures LexLe(m, t[k]) { assert t[k] in t; }
      }
      [m] + t
  }
}
