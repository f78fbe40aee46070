/** The IMEI subset match of `_compare_imei_lists`: the heartbeat may report
    fewer IMEIs than were registered (a SIM taken out), never one that was
    not registered. */
module ImeiCompare {
  import opened Wrappers
  import opened PyValue

  /** The warning raised when fewer IMEIs are reported than were
      registered, with the counts its message quotes. */
  datatype ImeiWarning = ImeiWarning(registeredCount: nat, currentCount: nat, missingCount: nat)

  /** `(is_ok, warning_message)`: `ImeiOk(None)` is `(True, None)`,
      `ImeiOk(Some(w))` is `(True, <warning>)`, `ImeiMismatch` is
      `(False, None)`. A mismatch never carries a warning. */
  datatype ImeiOutcome = ImeiOk(warning: Option<ImeiWarning>) | ImeiMismatch

  /** `str(imei).strip().lower()`; `str` of a string is the string itself. */
  function ImeiKey(imei: Value): string
  {
    if imei.Str? then Lower(Strip(imei.s)) else Lower(Strip(PyStr(imei)))
  }

  /** `[str(imei).strip().lower() for imei in imeis]` */
  function ImeiKeys(imeis: seq<Value>): (r: seq<string>)
    ensures |r| == |imeis|
    ensures forall k :: 0 <= k < |imeis| ==> r[k] == ImeiKey(imeis[k])
  {
    seq(|imeis|, k requires 0 <= k < |imeis| => ImeiKey(imeis[k]))
  }

  /** Every normalised current IMEI is among the normalised registered ones. */
  predicate AllRegistered(registered: seq<string>, current: seq<string>)
  {
    forall k :: 0 <= k < |current| ==> current[k] in registered
  }

  /** The verdict on the normalised IMEIs: a mismatch as soon as one
      current IMEI is not registered, otherwise ok, with a warning when
      fewer IMEIs are reported than were registered. */
  function KeysVerdict(registered: seq<string>, current: seq<string>): ImeiOutcome
  {
    if !AllRegistered(registered, current) then ImeiMismatch
    else if |current| < |registered| then
      ImeiOk(Some(ImeiWarning(|registered|, |current|, |registered| - |current|)))
    else ImeiOk(None)
  }

  /** What `_compare_imei_lists(registered, current)` returns. A falsy
      side skips the comparison; a truthy side that cannot be iterated
      raises `TypeError`. */
  function ImeiVerdict(registered: Value, current: Value): Result<ImeiOutcome, PyError>
  {
    if !Truthy(registered) || !Truthy(current) then Success(ImeiOk(None))
    else if IterItems(registered).None? || IterItems(current).None? then Failure(TypeError)
    else Success(KeysVerdict(ImeiKeys(IterItems(registered).value), ImeiKeys(IterItems(current).value)))
  }

  /** The loop of `_compare_imei_lists`: walks the current IMEIs and stops
      at the first one that is not registered. */
  method AllCurrentRegistered(registered: seq<string>, current: seq<string>) returns (ok: bool)
    ensures ok <==> AllRegistered(registered, current)
    ensures !ok ==> exists k :: 0 <= k < |current| && current[k] !in registered
  {
    var i := 0;
    while i < |current|
      invariant 0 <= i <= |current|
      invariant forall k :: 0 <= k < i ==> current[k] in registered
    {
      if current[i] !in registered {
        return false;
      }
      i := i + 1;
    }
    return true;
  }

  /** `_compare_imei_lists`: normalises both sides, checks every current
      IMEI against the registered ones, then compares the counts. */
  method CompareImeiLists(registered: Value, current: Value) returns (r: Result<ImeiOutcome, PyError>)
    ensures r == ImeiVerdict(registered, current)
  {
    if !Truthy(registered) || !Truthy(current) {
      return Success(ImeiOk(None));
    }
    var reg := IterItems(registered);
    if reg.None? {
      return Failure(TypeError);
    }
    var cur := IterItems(current);
    if cur.None? {
      return Failure(TypeError);
    }
    var registeredNormalized := ImeiKeys(reg.value);
    var currentNormalized := ImeiKeys(cur.value);
    var ok := AllCurrentRegistered(registeredNormalized, currentNormalized);
    if !ok {
      return Success(ImeiMismatch);
    }
    var warning: Option<ImeiWarning> := None;
    if |currentNormalized| < |registeredNormalized| {
      var missing := |registeredNormalized| - |currentNormalized|;
      warning := Some(ImeiWarning(|registeredNormalized|, |currentNormalized|, missing));
    }
    return Success(ImeiOk(warning));
  }

  // ---------------------------------------------------------------------
  // What the verdict means
  // ---------------------------------------------------------------------

  /** The subset test on keys, read back on the original elements, for any
      way `key` of normalising an element. */
  lemma AllRegisteredMeans<T>(key: T -> string, registered: seq<T>, current: seq<T>,
                              rn: seq<string>, cn: seq<string>)
    requires |rn| == |registered| && forall j :: 0 <= j < |registered| ==> rn[j] == key(registered[j])
    requires |cn| == |current| && forall k :: 0 <= k < |current| ==> cn[k] == key(current[k])
    ensures AllRegistered(rn, cn) <==>
      forall c :: c in current ==> exists g :: g in registered && key(g) == key(c)
  {
    if AllRegistered(rn, cn) {
      forall c | c in current ensures exists g :: g in registered && key(g) == key(c) {
        var k :| 0 <= k < |current| && current[k] == c;
        assert cn[k] in rn;
        var j :| 0 <= j < |rn| && rn[j] == cn[k];
        assert registered[j] in registered;
      }
    } else {
      var k :| 0 <= k < |cn| && cn[k] !in rn;
      assert current[k] in current;
      forall g | g in registered ensures key(g) != key(current[k]) {
        var j :| 0 <= j < |registered| && registered[j] == g;
        assert rn[j] != cn[k];
      }
    }
  }

  /** When both sides are non-empty lists: ok exactly when each current
      IMEI, trimmed and lower-cased, equals some registered IMEI treated the
      same way; on ok, a warning exactly when fewer are reported than were
      registered, and it counts the missing ones. */
  lemma ImeiVerdictOfLists(registered: seq<Value>, current: seq<Value>)
    requires registered != [] && current != []
    ensures var r := ImeiVerdict(List(registered), List(current));
      && r.Success?
      && (r.value.ImeiOk? <==>
            forall c :: c in current ==> exists g :: g in registered && ImeiKey(g) == ImeiKey(c))
      && (r.value.ImeiOk? ==>
            (r.value.warning.Some? <==> |current| < |registered|))
      && (r.value.ImeiOk? && r.value.warning.Some? ==>
            r.value.warning.value == ImeiWarning(|registered|, |current|, |registered| - |current|))
  {
    AllRegisteredMeans(ImeiKey, registered, current, ImeiKeys(registered), ImeiKeys(current));
  }

  /** Either side empty (or `None`) skips the comparison. */
  lemma ImeiEmptySideSkips(registered: Value, current: Value)
    requires !Truthy(registered) || !Truthy(current)
    ensures ImeiVerdict(registered, current) == Success(ImeiOk(None))
  {
  }

  /** Sending the registered IMEIs again, in any order and with any case
      or surrounding whitespace, is never a mismatch and never warns. */
  lemma ImeiSameSetMatches(registered: seq<Value>, current: seq<Value>)
    requires registered != []
    requires |current| == |registered|
    requires forall k :: 0 <= k < |current| ==> ImeiKey(current[k]) in ImeiKeys(registered)
    ensures ImeiVerdict(List(registered), List(current)) == Success(ImeiOk(None))
  {
    var rn, cn := ImeiKeys(registered), ImeiKeys(current);
    assert forall k :: 0 <= k < |cn| ==> cn[k] in rn;
  }

  /** The examples documented beside the comparison. */
  lemma ImeiDocumentedExamples()
    ensures ImeiVerdict(List([Str("A"), Str("B")]), List([Str("A"), Str("B")])) == Success(ImeiOk(None))
    ensures ImeiVerdict(List([Str("A"), Str("B")]), List([Str("A")])) == Success(ImeiOk(Some(ImeiWarning(2, 1, 1))))
    ensures ImeiVerdict(List([Str("A"), Str("B")]), List([Str("B")])) == Success(ImeiOk(Some(ImeiWarning(2, 1, 1))))
    ensures ImeiVerdict(List([Str("A"), Str("B")]), List([Str("A"), Str("C")])) == Success(ImeiMismatch)
    ensures ImeiVerdict(List([Str("A")]), List([Str("A"), Str("B")])) == Success(ImeiMismatch)
    ensures ImeiVerdict(List([Str("A"), Str("B")]), List([Str("C")])) == Success(ImeiMismatch)
    ensures ImeiVerdict(List([Str("A")]), List([Str("A")])) == Success(ImeiOk(None))
    ensures ImeiVerdict(List([Str("A")]), List([Str("B")])) == Success(ImeiMismatch)
  {
    ExampleKey('A', 'a');
    ExampleKey('B', 'b');
    ExampleKey('C', 'c');
    var A, B, C := Str("A"), Str("B"), Str("C");
    assert ImeiKeys([A, B]) == ["a", "b"];
    assert ImeiKeys([A, C]) == ["a", "c"];
    assert ImeiKeys([A]) == ["a"];
    assert ImeiKeys([B]) == ["b"];
    assert ImeiKeys([C]) == ["c"];
    assert ["a", "c"][1] !in ["a", "b"];
    assert ["a", "b"][1] !in ["a"];
    assert ["c"][0] !in ["a", "b"];
    assert ["b"][0] !in ["a"];
  }

  lemma ExampleKey(c: char, l: char)
    requires 'A' <= c <= 'Z' && l == (c as int + 32) as char
    ensures ImeiKey(Str([c])) == [l]
  {
    StripOfStripped([c]);
  }
}
