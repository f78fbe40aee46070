/** The RAM comparison of `_compare_ram_with_tolerance`: both sides are read
    as "<number> GB" with the pattern `(\d+\.?\d*)\s*GB` (searched anywhere,
    case-insensitively), and the current RAM may be at most one gigabyte
    below the registered RAM. The gigabyte values are exact decimals here. */
module RamCompare {
  import opened Wrappers
  import opened PyValue

  predicate IsDigit(c: char)
  {
    '0' <= c <= '9'
  }

  predicate AllDigits(d: string)
  {
    forall k :: 0 <= k < |d| ==> IsDigit(d[k])
  }

  /** The end of the run of digits that starts at `i` (`\d*` taken greedily). */
  function DigitRunEnd(s: string, i: nat): (j: nat)
    requires i <= |s|
    ensures i <= j <= |s|
    ensures AllDigits(s[i..j])
    ensures j == |s| || !IsDigit(s[j])
    decreases |s| - i
  {
    if i < |s| && IsDigit(s[i]) then DigitRunEnd(s, i + 1) else i
  }

  /** The number a run of decimal digits denotes. */
  function DigitsValue(d: string): nat
    requires AllDigits(d)
  {
    if d == [] then 0 else DigitsValue(d[..|d| - 1]) * 10 + (d[|d| - 1] as int - '0' as int)
  }

  function Pow10(n: nat): (p: nat)
    ensures p >= 1
  {
    if n == 0 then 1 else 10 * Pow10(n - 1)
  }

  /** The text captured by the group `(\d+\.?\d*)`: digits, then, when a
      point follows them, the point and the digits after it. */
  datatype RamToken = RamToken(intDigits: string, fracDigits: Option<string>)
  {
    predicate Valid()
    {
      intDigits != [] && AllDigits(intDigits) && (fracDigits.Some? ==> AllDigits(fracDigits.value))
    }

    function Text(): string
    {
      intDigits + (if fracDigits.Some? then "." + fracDigits.value else "")
    }

    /** `float(text)`, as an exact decimal. */
    function Gigabytes(): real
      requires Valid()
    {
      DigitsValue(intDigits) as real
        + (if fracDigits.Some? then DigitsValue(fracDigits.value) as real / Pow10(|fracDigits.value|) as real else 0.0)
    }
  }

  predicate IsG(c: char) { c == 'g' || c == 'G' }
  predicate IsB(c: char) { c == 'b' || c == 'B' }

  /** The match of `(\d+\.?\d*)\s*GB` that starts exactly at `i`, if any.
      Backtracking never helps this pattern: a shorter digit run or a
      skipped point leaves a digit or a point where whitespace or `G` must
      come, so the greedy reading is the only one that can succeed. */
  function MatchAt(s: string, i: nat): (r: Option<RamToken>)
    requires i <= |s|
    ensures r.Some? ==> i < |s| && IsDigit(s[i])
    ensures r.Some? ==> r.value.Valid()
    ensures r.Some? ==> i + |r.value.Text()| <= |s| && s[i..i + |r.value.Text()|] == r.value.Text()
    ensures r.Some? ==>
      && i + |r.value.Text()| <= |s|
      && (var k := SkipSpaces(s, i + |r.value.Text()|);
          k + 1 < |s| && IsG(s[k]) && IsB(s[k + 1]))
  {
    if i < |s| && IsDigit(s[i]) then
      var p := DigitRunEnd(s, i);
      var hasPoint := p < |s| && s[p] == '.';
      var q := if hasPoint then DigitRunEnd(s, p + 1) else p;
      var token := RamToken(s[i..p], if hasPoint then Some(s[p + 1..q]) else None);
      assert token.Text() == s[i..q] by {
        if hasPoint { assert s[i..q] == s[i..p] + "." + s[p + 1..q]; }
      }
      var k := SkipSpaces(s, q);
      if k + 1 < |s| && IsG(s[k]) && IsB(s[k + 1]) then Some(token) else None
    else None
  }

  datatype RamMatch = RamMatch(start: nat, token: RamToken)

  /** `re.search`: the match at the leftmost position at or after `i`. */
  function SearchFrom(s: string, i: nat): (r: Option<RamMatch>)
    requires i <= |s|
    ensures r.Some? ==> i <= r.value.start < |s| && MatchAt(s, r.value.start) == Some(r.value.token)
    ensures r.Some? ==> forall p :: i <= p < r.value.start ==> MatchAt(s, p).None?
    ensures r.None? ==> forall p :: i <= p <= |s| ==> MatchAt(s, p).None?
    decreases |s| - i
  {
    if i == |s| then None
    else
      match MatchAt(s, i)
      case Some(t) => Some(RamMatch(i, t))
      case None => SearchFrom(s, i + 1)
  }

  /** `extract_ram_gb(ram)`: `None` for a non-string or a string without a
      "<number> GB" token, otherwise the number of the first such token. */
  function ExtractRamGb(ram: Value): (r: Option<real>)
    ensures r.Some? ==> ram.Str? && Truthy(ram)
  {
    if !ram.Str? then None
    else
      match SearchFrom(ram.s, 0)
      case Some(m) => Some(m.token.Gigabytes())
      case None => None
  }

  /** `(is_ok, reason)`: `RamOk` is `(True, None)`; `RamDecreased` is
      `(False, reason)`, the reason quoting the three numbers it holds. */
  datatype RamOutcome = RamOk | RamDecreased(registeredGb: real, currentGb: real, minAllowedGb: real)

  /** `_compare_ram_with_tolerance(registered, current)`: a mismatch exactly
      when both sides read as gigabyte values and the current one is more
      than one gigabyte below the registered one. Empty, non-string or
      unreadable input counts as a match. */
  function RamVerdict(registered: Value, current: Value): (r: RamOutcome)
    ensures r.RamDecreased? <==>
      ExtractRamGb(registered).Some? && ExtractRamGb(current).Some?
      && ExtractRamGb(current).value < ExtractRamGb(registered).value - 1.0
    ensures r.RamDecreased? ==>
      && r.registeredGb == ExtractRamGb(registered).value
      && r.currentGb == ExtractRamGb(current).value
      && r.minAllowedGb == r.registeredGb - 1.0
  {
    if !Truthy(registered) || !Truthy(current) then RamOk
    else
      match (ExtractRamGb(registered), ExtractRamGb(current))
      case (Some(reg), Some(cur)) =>
        var minAllowed := reg - 1.0;
        if cur < minAllowed then RamDecreased(reg, cur, minAllowed) else RamOk
      case _ => RamOk
  }

  // ---------------------------------------------------------------------
  // Reading the values the agents send
  // ---------------------------------------------------------------------

  lemma DigitCharValue(d: nat)
    requires d < 10
    ensures IsDigit(DigitChar(d)) && DigitChar(d) as int - '0' as int == d
  {
  }

  /** The decimal spelling of a number is a run of digits denoting it. */
  lemma {:induction false} DecimalDigits(n: nat)
    ensures AllDigits(NatToDecimal(n))
    ensures DigitsValue(NatToDecimal(n)) == n
    decreases n
  {
    var d := NatToDecimal(n);
    if n < 10 {
      DigitCharValue(n);
    } else {
      DecimalDigits(n / 10);
      DigitCharValue(n % 10);
      assert d[..|d| - 1] == NatToDecimal(n / 10);
    }
  }

  /** A run of digits from `i` to `j` that is not followed by a digit is
      where the scan from `i` stops. */
  lemma {:induction false} DigitRunOver(s: string, i: nat, j: nat)
    requires i <= j <= |s| && AllDigits(s[i..j])
    requires j == |s| || !IsDigit(s[j])
    ensures DigitRunEnd(s, i) == j
    decreases j - i
  {
    if i < j {
      assert s[i..j][0] == s[i];
      assert s[i + 1..j] == s[i..j][1..];
      DigitRunOver(s, i + 1, j);
    }
  }

  /** Whitespace that `\s*` may skip. */
  predicate Blanks(ws: string)
  {
    forall k :: 0 <= k < |ws| ==> IsSpace(ws[k])
  }

  /** "GB" in any letter case. */
  predicate GbUnit(u: string)
  {
    |u| == 2 && IsG(u[0]) && IsB(u[1])
  }

  /** A token followed by neither a digit nor a point is scanned whole at
      `i`; whether it matches then depends only on what follows the
      whitespace after it. */
  lemma TokenScanned(s: string, i: nat, t: RamToken)
    requires t.Valid()
    requires i + |t.Text()| < |s| && s[i..i + |t.Text()|] == t.Text()
    requires !IsDigit(s[i + |t.Text()|]) && s[i + |t.Text()|] != '.'
    ensures var k := SkipSpaces(s, i + |t.Text()|);
      MatchAt(s, i) == if k + 1 < |s| && IsG(s[k]) && IsB(s[k + 1]) then Some(t) else None
  {
    var d := t.intDigits;
    var e := i + |t.Text()|;
    assert s[i] == t.Text()[0] == d[0];
    if t.fracDigits.Some? {
      var f := t.fracDigits.value;
      assert s[i..i + |d|] == d && s[i + |d|] == '.' && s[i + |d| + 1..e] == f by {
        assert t.Text() == d + "." + f;
        assert s[i..e][..|d|] == d && s[i..e][|d|] == '.' && s[i..e][|d| + 1..] == f;
      }
      DigitRunOver(s, i, i + |d|);
      DigitRunOver(s, i + |d| + 1, e);
    } else {
      assert t.Text() == d;
      DigitRunOver(s, i, e);
    }
  }

  /** Every spelling the pattern accepts is found: a token, any run of
      whitespace (possibly none) and "GB" in any case, starting at `i`, is
      matched at `i` with exactly that token. */
  lemma MatchAtComplete(s: string, i: nat, t: RamToken, ws: string, u: string)
    requires t.Valid() && Blanks(ws) && GbUnit(u)
    requires i + |t.Text() + ws + u| <= |s|
    requires s[i..i + |t.Text() + ws + u|] == t.Text() + ws + u
    ensures MatchAt(s, i) == Some(t)
  {
    var text := t.Text();
    var e := i + |text|;
    var g := e + |ws|;
    SliceParts(s, i, text, ws, u);
    assert IsG(s[g]) && IsB(s[g + 1]) by {
      assert s[g] == s[g..g + |u|][0] && s[g + 1] == s[g..g + |u|][1];
    }
    // whatever follows the token is whitespace or the `G`: neither a digit nor a point
    assert !IsDigit(s[e]) && s[e] != '.' by {
      if ws != [] { assert s[e] == s[e..g][0]; }
    }
    TokenScanned(s, i, t);
    forall k | e <= k < g
      ensures IsSpace(s[k])
    {
      assert s[k] == s[e..g][k - e];
    }
    SkipSpacesStops(s, e, g);
  }

  /** The three consecutive pieces of a slice made of three parts. */
  lemma SliceParts(s: string, i: nat, a: string, b: string, c: string)
    requires i + |a + b + c| <= |s| && s[i..i + |a + b + c|] == a + b + c
    ensures s[i..i + |a|] == a
    ensures s[i + |a|..i + |a| + |b|] == b
    ensures s[i + |a| + |b|..i + |a| + |b| + |c|] == c
  {
    var w := a + b + c;
    forall k | 0 <= k < |w|
      ensures s[i + k] == w[k]
    {
      assert s[i..i + |w|][k] == s[i + k];
    }
    var j := i + |a|;
    assert s[i..j] == a by {
      forall k | 0 <= k < |a| ensures s[i..j][k] == a[k] { assert w[k] == a[k]; }
    }
    assert s[j..j + |b|] == b by {
      forall k | 0 <= k < |b| ensures s[j..j + |b|][k] == b[k] { assert w[|a| + k] == b[k]; }
    }
    assert s[j + |b|..j + |b| + |c|] == c by {
      forall k | 0 <= k < |c| ensures s[j + |b|..j + |b| + |c|][k] == c[k] { assert w[|a| + |b| + k] == c[k]; }
    }
  }

  /** A run of whitespace from `i` to `j` followed by a non-space is where
      `\s*` stops. */
  lemma {:induction false} SkipSpacesStops(s: string, i: nat, j: nat)
    requires i <= j < |s| && !IsSpace(s[j])
    requires forall k :: i <= k < j ==> IsSpace(s[k])
    ensures SkipSpaces(s, i) == j
    decreases j - i
  {
    if i < j {
      SkipSpacesStops(s, i + 1, j);
    }
  }

  /** `re.search` from `i` reaches the first match at or after `i`. */
  lemma {:induction false} SearchFromReaches(s: string, i: nat, p: nat)
    requires i <= p <= |s| && MatchAt(s, p).Some?
    requires forall q :: i <= q < p ==> MatchAt(s, q).None?
    ensures SearchFrom(s, i) == Some(RamMatch(p, MatchAt(s, p).value))
    decreases p - i
  {
    if i < p {
      assert MatchAt(s, i).None?;
      SearchFromReaches(s, i + 1, p);
    }
  }

  /** `re.search` finds the leftmost match, whatever comes after it. */
  lemma ReadsLeftmostMatch(s: string, p: nat)
    requires p <= |s| && MatchAt(s, p).Some?
    requires forall q :: 0 <= q < p ==> MatchAt(s, q).None?
    ensures ExtractRamGb(Str(s)) == Some(MatchAt(s, p).value.Gigabytes())
  {
    SearchFromReaches(s, 0, p);
  }

  /** Text holding no digit before a token followed by optional whitespace
      and "GB" (any case) reads as that token's value, whatever follows:
      "16 GB", "16GB", "15.79 gb" and "RAM: 16 GB total" are all read. */
  lemma TokenRead(text: string, prefix: string, t: RamToken, ws: string, u: string, rest: string)
    requires t.Valid() && Blanks(ws) && GbUnit(u)
    requires forall k :: 0 <= k < |prefix| ==> !IsDigit(prefix[k])
    requires text == prefix + t.Text() + ws + u + rest
    ensures ExtractRamGb(Str(text)) == Some(t.Gigabytes())
  {
    var w := t.Text() + ws + u;
    assert text == prefix + w + rest;
    assert text[|prefix|..|prefix| + |w|] == w;
    MatchAtComplete(text, |prefix|, t, ws, u);
    forall q | 0 <= q < |prefix|
      ensures MatchAt(text, q).None?
    {
      assert text[q] == prefix[q];
    }
    ReadsLeftmostMatch(text, |prefix|);
  }

  /** A value that is just a token, optional whitespace and "GB". */
  lemma TokenAloneRead(t: RamToken, ws: string, u: string)
    requires t.Valid() && Blanks(ws) && GbUnit(u)
    ensures ExtractRamGb(Str(t.Text() + ws + u)) == Some(t.Gigabytes())
  {
    var text := t.Text() + ws + u;
    assert text[0..|text|] == text;
    MatchAtComplete(text, 0, t, ws, u);
    ReadsLeftmostMatch(text, 0);
  }

  /** A whole number of gigabytes written as `<n>`, optional whitespace and
      "GB" reads back as `n`. */
  lemma WholeGigabytesRead(n: nat, ws: string, u: string)
    requires Blanks(ws) && GbUnit(u)
    ensures ExtractRamGb(Str(NatToDecimal(n) + ws + u)) == Some(n as real)
  {
    var d := NatToDecimal(n);
    DecimalDigits(n);
    var t := RamToken(d, None);
    assert t.Text() == d;
    assert t.Gigabytes() == n as real;
    TokenAloneRead(t, ws, u);
  }

  /** The value of the decimal `<n>.<m>`: `n + m / 10^k`, `k` being the
      number of digits of `m`. */
  function PointValue(n: nat, m: nat): real
  {
    n as real + m as real / Pow10(|NatToDecimal(m)|) as real
  }

  /** A number with a fraction written as `<n>.<m>`, optional whitespace and
      "GB" reads back as its decimal value. */
  lemma DecimalGigabytesRead(n: nat, m: nat, ws: string, u: string)
    requires Blanks(ws) && GbUnit(u)
    ensures ExtractRamGb(Str(NatToDecimal(n) + "." + NatToDecimal(m) + ws + u)) == Some(PointValue(n, m))
  {
    var d, f := NatToDecimal(n), NatToDecimal(m);
    DecimalDigits(n);
    DecimalDigits(m);
    var t := RamToken(d, Some(f));
    assert t.Text() == d + "." + f;
    TokenAloneRead(t, ws, u);
    var g := n as real + m as real / Pow10(|f|) as real;
    assert t.Gigabytes() == g;
    assert g == PointValue(n, m);
  }

  /** With both sides readable, a drop of at most one gigabyte always
      passes and a larger drop never does, however each side spaces and
      cases its unit ("16 GB" registered against "15GB" reported passes). */
  lemma RamToleranceIsOneGigabyte(registered: nat, current: nat, ws1: string, u1: string, ws2: string, u2: string)
    requires Blanks(ws1) && GbUnit(u1) && Blanks(ws2) && GbUnit(u2)
    ensures RamVerdict(Str(NatToDecimal(registered) + ws1 + u1), Str(NatToDecimal(current) + ws2 + u2)).RamOk?
      <==> current + 1 >= registered
  {
    WholeGigabytesRead(registered, ws1, u1);
    WholeGigabytesRead(current, ws2, u2);
  }

  /** The same for a current value with a fraction, as the agents report
      it (`15.79GB` against a registered `16 GB` passes, `14.9GB` does
      not): the verdict turns on the one-gigabyte tolerance alone. */
  lemma RamToleranceWithFraction(registered: nat, whole: nat, fraction: nat, ws1: string, u1: string, ws2: string, u2: string)
    requires Blanks(ws1) && GbUnit(u1) && Blanks(ws2) && GbUnit(u2)
    ensures var r := RamVerdict(Str(NatToDecimal(registered) + ws1 + u1),
                                Str(NatToDecimal(whole) + "." + NatToDecimal(fraction) + ws2 + u2));
      && (r.RamOk? <==> PointValue(whole, fraction) + 1.0 >= registered as real)
      && (r.RamDecreased? ==> r == RamDecreased(registered as real, PointValue(whole, fraction), registered as real - 1.0))
  {
    WholeGigabytesRead(registered, ws1, u1);
    DecimalGigabytesRead(whole, fraction, ws2, u2);
  }
}
