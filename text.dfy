/** The string operations the sources use, on `seq<char>`. */
module Text {
  import opened Js
  import Seqs

  predicate IsUpper(c: char) { 'A' <= c <= 'Z' }

  predicate IsDigit(c: char) { '0' <= c <= '9' }

  function LowerChar(c: char): char
  {
    if IsUpper(c) then (c as int + 32) as char else c
  }

  /** `s.toLowerCase()` on the ASCII letters. */
  function ToLower(s: string): (r: string)
    ensures |r| == |s|
    ensures forall i :: 0 <= i < |s| ==> !IsUpper(r[i])
    ensures forall i :: 0 <= i < |s| ==> !IsUpper(s[i]) ==> r[i] == s[i]
    ensures forall i :: 0 <= i < |s| && IsUpper(s[i]) ==> r[i] as int == s[i] as int + 32
  {
    seq(|s|, i requires 0 <= i < |s| => LowerChar(s[i]))
  }

  /** Lower-casing a lower-cased string changes nothing. */
  lemma ToLowerIdempotent(s: string)
    ensures ToLower(ToLower(s)) == ToLower(s)
  {
  }

  /**
   * `s.indexOf(t)` as an option: the first position at which `t` occurs in
   * `s`, or nothing when it does not occur.
   */
  function IndexOf(s: string, t: string): (r: Option<nat>)
    ensures r.Some? ==> r.value + |t| <= |s| && s[r.value..r.value + |t|] == t
    ensures r.Some? ==> forall j :: 0 <= j < r.value ==> !(t <= s[j..])
    ensures r.None? ==> forall j :: 0 <= j <= |s| ==> !(t <= s[j..])
    decreases |s|
  {
    if t <= s then Some(0)
    else if s == [] then None
    else
      var r := IndexOf(s[1..], t);
      assert forall j :: 1 <= j <= |s| ==> s[j..] == s[1..][j - 1..];
      if r.Some? then Some(r.value + 1) else None
  }

  /**
   * A pattern whose first character does not occur in `a` is found right
   * after `a`, and not inside it.
   */
  lemma IndexOfAfterFreePrefix(a: string, t: string, b: string)
    requires t != [] && t[0] !in a
    ensures IndexOf(a + t + b, t) == Some(|a|)
    ensures IndexOf(a, t).None?
  {
    var s := a + t + b;
    assert t <= s[|a|..];
  }

  /** Searching for one character: it does not occur before the position found, nor at all when none is. */
  lemma CharIndexOf(s: string, c: char)
    ensures IndexOf(s, [c]).None? ==> c !in s
    ensures IndexOf(s, [c]).Some? ==> c !in s[..IndexOf(s, [c]).value]
  {
    forall k | 0 <= k < |s| && s[k] == c ensures [c] <= s[k..] { }
  }

  /** `s.includes(t)`. */
  predicate Contains(s: string, t: string)
  {
    IndexOf(s, t).Some?
  }

  /** `t` occurs in `s` exactly when some suffix of `s` starts with `t`. */
  lemma ContainsIff(s: string, t: string)
    ensures Contains(s, t) <==> exists j :: 0 <= j <= |s| && t <= s[j..]
  {
    if Contains(s, t) {
      var i := IndexOf(s, t).value;
      assert t <= s[i..];
    }
  }

  /**
   * `s.replace(t, '')` with a string pattern: only the first occurrence of
   * `t` is removed.
   */
  function RemoveFirst(s: string, t: string): (r: string)
    ensures !Contains(s, t) ==> r == s
    ensures Contains(s, t) ==>
              |r| == |s| - |t| && var i := IndexOf(s, t).value; s == r[..i] + t + r[i..]
  {
    match IndexOf(s, t)
    case None => s
    case Some(i) =>
      var r := s[..i] + s[i + |t|..];
      assert r[..i] == s[..i] && r[i..] == s[i + |t|..];
      assert s == s[..i] + s[i..i + |t|] + s[i + |t|..];
      r
  }

  /** The characters `String.prototype.trim` removes: white space and line terminators. */
  predicate IsJsSpace(c: char)
  {
    var n := c as int;
    n in {0x09, 0x0A, 0x0B, 0x0C, 0x0D, 0x20, 0xA0, 0x1680, 0x2028, 0x2029, 0x202F, 0x205F, 0x3000, 0xFEFF} ||
    (0x2000 <= n <= 0x200A)
  }

  function TrimStart(s: string): (r: string)
    ensures |r| <= |s| && r == s[|s| - |r|..]
    ensures forall i :: 0 <= i < |s| - |r| ==> IsJsSpace(s[i])
    ensures r != [] ==> !IsJsSpace(r[0])
  {
    if s != [] && IsJsSpace(s[0]) then TrimStart(s[1..]) else s
  }

  function TrimEnd(s: string): (r: string)
    ensures |r| <= |s| && r == s[..|r|]
    ensures forall i :: |r| <= i < |s| ==> IsJsSpace(s[i])
    ensures r != [] ==> !IsJsSpace(r[|r| - 1])
  {
    if s != [] && IsJsSpace(s[|s| - 1]) then TrimEnd(s[..|s| - 1]) else s
  }

  /**
   * `s.trim()`: a piece of `s` that neither starts nor ends with white
   * space; it is empty exactly when `s` is all white space.
   */
  function Trim(s: string): (r: string)
    ensures (r == []) <==> forall i :: 0 <= i < |s| ==> IsJsSpace(s[i])
    ensures r != [] ==> !IsJsSpace(r[0]) && !IsJsSpace(r[|r| - 1])
  {
    TrimEnd(TrimStart(s))
  }

  /** Every character of `s` is white space. */
  predicate AllSpace(s: string)
  {
    forall i :: 0 <= i < |s| ==> IsJsSpace(s[i])
  }

  /** Trimming cuts only white space: `s` is its trimmed text with white space before and after. */
  lemma TrimCutsOnlySpace(s: string)
    ensures exists lead, trail :: s == lead + Trim(s) + trail && AllSpace(lead) && AllSpace(trail)
  {
    var t := TrimStart(s);
    var r := TrimEnd(t);
    var lead, trail := s[..|s| - |t|], t[|r|..];
    PieceBetween(s, t, r);
    assert AllSpace(lead);
    assert AllSpace(trail);
    assert s == lead + Trim(s) + trail;
  }

  /** A prefix `r` of a suffix `t` of `s` sits between the rest of `s` before `t` and the rest of `t`. */
  lemma PieceBetween(s: string, t: string, r: string)
    requires |t| <= |s| && t == s[|s| - |t|..]
    requires |r| <= |t| && r == t[..|r|]
    ensures s == s[..|s| - |t|] + r + t[|r|..]
  {
    assert s == s[..|s| - |t|] + t;
    assert t == r + t[|r|..];
  }

  /** Lower-casing does not change whether a string is blank. */
  lemma BlankIgnoresCase(s: string)
    ensures (Trim(ToLower(s)) == []) <==> (Trim(s) == [])
  {
    var l := ToLower(s);
    assert forall i :: 0 <= i < |s| ==> (IsJsSpace(l[i]) <==> IsJsSpace(s[i]));
  }

  predicate IsNumericChar(c: char) { IsDigit(c) || c == '.' || c == '-' }

  /** `s.replace(/[^\d.-]/g, '')`: keeps the digits, `.` and `-`, in order. */
  function Clean(s: string): (r: string)
    ensures forall i :: 0 <= i < |r| ==> IsNumericChar(r[i])
    ensures Seqs.IsSubsequence(r, s)
    ensures forall c :: multiset(r)[c] == if IsNumericChar(c) then multiset(s)[c] else 0
  {
    Seqs.FilterMultiset(s, IsNumericChar);
    Seqs.Filter(s, IsNumericChar)
  }

  /** Cleaning a cleaned string changes nothing. */
  lemma CleanIdempotent(s: string)
    ensures Clean(Clean(s)) == Clean(s)
  {
    Seqs.FilterIdempotent(s, IsNumericChar);
  }

  /** Cleaning removes separators between digit groups: `"1,234"` cleans to `"1234"`. */
  lemma CleanJoinsGroups(a: string, sep: string, b: string)
    requires forall i :: 0 <= i < |a| ==> IsDigit(a[i])
    requires forall i :: 0 <= i < |b| ==> IsDigit(b[i])
    requires forall i :: 0 <= i < |sep| ==> !IsNumericChar(sep[i])
    ensures Clean(a + sep + b) == a + b
  {
    Seqs.FilterKeepsNone(sep, IsNumericChar);
    Seqs.FilterKeepsAll(a, IsNumericChar);
    Seqs.FilterKeepsAll(b, IsNumericChar);
    Seqs.FilterConcat(a, sep, IsNumericChar);
    assert Clean(a + sep) == a;
    Seqs.FilterConcat(a + sep, b, IsNumericChar);
  }

  /** The number of leading decimal digits of `s`. */
  function LeadingDigits(s: string): (n: nat)
    ensures n <= |s|
    ensures forall i :: 0 <= i < n ==> IsDigit(s[i])
    ensures n < |s| ==> !IsDigit(s[n])
  {
    if s != [] && IsDigit(s[0]) then 1 + LeadingDigits(s[1..]) else 0
  }

  function Pow10(n: nat): (r: nat)
    ensures r > 0
  {
    if n == 0 then 1 else 10 * Pow10(n - 1)
  }

  /** The value of a string of decimal digits (0 for the empty string). */
  function DigitsValue(d: string): nat
    requires forall i :: 0 <= i < |d| ==> IsDigit(d[i])
  {
    if d == [] then 0
    else
      var last := d[|d| - 1];
      assert IsDigit(last);
      DigitsValue(d[..|d| - 1]) * 10 + (last as int - '0' as int)
  }

  /** The sign that may start a numeric literal, and the rest. */
  function SignOf(s: string): (bool, string)
  {
    if s != [] && (s[0] == '-' || s[0] == '+') then (s[0] == '-', s[1..]) else (false, s)
  }

  /**
   * The unsigned part of `parseFloat`: the longest prefix of the form
   * digits* (`.` digits*)? with at least one digit, `None` when there is none.
   */
  function Magnitude(u: string): (r: Option<real>)
    ensures r.Some? <==> (u != [] && IsDigit(u[0])) || (|u| >= 2 && u[0] == '.' && IsDigit(u[1]))
  {
    var whole := LeadingDigits(u);
    var after := u[whole..];
    var fraction := if after != [] && after[0] == '.' then after[1..][..LeadingDigits(after[1..])] else [];
    if whole == 0 && fraction == [] then None
    else Some(DigitsValue(u[..whole]) as real + DigitsValue(fraction) as real / Pow10(|fraction|) as real)
  }

  /**
   * `parseFloat(s)` for text without exponent, `Infinity` or leading white
   * space (the only text the routes hand it): an optional sign and the
   * magnitude after it; `NaN` (here `None`) when there is no magnitude.
   */
  function ParseFloat(s: string): (r: Option<real>)
    ensures r.Some? <==>
      var u := SignOf(s).1;
      (u != [] && IsDigit(u[0])) || (|u| >= 2 && u[0] == '.' && IsDigit(u[1]))
  {
    var (negative, u) := SignOf(s);
    var m := Magnitude(u);
    if m.None? then None else Some(if negative then -m.value else m.value)
  }

  /** The unsigned part of `parseInt`: the value of the leading digits, `None` when there are none. */
  function DigitPrefixValue(u: string): (r: Option<nat>)
    ensures r.Some? <==> u != [] && IsDigit(u[0])
  {
    var whole := LeadingDigits(u);
    if whole == 0 then None else Some(DigitsValue(u[..whole]))
  }

  /**
   * `parseInt(s)` for the same kind of text, read in base 10: sign? digits*,
   * `NaN` without a digit.
   */
  function ParseInt(s: string): (r: Option<int>)
    ensures r.Some? <==> var u := SignOf(s).1; u != [] && IsDigit(u[0])
  {
    var (negative, u) := SignOf(s);
    var m := DigitPrefixValue(u);
    if m.None? then None else Some(if negative then -(m.value as int) else m.value as int)
  }

  /** A minus sign before unsigned text negates what `parseFloat` reads, and keeps `NaN`. */
  lemma MinusNegatesFloat(u: string)
    requires u == [] || (u[0] != '-' && u[0] != '+')
    ensures ParseFloat("-" + u) == if ParseFloat(u).Some? then Some(-ParseFloat(u).value) else None
  {
    assert SignOf(u) == (false, u);
    assert ("-" + u)[1..] == u;
    assert SignOf("-" + u) == (true, u);
  }

  /** A minus sign before unsigned text negates what `parseInt` reads, and keeps `NaN`. */
  lemma MinusNegatesInt(u: string)
    requires u == [] || (u[0] != '-' && u[0] != '+')
    ensures ParseInt("-" + u) == if ParseInt(u).Some? then Some(-ParseInt(u).value) else None
  {
    assert SignOf(u) == (false, u);
    assert ("-" + u)[1..] == u;
    assert SignOf("-" + u) == (true, u);
  }

  /** A string of digits parses as its own value, with or without a minus sign. */
  lemma {:induction false} ParseDigits(d: string)
    requires d != [] && forall i :: 0 <= i < |d| ==> IsDigit(d[i])
    ensures ParseFloat(d) == Some(DigitsValue(d) as real)
    ensures ParseFloat("-" + d) == Some(-(DigitsValue(d) as real))
  {
    LeadingDigitsAll(d);
    assert d[..|d|] == d && d[|d|..] == [];
    assert SignOf(d) == (false, d);
    assert SignOf("-" + d) == (true, d);
  }

  /** The leading digits of a digit string followed by more text count both. */
  lemma {:induction false} LeadingDigitsPrefix(d: string, x: string)
    requires forall i :: 0 <= i < |d| ==> IsDigit(d[i])
    ensures LeadingDigits(d + x) == |d| + LeadingDigits(x)
  {
    if d == [] {
      assert d + x == x;
    } else {
      assert (d + x)[1..] == d[1..] + x;
      LeadingDigitsPrefix(d[1..], x);
    }
  }

  /** How `d.f` followed by more text splits into its parts. */
  lemma DecimalLayout(d: string, f: string, tail: string)
    ensures var u := d + "." + f + tail;
            && u == d + ("." + f + tail)
            && u[..|d|] == d && u[|d|..] == "." + f + tail
            && ("." + f + tail)[1..] == f + tail
            && (f + tail)[..|f|] == f
  {
  }

  /**
   * A decimal `d.f` followed by text that does not continue it reads as
   * `d + f / 10^|f|`; either part may be empty but not both.
   */
  lemma {:induction false} ParseDecimal(d: string, f: string, tail: string)
    requires forall i :: 0 <= i < |d| ==> IsDigit(d[i])
    requires forall i :: 0 <= i < |f| ==> IsDigit(f[i])
    requires d + f != []
    requires tail == [] || !IsDigit(tail[0])
    ensures ParseFloat(d + "." + f + tail) ==
              Some(DigitsValue(d) as real + DigitsValue(f) as real / Pow10(|f|) as real)
  {
    var u := d + "." + f + tail;
    MagnitudeOfDecimal(d, f, tail);
    DecimalLayout(d, f, tail);
    if d == [] {
      assert u[0] == '.';
    } else {
      assert u[0] == d[0] && IsDigit(d[0]);
    }
    assert SignOf(u) == (false, u);
  }

  /** The magnitude of `d.f` followed by text that does not continue it. */
  lemma {:induction false} MagnitudeOfDecimal(d: string, f: string, tail: string)
    requires forall i :: 0 <= i < |d| ==> IsDigit(d[i])
    requires forall i :: 0 <= i < |f| ==> IsDigit(f[i])
    requires d + f != []
    requires tail == [] || !IsDigit(tail[0])
    ensures Magnitude(d + "." + f + tail) ==
              Some(DigitsValue(d) as real + DigitsValue(f) as real / Pow10(|f|) as real)
  {
    DecimalLayout(d, f, tail);
    LeadingDigitsPrefix(d, "." + f + tail);
    LeadingDigitsPrefix(f, tail);
  }

  /** A digit string followed by text that does not continue it reads as its value under `parseInt`. */
  lemma {:induction false} ParseIntDigits(d: string, tail: string)
    requires d != [] && forall i :: 0 <= i < |d| ==> IsDigit(d[i])
    requires tail == [] || !IsDigit(tail[0])
    ensures ParseInt(d + tail) == Some(DigitsValue(d) as int)
  {
    var u := d + tail;
    LeadingDigitsPrefix(d, tail);
    assert u[..|d|] == d;
    assert SignOf(u) == (false, u);
  }

  lemma {:induction false} LeadingDigitsAll(d: string)
    requires forall i :: 0 <= i < |d| ==> IsDigit(d[i])
    ensures LeadingDigits(d) == |d|
  {
    if d != [] {
      LeadingDigitsAll(d[1..]);
    }
  }

  function DigitChar(n: nat): (c: char)
    requires n < 10
    ensures IsDigit(c) && c as int - '0' as int == n
  {
    ('0' as int + n) as char
  }

  /** Decimal text of a natural number, without leading zeros. */
  function NatToText(n: nat): (r: string)
    ensures r != [] && forall i :: 0 <= i < |r| ==> IsDigit(r[i])
    ensures DigitsValue(r) == n
  {
    if n < 10 then [DigitChar(n)]
    else
      var r := NatToText(n / 10) + [DigitChar(n % 10)];
      assert r[..|r| - 1] == NatToText(n / 10);
      r
  }

  /** `n.toString()` for an integer. */
  function IntToText(n: int): (r: string)
    ensures n >= 0 ==> r == NatToText(n)
    ensures n < 0 ==> r == "-" + NatToText(-n)
  {
    if n < 0 then "-" + NatToText(-n) else NatToText(n)
  }

  /** An integer's text parses back to the integer. */
  lemma IntTextRoundTrip(n: int)
    ensures ParseFloat(IntToText(n)) == Some(n as real)
  {
    if n < 0 { ParseDigits(NatToText(-n)); } else { ParseDigits(NatToText(n)); }
  }

  /** `s.endsWith(t)`. */
  predicate EndsWith(s: string, t: string)
  {
    |t| <= |s| && s[|s| - |t|..] == t
  }
}
