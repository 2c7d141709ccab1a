/** Option type shared by the lookups of the model (JavaScript's `null` results). */
module Wrappers {
  datatype Option<T> = None | Some(value: T)
}

/**
  Text primitives standing for the JavaScript string operations the server
  relies on: `startsWith`, `includes`, `trim`, `join`, the `\s` character class
  and decimal formatting of integers in template strings.
*/
module Text {
  import opened Wrappers

  /** `s.startsWith(p)`. */
  predicate StartsWith(s: string, p: string) {
    |p| <= |s| && s[..|p|] == p
  }

  /** `s.endsWith(p)`. */
  predicate EndsWith(s: string, p: string) {
    |p| <= |s| && s[|s| - |p|..] == p
  }

  /** `p` occurs in `s` at position `i`. */
  predicate OccursAt(s: string, p: string, i: int) {
    0 <= i && i + |p| <= |s| && s[i..i + |p|] == p
  }

  /** `s.includes(p)`: some suffix of `s` starts with `p`. */
  predicate Contains(s: string, p: string)
    decreases |s|
  {
    StartsWith(s, p) || (s != [] && Contains(s[1..], p))
  }

  /** An occurrence at a known position makes `includes` true. */
  lemma {:induction false} ContainsAt(s: string, p: string, i: int)
    requires OccursAt(s, p, i)
    ensures Contains(s, p)
    decreases i
  {
    if i > 0 {
      assert s[1..][i - 1..i - 1 + |p|] == s[i..i + |p|];
      ContainsAt(s[1..], p, i - 1);
    }
  }

  lemma {:induction false} ContainsIffOccurs(s: string, p: string)
    ensures Contains(s, p) <==> exists i :: OccursAt(s, p, i)
    decreases |s|
  {
    if Contains(s, p) {
      if StartsWith(s, p) {
        assert OccursAt(s, p, 0);
      } else {
        ContainsIffOccurs(s[1..], p);
        var i :| OccursAt(s[1..], p, i);
        assert s[i + 1..i + 1 + |p|] == s[1..][i..i + |p|];
        assert OccursAt(s, p, i + 1);
      }
    }
    if exists i :: OccursAt(s, p, i) {
      var i :| OccursAt(s, p, i);
      ContainsAt(s, p, i);
    }
  }

  /** Text that is present stays present when more text is put around it. */
  lemma ContainsInConcat(a: string, b: string, c: string, p: string)
    requires Contains(b, p)
    ensures Contains(a + b + c, p)
  {
    ContainsIffOccurs(b, p);
    var i :| OccursAt(b, p, i);
    assert (a + b + c)[|a| + i..|a| + i + |p|] == b[i..i + |p|];
    ContainsAt(a + b + c, p, |a| + i);
  }

  lemma ContainsSelf(p: string)
    ensures Contains(p, p)
  {
    assert OccursAt(p, p, 0);
    ContainsAt(p, p, 0);
  }

  /** An occurrence in either part survives putting a separator between them. */
  lemma ContainsAroundSeparator(a: string, sep: string, b: string, p: string)
    ensures Contains(a, p) || Contains(b, p) ==> Contains(a + sep + b, p)
  {
    if Contains(a, p) {
      ContainsInConcat([], a, sep + b, p);
      assert [] + a + (sep + b) == a + sep + b;
    } else if Contains(b, p) {
      ContainsInConcat(a + sep, b, [], p);
      assert a + sep + b + [] == a + sep + b;
    }
  }

  lemma ContainsSplitBySeparator(a: string, sep: string, b: string, p: string)
    requires sep != [] && p != []
    requires forall k :: 0 <= k < |sep| ==> sep[k] !in p
    requires Contains(a + sep + b, p)
    ensures Contains(a, p) || Contains(b, p)
  {
    var s := a + sep + b;
    ContainsIffOccurs(s, p);
    var i :| OccursAt(s, p, i);
    if i + |p| <= |a| {
      assert a[i..i + |p|] == s[i..i + |p|];
      ContainsAt(a, p, i);
    } else {
      OccurrenceAvoidsSeparator(a, sep, b, p, i);
      assert b[i - |a| - |sep|..i - |a| - |sep| + |p|] == s[i..i + |p|];
      ContainsAt(b, p, i - |a| - |sep|);
    }
  }

  /** An occurrence of `p` lies wholly before or wholly after a separator made of characters `p` never uses. */
  lemma OccurrenceAvoidsSeparator(a: string, sep: string, b: string, p: string, i: int)
    requires sep != [] && p != [] && OccursAt(a + sep + b, p, i)
    requires forall k :: 0 <= k < |sep| ==> sep[k] !in p
    ensures i + |p| <= |a| || i >= |a| + |sep|
  {
    var s := a + sep + b;
    forall k | i <= k < i + |p| ensures s[k] in p {
      SliceCharInPattern(s, p, i, k);
    }
    forall k | |a| <= k < |a| + |sep| ensures s[k] !in p {
      assert s[k] == sep[k - |a|];
    }
    var k := if i >= |a| then i else |a|;
    assert k < |s| ==> (i <= k < i + |p| ==> s[k] in p) && (|a| <= k < |a| + |sep| ==> s[k] !in p);
  }

  lemma SliceCharInPattern(s: string, p: string, i: int, k: int)
    requires OccursAt(s, p, i) && i <= k < i + |p|
    ensures s[k] in p
  {
    assert s[k] == s[i..i + |p|][k - i];
  }

  /** Line terminators of ECMAScript (what `.` in a regular expression does not match). */
  predicate IsLineTerminator(c: char) {
    c == '\n' || c == '\r' || c == '\U{2028}' || c == '\U{2029}'
  }

  /** The ECMAScript white-space set: what `\s` matches and what `trim()` removes. */
  predicate IsJsSpace(c: char) {
    || IsLineTerminator(c)
    || c == ' ' || c == '\t' || c == '\U{000B}' || c == '\U{000C}'
    || c == '\U{00A0}' || c == '\U{FEFF}' || c == '\U{1680}'
    || ('\U{2000}' <= c <= '\U{200A}')
    || c == '\U{202F}' || c == '\U{205F}' || c == '\U{3000}'
  }

  /** The end of the longest run of white space starting at `i` (what a greedy `\s*` consumes). */
  function SkipSpaces(s: string, i: nat): (j: nat)
    requires i <= |s|
    ensures i <= j <= |s|
    ensures forall k :: i <= k < j ==> IsJsSpace(s[k])
    ensures j == |s| || !IsJsSpace(s[j])
    decreases |s| - i
  {
    if i < |s| && IsJsSpace(s[i]) then SkipSpaces(s, i + 1) else i
  }

  /** The first line terminator at or after `i`, or the end of `s` (how far `.*` can reach). */
  function LineEnd(s: string, i: nat): (j: nat)
    requires i <= |s|
    ensures i <= j <= |s|
    ensures forall k :: i <= k < j ==> !IsLineTerminator(s[k])
    ensures j == |s| || IsLineTerminator(s[j])
    decreases |s| - i
  {
    if i < |s| && !IsLineTerminator(s[i]) then LineEnd(s, i + 1) else i
  }

  /** The two quote characters of string literals, `['"]`. */
  predicate IsQuote(c: char) {
    c == '\'' || c == '"'
  }

  /** The first position at or after `i` holding a character of `cs` (`[^cs]*` stops there). */
  function IndexOfAny(s: string, cs: set<char>, i: nat): (r: Option<nat>)
    requires i <= |s|
    ensures r.Some? ==> i <= r.value < |s| && s[r.value] in cs
    ensures forall k :: i <= k < |s| && (r.None? || k < r.value) ==> s[k] !in cs
    decreases |s| - i
  {
    if i == |s| then None
    else if s[i] in cs then Some(i)
    else IndexOfAny(s, cs, i + 1)
  }

  /** Skipping white space from inside `a` stops inside `a`, or runs on into `b` as a skip from its start. */
  lemma {:induction false} SkipSpacesConcat(a: string, b: string, i: nat)
    requires i <= |a|
    ensures SkipSpaces(a + b, i) == if SkipSpaces(a, i) < |a| then SkipSpaces(a, i) else |a| + SkipSpaces(b, 0)
    decreases |a| - i
  {
    if i < |a| {
      assert (a + b)[i] == a[i];
      if IsJsSpace(a[i]) {
        SkipSpacesConcat(a, b, i + 1);
      }
    } else {
      SkipSpacesShift(a, b, 0);
    }
  }

  /** Skipping white space inside `b` is unaffected by text put in front of it. */
  lemma {:induction false} SkipSpacesShift(a: string, b: string, j: nat)
    requires j <= |b|
    ensures SkipSpaces(a + b, |a| + j) == |a| + SkipSpaces(b, j)
    decreases |b| - j
  {
    if j < |b| {
      assert (a + b)[|a| + j] == b[j];
      if IsJsSpace(b[j]) {
        SkipSpacesShift(a, b, j + 1);
      }
    }
  }

  /** A search inside `b` is unaffected by text put in front of it. */
  lemma {:induction false} IndexOfAnyShift(a: string, b: string, cs: set<char>, j: nat)
    requires j <= |b|
    ensures IndexOfAny(b, cs, j).None? ==> IndexOfAny(a + b, cs, |a| + j).None?
    ensures IndexOfAny(b, cs, j).Some? ==> IndexOfAny(a + b, cs, |a| + j) == Some(|a| + IndexOfAny(b, cs, j).value)
    decreases |b| - j
  {
    if j < |b| {
      assert (a + b)[|a| + j] == b[j];
      if b[j] !in cs {
        IndexOfAnyShift(a, b, cs, j + 1);
      }
    }
  }

  /** A search from inside `a` finds its hit in `a`, or else the first hit of `b`. */
  lemma {:induction false} IndexOfAnyConcat(a: string, b: string, cs: set<char>, i: nat)
    requires i <= |a|
    ensures IndexOfAny(a, cs, i).Some? ==> IndexOfAny(a + b, cs, i) == IndexOfAny(a, cs, i)
    ensures IndexOfAny(a, cs, i).None? && IndexOfAny(b, cs, 0).None? ==> IndexOfAny(a + b, cs, i).None?
    ensures IndexOfAny(a, cs, i).None? && IndexOfAny(b, cs, 0).Some? ==>
              IndexOfAny(a + b, cs, i) == Some(|a| + IndexOfAny(b, cs, 0).value)
    decreases |a| - i
  {
    if i < |a| {
      assert (a + b)[i] == a[i];
      if a[i] !in cs {
        IndexOfAnyConcat(a, b, cs, i + 1);
      }
    } else {
      IndexOfAnyShift(a, b, cs, 0);
    }
  }

  /** A search may start past characters that are not searched for. */
  lemma {:induction false} IndexOfAnySkip(s: string, cs: set<char>, i: nat, j: nat)
    requires i <= j <= |s|
    requires forall k :: i <= k < j ==> s[k] !in cs
    ensures IndexOfAny(s, cs, i) == IndexOfAny(s, cs, j)
    decreases j - i
  {
    if i < j {
      IndexOfAnySkip(s, cs, i + 1, j);
    }
  }

  /** A text shorter than `p` does not contain it. */
  lemma {:induction false} ContainsTooShort(s: string, p: string)
    requires |s| < |p|
    ensures !Contains(s, p)
    decreases |s|
  {
    if s != [] {
      ContainsTooShort(s[1..], p);
    }
  }

  /** When `a` never holds the first character of `p`, an occurrence of `p` in `a + b` lies in `b`. */
  lemma ContainsPastPrefix(a: string, b: string, p: string)
    requires p != [] && forall k :: 0 <= k < |a| ==> a[k] != p[0]
    requires Contains(a + b, p)
    ensures Contains(b, p)
  {
    ContainsIffOccurs(a + b, p);
    var i :| OccursAt(a + b, p, i);
    assert (a + b)[i] == (a + b)[i..i + |p|][0];
    assert i >= |a|;
    assert b[i - |a|..i - |a| + |p|] == (a + b)[i..i + |p|];
    ContainsAt(b, p, i - |a|);
  }

  /** Every character of `s` is white space (`s.trim().length === 0`). */
  predicate Blank(s: string) {
    forall i :: 0 <= i < |s| ==> IsJsSpace(s[i])
  }

  /** The start of the white-space run that ends at `j`, reaching back no further than `lo`. */
  function SkipSpacesBack(s: string, lo: nat, j: nat): (i: nat)
    requires lo <= j <= |s|
    ensures lo <= i <= j
    ensures forall k :: i <= k < j ==> IsJsSpace(s[k])
    ensures i == lo || !IsJsSpace(s[i - 1])
    decreases j - lo
  {
    if lo < j && IsJsSpace(s[j - 1]) then SkipSpacesBack(s, lo, j - 1) else j
  }

  /** `s.trim()`: the text between the leading and the trailing white space. */
  function Trim(s: string): string {
    var a := SkipSpaces(s, 0);
    s[a..SkipSpacesBack(s, a, |s|)]
  }

  /** What `Trim` keeps neither starts nor ends with white space. */
  lemma TrimHasNoOuterSpace(s: string)
    ensures Trim(s) == [] || (!IsJsSpace(Trim(s)[0]) && !IsJsSpace(Trim(s)[|Trim(s)| - 1]))
  {
    var a := SkipSpaces(s, 0);
    var b := SkipSpacesBack(s, a, |s|);
    if a < b {
      assert Trim(s)[0] == s[a];
      assert Trim(s)[|Trim(s)| - 1] == s[b - 1];
    }
  }

  /** `s.trim().length === 0` holds exactly for the all-white-space strings. */
  lemma TrimEmptyIffBlank(s: string)
    ensures Trim(s) == [] <==> Blank(s)
  {
    var a := SkipSpaces(s, 0);
    var b := SkipSpacesBack(s, a, |s|);
    if Trim(s) == [] {
      assert a == b;
      assert a == |s|;
    } else {
      assert a < |s| && !IsJsSpace(s[a]);
    }
  }

  /** `xs.join(sep)`. */
  function Join(xs: seq<string>, sep: string): string {
    if xs == [] then ""
    else if |xs| == 1 then xs[0]
    else xs[0] + sep + Join(xs[1..], sep)
  }

  /** Characters that never occur in any of `xs` nor in `sep` do not occur in their join. */
  lemma {:induction false} JoinAvoids(xs: seq<string>, sep: string, c: char)
    requires c !in sep
    requires forall k :: 0 <= k < |xs| ==> c !in xs[k]
    ensures c !in Join(xs, sep)
  {
    if |xs| > 1 {
      JoinAvoids(xs[1..], sep, c);
    }
  }

  function DigitChar(d: nat): char
    requires d < 10
  {
    ('0' as int + d) as char
  }

  /** Decimal rendering of a non-negative integer, as `${n}` prints it. */
  function NatToString(n: nat): (r: string)
    ensures r != [] && forall k :: 0 <= k < |r| ==> '0' <= r[k] <= '9'
    ensures |r| > 1 ==> r[0] != '0'
  {
    if n < 10 then [DigitChar(n)] else NatToString(n / 10) + [DigitChar(n % 10)]
  }

  /** Decimal rendering of an integer, with a minus sign when it is negative. */
  function IntToString(n: int): (r: string)
    ensures r != [] && (r[0] == '-' <==> n < 0)
  {
    if n < 0 then "-" + NatToString(-n) else NatToString(n)
  }

  /** The value of `c` as a digit in base `radix` (10 or 16), if it is one. */
  function DigitValue(c: char, radix: nat): (r: Option<nat>)
    requires radix == 10 || radix == 16
    ensures r.Some? ==> r.value < radix
  {
    if '0' <= c <= '9' then Some(c as int - '0' as int)
    else if radix == 16 && 'a' <= c <= 'f' then Some(c as int - 'a' as int + 10)
    else if radix == 16 && 'A' <= c <= 'F' then Some(c as int - 'A' as int + 10)
    else None
  }

  /** The end of the run of base-`radix` digits that starts at `i`. */
  function DigitRunEnd(s: string, i: nat, radix: nat): (e: nat)
    requires i <= |s| && (radix == 10 || radix == 16)
    ensures i <= e <= |s|
    ensures forall k :: i <= k < e ==> DigitValue(s[k], radix).Some?
    ensures e == |s| || DigitValue(s[e], radix).None?
    decreases |s| - i
  {
    if i < |s| && DigitValue(s[i], radix).Some? then DigitRunEnd(s, i + 1, radix) else i
  }

  /** The value of a run of digits, most significant first. */
  function DigitsValue(z: string, radix: nat): nat
    requires radix == 10 || radix == 16
    requires forall k :: 0 <= k < |z| ==> DigitValue(z[k], radix).Some?
  {
    if z == [] then 0 else DigitsValue(z[..|z| - 1], radix) * radix + DigitValue(z[|z| - 1], radix).value
  }

  /**
    `parseInt(s)` without a radix: leading white space is skipped, one sign is
    taken, a `0x`/`0X` prefix selects base 16, and the longest run of digits
    that follows is read. No digit at all gives `NaN`, written `None`.
  */
  function ParseInt(s: string): (r: Option<int>)
  {
    var i := SkipSpaces(s, 0);
    var j := if i < |s| && (s[i] == '-' || s[i] == '+') then i + 1 else i;
    ParseMagnitude(s, j, i < |s| && s[i] == '-')
  }

  /** The unsigned part of `parseInt`, from position `j`, negated when `negative`. */
  function ParseMagnitude(s: string, j: nat, negative: bool): (r: Option<int>)
    requires j <= |s|
  {
    var hex := j + 1 < |s| && s[j] == '0' && (s[j + 1] == 'x' || s[j + 1] == 'X');
    var radix := if hex then 16 else 10;
    var k := if hex then j + 2 else j;
    var e := DigitRunEnd(s, k, radix);
    if e == k then None
    else
      var v: int := DigitsValue(s[k..e], radix);
      Some(if negative then -v else v)
  }

  /** Reading back the decimal rendering of a natural number gives the number. */
  lemma {:induction false} DigitsValueOfNatToString(n: nat)
    ensures forall k :: 0 <= k < |NatToString(n)| ==> DigitValue(NatToString(n)[k], 10).Some?
    ensures DigitsValue(NatToString(n), 10) == n
  {
    var z := NatToString(n);
    if n >= 10 {
      DigitsValueOfNatToString(n / 10);
      assert z[..|z| - 1] == NatToString(n / 10);
    }
  }

  /** A decimal rendering is read whole and in base 10. */
  lemma MagnitudeOfNatToString(s: string, j: nat, m: nat, negative: bool)
    requires j <= |s| && s[j..] == NatToString(m)
    ensures ParseMagnitude(s, j, negative) == Some(if negative then -(m as int) else m as int)
  {
    var d := NatToString(m);
    DigitsValueOfNatToString(m);
    assert forall k :: j <= k < |s| ==> s[k] == d[k - j];
    assert DigitRunEnd(s, j, 10) == |s|;
    assert s[j..|s|] == d;
  }

  /** `parseInt` reads back what `${n}` prints. */
  lemma ParseIntOfIntToString(n: int)
    ensures ParseInt(IntToString(n)) == Some(n)
  {
    var s := IntToString(n);
    assert !IsJsSpace(s[0]);
    if n < 0 {
      assert s[1..] == NatToString(-n);
      MagnitudeOfNatToString(s, 1, -n, true);
    } else {
      assert s[0..] == NatToString(n);
      MagnitudeOfNatToString(s, 0, n, false);
    }
  }
}
