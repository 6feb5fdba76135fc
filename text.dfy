/**
 * String operations the registry depends on: Java's String.trim, the
 * Bean Validation "not blank" test, ASCII lower-casing as used by the
 * case-insensitive searches, substring containment (the model of
 * LIKE '%x%'), lexicographic ordering (ORDER BY name) and decimal rendering
 * of integers (String.format("%d") and string concatenation of a Long).
 */
module Text {
  import opened Wrappers

  /** String.trim removes every leading and trailing char at or below U+0020. */
  predicate IsTrimmable(c: char) {
    c <= ' '
  }

  function TrimStart(s: string): (r: string)
    ensures |r| <= |s| && r == s[|s| - |r|..]
    ensures forall i :: 0 <= i < |s| - |r| ==> IsTrimmable(s[i])
    ensures r == [] || !IsTrimmable(r[0])
  {
    if s != [] && IsTrimmable(s[0]) then TrimStart(s[1..]) else s
  }

  function TrimEnd(s: string): (r: string)
    ensures |r| <= |s| && r == s[..|r|]
    ensures forall i :: |r| <= i < |s| ==> IsTrimmable(s[i])
    ensures r == [] || !IsTrimmable(r[|r| - 1])
  {
    if s != [] && IsTrimmable(s[|s| - 1]) then TrimEnd(s[..|s| - 1]) else s
  }

  /** Java's String.trim. */
  function Trim(s: string): (r: string) {
    TrimEnd(TrimStart(s))
  }

  /** The trimmed string is the part of s left after dropping the
      trimmable chars at both ends, and it neither starts nor ends with one. */
  lemma TrimSpec(s: string)
    ensures var r := Trim(s);
      && |r| <= |s|
      && (r == [] || (!IsTrimmable(r[0]) && !IsTrimmable(r[|r| - 1])))
      && (r == [] <==> forall i :: 0 <= i < |s| ==> IsTrimmable(s[i]))
  {
    var t := TrimStart(s);
    var r := TrimEnd(t);
    if r != [] {
      assert r[0] == t[0];
    }
    if r == [] {
      assert t == [];
    }
  }

  lemma {:induction false} TrimIdempotent(s: string)
    ensures Trim(Trim(s)) == Trim(s)
  {
    TrimSpec(s);
    var r := Trim(s);
    assert TrimStart(r) == r;
    assert TrimEnd(r) == r;
  }

  /** Java's `x != null ? x.trim() : null`. */
  function TrimOpt(o: Option<string>): (r: Option<string>)
    ensures r.None? <==> o.None?
  {
    if o.Some? then Some(Trim(o.value)) else None
  }

  lemma TrimOptIdempotent(o: Option<string>)
    ensures TrimOpt(TrimOpt(o)) == TrimOpt(o)
  {
    if o.Some? {
      TrimIdempotent(o.value);
    }
  }

  /** Bean Validation's @NotBlank fails: the value is null or trims to "". */
  predicate IsBlank(o: Option<string>) {
    o.None? || AllTrimmable(o.value)
  }

  predicate AllTrimmable(s: string) {
    forall i :: 0 <= i < |s| ==> IsTrimmable(s[i])
  }

  /** Blank means exactly that trimming leaves nothing, which is how the
      validator decides it. */
  lemma BlankIffTrimsToEmpty(o: Option<string>)
    ensures IsBlank(o) <==> o.None? || Trim(o.value) == []
  {
    if o.Some? {
      TrimSpec(o.value);
    }
  }

  /** Trimming neither makes a value blank nor makes a blank value non-blank. */
  lemma TrimOptBlank(o: Option<string>)
    ensures IsBlank(TrimOpt(o)) <==> IsBlank(o)
  {
    if o.Some? {
      TrimSpec(o.value);
      var r := Trim(o.value);
      if r != [] {
        assert !IsTrimmable(r[0]);
      }
    }
  }

  /** A non-blank value trims to a non-empty, non-blank value. */
  lemma NotBlankTrimmed(o: Option<string>)
    requires !IsBlank(o)
    ensures TrimOpt(o).Some? && TrimOpt(o).value != [] && !IsBlank(TrimOpt(o))
  {
    TrimOptBlank(o);
  }

  /** ASCII lower-casing, the part of SQL LOWER / String.toLowerCase modelled here. */
  function LowerChar(c: char): (l: char) {
    if 'A' <= c <= 'Z' then (c as int + 32) as char else c
  }

  function Lower(s: string): (r: string)
    ensures |r| == |s|
  {
    if s == [] then [] else [LowerChar(s[0])] + Lower(s[1..])
  }

  lemma {:induction false} LowerAt(s: string, i: nat)
    requires i < |s|
    ensures Lower(s)[i] == LowerChar(s[i])
  {
    if i > 0 {
      LowerAt(s[1..], i - 1);
    }
  }

  lemma {:induction false} LowerAppend(a: string, b: string)
    ensures Lower(a + b) == Lower(a) + Lower(b)
  {
    if a == [] {
      assert a + b == b;
    } else {
      assert (a + b)[0] == a[0];
      assert (a + b)[1..] == a[1..] + b;
      LowerAppend(a[1..], b);
    }
  }

  lemma {:induction false} LowerIdempotent(s: string)
    ensures Lower(Lower(s)) == Lower(s)
  {
    if s != [] {
      LowerIdempotent(s[1..]);
    }
  }

  predicate IsPrefix(p: string, s: string) {
    |p| <= |s| && s[..|p|] == p
  }

  /** s contains needle as a contiguous substring. */
  function Contains(s: string, needle: string): (r: bool)
  {
    IsPrefix(needle, s) || (s != [] && Contains(s[1..], needle))
  }

  /** needle occurs in s starting at position i. */
  predicate OccursAt(s: string, needle: string, i: int) {
    0 <= i && i + |needle| <= |s| && s[i..i + |needle|] == needle
  }

  /** Contains agrees with the positional definition of a substring. */
  lemma {:induction false} ContainsAt(s: string, needle: string)
    ensures Contains(s, needle) <==> exists i :: OccursAt(s, needle, i)
  {
    if IsPrefix(needle, s) {
      assert OccursAt(s, needle, 0);
    } else if s == [] {
    } else {
      ContainsAt(s[1..], needle);
      if Contains(s[1..], needle) {
        var i :| OccursAt(s[1..], needle, i);
        assert s[i + 1..i + 1 + |needle|] == s[1..][i..i + |needle|];
        assert OccursAt(s, needle, i + 1);
      }
      if exists i :: OccursAt(s, needle, i) {
        var i :| OccursAt(s, needle, i);
        assert i != 0;
        assert s[1..][i - 1..i - 1 + |needle|] == s[i..i + |needle|];
        assert OccursAt(s[1..], needle, i - 1);
      }
    }
  }

  /** The empty string is contained in every string (LIKE '%%' matches anything). */
  lemma ContainsEmpty(s: string)
    ensures Contains(s, [])
  {
    assert IsPrefix([], s);
  }

  /** Case-insensitive containment: LOWER(s) LIKE LOWER('%' + needle + '%'). */
  predicate ContainsIgnoreCase(s: string, needle: string) {
    Contains(Lower(s), Lower(needle))
  }

  /** Every string contains itself, whatever its case. */
  lemma ContainsIgnoreCaseSelf(s: string)
    ensures ContainsIgnoreCase(s, s)
  {
    assert IsPrefix(Lower(s), Lower(s));
  }

  /** s carries neither LIKE wildcard ('%' or '_'), so `LIKE '%' + s + '%'` is plain containment. */
  predicate NoLikeWildcards(s: string) {
    forall i :: 0 <= i < |s| ==> s[i] != '%' && s[i] != '_'
  }

  /** Lexicographic order on chars, the model of ORDER BY name ASC. */
  predicate LexLeq(a: string, b: string) {
    a == [] || (b != [] && (a[0] < b[0] || (a[0] == b[0] && LexLeq(a[1..], b[1..]))))
  }

  lemma {:induction false} LexLeqTotal(a: string, b: string)
    ensures LexLeq(a, b) || LexLeq(b, a)
  {
    if a != [] && b != [] && a[0] == b[0] {
      LexLeqTotal(a[1..], b[1..]);
    }
  }

  lemma {:induction false} LexLeqTransitive(a: string, b: string, c: string)
    requires LexLeq(a, b) && LexLeq(b, c)
    ensures LexLeq(a, c)
  {
    if a != [] && b != [] && c != [] && a[0] == b[0] == c[0] {
      LexLeqTransitive(a[1..], b[1..], c[1..]);
    }
  }

  function DigitChar(d: nat): (c: char)
    requires d < 10
  {
    "0123456789"[d]
  }

  function DigitValue(c: char): (d: nat) {
    if '0' <= c <= '9' then c as int - '0' as int else 0
  }

  /** Decimal rendering of a natural number, without leading zeros. */
  function NatToString(n: nat): (r: string)
    ensures r != []
    ensures forall i :: 0 <= i < |r| ==> '0' <= r[i] <= '9'
    ensures |r| > 1 ==> r[0] != '0'
  {
    if n < 10 then [DigitChar(n)] else NatToString(n / 10) + [DigitChar(n % 10)]
  }

  /** Reads a string of decimal digits back as a number. */
  function ParseNat(s: string): (n: nat) {
    if s == [] then 0 else 10 * ParseNat(s[..|s| - 1]) + DigitValue(s[|s| - 1])
  }

  /** The rendering is exact: it reads back as the number it renders. */
  lemma {:induction false} ParseNatToString(n: nat)
    ensures ParseNat(NatToString(n)) == n
  {
    if n < 10 {
      DigitRoundTrip(n);
      var s := NatToString(n);
      assert s[..|s| - 1] == [];
    } else {
      var q, d := n / 10, n % 10;
      var s := NatToString(q) + [DigitChar(d)];
      assert s[..|s| - 1] == NatToString(q);
      ParseNatToString(q);
      DigitRoundTrip(d);
      assert ParseNat(s) == 10 * q + d;
    }
  }

  lemma DigitRoundTrip(d: nat)
    requires d < 10
    ensures DigitValue(DigitChar(d)) == d
  {
  }

  /** Decimal rendering of a Java long, with a leading '-' when negative. */
  function IntToString(i: int): (r: string)
    ensures r != [] && (r[0] == '-' <==> i < 0)
  {
    var digits := NatToString(if i < 0 then -i else i);
    if i < 0 then "-" + digits else digits
  }

  /** Reads back a rendered integer. */
  function ParseInt(s: string): (n: int) {
    if s != [] && s[0] == '-' then 0 - ParseNat(s[1..]) else ParseNat(s)
  }

  lemma IntToStringRoundTrip(i: int)
    ensures ParseInt(IntToString(i)) == i
  {
    if i < 0 {
      NegativeRoundTrip(i);
    } else {
      NonNegativeRoundTrip(i);
    }
  }

  lemma NonNegativeRoundTrip(i: int)
    requires i >= 0
    ensures ParseInt(IntToString(i)) == i
  {
    var r := NatToString(i);
    assert r[0] != '-';
    ParseNatToString(i);
  }

  lemma NegativeRoundTrip(i: int)
    requires i < 0
    ensures ParseInt(IntToString(i)) == i
  {
    SignedDigitsRoundTrip(-i);
  }

  lemma SignedDigitsRoundTrip(n: nat)
    ensures ParseInt("-" + NatToString(n)) + n == 0
  {
    var digits := NatToString(n);
    var r := "-" + digits;
    assert r[1..] == digits;
    ParseNatToString(n);
  }

  /** Java's rendering of a possibly-null String in a concatenation. */
  function JavaString(o: Option<string>): (s: string) {
    if o.Some? then o.value else "null"
  }
}
