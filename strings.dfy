/**
 * The JavaScript string operations the console relies on: case-insensitive `indexOf`,
 * `split` by a literal separator, `parseInt` and `Number.prototype.toString` for integers.
 * Case mapping is ASCII only.
 */
module Strings {
  import opened Wrappers

  function LowerChar(c: char): char
  {
    if 'A' <= c <= 'Z' then (c as int + 32) as char else c
  }

  /** `s.toLowerCase()` restricted to ASCII letters. */
  function Lower(s: string): (r: string)
    ensures |r| == |s|
  {
    if s == [] then [] else [LowerChar(s[0])] + Lower(s[1..])
  }

  /** `sub` occurs in `s` starting at index `i`. */
  predicate OccursAt(s: string, sub: string, i: nat)
  {
    i + |sub| <= |s| && s[i..i + |sub|] == sub
  }

  /** `s.indexOf(sub, from)`, with `None` for -1. */
  function IndexOfFrom(s: string, sub: string, from: nat): (r: Option<nat>)
    ensures r.Some? ==> from <= r.value && OccursAt(s, sub, r.value)
    ensures r.Some? ==> forall j :: from <= j < r.value ==> !OccursAt(s, sub, j)
    ensures r.None? ==> forall j :: from <= j ==> !OccursAt(s, sub, j)
    decreases |s| - from
  {
    if from + |sub| > |s| then None
    else if s[from..from + |sub|] == sub then Some(from)
    else IndexOfFrom(s, sub, from + 1)
  }

  function IndexOf(s: string, sub: string): Option<nat>
  {
    IndexOfFrom(s, sub, 0)
  }

  /** `s.indexOf(sub) !== -1`. */
  predicate Includes(s: string, sub: string)
  {
    IndexOf(s, sub).Some?
  }

  lemma IncludesMeansOccurs(s: string, sub: string)
    ensures Includes(s, sub) <==> exists i: nat :: OccursAt(s, sub, i)
  {
    if Includes(s, sub) {
      assert OccursAt(s, sub, IndexOf(s, sub).value);
    }
  }

  /**
   * The literal, case-insensitive substring test the search boxes use
   * (`a.toLowerCase().indexOf(q.toLowerCase()) !== -1`, or a RegExp of the escaped query with flag "i").
   */
  predicate IncludesIgnoringCase(s: string, query: string)
  {
    Includes(Lower(s), Lower(query))
  }

  /** `s.split(sep)` for a non-empty literal separator. */
  function Split(s: string, sep: string): (parts: seq<string>)
    requires |sep| > 0
    ensures |parts| >= 1
    ensures Includes(s, sep) <==> |parts| >= 2
    decreases |s|
  {
    match IndexOf(s, sep)
    case None => [s]
    case Some(i) => [s[..i]] + Split(s[i + |sep|..], sep)
  }

  /** `parts.join(sep)`. */
  function Join(parts: seq<string>, sep: string): string
    requires |parts| >= 1
  {
    if |parts| == 1 then parts[0] else parts[0] + sep + Join(parts[1..], sep)
  }

  /** JavaScript's `array[k]`: `None` stands for `undefined` past the end. */
  function At(parts: seq<string>, k: nat): Option<string>
  {
    if k < |parts| then Some(parts[k]) else None
  }

  /** The last element of a split (`parts[parts.length - 1]`). */
  function Last(parts: seq<string>): string
    requires |parts| >= 1
  {
    parts[|parts| - 1]
  }

  /** Splitting and joining again gives back the original text. */
  lemma {:induction false} JoinSplit(s: string, sep: string)
    requires |sep| > 0
    ensures Join(Split(s, sep), sep) == s
    decreases |s|
  {
    var r := IndexOf(s, sep);
    if r.Some? {
      var i := r.value;
      var rest := s[i + |sep|..];
      var tail := Split(rest, sep);
      assert Split(s, sep) == [s[..i]] + tail;
      JoinSplit(rest, sep);
      assert Join([s[..i]] + tail, sep) == s[..i] + sep + Join(tail, sep);
      assert s[i..i + |sep|] == sep;
      assert s == s[..i] + s[i..i + |sep|] + rest;
    }
  }

  /** A text without the separator is its own single part. */
  lemma SplitWithoutSeparator(s: string, sep: string)
    requires |sep| > 0 && !Includes(s, sep)
    ensures Split(s, sep) == [s]
  {
  }

  /** The first part never contains the separator. */
  lemma SplitHeadHasNoSeparator(s: string, sep: string)
    requires |sep| > 0
    ensures !Includes(Split(s, sep)[0], sep)
  {
    var h := Split(s, sep)[0];
    match IndexOf(s, sep)
    case None =>
    case Some(i) =>
      assert h == s[..i];
      forall j: nat | OccursAt(h, sep, j) ensures false {
        assert s[j..j + |sep|] == h[j..j + |sep|];
        assert OccursAt(s, sep, j);
      }
      IncludesMeansOccurs(h, sep);
  }

  /** Splitting `a + [c] + b` by the one-character separator `[c]`, when `a` has no `c`. */
  lemma SplitAfterFirst(a: string, c: char, b: string)
    requires c !in a
    ensures Split(a + [c] + b, [c]) == [a] + Split(b, [c])
  {
    var s := a + [c] + b;
    assert OccursAt(s, [c], |a|);
    forall j: nat | j < |a| ensures !OccursAt(s, [c], j) {
      assert s[j] == a[j];
    }
    var r := IndexOf(s, [c]);
    assert r.Some? && r.value == |a|;
    assert s[..|a|] == a;
    assert s[|a| + 1..] == b;
  }

  /** A text without `c` splits into itself alone. */
  lemma SplitNoChar(b: string, c: char)
    requires c !in b
    ensures Split(b, [c]) == [b]
  {
    forall j: nat | j < |b| ensures !OccursAt(b, [c], j) {
      assert b[j..j + 1] == [b[j]];
    }
    IncludesMeansOccurs(b, [c]);
  }

  /** The last part of a split by `[c]` is whatever follows the last `c`. */
  lemma {:induction false} SplitLastSegment(a: string, c: char, b: string)
    requires c !in b
    ensures Last(Split(a + [c] + b, [c])) == b
    decreases |a|
  {
    if c !in a {
      SplitAfterFirst(a, c, b);
      SplitNoChar(b, c);
    } else {
      var i := FirstChar(a, c);
      var a2 := a[i + 1..];
      SplitAtFirstChar(a, c, b, i);
      SplitLastSegment(a2, c, b);
    }
  }

  /** One step of `SplitLastSegment`: the split after the first `c` of `a` ends like the split of the rest. */
  lemma SplitAtFirstChar(a: string, c: char, b: string, i: nat)
    requires i < |a| && a[i] == c && c !in a[..i]
    ensures Last(Split(a + [c] + b, [c])) == Last(Split(a[i + 1..] + [c] + b, [c]))
  {
    var a1 := a[..i];
    var rest := a[i + 1..] + [c] + b;
    assert a + [c] + b == a1 + [c] + rest by {
      assert a == a1 + [c] + a[i + 1..];
    }
    SplitAfterFirst(a1, c, rest);
  }

  /** The index of the first `c` in `a`. */
  function FirstChar(a: string, c: char): (i: nat)
    requires c in a
    ensures i < |a| && a[i] == c && c !in a[..i]
  {
    if a[0] == c then 0
    else
      var j := FirstChar(a[1..], c);
      assert a[..j + 1] == [a[0]] + a[1..][..j];
      j + 1
  }

  // ---- JavaScript parseInt (radix 10) and integer toString ----

  predicate IsSpace(c: char)
  {
    c == ' ' || 9 <= c as int <= 13
  }

  predicate IsDigit(c: char)
  {
    '0' <= c <= '9'
  }

  function TrimStart(s: string): (r: string)
    ensures |r| <= |s|
  {
    if |s| > 0 && IsSpace(s[0]) then TrimStart(s[1..]) else s
  }

  /** The longest prefix of decimal digits. */
  function LeadingDigits(s: string): (r: string)
    ensures |r| <= |s| && r == s[..|r|]
    ensures forall i :: 0 <= i < |r| ==> IsDigit(r[i])
  {
    if |s| > 0 && IsDigit(s[0]) then [s[0]] + LeadingDigits(s[1..]) else []
  }

  /** The value of a non-empty run of decimal digits, most significant first. */
  function DigitsValue(ds: string): nat
    requires forall i :: 0 <= i < |ds| ==> IsDigit(ds[i])
  {
    if ds == [] then 0
    else
      assert IsDigit(ds[|ds| - 1]);
      DigitsValue(ds[..|ds| - 1]) * 10 + (ds[|ds| - 1] as int - '0' as int)
  }

  /**
   * `parseInt(s)`: leading white space, an optional sign, then the longest run of digits;
   * `None` is `NaN` (no digit at all).
   */
  function ParseInt(s: string): Option<int>
  {
    var t := TrimStart(s);
    var negative := |t| > 0 && t[0] == '-';
    var body := if |t| > 0 && (t[0] == '-' || t[0] == '+') then t[1..] else t;
    var ds := LeadingDigits(body);
    if |ds| == 0 then None
    else Some(if negative then -(DigitsValue(ds) as int) else DigitsValue(ds) as int)
  }

  function DigitChar(d: nat): char
    requires d < 10
  {
    ('0' as int + d) as char
  }

  /** Decimal text of a natural number without leading zeros. */
  function NatToString(n: nat): (r: string)
    ensures |r| >= 1
    ensures forall i :: 0 <= i < |r| ==> IsDigit(r[i])
  {
    if n < 10 then [DigitChar(n)] else NatToString(n / 10) + [DigitChar(n % 10)]
  }

  /** `n.toString()` for an integer (exponent notation for huge values is not modelled). */
  function IntToString(n: int): string
  {
    if n < 0 then "-" + NatToString(-n) else NatToString(n)
  }

  lemma {:induction false} NatToStringValue(n: nat)
    ensures DigitsValue(NatToString(n)) == n
  {
    if n >= 10 {
      NatToStringValue(n / 10);
      var s := NatToString(n);
      assert s[..|s| - 1] == NatToString(n / 10);
    }
  }

  lemma {:induction false} LeadingDigitsOfDigits(s: string)
    requires forall i :: 0 <= i < |s| ==> IsDigit(s[i])
    ensures LeadingDigits(s) == s
  {
    if s != [] {
      LeadingDigitsOfDigits(s[1..]);
    }
  }

  /** `parseInt(String(n)) === n`: reading back the decimal text of an integer gives the integer. */
  lemma ParseIntOfIntToString(n: int)
    ensures ParseInt(IntToString(n)) == Some(n)
  {
    var m: nat := if n < 0 then -n else n;
    NatToStringValue(m);
    ParseIntOfDigits(NatToString(m));
  }

  /** A non-empty run of digits, with or without a minus sign, reads back as its value. */
  lemma ParseIntOfDigits(ds: string)
    requires |ds| >= 1 && forall i :: 0 <= i < |ds| ==> IsDigit(ds[i])
    ensures ParseInt(ds) == Some(DigitsValue(ds) as int)
    ensures ParseInt("-" + ds) == Some(-(DigitsValue(ds) as int))
  {
    LeadingDigitsOfDigits(ds);
    TrimStartAtNonSpace(ds);
    assert ds[0] != '-' && ds[0] != '+' by {
      assert IsDigit(ds[0]);
    }
    var s := "-" + ds;
    TrimStartAtNonSpace(s);
    assert s[0] == '-' && s[1..] == ds;
  }

  lemma TrimStartAtNonSpace(s: string)
    requires |s| > 0 && !IsSpace(s[0])
    ensures TrimStart(s) == s
  {
  }
}
