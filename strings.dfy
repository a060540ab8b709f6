/** The parts of Python's `str` and `list` behaviour that the backend relies on:
    substring search, `split`, `join`, `strip`, slicing and decimal integers. */
module Strings {
  import opened Wrappers

  // ---------------------------------------------------------------------------
  // Substring search
  // ---------------------------------------------------------------------------

  /** `pat` occurs in `s` starting at index `i`. */
  predicate OccursAt(s: string, pat: string, i: nat) {
    i + |pat| <= |s| && s[i..i + |pat|] == pat
  }

  predicate StartsWith(s: string, prefix: string) {
    |prefix| <= |s| && s[..|prefix|] == prefix
  }

  predicate EndsWith(s: string, suffix: string) {
    |suffix| <= |s| && s[|s| - |suffix|..] == suffix
  }

  lemma OccursAtTail(s: string, pat: string, k: nat)
    requires |s| > 0
    ensures OccursAt(s[1..], pat, k) <==> OccursAt(s, pat, k + 1)
  {
    if k + |pat| <= |s[1..]| {
      assert s[1..][k..k + |pat|] == s[k + 1..k + 1 + |pat|];
    }
  }

  /** Index of the first occurrence of `pat` in `s` (Python's `s.find(pat)`). */
  function Find(s: string, pat: string): (r: Option<nat>)
    ensures r.Some? ==> OccursAt(s, pat, r.value)
    ensures r.Some? ==> forall j: nat :: j < r.value ==> !OccursAt(s, pat, j)
    ensures r.None? ==> forall j: nat :: !OccursAt(s, pat, j)
    decreases |s|
  {
    if |s| < |pat| then None
    else if s[..|pat|] == pat then Some(0)
    else
      var rest := Find(s[1..], pat);
      assert !OccursAt(s, pat, 0);
      match rest
      case None =>
        assert forall j: nat :: !OccursAt(s, pat, j) by {
          forall j: nat ensures !OccursAt(s, pat, j) {
            if j > 0 { OccursAtTail(s, pat, j - 1); }
          }
        }
        None
      case Some(k) =>
        OccursAtTail(s, pat, k);
        assert forall j: nat :: j < k + 1 ==> !OccursAt(s, pat, j) by {
          forall j: nat | j < k + 1 ensures !OccursAt(s, pat, j) {
            if j > 0 { OccursAtTail(s, pat, j - 1); }
          }
        }
        Some(k + 1)
  }

  /** Python's `pat in s`. */
  predicate Contains(s: string, pat: string) {
    Find(s, pat).Some?
  }

  /** If `pat` occurs at `i` and nowhere before, `Find` returns `i`. */
  lemma FindAt(s: string, pat: string, i: nat)
    requires OccursAt(s, pat, i)
    requires forall j: nat :: j < i ==> !OccursAt(s, pat, j)
    ensures Find(s, pat) == Some(i)
  {
  }

  /** The first occurrence of `pat` in `s` stays the first whatever follows `s`. */
  lemma FindExtend(s: string, t: string, pat: string)
    requires Contains(s, pat)
    ensures Find(s + t, pat) == Find(s, pat)
  {
    var i := Find(s, pat).value;
    var st := s + t;
    assert st[i..i + |pat|] == s[i..i + |pat|];
    forall j: nat | j < i
      ensures !OccursAt(st, pat, j)
    {
      assert !OccursAt(s, pat, j);
      assert st[j..j + |pat|] == s[j..j + |pat|];
    }
    FindAt(st, pat, i);
  }

  /** When `x` holds no occurrence of `pat` and ends in a character `pat` lacks, no
      occurrence in `x + rest` starts inside `x`. */
  lemma NoOccurrenceBefore(x: string, rest: string, pat: string)
    requires !Contains(x, pat)
    requires |pat| > 0 && |x| > 0 && x[|x| - 1] !in pat
    ensures forall j: nat :: j < |x| ==> !OccursAt(x + rest, pat, j)
  {
    forall j: nat | j < |x|
      ensures !OccursAt(x + rest, pat, j)
    {
      if j + |pat| <= |x| {
        assert x[j..j + |pat|] == (x + rest)[j..j + |pat|];
        assert !OccursAt(x, pat, j);
      } else if j + |pat| <= |x + rest| {
        var k := |x| - 1 - j;
        assert (x + rest)[j..j + |pat|][k] == x[|x| - 1];
        assert pat[k] in pat;
      }
    }
  }

  // ---------------------------------------------------------------------------
  // split and join
  // ---------------------------------------------------------------------------

  /** Python's `s.split(sep)` for a non-empty separator. */
  function Split(s: string, sep: string): (r: seq<string>)
    requires |sep| > 0
    ensures |r| >= 1
    decreases |s|
  {
    match Find(s, sep)
    case None => [s]
    case Some(i) => [s[..i]] + Split(s[i + |sep|..], sep)
  }

  /** Python's `sep.join(parts)`. */
  function Join(parts: seq<string>, sep: string): string {
    if |parts| == 0 then ""
    else if |parts| == 1 then parts[0]
    else parts[0] + sep + Join(parts[1..], sep)
  }

  lemma JoinTail(parts: seq<string>, sep: string)
    requires |parts| >= 2
    ensures Join(parts, sep) == parts[0] + sep + Join(parts[1..], sep)
  {
  }

  /** Python's `''.join(parts)`. */
  function Concat(parts: seq<string>): string {
    if |parts| == 0 then "" else parts[0] + Concat(parts[1..])
  }

  lemma ConcatAppend(a: seq<string>, b: seq<string>)
    ensures Concat(a + b) == Concat(a) + Concat(b)
  {
    if |a| == 0 {
      assert a + b == b;
    } else {
      assert (a + b)[1..] == a[1..] + b;
      ConcatAppend(a[1..], b);
    }
  }

  lemma FindCharAbsent(s: string, c: char)
    requires c !in s
    ensures !Contains(s, [c])
  {
    forall j: nat ensures !OccursAt(s, [c], j) {
      if j + 1 <= |s| { assert s[j..j + 1][0] == s[j]; }
    }
  }

  lemma FindCharFirst(l: string, c: char, rest: string)
    requires c !in l
    ensures Find(l + [c] + rest, [c]) == Some(|l|)
  {
    var s := l + [c] + rest;
    assert s[|l|..|l| + 1] == [c];
    forall j: nat | j < |l| ensures !OccursAt(s, [c], j) {
      assert s[j..j + 1][0] == l[j];
    }
    FindAt(s, [c], |l|);
  }

  /** Splitting on a character undoes joining with it when no part contains it. */
  lemma {:induction false} SplitJoin(parts: seq<string>, c: char)
    requires |parts| >= 1
    requires forall i :: 0 <= i < |parts| ==> c !in parts[i]
    ensures Split(Join(parts, [c]), [c]) == parts
  {
    if |parts| == 1 {
      FindCharAbsent(parts[0], c);
    } else {
      var rest := Join(parts[1..], [c]);
      var s := parts[0] + [c] + rest;
      FindCharFirst(parts[0], c, rest);
      assert s[..|parts[0]|] == parts[0];
      assert s[|parts[0]| + 1..] == rest;
      SplitJoin(parts[1..], c);
    }
  }

  // ---------------------------------------------------------------------------
  // strip
  // ---------------------------------------------------------------------------

  /** Python's `str.isspace()` on one character: the characters whose bidirectional class
      is WS, B or S or whose category is Zs. */
  predicate IsSpace(c: char) {
    c == ' ' || ('\t' <= c <= '\r') || ('\U{1C}' <= c <= '\U{1F}') || c == '\U{85}' || c == '\U{A0}'
    || c == '\U{1680}' || ('\U{2000}' <= c <= '\U{200A}') || c == '\U{2028}' || c == '\U{2029}'
    || c == '\U{202F}' || c == '\U{205F}' || c == '\U{3000}'
  }

  /** Drops the leading characters satisfying `drop`. */
  function TrimLeft(s: string, drop: char -> bool): string {
    if |s| > 0 && drop(s[0]) then TrimLeft(s[1..], drop) else s
  }

  /** Drops the trailing characters satisfying `drop`. */
  function TrimRight(s: string, drop: char -> bool): string {
    if |s| > 0 && drop(s[|s| - 1]) then TrimRight(s[..|s| - 1], drop) else s
  }

  /** Python's `s.strip(chars)`, with the character set given as a predicate. */
  function Trim(s: string, drop: char -> bool): string {
    TrimRight(TrimLeft(s, drop), drop)
  }

  /** Python's `s.strip()` (whitespace). */
  function Strip(s: string): string {
    Trim(s, IsSpace)
  }

  /** `lstrip` removes a prefix made of dropped characters and stops at a kept one. */
  lemma {:induction false} TrimLeftSpec(s: string, drop: char -> bool)
    ensures var r := TrimLeft(s, drop);
            |r| <= |s| && r == s[|s| - |r|..]
            && (forall i :: 0 <= i < |s| - |r| ==> drop(s[i]))
            && (|r| > 0 ==> !drop(r[0]))
  {
    if |s| > 0 && drop(s[0]) {
      TrimLeftSpec(s[1..], drop);
      var r := TrimLeft(s, drop);
      forall i | 0 <= i < |s| - |r|
        ensures drop(s[i])
      {
        if i > 0 {
          assert s[i] == s[1..][i - 1];
        }
      }
    }
  }

  /** `rstrip` removes a suffix made of dropped characters and stops at a kept one. */
  lemma {:induction false} TrimRightSpec(s: string, drop: char -> bool)
    ensures var r := TrimRight(s, drop);
            |r| <= |s| && r == s[..|r|]
            && (forall i :: |r| <= i < |s| ==> drop(s[i]))
            && (|r| > 0 ==> !drop(r[|r| - 1]))
  {
    if |s| > 0 && drop(s[|s| - 1]) {
      TrimRightSpec(s[..|s| - 1], drop);
      var r := TrimRight(s, drop);
      forall i | |r| <= i < |s|
        ensures drop(s[i])
      {
        if i < |s| - 1 {
          assert s[i] == s[..|s| - 1][i];
        }
      }
    }
  }

  /** `strip` keeps a middle slice whose ends are kept characters; it is empty exactly
      when every character is dropped. */
  lemma TrimSpec(s: string, drop: char -> bool)
    ensures var r := Trim(s, drop);
            |r| <= |s|
            && (|r| > 0 ==> !drop(r[0]) && !drop(r[|r| - 1]))
            && ((exists i :: 0 <= i < |s| && !drop(s[i])) <==> |r| > 0)
  {
    TrimEnds(s, drop);
    TrimKeeps(s, drop);
  }

  lemma TrimEnds(s: string, drop: char -> bool)
    ensures var r := Trim(s, drop);
            |r| <= |s| && (|r| > 0 ==> !drop(r[0]) && !drop(r[|r| - 1]))
  {
    var l := TrimLeft(s, drop);
    TrimLeftSpec(s, drop);
    var r := TrimRight(l, drop);
    TrimRightSpec(l, drop);
    assert |r| > 0 ==> l[0] == r[0];
  }

  lemma TrimKeeps(s: string, drop: char -> bool)
    ensures (exists i :: 0 <= i < |s| && !drop(s[i])) <==> |Trim(s, drop)| > 0
  {
    if exists i :: 0 <= i < |s| && !drop(s[i]) {
      var i :| 0 <= i < |s| && !drop(s[i]);
      KeptSurvivesTrim(s, drop, i);
    }
    if |Trim(s, drop)| > 0 {
      var a := TrimmedStart(s, drop);
    }
  }

  /** A kept character leaves something after trimming. */
  lemma KeptSurvivesTrim(s: string, drop: char -> bool, i: nat)
    requires i < |s| && !drop(s[i])
    ensures |Trim(s, drop)| > 0
  {
    var l := TrimLeft(s, drop);
    TrimLeftSpec(s, drop);
    TrimRightSpec(l, drop);
    var a := |s| - |l|;
    assert i >= a;
    assert l[i - a] == s[i];
    assert !drop(l[0]);
  }

  /** A non-empty trim starts at a kept character of `s`. */
  lemma TrimmedStart(s: string, drop: char -> bool) returns (a: nat)
    requires |Trim(s, drop)| > 0
    ensures a < |s| && !drop(s[a])
  {
    var l := TrimLeft(s, drop);
    TrimLeftSpec(s, drop);
    var r := TrimRight(l, drop);
    TrimRightSpec(l, drop);
    a := |s| - |l|;
    assert s[a] == l[0] == r[0];
  }

  /** A string with kept characters at both ends is left alone. */
  lemma TrimIdentity(s: string, drop: char -> bool)
    requires |s| == 0 || (!drop(s[0]) && !drop(s[|s| - 1]))
    ensures Trim(s, drop) == s
  {
  }

  /** Concatenation regrouped, for proofs that would otherwise compare whole sequences. */
  lemma SeqAssoc<T>(a: seq<T>, b: seq<T>, c: seq<T>)
    ensures a + b + c == a + (b + c)
  {
  }

  // ---------------------------------------------------------------------------
  // Slicing with Python's clamping
  // ---------------------------------------------------------------------------

  /** Python's `s[lo:hi]` for non-negative bounds. */
  function Slice<T>(s: seq<T>, lo: nat, hi: nat): (r: seq<T>)
    ensures |r| <= |s| && (hi <= lo ==> r == [])
    ensures |r| <= hi - lo || hi < lo
    ensures r == (if lo < (if hi <= |s| then hi else |s|) then s[lo..(if hi <= |s| then hi else |s|)] else [])
  {
    var h := if hi <= |s| then hi else |s|;
    if lo >= h then [] else s[lo..h]
  }

  /** Python's `s[-n:]` for `n > 0`: the last `n` elements, or all of them. */
  function LastN<T>(s: seq<T>, n: nat): (r: seq<T>)
    ensures |r| == if |s| < n then |s| else n
    ensures r == s[|s| - |r|..]
  {
    if |s| < n then s else s[|s| - n..]
  }

  /** Python's `s[:-n]` for `n > 0`: all but the last `n` elements. */
  function DropLastN<T>(s: seq<T>, n: nat): (r: seq<T>)
    ensures r + LastN(s, n) == s
  {
    if |s| < n then [] else s[..|s| - n]
  }

  // ---------------------------------------------------------------------------
  // Decimal integers
  // ---------------------------------------------------------------------------

  predicate IsDigit(c: char) {
    '0' <= c <= '9'
  }

  function DigitChar(d: nat): (c: char)
    requires d < 10
    ensures IsDigit(c)
  {
    ['0', '1', '2', '3', '4', '5', '6', '7', '8', '9'][d]
  }

  function DigitValue(c: char): (d: nat)
    requires IsDigit(c)
    ensures d < 10
  {
    (c as int - '0' as int) as nat
  }

  lemma DigitRoundTrip(d: nat)
    requires d < 10
    ensures DigitValue(DigitChar(d)) == d
  {
  }

  /** Python's `str(n)` for `n >= 0`. */
  function NatToString(n: nat): (r: string)
    ensures |r| >= 1
    ensures forall i :: 0 <= i < |r| ==> IsDigit(r[i])
    decreases n
  {
    if n < 10 then [DigitChar(n)] else NatToString(n / 10) + [DigitChar(n % 10)]
  }

  /** Python's `str(i)`. */
  function IntToString(i: int): (r: string)
    ensures |r| >= 1 && !IsSpace(r[0]) && !IsSpace(r[|r| - 1])
  {
    if i < 0 then "-" + NatToString(-i) else NatToString(i)
  }

  /** The value of a non-empty run of ASCII digits. */
  function DigitsValue(s: string): nat
    requires forall i :: 0 <= i < |s| ==> IsDigit(s[i])
  {
    if |s| == 0 then 0 else DigitsValue(s[..|s| - 1]) * 10 + DigitValue(s[|s| - 1])
  }

  predicate AllDigits(s: string) {
    |s| > 0 && forall i :: 0 <= i < |s| ==> IsDigit(s[i])
  }

  /** Python's `int(s)` on ASCII input: optional surrounding whitespace, an optional
      sign, then at least one digit; anything else raises (here: `None`). */
  function ParseInt(s: string): (r: Option<int>)
  {
    var t := Strip(s);
    if |t| > 0 && (t[0] == '-' || t[0] == '+') then
      if AllDigits(t[1..]) then Some(if t[0] == '-' then 0 - DigitsValue(t[1..]) else DigitsValue(t[1..]))
      else None
    else if AllDigits(t) then Some(DigitsValue(t))
    else None
  }

  lemma {:induction false} DigitsOfNat(n: nat)
    ensures DigitsValue(NatToString(n)) == n
    decreases n
  {
    var s := NatToString(n);
    if n < 10 {
      DigitRoundTrip(n);
    } else {
      DigitsOfNat(n / 10);
      assert s[..|s| - 1] == NatToString(n / 10);
      DigitRoundTrip(n % 10);
    }
  }

  /** `int(str(i)) == i`. */
  lemma ParseIntOfIntToString(i: int)
    ensures ParseInt(IntToString(i)) == Some(i)
  {
    if i < 0 {
      var n: nat := -i;
      ParseNegative(n);
      assert IntToString(i) == "-" + NatToString(n);
    } else {
      ParseNatural(i);
    }
  }

  lemma ParseNatural(i: int)
    requires i >= 0
    ensures ParseInt(IntToString(i)) == Some(i)
  {
    var s := NatToString(i);
    TrimIdentity(s, IsSpace);
    DigitsOfNat(i);
    assert IsDigit(s[0]);
  }

  lemma ParseNegative(n: nat)
    ensures ParseInt("-" + NatToString(n)) == Some(0 - n)
  {
    var d := NatToString(n);
    DigitsOfNat(n);
    assert AllDigits(d);
    var s := "-" + d;
    ParseMinusDigits(s, d, 0 - n);
  }

  /** A minus sign followed by the digits of `-i` is read as `i`. */
  lemma ParseMinusDigits(s: string, d: string, i: int)
    requires AllDigits(d) && s == "-" + d && DigitsValue(d) == 0 - i
    ensures ParseInt(s) == Some(i)
  {
    assert s[1..] == d && s[|s| - 1] == d[|d| - 1];
    TrimIdentity(s, IsSpace);
  }

  // ---------------------------------------------------------------------------
  // Case
  // ---------------------------------------------------------------------------

  function LowerChar(c: char): char {
    if 'A' <= c <= 'Z' then (c as int - 'A' as int + 'a' as int) as char else c
  }

  /** Python's `s.lower()` on ASCII letters; other characters are left as they are. */
  function Lower(s: string): (r: string)
    ensures |r| == |s|
    ensures forall i :: 0 <= i < |s| ==> r[i] == LowerChar(s[i])
  {
    if |s| == 0 then "" else [LowerChar(s[0])] + Lower(s[1..])
  }

  // ---------------------------------------------------------------------------
  // Lists of names
  // ---------------------------------------------------------------------------

  /** No name occurs twice. */
  predicate Distinct(names: seq<string>) {
    forall i, j :: 0 <= i < j < |names| ==> names[i] != names[j]
  }

  /** The other names, in order. */
  function Without(names: seq<string>, name: string): (r: seq<string>)
    ensures forall n :: n in r <==> n in names && n != name
    ensures Distinct(names) ==> Distinct(r)
  {
    if |names| == 0 then []
    else
      var rest := Without(names[1..], name);
      assert Distinct(names) ==> Distinct(names[1..]) && names[0] !in names[1..];
      (if names[0] == name then [] else [names[0]]) + rest
  }
}
