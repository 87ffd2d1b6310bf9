/** The small part of Go's `strings` and `strconv` packages that the modelled
    code calls: ASCII case mapping, Unicode white-space trimming, substring
    search, joining and splitting, and decimal conversion of 64-bit ints. */
module Text {
  import opened Wrappers

  // ---------------------------------------------------------------------
  // White space and trimming (strings.TrimSpace)
  // ---------------------------------------------------------------------

  /** unicode.IsSpace: the Latin-1 spaces and the White_Space code points. */
  predicate IsSpace(c: char) {
    c == '\t' || c == '\n' || c == '\U{000B}' || c == '\U{000C}' || c == '\r' || c == ' '
    || c == '\U{0085}' || c == '\U{00A0}' || c == '\U{1680}'
    || ('\U{2000}' <= c <= '\U{200A}')
    || c == '\U{2028}' || c == '\U{2029}' || c == '\U{202F}' || c == '\U{205F}' || c == '\U{3000}'
  }

  predicate AllSpace(s: string) {
    forall i :: 0 <= i < |s| ==> IsSpace(s[i])
  }

  /** Drops leading white space: what is left is a suffix of `s`, what was
      dropped is all white space, and what is left does not start with it. */
  function TrimLeft(s: string): (r: string)
    ensures |r| <= |s| && r == s[|s| - |r|..]
    ensures forall i :: 0 <= i < |s| - |r| ==> IsSpace(s[i])
    ensures r == [] || !IsSpace(r[0])
  {
    if |s| > 0 && IsSpace(s[0]) then
      var r := TrimLeft(s[1..]);
      assert forall i :: 1 <= i < |s| ==> s[i] == s[1..][i - 1];
      r
    else
      s
  }

  /** Drops trailing white space, symmetrically to TrimLeft. */
  function TrimRight(s: string): (r: string)
    ensures |r| <= |s| && r == s[..|r|]
    ensures forall i :: |r| <= i < |s| ==> IsSpace(s[i])
    ensures r == [] || !IsSpace(r[|r| - 1])
  {
    if |s| > 0 && IsSpace(s[|s| - 1]) then
      var r := TrimRight(s[..|s| - 1]);
      assert forall i :: 0 <= i < |s| - 1 ==> s[i] == s[..|s| - 1][i];
      r
    else
      s
  }

  /** strings.TrimSpace. */
  function TrimSpace(s: string): string {
    TrimRight(TrimLeft(s))
  }

  /** What TrimSpace leaves neither starts nor ends with white space, and
      `s` is it with a white-space prefix and suffix around it. */
  lemma TrimSpaceDropsPadding(s: string)
    ensures var r := TrimSpace(s);
            && (r == [] || (!IsSpace(r[0]) && !IsSpace(r[|r| - 1])))
            && exists p, q :: s == p + r + q && AllSpace(p) && AllSpace(q)
  {
    TrimmedParts(s, TrimLeft(s), TrimSpace(s));
  }

  /** A suffix of `s` after white space, and a prefix of that before white
      space, leave a white-space prefix and suffix of `s` around them. */
  lemma TrimmedParts(s: string, l: string, r: string)
    requires |l| <= |s| && l == s[|s| - |l|..] && forall i :: 0 <= i < |s| - |l| ==> IsSpace(s[i])
    requires |r| <= |l| && r == l[..|r|] && forall i :: |r| <= i < |l| ==> IsSpace(l[i])
    requires l == [] || !IsSpace(l[0])
    requires r == [] || !IsSpace(r[|r| - 1])
    ensures r == [] || (!IsSpace(r[0]) && !IsSpace(r[|r| - 1]))
    ensures exists p, q :: s == p + r + q && AllSpace(p) && AllSpace(q)
  {
    var p := s[..|s| - |l|];
    var q := l[|r|..];
    assert l == r + q;
    assert s == p + l;
    forall i | 0 <= i < |q| ensures IsSpace(q[i]) { assert q[i] == l[|r| + i]; }
    assert s == p + r + q && AllSpace(p) && AllSpace(q);
    if r != [] { assert r[0] == l[0]; }
  }

  lemma {:induction false} TrimLeftSkipsSpaces(p: string, x: string)
    requires AllSpace(p)
    ensures TrimLeft(p + x) == TrimLeft(x)
  {
    if p != [] {
      assert (p + x)[0] == p[0] && IsSpace(p[0]);
      assert (p + x)[1..] == p[1..] + x;
      assert AllSpace(p[1..]) by {
        forall i | 0 <= i < |p| - 1 ensures IsSpace(p[1..][i]) { assert p[1..][i] == p[i + 1]; }
      }
      TrimLeftSkipsSpaces(p[1..], x);
    } else {
      assert p + x == x;
    }
  }

  lemma {:induction false} TrimRightSkipsSpaces(x: string, q: string)
    requires AllSpace(q)
    ensures TrimRight(x + q) == TrimRight(x)
  {
    if q != [] {
      var q' := q[..|q| - 1];
      assert (x + q)[|x + q| - 1] == q[|q| - 1] && IsSpace(q[|q| - 1]);
      assert (x + q)[..|x + q| - 1] == x + q';
      assert AllSpace(q') by {
        forall i | 0 <= i < |q'| ensures IsSpace(q'[i]) { assert q'[i] == q[i]; }
      }
      TrimRightSkipsSpaces(x, q');
    } else {
      assert x + q == x;
    }
  }

  lemma {:induction false} TrimLeftOfAppend(s: string, q: string)
    ensures TrimLeft(s + q) == if AllSpace(s) then TrimLeft(q) else TrimLeft(s) + q
  {
    if s == [] {
      assert s + q == q;
    } else if IsSpace(s[0]) {
      assert (s + q)[1..] == s[1..] + q;
      TrimLeftOfAppend(s[1..], q);
      assert AllSpace(s) == AllSpace(s[1..]);
    } else {
      assert !AllSpace(s);
    }
  }

  /** Surrounding white space never changes what TrimSpace returns. */
  lemma TrimSpaceIgnoresPadding(p: string, s: string, q: string)
    requires AllSpace(p) && AllSpace(q)
    ensures TrimSpace(p + s + q) == TrimSpace(s)
  {
    assert p + s + q == p + (s + q);
    TrimLeftSkipsSpaces(p, s + q);
    TrimLeftOfAppend(s, q);
    if AllSpace(s) {
      TrimLeftSkipsSpaces(q, []);
      TrimLeftSkipsSpaces(s, []);
      assert q + [] == q && s + [] == s;
    } else {
      TrimRightSkipsSpaces(TrimLeft(s), q);
    }
  }

  // ---------------------------------------------------------------------
  // ASCII case mapping (strings.ToLower, strings.EqualFold)
  // ---------------------------------------------------------------------

  function LowerChar(c: char): char {
    if 'A' <= c <= 'Z' then (c as int + 32) as char else c
  }

  /** strings.ToLower. */
  function ToLower(s: string): (r: string)
    ensures |r| == |s|
  {
    seq(|s|, i requires 0 <= i < |s| => LowerChar(s[i]))
  }

  predicate IsLowerCase(s: string) {
    forall i :: 0 <= i < |s| ==> !('A' <= s[i] <= 'Z')
  }

  /** ToLower gives a lower-case string equal to its input up to case, and
      leaves a lower-case string unchanged. */
  lemma ToLowerLowers(s: string)
    ensures IsLowerCase(ToLower(s))
    ensures EqualFold(ToLower(s), s)
    ensures IsLowerCase(s) ==> ToLower(s) == s
  {
  }

  /** Case-insensitive equality, one character at a time. */
  predicate EqualFold(a: string, b: string) {
    |a| == |b| && forall i :: 0 <= i < |a| ==> LowerChar(a[i]) == LowerChar(b[i])
  }

  /** Comparing against a lower-case literal after ToLower is the same as
      comparing case-insensitively. */
  lemma EqualFoldAgainstLower(s: string, t: string)
    requires IsLowerCase(t)
    ensures EqualFold(s, t) <==> ToLower(s) == t
  {
    if EqualFold(s, t) {
      assert forall i :: 0 <= i < |t| ==> LowerChar(t[i]) == t[i];
      assert ToLower(s) == t;
    }
  }

  /** Case-insensitive equality is equality after ToLower. */
  lemma EqualFoldIsLowerEquality(a: string, b: string)
    ensures EqualFold(a, b) <==> ToLower(a) == ToLower(b)
  {
    if ToLower(a) == ToLower(b) {
      forall i | 0 <= i < |a| ensures LowerChar(a[i]) == LowerChar(b[i]) {
        assert ToLower(a)[i] == ToLower(b)[i];
      }
    }
  }

  /** Two characters equal up to case are both white space or both not. */
  lemma FoldKeepsSpace(x: char, y: char)
    requires LowerChar(x) == LowerChar(y)
    ensures IsSpace(x) <==> IsSpace(y)
  {
  }

  lemma {:induction false} TrimLeftKeepsFold(a: string, b: string)
    requires EqualFold(a, b)
    ensures EqualFold(TrimLeft(a), TrimLeft(b))
  {
    if |a| > 0 {
      FoldKeepsSpace(a[0], b[0]);
      if IsSpace(a[0]) {
        assert EqualFold(a[1..], b[1..]) by {
          forall i | 0 <= i < |a| - 1 ensures LowerChar(a[1..][i]) == LowerChar(b[1..][i]) {
            assert a[1..][i] == a[i + 1] && b[1..][i] == b[i + 1];
          }
        }
        TrimLeftKeepsFold(a[1..], b[1..]);
      }
    }
  }

  lemma {:induction false} TrimRightKeepsFold(a: string, b: string)
    requires EqualFold(a, b)
    ensures EqualFold(TrimRight(a), TrimRight(b))
  {
    if |a| > 0 {
      FoldKeepsSpace(a[|a| - 1], b[|b| - 1]);
      if IsSpace(a[|a| - 1]) {
        var a', b' := a[..|a| - 1], b[..|b| - 1];
        assert EqualFold(a', b') by {
          forall i | 0 <= i < |a'| ensures LowerChar(a'[i]) == LowerChar(b'[i]) {
            assert a'[i] == a[i] && b'[i] == b[i];
          }
        }
        TrimRightKeepsFold(a', b');
      }
    }
  }

  /** Trimming does not depend on letter case: strings equal up to case
      trim to strings equal up to case. */
  lemma TrimSpaceKeepsFold(a: string, b: string)
    requires EqualFold(a, b)
    ensures EqualFold(TrimSpace(a), TrimSpace(b))
  {
    TrimLeftKeepsFold(a, b);
    TrimRightKeepsFold(TrimLeft(a), TrimLeft(b));
  }

  // ---------------------------------------------------------------------
  // Substrings (strings.Contains, strings.ContainsRune)
  // ---------------------------------------------------------------------

  predicate HasPrefix(s: string, p: string) {
    |p| <= |s| && s[..|p|] == p
  }

  function Contains(s: string, sub: string): (r: bool)
    ensures r <==> exists i :: 0 <= i <= |s| - |sub| && HasPrefix(s[i..], sub)
  {
    if HasPrefix(s, sub) then
      assert HasPrefix(s[0..], sub);
      true
    else if |s| == 0 then
      false
    else
      var r := Contains(s[1..], sub);
      assert forall i :: 1 <= i <= |s| - |sub| ==> s[i..] == s[1..][i - 1..];
      assert r ==> exists i :: 0 <= i <= |s| - |sub| && HasPrefix(s[i..], sub) by {
        if r {
          var j :| 0 <= j <= |s| - 1 - |sub| && HasPrefix(s[1..][j..], sub);
          assert s[j + 1..] == s[1..][j..];
        }
      }
      r
  }

  // ---------------------------------------------------------------------
  // Joining and splitting (strings.Join, strings.Split with a one-character
  // separator)
  // ---------------------------------------------------------------------

  function Join(parts: seq<string>, sep: string): string {
    if |parts| == 0 then ""
    else if |parts| == 1 then parts[0]
    else parts[0] + sep + Join(parts[1..], sep)
  }

  function Split(s: string, c: char): (r: seq<string>)
    ensures |r| >= 1
  {
    if |s| == 0 then [""]
    else
      var rest := Split(s[1..], c);
      if s[0] == c then [""] + rest else [[s[0]] + rest[0]] + rest[1..]
  }

  lemma {:induction false} SplitNoSeparator(s: string, c: char)
    requires c !in s
    ensures Split(s, c) == [s]
  {
    if |s| > 0 {
      SplitNoSeparator(s[1..], c);
      assert [s[0]] + s[1..] == s;
    }
  }

  /** Splitting at a separator splits the two sides independently. */
  lemma {:induction false} SplitAtSeparator(x: string, c: char, y: string)
    ensures Split(x + [c] + y, c) == Split(x, c) + Split(y, c)
  {
    var t := x + [c] + y;
    if x == [] {
      assert t == [c] + y;
      assert t[1..] == y;
    } else {
      assert t[0] == x[0];
      assert t[1..] == x[1..] + [c] + y;
      SplitAtSeparator(x[1..], c, y);
      if x[0] != c {
        MergeHead([x[0]], Split(x[1..], c), Split(y, c));
      }
    }
  }

  /** Prefixing the first part of a concatenation of part lists. */
  lemma MergeHead(a: string, l: seq<string>, r: seq<string>)
    requires |l| >= 1
    ensures [a + (l + r)[0]] + (l + r)[1..] == ([a + l[0]] + l[1..]) + r
  {
    assert (l + r)[0] == l[0];
    assert (l + r)[1..] == l[1..] + r;
  }

  /** Split undoes Join when no part contains the separator. */
  lemma {:induction false} SplitJoin(parts: seq<string>, c: char)
    requires |parts| >= 1
    requires forall i :: 0 <= i < |parts| ==> c !in parts[i]
    ensures Split(Join(parts, [c]), c) == parts
  {
    SplitNoSeparator(parts[0], c);
    if |parts| > 1 {
      SplitJoin(parts[1..], c);
      SplitAtSeparator(parts[0], c, Join(parts[1..], [c]));
      assert [parts[0]] + parts[1..] == parts;
    }
  }

  // ---------------------------------------------------------------------
  // Decimal conversion of Go's 64-bit int (strconv.Atoi, strconv.Itoa and
  // the %d verb of fmt)
  // ---------------------------------------------------------------------

  const MinInt: int := -0x8000_0000_0000_0000
  const MaxInt: int := 0x7FFF_FFFF_FFFF_FFFF

  predicate IsDigit(c: char) {
    '0' <= c <= '9'
  }

  predicate AllDigits(s: string) {
    forall i :: 0 <= i < |s| ==> IsDigit(s[i])
  }

  function DigitValue(c: char): nat
    requires IsDigit(c)
  {
    c as int - '0' as int
  }

  function DigitChar(d: nat): (c: char)
    requires d < 10
    ensures IsDigit(c) && DigitValue(c) == d
  {
    ('0' as int + d) as char
  }

  /** The value of a string of decimal digits, most significant first. */
  function DigitsValue(ds: string): nat
    requires AllDigits(ds)
  {
    if |ds| == 0 then 0 else DigitsValue(ds[..|ds| - 1]) * 10 + DigitValue(ds[|ds| - 1])
  }

  /** The syntax or range error strconv reports; its text is not modelled. */
  datatype NumError = NumError(input: string)

  /** strconv.Atoi: an optional sign followed by at least one decimal digit,
      whose value fits a 64-bit int. Anything else is an error. */
  function Atoi(s: string): (r: Result<int, NumError>)
    ensures r.Ok? ==> MinInt <= r.value <= MaxInt
    ensures r.Ok? ==> |s| > 0 && (IsDigit(s[0]) || s[0] == '+' || s[0] == '-')
  {
    if |s| == 0 then Err(NumError(s))
    else
      var neg := s[0] == '-';
      var digits := if s[0] == '-' || s[0] == '+' then s[1..] else s;
      if |digits| == 0 || !AllDigits(digits) then Err(NumError(s))
      else
        var magnitude: int := DigitsValue(digits);
        var v := if neg then -magnitude else magnitude;
        if MinInt <= v <= MaxInt then Ok(v) else Err(NumError(s))
  }

  function NatDigits(n: nat): string
  {
    if n < 10 then [DigitChar(n)] else NatDigits(n / 10) + [DigitChar(n % 10)]
  }

  /** strconv.Itoa, and fmt's %d of an int. */
  function Itoa(n: int): string {
    if n < 0 then "-" + NatDigits(-n) else NatDigits(n)
  }

  lemma {:induction false} NatDigitsValue(n: nat)
    ensures |NatDigits(n)| > 0 && AllDigits(NatDigits(n))
    ensures DigitsValue(NatDigits(n)) == n
  {
    if n >= 10 {
      NatDigitsValue(n / 10);
      var ds := NatDigits(n);
      assert ds[..|ds| - 1] == NatDigits(n / 10);
    }
  }

  /** Atoi reads back every int that Itoa prints. */
  lemma AtoiItoa(n: int)
    requires MinInt <= n <= MaxInt
    ensures Atoi(Itoa(n)) == Ok(n)
  {
    var m: nat := if n < 0 then -n else n;
    NatDigitsValue(m);
    var ds := NatDigits(m);
    var s := Itoa(n);
    if n < 0 {
      assert s == "-" + ds;
      assert s[0] == '-' && s[1..] == ds;
    } else {
      assert s == ds;
      assert IsDigit(s[0]);
    }
  }

  /** Itoa prints a minus sign exactly for a negative number, then at least
      one decimal digit. */
  lemma ItoaShape(n: int)
    ensures |Itoa(n)| > 0 && (Itoa(n)[0] == '-' <==> n < 0)
    ensures forall i :: (if n < 0 then 1 else 0) <= i < |Itoa(n)| ==> IsDigit(Itoa(n)[i])
  {
    if n < 0 {
      NatDigitsValue(-n);
      assert Itoa(n)[1..] == NatDigits(-n);
    } else {
      NatDigitsValue(n);
    }
  }
}
