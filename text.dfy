/**
 * The pieces of Go's standard library that the version codec and the
 * string renderers rely on: `fmt`'s `%d`, `strconv.Atoi` on a 64-bit
 * platform, `bytes.Split` on a one-byte separator and `bytes.Trim` with a
 * one-byte cutset. Bytes are modelled as characters.
 */
module Text {
  import opened Wrappers

  /** Range of Go's `int` on a 64-bit platform. */
  const MIN_INT: int := -0x8000_0000_0000_0000
  const MAX_INT: int := 0x7FFF_FFFF_FFFF_FFFF

  predicate IsDigit(c: char) { '0' <= c <= '9' }

  predicate AllDigits(s: string) { forall i | 0 <= i < |s| :: IsDigit(s[i]) }

  function DigitChar(d: nat): (c: char)
    requires d < 10
    ensures IsDigit(c)
  {
    ('0' as int + d) as char
  }

  function DigitValue(c: char): (d: nat)
    requires IsDigit(c)
    ensures d < 10 && DigitChar(d) == c
  {
    c as int - '0' as int
  }

  // ---------------------------------------------------------------------
  // fmt's %d

  /** Decimal digits of `n`, most significant first, without leading zeros. */
  function NatToString(n: nat): (s: string)
    ensures |s| >= 1 && AllDigits(s)
    ensures s[0] != '0' || n == 0
    ensures n < 10 <==> |s| == 1
    decreases n
  {
    if n < 10 then [DigitChar(n)] else NatToString(n / 10) + [DigitChar(n % 10)]
  }

  /** `fmt.Sprintf("%d", i)`. */
  function IntToString(i: int): (s: string)
    ensures |s| >= 1 && IsDigit(s[|s| - 1])
    ensures forall k | 0 <= k < |s| :: IsDigit(s[k]) || (k == 0 && s[k] == '-')
  {
    if i < 0 then "-" + NatToString(-i) else NatToString(i)
  }

  /** The value of a string of decimal digits, read most significant first. */
  function DigitsValue(s: string): nat
    requires AllDigits(s)
    decreases |s|
  {
    if s == [] then 0 else DigitsValue(s[..|s| - 1]) * 10 + DigitValue(s[|s| - 1])
  }

  lemma {:induction false} DigitsValueOfNatToString(n: nat)
    ensures DigitsValue(NatToString(n)) == n
    decreases n
  {
    if n >= 10 {
      DigitsValueOfNatToString(n / 10);
      var s := NatToString(n);
      assert s[..|s| - 1] == NatToString(n / 10);
    }
  }

  /** `k` copies of the digit zero. */
  function Zeros(k: nat): (z: string)
    ensures |z| == k && AllDigits(z)
    ensures forall i | 0 <= i < k :: z[i] == '0'
  {
    if k == 0 then [] else Zeros(k - 1) + "0"
  }

  lemma {:induction false} DigitsValueOfZeros(k: nat)
    ensures DigitsValue(Zeros(k)) == 0
  {
    if k > 0 {
      DigitsValueOfZeros(k - 1);
      assert Zeros(k)[..k - 1] == Zeros(k - 1);
    }
  }

  /** Leading zeros do not change the value of a digit string. */
  lemma {:induction false} DigitsValueIgnoresZeros(k: nat, s: string)
    requires AllDigits(s)
    ensures AllDigits(Zeros(k) + s) && DigitsValue(Zeros(k) + s) == DigitsValue(s)
    decreases |s|
  {
    var t := Zeros(k) + s;
    assert AllDigits(t);
    if s == [] {
      assert t == Zeros(k);
      DigitsValueOfZeros(k);
    } else {
      assert t[..|t| - 1] == Zeros(k) + s[..|s| - 1];
      DigitsValueIgnoresZeros(k, s[..|s| - 1]);
    }
  }

  // ---------------------------------------------------------------------
  // strconv.Atoi

  /**
   * `strconv.Atoi` on a 64-bit platform: an optional `+` or `-`, then one
   * or more ASCII digits (no underscores, no spaces), and the value must
   * fit in an `int`; anything else is an error, here `None`.
   */
  function Atoi(s: string): (r: Option<int>)
    ensures r.Some? ==> MIN_INT <= r.value <= MAX_INT
  {
    if |s| > 0 && (s[0] == '+' || s[0] == '-') then Unsigned(s[0] == '-', s[1..])
    else Unsigned(false, s)
  }

  /** The digits after the optional sign: at least one, all decimal, in range. */
  function Unsigned(negative: bool, body: string): (r: Option<int>)
    ensures r.Some? ==> MIN_INT <= r.value <= MAX_INT
  {
    if body == [] || !AllDigits(body) then None
    else
      var d: int := DigitsValue(body);
      var v := if negative then -d else d;
      if MIN_INT <= v <= MAX_INT then Some(v) else None
  }

  /** Atoi reads back what %d prints, for every value an `int` can hold. */
  lemma AtoiOfIntToString(i: int)
    requires MIN_INT <= i <= MAX_INT
    ensures Atoi(IntToString(i)) == Some(i)
  {
    var s := IntToString(i);
    if i < 0 {
      DigitsValueOfNatToString(-i);
      assert s[0] == '-' && s[1..] == NatToString(-i);
      assert Unsigned(true, NatToString(-i)) == Some(i);
    } else {
      DigitsValueOfNatToString(i);
      assert IsDigit(s[0]);
      assert Unsigned(false, s) == Some(i);
    }
  }

  /** Atoi discards leading zeros: `"007"` and `"7"` read the same. */
  lemma AtoiIgnoresLeadingZeros(k: nat, n: nat)
    requires n <= MAX_INT
    ensures Atoi(Zeros(k) + NatToString(n)) == Some(n)
  {
    var s := Zeros(k) + NatToString(n);
    DigitsValueIgnoresZeros(k, NatToString(n));
    DigitsValueOfNatToString(n);
    assert IsDigit(s[0]) by {
      if k == 0 { assert s[0] == NatToString(n)[0]; } else { assert s[0] == Zeros(k)[0]; }
    }
    assert Unsigned(false, s) == Some(n);
  }

  // ---------------------------------------------------------------------
  // bytes.Split and bytes.Trim

  /** `bytes.Split(s, sep)` for a one-character separator: one more part than separators. */
  function Split(s: string, sep: char): (parts: seq<string>)
    ensures |parts| >= 1
    ensures forall i | 0 <= i < |parts| :: sep !in parts[i]
    decreases |s|
  {
    if s == [] then [[]]
    else
      var rest := Split(s[1..], sep);
      if s[0] == sep then [[]] + rest
      else [[s[0]] + rest[0]] + rest[1..]
  }

  /** `bytes.Join(parts, sep)`, the inverse of Split. */
  function Join(parts: seq<string>, sep: char): string
    requires |parts| >= 1
    decreases |parts|
  {
    if |parts| == 1 then parts[0] else parts[0] + [sep] + Join(parts[1..], sep)
  }

  lemma {:induction false} JoinOfSplit(s: string, sep: char)
    ensures Join(Split(s, sep), sep) == s
    decreases |s|
  {
    if s != [] {
      JoinOfSplit(s[1..], sep);
      var rest := Split(s[1..], sep);
      if s[0] != sep {
        if |rest| > 1 {
          assert ([[s[0]] + rest[0]] + rest[1..])[1..] == rest[1..];
        }
      } else {
        assert ([[]] + rest)[1..] == rest;
      }
    }
  }

  /** Number of occurrences of `c` in `s`. */
  function Count(s: string, c: char): nat
    decreases |s|
  {
    if s == [] then 0 else (if s[0] == c then 1 else 0) + Count(s[1..], c)
  }

  /** Split yields one part more than there are separators. */
  lemma {:induction false} SplitLength(s: string, sep: char)
    ensures |Split(s, sep)| == Count(s, sep) + 1
    decreases |s|
  {
    if s != [] {
      SplitLength(s[1..], sep);
    }
  }

  lemma {:induction false} SplitWithoutSep(a: string, sep: char)
    requires sep !in a
    ensures Split(a, sep) == [a]
    decreases |a|
  {
    if a != [] {
      assert sep !in a[1..];
      SplitWithoutSep(a[1..], sep);
      assert [a[0]] + a[1..] == a;
    }
  }

  lemma {:induction false} SplitAtFirst(a: string, sep: char, rest: string)
    requires sep !in a
    ensures Split(a + [sep] + rest, sep) == [a] + Split(rest, sep)
    decreases |a|
  {
    var s := a + [sep] + rest;
    if a == [] {
      assert s[1..] == rest;
    } else {
      assert s[1..] == a[1..] + [sep] + rest;
      assert sep !in a[1..];
      SplitAtFirst(a[1..], sep, rest);
      assert [a[0]] + a[1..] == a;
    }
  }

  /** Split is the inverse of Join on parts that do not contain the separator. */
  lemma {:induction false} SplitOfJoin(parts: seq<string>, sep: char)
    requires |parts| >= 1
    requires forall i | 0 <= i < |parts| :: sep !in parts[i]
    ensures Split(Join(parts, sep), sep) == parts
    decreases |parts|
  {
    if |parts| == 1 {
      SplitWithoutSep(parts[0], sep);
    } else {
      SplitOfJoin(parts[1..], sep);
      SplitAtFirst(parts[0], sep, Join(parts[1..], sep));
      assert [parts[0]] + parts[1..] == parts;
    }
  }

  /** `bytes.TrimLeft` with a one-character cutset: the longest suffix of `s` after a run of `c`. */
  function TrimLeft(s: string, c: char): (r: string)
    ensures |r| <= |s| && r == s[|s| - |r|..]
    ensures forall i | 0 <= i < |s| - |r| :: s[i] == c
    ensures r == [] || r[0] != c
    decreases |s|
  {
    if |s| > 0 && s[0] == c then
      var r := TrimLeft(s[1..], c);
      assert forall i | 1 <= i < |s| - |r| :: s[i] == s[1..][i - 1];
      r
    else
      s
  }

  /** `bytes.TrimRight` with a one-character cutset: the longest prefix of `s` before a run of `c`. */
  function TrimRight(s: string, c: char): (r: string)
    ensures |r| <= |s| && r == s[..|r|]
    ensures forall i | |r| <= i < |s| :: s[i] == c
    ensures r == [] || r[|r| - 1] != c
    decreases |s|
  {
    if |s| > 0 && s[|s| - 1] == c then
      var r := TrimRight(s[..|s| - 1], c);
      assert forall i | |r| <= i < |s| - 1 :: s[i] == s[..|s| - 1][i];
      r
    else
      s
  }

  /** Every character of `s` outside `s[a..b]` is `c`. */
  predicate OnlyOutside(s: string, c: char, a: nat, b: nat)
  {
    (forall i | 0 <= i < a && i < |s| :: s[i] == c) && (forall i | b <= i < |s| :: s[i] == c)
  }

  /**
   * `bytes.Trim(s, string(c))`: strip every leading and trailing `c`. What
   * is left is a slice of `s` with only `c` on either side of it.
   */
  function Trim(s: string, c: char): (r: string)
    ensures r == [] || (r[0] != c && r[|r| - 1] != c)
    ensures exists a: nat, b: nat | a <= b <= |s| :: r == s[a..b] && OnlyOutside(s, c, a, b)
  {
    var l := TrimLeft(s, c);
    var r := TrimRight(l, c);
    TrimmedSlice(s, c, l, r);
    r
  }

  /** A suffix of `s` after a run of `c`, cut before a run of `c`, is a slice with only `c` around it. */
  lemma TrimmedSlice(s: string, c: char, l: string, r: string)
    requires |l| <= |s| && l == s[|s| - |l|..]
    requires forall i | 0 <= i < |s| - |l| :: s[i] == c
    requires |r| <= |l| && r == l[..|r|]
    requires forall i | |r| <= i < |l| :: l[i] == c
    requires (l == [] || l[0] != c) && (r == [] || r[|r| - 1] != c)
    ensures r == [] || (r[0] != c && r[|r| - 1] != c)
    ensures exists a: nat, b: nat | a <= b <= |s| :: r == s[a..b] && OnlyOutside(s, c, a, b)
  {
    var a := |s| - |l|;
    var b := a + |r|;
    assert r != [] ==> r[0] == l[0];
    assert r == s[a..b];
    forall i | b <= i < |s|
      ensures s[i] == c
    {
      assert s[i] == l[i - a];
    }
    assert OnlyOutside(s, c, a, b);
  }

  /** Trimming a string that neither starts nor ends with `c` leaves it as it is. */
  lemma TrimUntouched(s: string, c: char)
    requires s == [] || (s[0] != c && s[|s| - 1] != c)
    ensures Trim(s, c) == s
  {
    assert TrimLeft(s, c) == s;
    assert TrimRight(s, c) == s;
  }

  /** Trimming a string enclosed in one `c` on each side gives it back. */
  lemma TrimEnclosed(s: string, c: char)
    requires |s| > 0 && s[0] != c && s[|s| - 1] != c
    ensures Trim([c] + s + [c], c) == s
  {
    var t := [c] + s + [c];
    var u := s + [c];
    assert t[0] == c && t[1..] == u;
    assert TrimLeft(t, c) == TrimLeft(u, c);
    assert u[0] == s[0];
    assert TrimLeft(u, c) == u;
    assert u[|u| - 1] == c && u[..|u| - 1] == s;
    assert TrimRight(u, c) == TrimRight(s, c);
    assert TrimRight(s, c) == s;
  }
}
