/** Values shared by every component of the pipeline: optional values,
    results, and the handful of Python string operations the source relies on
    (`str.strip`, `str.lower`, `str(int)`, `int(str)`, `os.path.join`). */
module Common {

  datatype Option<+T> = None | Some(value: T)

  datatype Result<+T, +E> = Ok(value: T) | Err(error: E)

  /** Concatenation of a sequence of sequences, in order (`"".join(...)`). */
  function Flatten<T>(ss: seq<seq<T>>): seq<T>
  {
    if ss == [] then [] else Flatten(ss[..|ss| - 1]) + ss[|ss| - 1]
  }

  lemma FlattenSnoc<T>(ss: seq<seq<T>>, x: seq<T>)
    ensures Flatten(ss + [x]) == Flatten(ss) + x
  {
    assert (ss + [x])[..|ss|] == ss;
  }

  lemma {:induction false} FlattenAppend<T>(a: seq<seq<T>>, b: seq<seq<T>>)
    ensures Flatten(a + b) == Flatten(a) + Flatten(b)
    decreases |b|
  {
    if b == [] {
      assert a + b == a;
    } else {
      var b', x := b[..|b| - 1], b[|b| - 1];
      assert a + b == (a + b') + [x];
      assert b == b' + [x];
      FlattenAppend(a, b');
      FlattenSnoc(a + b', x);
      FlattenSnoc(b', x);
    }
  }

  // ---------------------------------------------------------------------
  // Characters and whitespace

  /** Python's `str.isspace()` for a single character: exactly the code
      points Python treats as whitespace. */
  predicate IsSpace(c: char)
  {
    var n := c as int;
    (9 <= n <= 13) || (28 <= n <= 32) || n == 0x85 || n == 0xA0 || n == 0x1680
    || (0x2000 <= n <= 0x200A) || n == 0x2028 || n == 0x2029 || n == 0x202F
    || n == 0x205F || n == 0x3000
  }

  predicate IsDigit(c: char) { '0' <= c <= '9' }

  predicate AllDigits(s: string) { forall i :: 0 <= i < |s| ==> IsDigit(s[i]) }

  /** The end of the run of whitespace that starts at `k`. */
  function SpaceRunEnd(s: string, k: nat): (e: nat)
    requires k <= |s|
    ensures k <= e <= |s| && (e == |s| || !IsSpace(s[e]))
    ensures forall i :: k <= i < e ==> IsSpace(s[i])
    decreases |s| - k
  {
    if k < |s| && IsSpace(s[k]) then SpaceRunEnd(s, k + 1) else k
  }

  /** The start of the run of whitespace that ends at `k`. */
  function SpaceRunStart(s: string, k: nat): (b: nat)
    requires k <= |s|
    ensures b <= k && (b == 0 || !IsSpace(s[b - 1]))
    ensures forall i :: b <= i < k ==> IsSpace(s[i])
  {
    if k > 0 && IsSpace(s[k - 1]) then SpaceRunStart(s, k - 1) else k
  }

  /** `str.lstrip()`: drops the leading whitespace and nothing else. */
  function LStrip(s: string): (r: string)
    ensures |r| <= |s| && r == s[|s| - |r|..]
    ensures r == [] || !IsSpace(r[0])
    ensures forall i :: 0 <= i < |s| - |r| ==> IsSpace(s[i])
  {
    s[SpaceRunEnd(s, 0)..]
  }

  /** `str.rstrip()`: drops the trailing whitespace and nothing else. */
  function RStrip(s: string): (r: string)
    ensures |r| <= |s| && r == s[..|r|]
    ensures r == [] || !IsSpace(r[|r| - 1])
    ensures forall i :: |r| <= i < |s| ==> IsSpace(s[i])
  {
    s[..SpaceRunStart(s, |s|)]
  }

  /** `str.strip()` with no argument. */
  function Strip(s: string): (r: string)
  {
    RStrip(LStrip(s))
  }

  lemma AllSpaceLStripsToEmpty(s: string)
    requires forall i :: 0 <= i < |s| ==> IsSpace(s[i])
    ensures LStrip(s) == []
  {
  }

  /** A string is blank (`s.strip() == ""`) exactly when every character is
      whitespace. */
  lemma StripEmptyIffAllSpace(s: string)
    ensures Strip(s) == [] <==> forall i :: 0 <= i < |s| ==> IsSpace(s[i])
  {
    if forall i :: 0 <= i < |s| ==> IsSpace(s[i]) {
      AllSpaceLStripsToEmpty(s);
    } else {
      var i :| 0 <= i < |s| && !IsSpace(s[i]);
      NonSpaceSurvivesLStrip(s, i);
    }
  }

  lemma NonSpaceSurvivesLStrip(s: string, i: nat)
    requires i < |s| && !IsSpace(s[i])
    ensures LStrip(s) != []
  {
    var l := LStrip(s);
    assert |s| - |l| <= i;
  }

  /** `s.strip() == ""`, stated as: every character is whitespace
      (`BlankIsStripEmpty` proves the two the same). */
  predicate IsBlank(s: string)
  {
    forall i :: 0 <= i < |s| ==> IsSpace(s[i])
  }

  lemma BlankIsStripEmpty(s: string)
    ensures IsBlank(s) <==> Strip(s) == []
  {
    StripEmptyIffAllSpace(s);
  }

  /** Stripping twice is stripping once. */
  lemma StripIdempotent(s: string)
    ensures Strip(Strip(s)) == Strip(s)
  {
    var t := Strip(s);
    if t != [] {
      assert LStrip(t) == t;
      assert RStrip(t) == t;
    }
  }

  /** The result of `Strip` is `s` with its leading and its trailing
      whitespace removed: `s == s[..i] + Strip(s) + s[j..]` where `s[..i]`
      and `s[j..]` are all whitespace. */
  lemma StripIsInfix(s: string)
    ensures var i := |s| - |LStrip(s)|;
            var j := i + |Strip(s)|;
            && 0 <= i <= j <= |s| && Strip(s) == s[i..j]
            && (forall k :: 0 <= k < i ==> IsSpace(s[k]))
            && (forall k :: j <= k < |s| ==> IsSpace(s[k]))
  {
    StripSlice(s);
    StripTrail(s);
  }

  lemma StripSlice(s: string)
    ensures var i := |s| - |LStrip(s)|;
            Strip(s) == s[i..i + |Strip(s)|]
  {
    PrefixOfSuffix(s, LStrip(s), Strip(s));
  }

  /** A prefix of a suffix of `s` is a slice of `s`. */
  lemma PrefixOfSuffix<T>(s: seq<T>, l: seq<T>, r: seq<T>)
    requires |l| <= |s| && l == s[|s| - |l|..]
    requires |r| <= |l| && r == l[..|r|]
    ensures r == s[|s| - |l|..|s| - |l| + |r|]
  {
  }

  lemma StripTrail(s: string)
    ensures var j := |s| - |LStrip(s)| + |Strip(s)|;
            forall k :: j <= k < |s| ==> IsSpace(s[k])
  {
    var l := LStrip(s);
    var i := |s| - |l|;
    forall k | i + |Strip(s)| <= k < |s| ensures IsSpace(s[k]) {
      assert s[k] == l[k - i];
    }
  }

  /** `str.lower()` on ASCII letters.  Of all the characters Python lower-cases,
      only U+0130 and U+212A land in the ASCII range, so comparing the result
      against ASCII words (as the flag parser does) is unaffected by the
      characters left unchanged here. */
  function LowerChar(c: char): char
  {
    if 'A' <= c <= 'Z' then (c as int + 32) as char else c
  }

  function Lower(s: string): (r: string)
    ensures |r| == |s|
  {
    seq(|s|, i requires 0 <= i < |s| => LowerChar(s[i]))
  }

  lemma LowerIdempotent(s: string)
    ensures Lower(Lower(s)) == Lower(s)
  {
  }

  function StartsWith(s: string, p: string): bool
  {
    |p| <= |s| && s[..|p|] == p
  }

  function EndsWith(s: string, p: string): bool
  {
    |p| <= |s| && s[|s| - |p|..] == p
  }

  /** Appending `t` keeps the prefix and extends the suffix by `t`. */
  lemma AffixesExtend(s: string, p: string, q: string, t: string)
    requires StartsWith(s, p) && EndsWith(s, q)
    ensures StartsWith(s + t, p) && EndsWith(s + t, q + t)
  {
    assert (s + t)[..|p|] == s[..|p|];
    assert (s + t)[|s + t| - |q + t|..] == s[|s| - |q|..] + t;
  }

  /** `p` occurs in `s` starting at index `j`. */
  predicate OccursAt(s: string, p: string, j: nat)
  {
    j + |p| <= |s| && s[j..j + |p|] == p
  }

  /** `s.find(p, k)`: the first index from `k` on at which `p` occurs. */
  function IndexFrom(s: string, p: string, k: nat): (r: Option<nat>)
    ensures r.Some? ==> k <= r.value && OccursAt(s, p, r.value)
    ensures r.Some? ==> forall j :: k <= j < r.value ==> !OccursAt(s, p, j)
    ensures r.None? ==> forall j :: k <= j ==> !OccursAt(s, p, j)
    decreases |s| - k
  {
    if |s| < k + |p| then None
    else if OccursAt(s, p, k) then Some(k)
    else IndexFrom(s, p, k + 1)
  }

  /** `s.find(p)` when it succeeds: the first index at which `p` occurs. */
  function IndexOf(s: string, p: string): (r: Option<nat>)
    ensures r.Some? ==> OccursAt(s, p, r.value)
    ensures r.Some? ==> forall j :: 0 <= j < r.value ==> !OccursAt(s, p, j)
    ensures r.None? ==> forall j :: 0 <= j ==> !OccursAt(s, p, j)
  {
    IndexFrom(s, p, 0)
  }

  /** An occurrence stays where it is when text is appended, and stays the
      first one. */
  lemma OccursAtExtend(s: string, p: string, t: string, j: nat)
    requires j + |p| <= |s|
    ensures OccursAt(s + t, p, j) == OccursAt(s, p, j)
  {
    assert (s + t)[j..j + |p|] == s[j..j + |p|];
  }

  /** Whether `p` occurs in the middle part of `x + y + z` is a question about
      `y` alone. */
  lemma OccursAtShift(x: string, y: string, z: string, p: string, j: nat)
    requires j + |p| <= |y|
    ensures OccursAt(x + y + z, p, |x| + j) == OccursAt(y, p, j)
  {
    assert (x + y + z)[|x| + j..|x| + j + |p|] == y[j..j + |p|];
  }

  /** Whether `p` occurs in the tail of `s + t` is a question about `t`
      alone. */
  lemma OccursAtAfter(s: string, t: string, p: string, j: nat)
    requires j + |p| <= |t|
    ensures OccursAt(s + t, p, |s| + j) == OccursAt(t, p, j)
  {
    assert (s + t)[|s| + j..|s| + j + |p|] == t[j..j + |p|];
  }

  lemma AppendAssoc<T>(a: seq<T>, b: seq<T>, c: seq<T>)
    ensures (a + b) + c == a + (b + c)
  {
  }

  lemma Regroup<T>(a: seq<T>, b: seq<T>, c: seq<T>, d: seq<T>)
    ensures a + (b + c) + d == a + b + c + d
  {
  }

  /** Text appended after an occurrence does not move the first one. */
  lemma IndexFromExtend(s: string, p: string, t: string, k: nat)
    requires IndexFrom(s, p, k).Some?
    ensures IndexFrom(s + t, p, k) == IndexFrom(s, p, k)
  {
    var i := IndexFrom(s, p, k).value;
    OccursAtExtend(s, p, t, i);
    forall j | k <= j < i ensures !OccursAt(s + t, p, j) {
      OccursAtExtend(s, p, t, j);
    }
    IndexFromFirst(s + t, p, k, i);
  }

  lemma IndexOfExtend(s: string, p: string, t: string)
    requires IndexOf(s, p).Some?
    ensures IndexOf(s + t, p) == IndexOf(s, p)
  {
    IndexFromExtend(s, p, t, 0);
  }

  /** The first occurrence from `k` on is where `find` stops. */
  lemma {:induction false} IndexFromFirst(s: string, p: string, k: nat, i: nat)
    requires k <= i && OccursAt(s, p, i)
    requires forall j :: k <= j < i ==> !OccursAt(s, p, j)
    ensures IndexFrom(s, p, k) == Some(i)
    decreases i - k
  {
    if k < i {
      IndexFromFirst(s, p, k + 1, i);
    }
  }

  // ---------------------------------------------------------------------
  // Integers as text

  function DigitChar(d: int): (c: char)
    requires 0 <= d < 10
    ensures IsDigit(c) && c as int - '0' as int == d
  {
    (('0' as int) + d) as char
  }

  /** Python `str(n)` for a non-negative integer. */
  function NatToString(n: nat): (r: string)
    ensures |r| >= 1 && AllDigits(r)
    ensures r[0] != '-'
  {
    if n < 10 then [DigitChar(n)] else NatToString(n / 10) + [DigitChar(n % 10)]
  }

  /** Python `str(n)` for any integer. */
  function IntToString(n: int): (r: string)
    ensures |r| >= 1
  {
    if n < 0 then "-" + NatToString(-n) else NatToString(n)
  }

  /** The value of a string of decimal digits. */
  function DigitsValue(s: string): nat
    requires AllDigits(s)
  {
    if s == [] then 0
    else DigitsValue(s[..|s| - 1]) * 10 + (s[|s| - 1] as int - '0' as int)
  }

  lemma {:induction false} NatToStringValue(n: nat)
    ensures DigitsValue(NatToString(n)) == n
  {
    if n >= 10 {
      var r := NatToString(n);
      assert r[..|r| - 1] == NatToString(n / 10);
      NatToStringValue(n / 10);
    }
  }

  /** Python `int(s)` on ASCII text: surrounding whitespace, an optional sign,
      then at least one decimal digit. */
  function ParseInt(s: string): Option<int>
  {
    var t := Strip(s);
    if t == [] then None
    else if t[0] == '-' || t[0] == '+' then
      if |t| > 1 && AllDigits(t[1..]) then
        var v: int := DigitsValue(t[1..]);
        Some(if t[0] == '-' then -v else v)
      else None
    else if AllDigits(t) then Some(DigitsValue(t))
    else None
  }

  /** Text that neither starts nor ends with whitespace strips to itself. */
  lemma StripUnpadded(r: string)
    requires r != [] && !IsSpace(r[0]) && !IsSpace(r[|r| - 1])
    ensures Strip(r) == r
  {
    assert LStrip(r) == r;
  }

  /** `int(str(n)) == n`. */
  lemma IntToStringRoundTrip(n: int)
    ensures ParseInt(IntToString(n)) == Some(n)
  {
    if n < 0 {
      NegativeRoundTrip(n);
    } else {
      var r := NatToString(n);
      assert IsDigit(r[0]) && IsDigit(r[|r| - 1]);
      StripUnpadded(r);
      NatToStringValue(n);
    }
  }

  lemma NegativeRoundTrip(n: int)
    requires n < 0
    ensures ParseInt(IntToString(n)) == Some(n)
  {
    var d := NatToString(-n);
    var r := "-" + d;
    assert r[0] == '-' && r[1..] == d && r[|r| - 1] == d[|d| - 1];
    StripUnpadded(r);
    NatToStringValue(-n);
    assert AllDigits(r[1..]) && DigitsValue(r[1..]) == -n;
  }

  /** Different integers print differently. */
  lemma IntToStringInjective(a: int, b: int)
    requires IntToString(a) == IntToString(b)
    ensures a == b
  {
    IntToStringRoundTrip(a);
    IntToStringRoundTrip(b);
  }

  // ---------------------------------------------------------------------
  // Paths

  /** `os.path.join(a, b)` on POSIX for two components. */
  function PathJoin(a: string, b: string): (r: string)
    ensures b != [] && b[0] != '/' ==> StartsWith(r, a) && EndsWith(r, b)
  {
    if b != [] && b[0] == '/' then b
    else if a == [] || a[|a| - 1] == '/' then a + b
    else a + "/" + b
  }
}
