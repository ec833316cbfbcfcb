/** String helpers standing for the bits of Python's `str`, `re` and
    `os.path` that the packaging script uses. Strings are `seq<char>`. */
module Text {
  import opened Wrappers

  /** `re.match(prefix, s)` for a prefix without metacharacters, and
      `s.startswith(prefix)`. */
  predicate StartsWith(s: string, prefix: string) {
    |prefix| <= |s| && s[..|prefix|] == prefix
  }

  /** `pat` sits in `s` at index `i`. */
  predicate OccursAt(s: string, pat: string, i: int) {
    0 <= i && i + |pat| <= |s| && s[i..i + |pat|] == pat
  }

  /** Python's `pat in s`, and `re.search(pat, s)` for a pattern without
      metacharacters. */
  predicate Contains(s: string, pat: string) {
    exists i | 0 <= i <= |s| - |pat| :: OccursAt(s, pat, i)
  }

  /** `os.path.basename`: everything after the last `/`. */
  function Basename(p: string): (b: string)
    ensures '/' !in b
    ensures |b| <= |p|
    decreases |p|
  {
    if |p| == 0 || p[|p| - 1] == '/' then ""
    else Basename(p[..|p| - 1]) + [p[|p| - 1]]
  }

  /** The base name is the whole tail of the path after its last `/`. */
  lemma {:induction false} BasenameIsTail(p: string)
    ensures p[|p| - |Basename(p)|..] == Basename(p)
    ensures |Basename(p)| < |p| ==> p[|p| - |Basename(p)| - 1] == '/'
    decreases |p|
  {
    if |p| > 0 && p[|p| - 1] != '/' {
      var q, c := p[..|p| - 1], p[|p| - 1];
      BasenameIsTail(q);
      var b := Basename(q);
      assert Basename(p) == b + [c];
      assert p == q + [c];
      var k := |q| - |b|;
      assert p[k..] == q[k..] + [c];
      if |b| < |q| {
        assert p[k - 1] == q[k - 1];
      }
    }
  }

  /** `os.path.join(a, b)` for two components. */
  function Join(a: string, b: string): (r: string)
    ensures StartsWith(b, "/") ==> r == b
    ensures |b| <= |r| && r[|r| - |b|..] == b
  {
    if StartsWith(b, "/") then b
    else if a == "" || a[|a| - 1] == '/' then a + b
    else a + "/" + b
  }

  /** A suffix that does not start with `/` stays on the joined path. */
  lemma JoinAppend(a: string, b: string, s: string)
    requires |s| > 0 && s[0] != '/'
    ensures Join(a, b + s) == Join(a, b) + s
  {
    if StartsWith(b, "/") {
      assert (b + s)[..1] == b[..1];
    } else {
      assert (b + s)[0] == if |b| > 0 then b[0] else s[0];
      assert !StartsWith(b + s, "/") by {
        if |b| > 0 {
          assert b[..1] != "/";
          assert (b + s)[..1] == b[..1];
        } else {
          assert (b + s)[..1] == [s[0]];
        }
      }
      if a == "" || a[|a| - 1] == '/' {
        AppendAssoc(a, b, s);
      } else {
        AppendAssoc(a + "/", b, s);
      }
    }
  }

  /** `re.sub('\.', '-', s)`: every dot becomes a dash. */
  function DotsToDashes(s: string): (r: string)
    ensures |r| == |s|
    ensures forall i :: 0 <= i < |s| ==> r[i] == (if s[i] == '.' then '-' else s[i])
    ensures '.' !in r
    decreases |s|
  {
    if |s| == 0 then ""
    else DotsToDashes(s[..|s| - 1]) + [if s[|s| - 1] == '.' then '-' else s[|s| - 1]]
  }

  predicate IsDigit(c: char) {
    '0' <= c <= '9'
  }

  predicate AllDigits(s: string) {
    forall i :: 0 <= i < |s| ==> IsDigit(s[i])
  }

  function DigitChar(d: nat): (c: char)
    requires d < 10
    ensures IsDigit(c) && c as int - '0' as int == d
  {
    (d + '0' as int) as char
  }

  /** Python's `'%d' % n` for a non-negative `n`: decimal, no leading zero. */
  function NatToDecimal(n: nat): (s: string)
    ensures |s| > 0 && AllDigits(s)
    ensures s[0] == '0' ==> n == 0
    decreases n
  {
    if n < 10 then [DigitChar(n)] else NatToDecimal(n / 10) + [DigitChar(n % 10)]
  }

  /** The value a string of decimal digits denotes; the reading that
      `NatToDecimal` must be the inverse of. */
  function DecimalValue(s: string): nat
    requires AllDigits(s)
    decreases |s|
  {
    if |s| == 0 then 0
    else DecimalValue(s[..|s| - 1]) * 10 + (s[|s| - 1] as int - '0' as int)
  }

  lemma {:induction false} DecimalRoundTrip(n: nat)
    ensures DecimalValue(NatToDecimal(n)) == n
    decreases n
  {
    if n >= 10 {
      DecimalRoundTrip(n / 10);
      var s := NatToDecimal(n);
      assert s[..|s| - 1] == NatToDecimal(n / 10);
    }
  }

  /** Python's `'%d' % i` for any integer: a minus sign, then the digits of
      the magnitude. */
  function IntToDecimal(i: int): (s: string)
    ensures i >= 0 ==> |s| > 0 && AllDigits(s) && DecimalValue(s) == i
    ensures i < 0 ==> |s| > 1 && s[0] == '-' && AllDigits(s[1..]) && DecimalValue(s[1..]) == -i
    ensures DecimalToInt(s) == Some(i)
  {
    DecimalRoundTrip(if i < 0 then -i else i);
    if i < 0 then "-" + NatToDecimal(-i) else NatToDecimal(i)
  }

  /** Python's `int(s)` restricted to what `'%d'` produces: an optional
      minus sign and at least one digit; anything else is refused. */
  function DecimalToInt(s: string): Option<int> {
    if |s| > 1 && s[0] == '-' && AllDigits(s[1..]) then Some(0 - DecimalValue(s[1..]) as int)
    else if |s| > 0 && AllDigits(s) then Some(DecimalValue(s))
    else None
  }

  /** The index of the first newline of `s`, or `|s|` when it has none. */
  function LineEnd(s: string): (k: nat)
    ensures k <= |s|
    ensures '\n' !in s[..k]
    ensures k < |s| ==> s[k] == '\n'
    decreases |s|
  {
    if |s| == 0 || s[0] == '\n' then 0
    else
      var k := 1 + LineEnd(s[1..]);
      assert s[..k] == [s[0]] + s[1..][..k - 1];
      k
  }

  /** The first newline after a newline-free line is the one ending it. */
  lemma LineEndAfter(line: string, rest: string)
    requires '\n' !in line
    ensures LineEnd(line + "\n" + rest) == |line|
  {
    var s := line + "\n" + rest;
    assert s[|line|] == '\n';
    assert s[..|line|] == line;
  }

  // ---------------------------------------------------------------------
  // Facts about concatenation, stated once for any element type so
  // that proofs about literal-laden sequences need not rediscover them.

  lemma AppendAssoc<T>(a: seq<T>, b: seq<T>, c: seq<T>)
    ensures a + b + c == a + (b + c)
  {
  }

  lemma ButLastAndLast<T>(s: seq<T>)
    requires |s| > 0
    ensures s[..|s| - 1] + [s[|s| - 1]] == s
  {
  }

  lemma AroundIndex<T>(s: seq<T>, k: nat)
    requires k < |s|
    ensures s == s[..k] + [s[k]] + s[k + 1..]
  {
  }

  lemma SplitConcat<T>(a: seq<T>, b: seq<T>)
    ensures (a + b)[..|a|] == a && (a + b)[|a|..] == b
  {
  }
}
