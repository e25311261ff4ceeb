/** String formatting and searching as the scripts use it: strftime fields, str methods. */
module Text {

  predicate IsDigit(c: char) { '0' <= c <= '9' }

  function Pow10(w: nat): (p: nat)
    ensures p >= 1
  {
    if w == 0 then 1 else 10 * Pow10(w - 1)
  }

  /**
   * The last `w` decimal digits of `n`, zero-padded to width `w`; for
   * `n < 10^w` this is the strftime field `%m`, `%d`, `%H`, ... (w = 2) or `%Y` (w = 4).
   */
  function Digits(n: nat, w: nat): (s: string)
    ensures |s| == w
    ensures forall i :: 0 <= i < w ==> IsDigit(s[i])
  {
    if w == 0 then [] else Digits(n / 10, w - 1) + [('0' as int + n % 10) as char]
  }

  /** The number a string of decimal digits denotes. */
  function ValueOf(s: string): nat
    requires forall i :: 0 <= i < |s| ==> IsDigit(s[i])
  {
    if s == [] then 0
    else
      assert IsDigit(s[|s| - 1]);
      10 * ValueOf(s[..|s| - 1]) + (s[|s| - 1] as int - '0' as int)
  }

  /** Reading a zero-padded field back gives the number that was written. */
  lemma {:induction false} DigitsRoundTrip(n: nat, w: nat)
    requires n < Pow10(w)
    ensures ValueOf(Digits(n, w)) == n
  {
    if w > 0 {
      assert n / 10 < Pow10(w - 1);
      DigitsRoundTrip(n / 10, w - 1);
      assert Digits(n, w)[..w - 1] == Digits(n / 10, w - 1);
    }
  }

  lemma DigitsInjective(a: nat, b: nat, w: nat)
    requires a < Pow10(w) && b < Pow10(w)
    requires Digits(a, w) == Digits(b, w)
    ensures a == b
  {
    DigitsRoundTrip(a, w);
    DigitsRoundTrip(b, w);
  }

  /** Python's `s.startswith(prefix)`. */
  predicate StartsWith(s: string, prefix: string)
  {
    |prefix| <= |s| && s[..|prefix|] == prefix
  }

  /** Python's `s.endswith(suffix)`; every string ends with `''`. */
  predicate EndsWith(s: string, suffix: string)
  {
    |suffix| <= |s| && s[|s| - |suffix|..] == suffix
  }

  /** Python's `sub in s`. */
  predicate Contains(s: string, sub: string)
    decreases |s|
  {
    StartsWith(s, sub) || (s != [] && Contains(s[1..], sub))
  }

  /** Python's `s.rfind(c)` for one character: the last index holding `c`, or -1. */
  function RFind(s: string, c: char): (i: int)
    ensures -1 <= i < |s|
    ensures i >= 0 ==> s[i] == c
    ensures forall j :: i < j < |s| ==> s[j] != c
  {
    if s == [] then -1
    else if s[|s| - 1] == c then |s| - 1
    else RFind(s[..|s| - 1], c)
  }

  /** `s[s.rfind(c) + 1:]`: what follows the last `c`, or all of `s` when there is none. */
  function AfterLast(s: string, c: char): (r: string)
    ensures c !in r
    ensures EndsWith(s, r)
    ensures c !in s ==> r == s
    ensures c in s ==> |r| < |s| && s[|s| - |r| - 1] == c
  {
    s[RFind(s, c) + 1..]
  }

  /**
   * Python's `s.replace(pat, '')`: scans left to right and deletes every
   * non-overlapping occurrence of `pat`.
   */
  function RemoveAll(s: string, pat: string): (r: string)
    requires pat != []
    ensures |r| <= |s|
    ensures forall c :: c in r ==> c in s
    decreases |s|
  {
    if s == [] then []
    else if StartsWith(s, pat) then RemoveAll(s[|pat|..], pat)
    else [s[0]] + RemoveAll(s[1..], pat)
  }

  /** A string without the pattern is left as it is. */
  lemma {:induction false} RemoveAllAbsent(s: string, pat: string)
    requires pat != [] && !Contains(s, pat)
    ensures RemoveAll(s, pat) == s
    decreases |s|
  {
    if s != [] {
      RemoveAllAbsent(s[1..], pat);
    }
  }

  /**
   * Removing `.gz` everywhere drops a trailing `.gz` and treats the rest as
   * if it stood alone: `.gz` overlaps no shifted copy of itself, so the
   * suffix cannot start a match earlier.
   */
  lemma {:induction false} RemoveGzSuffix(a: string)
    ensures RemoveAll(a + ".gz", ".gz") == RemoveAll(a, ".gz")
    decreases |a|
  {
    var s := a + ".gz";
    if a == [] {
      assert s == ".gz";
      assert s[3..] == [];
    } else if StartsWith(a, ".gz") {
      assert StartsWith(s, ".gz");
      assert s[3..] == a[3..] + ".gz";
      RemoveGzSuffix(a[3..]);
    } else {
      assert !StartsWith(s, ".gz") by {
        if |a| == 1 {
          assert s[1] == '.';
        } else if |a| == 2 {
          assert s[2] == '.';
        } else {
          assert s[..3] == a[..3];
        }
      }
      assert s[1..] == a[1..] + ".gz";
      RemoveGzSuffix(a[1..]);
    }
  }
}
