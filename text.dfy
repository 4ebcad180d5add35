/**
 * The string helpers of Go's standard library that the handler relies on:
 * `strings.TrimPrefix`, `filepath.Ext` (on a `/`-separated path) and the
 * decimal rendering of `%d` used to build `Cache-Control` values.
 * `strings.HasPrefix(s, p)` is Dafny's prefix test `p <= s`.
 */
module Text {

  /** `strings.TrimPrefix`: `s` without `prefix` when it starts with it, else `s`. */
  function TrimPrefix(s: string, prefix: string): (r: string)
    ensures prefix <= s ==> prefix + r == s
    ensures !(prefix <= s) ==> r == s
  {
    if prefix <= s then s[|prefix|..] else s
  }

  /** `r` is the extension of `path`: the suffix starting at the last `.`
      of the final path segment, or empty when that segment has no `.`. */
  ghost predicate IsExtension(path: string, r: string)
  {
    && |r| <= |path| && r == path[|path| - |r|..]
    && (r != [] ==> r[0] == '.' && forall j :: 0 < j < |r| ==> r[j] != '.' && r[j] != '/')
    && (r == [] ==> forall k :: 0 <= k < |path| && path[k] == '.' ==>
                      exists j :: k < j < |path| && path[j] == '/')
  }

  /** The backwards scan of `filepath.Ext`: `i` is the index being inspected,
      and everything after it has been seen to hold neither `.` nor `/`. */
  function ExtScan(path: string, i: int): (r: string)
    requires -1 <= i < |path|
    requires forall j :: i < j < |path| ==> path[j] != '.' && path[j] != '/'
    ensures IsExtension(path, r)
    decreases i + 1
  {
    if i < 0 || path[i] == '/' then ""
    else if path[i] == '.' then path[i..]
    else ExtScan(path, i - 1)
  }

  /** `filepath.Ext`. */
  function Ext(path: string): (r: string)
    ensures IsExtension(path, r)
  {
    ExtScan(path, |path| - 1)
  }

  function DigitChar(d: nat): (c: char)
    requires d < 10
    ensures '0' <= c <= '9'
  {
    ('0' as int + d) as char
  }

  predicate IsDecimal(s: string)
  {
    |s| >= 1 && forall i :: 0 <= i < |s| ==> '0' <= s[i] <= '9'
  }

  /** The number a string of decimal digits denotes. */
  function DecimalValue(s: string): nat
    requires forall i :: 0 <= i < |s| ==> '0' <= s[i] <= '9'
  {
    if s == [] then 0
    else 10 * DecimalValue(s[..|s| - 1]) + (s[|s| - 1] as int - '0' as int)
  }

  /** `fmt.Sprintf("%d", n)` for a non-negative `n`: digits that read back as `n`,
      without leading zeros. */
  function Decimal(n: nat): string
  {
    if n < 10 then [DigitChar(n)] else Decimal(n / 10) + [DigitChar(n % 10)]
  }

  /** The digits read back as `n`, and only zero itself starts with `0`. */
  lemma {:induction false} DecimalDigits(n: nat)
    ensures IsDecimal(Decimal(n))
    ensures DecimalValue(Decimal(n)) == n
    ensures Decimal(n)[0] == '0' ==> n == 0
  {
    if n >= 10 {
      DecimalDigits(n / 10);
      var high := Decimal(n / 10);
      var s := high + [DigitChar(n % 10)];
      assert s[..|s| - 1] == high;
      assert s[0] == high[0];
    }
  }
}
