/**
 * The PHP built-ins the plugin relies on, modelled over strings as seq<char>:
 * empty(), rtrim($s, '/'), basename(), strpos() used as a containment or
 * prefix test, implode(), strtolower() and the integer/string conversions
 * behind intval() and string interpolation of integers.
 */
module Php {

  datatype Option<+T> = None | Some(value: T)

  /** PHP's empty() applied to a string: both "" and "0" are empty. */
  predicate Empty(s: string) {
    s == "" || s == "0"
  }

  /** rtrim($s, '/'): drops every trailing '/'. */
  function RTrimSlash(s: string): string {
    if s != [] && s[|s| - 1] == '/' then RTrimSlash(s[..|s| - 1]) else s
  }

  /** rtrim() keeps a prefix that does not end in '/' and drops only '/' characters. */
  lemma {:induction false} RTrimSlashSpec(s: string)
    ensures RTrimSlash(s) <= s
    ensures RTrimSlash(s) == [] || RTrimSlash(s)[|RTrimSlash(s)| - 1] != '/'
    ensures forall i :: |RTrimSlash(s)| <= i < |s| ==> s[i] == '/'
  {
    if s != [] && s[|s| - 1] == '/' {
      RTrimSlashSpec(s[..|s| - 1]);
    }
  }

  /** The part of s after its last '/', or all of s when it has none. */
  function AfterLastSlash(s: string): string {
    if s == [] then []
    else if s[|s| - 1] == '/' then []
    else AfterLastSlash(s[..|s| - 1]) + [s[|s| - 1]]
  }

  /** The result is a '/'-free suffix of s, preceded in s by a '/' unless it is all of s. */
  lemma {:induction false} AfterLastSlashSpec(s: string)
    ensures '/' !in AfterLastSlash(s)
    ensures |AfterLastSlash(s)| <= |s| && AfterLastSlash(s) == s[|s| - |AfterLastSlash(s)|..]
    ensures |AfterLastSlash(s)| < |s| ==> s[|s| - |AfterLastSlash(s)| - 1] == '/'
  {
    if s != [] && s[|s| - 1] != '/' {
      var p, c := s[..|s| - 1], s[|s| - 1];
      AfterLastSlashSpec(p);
      var q := AfterLastSlash(p);
      assert AfterLastSlash(s) == q + [c];
      assert s[|s| - |q| - 1..] == q + [c] by {
        assert s[|s| - |q| - 1..] == s[|s| - |q| - 1..|s| - 1] + [c];
        assert s[|s| - |q| - 1..|s| - 1] == p[|p| - |q|..];
      }
    }
  }

  /** basename($path) on a POSIX host: trailing slashes are ignored, then the last component is kept. */
  function Basename(path: string): string {
    AfterLastSlash(RTrimSlash(path))
  }

  /** basename() is the last '/'-free component of the path once trailing slashes are dropped. */
  lemma BasenameIsLastComponent(path: string)
    ensures '/' !in Basename(path)
    ensures |Basename(path)| <= |RTrimSlash(path)|
    ensures Basename(path) == RTrimSlash(path)[|RTrimSlash(path)| - |Basename(path)|..]
  {
    var t := RTrimSlash(path);
    assert Basename(path) == AfterLastSlash(t);
    AfterLastSlashSpec(t);
  }

  /** strpos($s, $sub) !== false */
  predicate Contains(s: string, sub: string) {
    sub <= s || (s != [] && Contains(s[1..], sub))
  }

  /** A string never contains a longer one. */
  lemma {:induction false} ShorterDoesNotContain(s: string, sub: string)
    requires |s| < |sub|
    ensures !Contains(s, sub)
  {
    if s != [] {
      ShorterDoesNotContain(s[1..], sub);
    }
  }

  /** strpos($s, $prefix) === 0 */
  predicate StartsWith(s: string, prefix: string) {
    prefix <= s
  }

  /** implode($sep, $parts) */
  function Implode(sep: string, parts: seq<string>): string
  {
    if parts == [] then ""
    else if |parts| == 1 then parts[0]
    else parts[0] + sep + Implode(sep, parts[1..])
  }

  /** strtolower on ASCII letters. */
  function ToLower(s: string): (r: string)
    ensures |r| == |s|
    ensures forall i :: 0 <= i < |s| ==> r[i] == (if 'A' <= s[i] <= 'Z' then (s[i] as int + 32) as char else s[i])
  {
    seq(|s|, i requires 0 <= i < |s| => if 'A' <= s[i] <= 'Z' then (s[i] as int + 32) as char else s[i])
  }

  predicate IsDigit(c: char) {
    '0' <= c <= '9'
  }

  predicate AllDigits(s: string) {
    forall i :: 0 <= i < |s| ==> IsDigit(s[i])
  }

  function DigitChar(d: nat): (c: char)
    requires d < 10
  {
    (d + '0' as int) as char
  }

  /** The value of a string of decimal digits (leading zeros allowed). */
  function DecimalValue(s: string): nat
    requires AllDigits(s)
  {
    if s == [] then 0 else DecimalValue(s[..|s| - 1]) * 10 + (s[|s| - 1] as int - '0' as int)
  }

  /** How PHP renders a non-negative integer inside a string. */
  function NatToDecimal(n: nat): string {
    if n < 10 then [DigitChar(n)] else NatToDecimal(n / 10) + [DigitChar(n % 10)]
  }

  /** The rendering is the shortest decimal form of the number: digits only, no leading zero, and it reads back as n. */
  lemma {:induction false} NatToDecimalCorrect(n: nat)
    ensures NatToDecimal(n) != [] && AllDigits(NatToDecimal(n))
    ensures NatToDecimal(n)[0] == '0' ==> n == 0
    ensures DecimalValue(NatToDecimal(n)) == n
  {
    if n >= 10 {
      NatToDecimalCorrect(n / 10);
      var s := NatToDecimal(n);
      var p := NatToDecimal(n / 10);
      assert s[..|s| - 1] == p;
      assert s[0] == p[0];
    }
  }

  /** PHP_INT_MAX on a 64-bit build. */
  const PhpIntMax: nat := 0x7FFF_FFFF_FFFF_FFFF

  /** intval() of a string of decimal digits: the value, saturated at PHP_INT_MAX. */
  function IntVal(digits: string): (n: nat)
    requires AllDigits(digits)
    ensures n <= PhpIntMax
    ensures DecimalValue(digits) <= PhpIntMax ==> n == DecimalValue(digits)
    ensures DecimalValue(digits) > PhpIntMax ==> n == PhpIntMax
  {
    var v := DecimalValue(digits);
    if v > PhpIntMax then PhpIntMax else v
  }
}
