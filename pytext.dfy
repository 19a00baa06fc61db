/** Models of the Python built-ins the plotting core leans on: `str.lower`,
    `str.strip`, `str(int)` and `list.remove`. */
module PyText {
  import opened Wrappers

  // ---------------------------------------------------------------- str.lower

  /** `str.lower` on one character; only ASCII capitals change (chemical
      symbols and the keywords compared here are ASCII). */
  function LowerChar(c: char): char {
    if 'A' <= c <= 'Z' then (c as int + 32) as char else c
  }

  function Lower(s: string): string {
    seq(|s|, i requires 0 <= i < |s| => LowerChar(s[i]))
  }

  // ---------------------------------------------------------------- str.strip

  /** The characters `str.isspace` accepts, which `str.strip()` removes. */
  predicate IsSpace(c: char) {
    var n := c as int;
    || 9 <= n <= 13 || 28 <= n <= 32 || n == 0x85 || n == 0xA0 || n == 0x1680
    || 0x2000 <= n <= 0x200A || n == 0x2028 || n == 0x2029 || n == 0x202F
    || n == 0x205F || n == 0x3000
  }

  predicate AllSpace(s: string) {
    forall k :: 0 <= k < |s| ==> IsSpace(s[k])
  }

  /** Number of whitespace characters at the front of `s`. */
  function LeadingSpaces(s: string): (n: nat)
    ensures n <= |s|
    ensures AllSpace(s[..n])
    ensures n < |s| ==> !IsSpace(s[n])
  {
    if |s| > 0 && IsSpace(s[0]) then 1 + LeadingSpaces(s[1..]) else 0
  }

  /** Index where the trailing run of whitespace of `s` starts. */
  function TrailingStart(s: string): (m: nat)
    ensures m <= |s|
    ensures AllSpace(s[m..])
    ensures m > 0 ==> !IsSpace(s[m - 1])
  {
    if |s| > 0 && IsSpace(s[|s| - 1]) then TrailingStart(s[..|s| - 1]) else |s|
  }

  /** `str.strip()`: `s` without its leading and trailing whitespace. */
  function Strip(s: string): (r: string)
    ensures exists i, j :: 0 <= i <= j <= |s| && r == s[i..j] && AllSpace(s[..i]) && AllSpace(s[j..])
    ensures r != [] ==> !IsSpace(r[0]) && !IsSpace(r[|r| - 1])
  {
    var i := LeadingSpaces(s);
    var j := i + TrailingStart(s[i..]);
    assert s[i..][TrailingStart(s[i..])..] == s[j..];
    assert s[i..][..TrailingStart(s[i..])] == s[i..j];
    s[i..j]
  }

  // ---------------------------------------------------------------- str(int)

  function DigitChar(d: nat): char
    requires d < 10
  {
    ('0' as int + d) as char
  }

  /** Decimal digits of `n`, most significant first, without leading zeros. */
  function Digits(n: nat): (s: string)
    ensures |s| >= 1
    ensures forall k :: 0 <= k < |s| ==> '0' <= s[k] <= '9'
    ensures n >= 10 ==> |s| >= 2
  {
    if n < 10 then [DigitChar(n)] else Digits(n / 10) + [DigitChar(n % 10)]
  }

  /** `str(n)` for a Python `int`. */
  function Str(n: int): string {
    if n < 0 then "-" + Digits(-n) else Digits(n)
  }

  lemma {:induction false} DigitsInjective(a: nat, b: nat)
    requires Digits(a) == Digits(b)
    ensures a == b
  {
    if a >= 10 && b >= 10 {
      var da, db := Digits(a), Digits(b);
      assert da[|da| - 1] == DigitChar(a % 10) && db[|db| - 1] == DigitChar(b % 10);
      assert Digits(a / 10) == da[..|da| - 1] == db[..|db| - 1] == Digits(b / 10);
      DigitsInjective(a / 10, b / 10);
    }
  }

  /** Distinct integers have distinct decimal strings, so the label `str(g)`
      names group `g` and nothing else. */
  lemma StrInjective(a: int, b: int)
    requires Str(a) == Str(b)
    ensures a == b
  {
    StrSign(a);
    StrSign(b);
    if a < 0 {
      assert Digits(-a) == Str(a)[1..] == Str(b)[1..] == Digits(-b);
      DigitsInjective(-a, -b);
    } else {
      DigitsInjective(a, b);
    }
  }

  /** The first character of `str(n)` is a minus sign exactly for negatives. */
  lemma StrSign(n: int)
    ensures |Str(n)| >= 1 && (Str(n)[0] == '-' <==> n < 0)
  {
  }

  // ---------------------------------------------------------------- list.remove

  /** `list.index(x)`: the first position of `x`. */
  function IndexOf<T(==)>(s: seq<T>, x: T): (i: nat)
    requires x in s
    ensures i < |s| && s[i] == x && x !in s[..i]
  {
    if s[0] == x then 0 else 1 + IndexOf(s[1..], x)
  }

  /** `list.remove(x)`: drops the first occurrence of `x`; None is the
      `ValueError` raised when `x` is absent. */
  function RemoveFirst<T(==)>(s: seq<T>, x: T): (r: Option<seq<T>>)
    ensures r.None? <==> x !in s
    ensures r.Some? ==> r.value == s[..IndexOf(s, x)] + s[IndexOf(s, x) + 1..]
  {
    if x in s then
      var i := IndexOf(s, x);
      Some(s[..i] + s[i + 1..])
    else
      None
  }

  /** Removing from a list whose head is another value keeps the head. */
  lemma RemoveFirstCons<T>(h: T, t: seq<T>, x: T)
    requires h != x
    ensures RemoveFirst([h] + t, x) == if x in t then Some([h] + RemoveFirst(t, x).value) else None
  {
    if x in t {
      var s := [h] + t;
      assert s[1..] == t;
      var i := IndexOf(t, x);
      assert IndexOf(s, x) == i + 1;
      assert s[..i + 1] == [h] + t[..i];
      assert s[i + 2..] == t[i + 1..];
      assert RemoveFirst(t, x) == Some(t[..i] + t[i + 1..]);
      assert s[..i + 1] + s[i + 2..] == [h] + (t[..i] + t[i + 1..]);
    }
  }

  /** Removing the head of a list leaves its tail. */
  lemma RemoveFirstHead<T>(t: seq<T>, x: T)
    ensures RemoveFirst([x] + t, x) == Some(t)
  {
    var s := [x] + t;
    assert IndexOf(s, x) == 0;
    assert s[..0] + s[1..] == t;
  }
}
