/** String helpers shared by the chart labels, the graph labels and the
    gallery validator: decimal formatting of `usize`, substring tests and
    single-character replacement (Rust's `str::replace(char, &str)`). */
module Text {

  predicate IsDigit(c: char) { '0' <= c <= '9' }

  function DigitChar(d: nat): (c: char)
    requires d < 10
    ensures IsDigit(c)
  {
    (48 + d) as char
  }

  function DigitValue(c: char): (d: nat)
    requires IsDigit(c)
    ensures d < 10
  {
    (c as int) - 48
  }

  /** `format!("{}", n)` for an unsigned integer. */
  function NatToString(n: nat): (s: string)
    ensures |s| >= 1
    ensures forall i :: 0 <= i < |s| ==> IsDigit(s[i])
    ensures |s| > 1 ==> s[0] != '0'
    decreases n
  {
    if n < 10 then [DigitChar(n)] else NatToString(n / 10) + [DigitChar(n % 10)]
  }

  /** Reads a string of decimal digits back as a number. */
  function ParseDecimal(s: string): nat
    requires forall i :: 0 <= i < |s| ==> IsDigit(s[i])
  {
    if s == [] then 0 else 10 * ParseDecimal(s[..|s| - 1]) + DigitValue(s[|s| - 1])
  }

  /** Decimal formatting can be read back, so distinct numbers format to distinct strings. */
  lemma {:induction false} ParseNatToString(n: nat)
    ensures ParseDecimal(NatToString(n)) == n
    decreases n
  {
    var s := NatToString(n);
    if n >= 10 {
      ParseNatToString(n / 10);
      assert s[..|s| - 1] == NatToString(n / 10);
    }
  }

  lemma NatToStringInjective(m: nat, n: nat)
    ensures NatToString(m) == NatToString(n) <==> m == n
  {
    ParseNatToString(m);
    ParseNatToString(n);
  }

  predicate StartsWith(s: string, prefix: string) {
    |prefix| <= |s| && s[..|prefix|] == prefix
  }

  predicate EndsWith(s: string, suffix: string) {
    |suffix| <= |s| && s[|s| - |suffix|..] == suffix
  }

  /** Python's `sub in s` / Rust's `s.contains(sub)`. */
  predicate Contains(s: string, sub: string)
    decreases |s|
  {
    StartsWith(s, sub) || (|s| > 0 && Contains(s[1..], sub))
  }

  /** `s.replace(c, rep)`: every occurrence of the character `c` becomes `rep`. */
  function ReplaceChar(s: string, c: char, rep: string): (r: string)
    ensures c !in rep ==> c !in r
    ensures forall x :: x in r ==> x in s || x in rep
  {
    if s == [] then []
    else (if s[0] == c then rep else [s[0]]) + ReplaceChar(s[1..], c, rep)
  }

  lemma {:induction false} ReplaceCharConcat(a: string, b: string, c: char, rep: string)
    ensures ReplaceChar(a + b, c, rep) == ReplaceChar(a, c, rep) + ReplaceChar(b, c, rep)
    decreases |a|
  {
    if a != [] {
      var head := if a[0] == c then rep else [a[0]];
      assert ReplaceChar(a + b, c, rep) == head + ReplaceChar(a[1..] + b, c, rep) by {
        assert (a + b)[0] == a[0];
        assert (a + b)[1..] == a[1..] + b;
      }
      ReplaceCharConcat(a[1..], b, c, rep);
      assert head + (ReplaceChar(a[1..], c, rep) + ReplaceChar(b, c, rep))
          == (head + ReplaceChar(a[1..], c, rep)) + ReplaceChar(b, c, rep);
    } else {
      assert a + b == b;
    }
  }

  /** Text before the last `sep`, Python's `s.rsplit(sep, 1)[0]`: the part
      before the last occurrence of `sep`, or all of `s` when there is none. */
  function BeforeLast(s: string, sep: char): (r: string)
    ensures |r| <= |s| && r == s[..|r|]
    ensures r == s <==> sep !in s
    ensures r != s ==> s[|r|] == sep && sep !in s[|r| + 1..]
    decreases |s|
  {
    if s == [] then []
    else if s[|s| - 1] == sep then s[..|s| - 1]
    else
      var r := BeforeLast(s[..|s| - 1], sep);
      if r == s[..|s| - 1] then s else r
  }
}
