/** String helpers with Python's meaning: `str.lower` (ASCII), string ordering,
    `sorted`, decimal formatting (`str(n)`, `f"{n:02d}"`), slicing and `split`. */
module Text {

  // ---------------------------------------------------------------- lower-casing

  function LowerChar(c: char): char {
    if 'A' <= c <= 'Z' then (c as int + 32) as char else c
  }

  /** `s.lower()` restricted to ASCII letters. */
  function Lower(s: string): (r: string)
    ensures |r| == |s|
    ensures forall i :: 0 <= i < |s| ==> r[i] == LowerChar(s[i])
  {
    seq(|s|, i requires 0 <= i < |s| => LowerChar(s[i]))
  }

  /** A string without upper-case ASCII letters is its own lower-case form. */
  lemma LowerOfLowercase(s: string)
    requires forall i :: 0 <= i < |s| ==> !('A' <= s[i] <= 'Z')
    ensures Lower(s) == s
  {
  }

  // ---------------------------------------------------------------- ordering

  /** Python's `a <= b` on strings: lexicographic by code point, a proper prefix first. */
  predicate StrLe(a: string, b: string)
    decreases |a|
  {
    a == [] || (b != [] && (a[0] < b[0] || (a[0] == b[0] && StrLe(a[1..], b[1..]))))
  }

  lemma {:induction false} StrLeTotal(a: string, b: string)
    ensures StrLe(a, b) || StrLe(b, a)
    decreases |a|
  {
    if a != [] && b != [] && a[0] == b[0] {
      StrLeTotal(a[1..], b[1..]);
    }
  }

  lemma {:induction false} StrLeTrans(a: string, b: string, c: string)
    requires StrLe(a, b) && StrLe(b, c)
    ensures StrLe(a, c)
    decreases |a|
  {
    if a != [] && a[0] == b[0] && b[0] == c[0] {
      StrLeTrans(a[1..], b[1..], c[1..]);
    }
  }

  lemma {:induction false} StrLeAntisym(a: string, b: string)
    requires StrLe(a, b) && StrLe(b, a)
    ensures a == b
    decreases |a|
  {
    if a != [] {
      StrLeAntisym(a[1..], b[1..]);
      assert a == [a[0]] + a[1..] && b == [b[0]] + b[1..];
    }
  }

  ghost predicate SortedStrings(s: seq<string>) {
    forall i, j :: 0 <= i < j < |s| ==> StrLe(s[i], s[j])
  }

  function InsertString(x: string, s: seq<string>): (r: seq<string>)
    requires SortedStrings(s)
    ensures SortedStrings(r)
    ensures multiset(r) == multiset(s) + multiset{x}
    ensures |r| == |s| + 1
    ensures r[0] == x || (s != [] && r[0] == s[0])
  {
    if s == [] then [x]
    else if StrLe(x, s[0]) then
      ConsSorted(x, s);
      [x] + s
    else
      StrLeTotal(x, s[0]);
      assert s == [s[0]] + s[1..];
      var rest := InsertString(x, s[1..]);
      ConsSorted(s[0], rest);
      [s[0]] + rest
  }

  lemma ConsSorted(y: string, s: seq<string>)
    requires SortedStrings(s) && (s != [] ==> StrLe(y, s[0]))
    ensures SortedStrings([y] + s)
  {
    forall j | 0 <= j < |s| ensures StrLe(y, s[j]) {
      if j > 0 { StrLeTrans(y, s[0], s[j]); }
    }
  }

  /** Python's `sorted(names)`: ascending, and a permutation of the input. */
  function SortStrings(s: seq<string>): (r: seq<string>)
    ensures SortedStrings(r)
    ensures multiset(r) == multiset(s)
    ensures |r| == |s|
  {
    if s == [] then []
    else
      assert s == [s[0]] + s[1..];
      InsertString(s[0], SortStrings(s[1..]))
  }

  // ---------------------------------------------------------------- decimal numbers

  predicate IsDigit(c: char) { '0' <= c <= '9' }

  function DigitChar(d: nat): (c: char)
    requires d < 10
    ensures IsDigit(c)
  {
    ('0' as int + d) as char
  }

  /** Value of a string of decimal digits (0 for the empty string). */
  function DigitsValue(s: string): int
    requires forall i :: 0 <= i < |s| ==> IsDigit(s[i])
  {
    if s == [] then 0
    else DigitsValue(s[..|s| - 1]) * 10 + (s[|s| - 1] as int - '0' as int)
  }

  /** Python's `str(n)` for a non-negative integer. */
  function NatToDecimal(n: nat): (r: string)
    ensures r != []
    ensures forall i :: 0 <= i < |r| ==> IsDigit(r[i])
    ensures n >= 10 ==> r[0] != '0'
    ensures n < 10 ==> |r| == 1
    ensures 10 <= n < 100 ==> |r| == 2
    ensures n >= 100 ==> |r| > 2
    decreases n
  {
    if n < 10 then [DigitChar(n)] else NatToDecimal(n / 10) + [DigitChar(n % 10)]
  }

  lemma {:induction false} NatToDecimalValue(n: nat)
    ensures DigitsValue(NatToDecimal(n)) == n
    decreases n
  {
    if n >= 10 {
      var r := NatToDecimal(n);
      assert r[..|r| - 1] == NatToDecimal(n / 10);
      NatToDecimalValue(n / 10);
    }
  }

  /** Python's `str(n)` for any integer. */
  function IntToDecimal(n: int): string {
    if n < 0 then "-" + NatToDecimal(-n) else NatToDecimal(n)
  }

  /** Python's `int(s)` restricted to an optional minus sign and digits. */
  function ParseInt(s: string): int
    requires s != [] && s[0] == '-' ==> forall i :: 1 <= i < |s| ==> IsDigit(s[i])
    requires !(s != [] && s[0] == '-') ==> forall i :: 0 <= i < |s| ==> IsDigit(s[i])
  {
    if s != [] && s[0] == '-' then -DigitsValue(s[1..]) else DigitsValue(s)
  }

  /** `int(str(n)) == n`: the decimal rendering loses nothing. */
  lemma IntToDecimalRoundTrip(n: int)
    ensures var s := IntToDecimal(n);
      s != [] && (s[0] == '-' <==> n < 0) && ParseInt(s) == n
  {
    if n < 0 {
      NatToDecimalValue(-n);
      assert IntToDecimal(n)[1..] == NatToDecimal(-n);
    } else {
      NatToDecimalValue(n);
    }
  }

  /** Python's `f"{n:02d}"` for a non-negative integer: zero-padded to width two. */
  function ZeroPad2(n: nat): (r: string)
    ensures r != [] && forall i :: 0 <= i < |r| ==> IsDigit(r[i])
    ensures n < 100 ==> |r| == 2
    ensures n >= 100 ==> |r| > 2
  {
    if n < 10 then "0" + NatToDecimal(n) else NatToDecimal(n)
  }

  /** The padded rendering still denotes `n`, so distinct numbers get distinct strings. */
  lemma ZeroPad2Value(n: nat)
    ensures DigitsValue(ZeroPad2(n)) == n
  {
    NatToDecimalValue(n);
    if n < 10 {
      var r := ZeroPad2(n);
      assert r[..|r| - 1] == "0";
    }
  }

  lemma ZeroPad2Injective(m: nat, n: nat)
    requires ZeroPad2(m) == ZeroPad2(n)
    ensures m == n
  {
    ZeroPad2Value(m);
    ZeroPad2Value(n);
  }

  // ---------------------------------------------------------------- slicing, splitting

  /** Python's `s[n:]` for `n >= 0`. */
  function DropFirst(s: string, n: nat): (r: string)
    ensures |r| == if n <= |s| then |s| - n else 0
    ensures forall i :: 0 <= i < |r| ==> r[i] == s[n + i]
  {
    if n <= |s| then s[n..] else []
  }

  /** Python's `s[:n]` for `n >= 0`. */
  function TakeFirst(s: string, n: nat): (r: string)
    ensures r == if n <= |s| then s[..n] else s
  {
    if n <= |s| then s[..n] else s
  }

  /** Python's `xs[:limit]` for any integer limit (a negative limit drops from the end). */
  function PyPrefix<T>(xs: seq<T>, limit: int): (r: seq<T>)
    ensures |r| <= |xs| && r == xs[..|r|]
    ensures limit >= 0 ==> |r| == if limit <= |xs| then limit else |xs|
    ensures limit < 0 ==> |r| == if -limit <= |xs| then |xs| + limit else 0
  {
    if limit >= 0 then (if limit <= |xs| then xs[..limit] else xs)
    else if -limit <= |xs| then xs[..|xs| + limit] else []
  }

  /** Index of the first `c` in `s`, or `|s|` when there is none. */
  function IndexOf(s: string, c: char): (k: nat)
    ensures k <= |s|
    ensures k < |s| ==> s[k] == c
    ensures forall i :: 0 <= i < k ==> s[i] != c
  {
    if s == [] then 0 else if s[0] == c then 0 else 1 + IndexOf(s[1..], c)
  }

  /** Python's `s.split(c)[0]`: everything before the first `c`. */
  function FirstSegment(s: string, c: char): (r: string)
    ensures r == s[..IndexOf(s, c)]
    ensures c !in r
  {
    s[..IndexOf(s, c)]
  }
}
