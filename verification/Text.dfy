/** Decimal numbers as C prints and parses them. */
module Text {

  predicate IsDigit(c: char)
  {
    '0' <= c <= '9'
  }

  predicate IsSpace(c: char)
  {
    c == ' ' || c == '\t' || c == '\n' || c == '\r' || c == 11 as char || c == 12 as char
  }

  function Digit(d: nat): (c: char)
    requires d < 10
    ensures IsDigit(c) && c as int - '0' as int == d
  {
    ('0' as int + d) as char
  }

  /** "%d" of a nonnegative number. */
  function PrintNat(n: nat): (s: string)
    ensures s != [] && forall i :: 0 <= i < |s| ==> IsDigit(s[i])
  {
    if n < 10 then [Digit(n)] else PrintNat(n / 10) + [Digit(n % 10)]
  }

  /** "%d". */
  function Print(n: int): (s: string)
    ensures s != []
  {
    if n < 0 then "-" + PrintNat(-n) else PrintNat(n)
  }

  /** The leading decimal digits of s, added to what was already read. */
  function DigitsFrom(s: string, acc: nat): nat
  {
    if s == [] || !IsDigit(s[0]) then acc
    else DigitsFrom(s[1..], acc * 10 + (s[0] as int - '0' as int))
  }

  /** `atoi`: leading white space, an optional sign, digits; anything else ends the number. */
  function Atoi(s: string): int
  {
    if s == [] then 0
    else if IsSpace(s[0]) then Atoi(s[1..])
    else if s[0] == '-' then 0 - DigitsFrom(s[1..], 0) as int
    else if s[0] == '+' then DigitsFrom(s[1..], 0)
    else DigitsFrom(s, 0)
  }

  /** Index of the last ':' before position n, or -1. */
  function LastColon(s: string, n: nat): (c: int)
    requires n <= |s|
    ensures -1 <= c < n
    ensures c >= 0 ==> s[c] == ':'
    ensures forall i :: c < i < n ==> s[i] != ':'
  {
    if n == 0 then -1 else if s[n - 1] == ':' then n - 1 else LastColon(s, n - 1)
  }

  /** What follows the last colon has none. */
  lemma LastColonOf(s: string, host: string, rest: string)
    requires s == host + ":" + rest && ':' !in rest
    ensures LastColon(s, |s|) == |host| && s[..|host|] == host && s[|host| + 1..] == rest
  {
    assert s[|host|] == ':' && s[|host| + 1..] == rest && s[..|host|] == host;
    assert forall i :: |host| < i < |s| ==> s[i] == rest[i - |host| - 1];
  }

  /** Digits read one more at the end. */
  lemma {:induction false} DigitsSnoc(s: string, c: char, acc: nat)
    requires (forall i :: 0 <= i < |s| ==> IsDigit(s[i])) && IsDigit(c)
    ensures DigitsFrom(s + [c], acc) == DigitsFrom(s, acc) * 10 + (c as int - '0' as int)
  {
    if s == [] {
      assert s + [c] == [c] && [c][1..] == [];
    } else {
      assert (s + [c])[1..] == s[1..] + [c];
      DigitsSnoc(s[1..], c, acc * 10 + (s[0] as int - '0' as int));
    }
  }

  lemma {:induction false} DigitsPrintNat(n: nat)
    ensures DigitsFrom(PrintNat(n), 0) == n
  {
    if n < 10 {
      var s := [Digit(n)];
      assert s[1..] == [];
    } else {
      DigitsPrintNat(n / 10);
      DigitsSnoc(PrintNat(n / 10), Digit(n % 10), 0);
    }
  }

  /** Parsing what was printed gives the number back. */
  lemma AtoiPrint(n: int)
    ensures Atoi(Print(n)) == n
  {
    if n < 0 {
      DigitsPrintNat(-n);
      assert Print(n)[1..] == PrintNat(-n);
    } else {
      DigitsPrintNat(n);
      assert IsDigit(PrintNat(n)[0]);
    }
  }

  // ---- Words and lines

  /** No white space in s. */
  predicate Word(s: string)
  {
    forall i :: 0 <= i < |s| ==> !IsSpace(s[i])
  }

  function SkipSpace(s: string): (r: string)
    ensures |r| <= |s|
  {
    if s != [] && IsSpace(s[0]) then SkipSpace(s[1..]) else s
  }

  /** The leading characters of s up to white space, at most n of them: "%<n>s". */
  function LeadingWord(s: string, n: nat): (w: string)
    ensures w <= s && |w| <= n && Word(w)
  {
    if n == 0 || s == [] || IsSpace(s[0]) then [] else [s[0]] + LeadingWord(s[1..], n - 1)
  }

  /** White space is skipped up to what follows it. */
  lemma {:induction false} SkipOver(gap: string, rest: string)
    requires (forall i :: 0 <= i < |gap| ==> IsSpace(gap[i])) && (rest == [] || !IsSpace(rest[0]))
    ensures SkipSpace(gap + rest) == rest
  {
    if gap == [] {
      assert gap + rest == rest;
    } else {
      assert (gap + rest)[1..] == gap[1..] + rest;
      SkipOver(gap[1..], rest);
    }
  }

  /** A word is read up to the white space after it. */
  lemma {:induction false} WordRead(w: string, rest: string, n: nat)
    requires Word(w) && |w| <= n && (rest == [] || IsSpace(rest[0]))
    ensures LeadingWord(w + rest, n) == w
  {
    if w == [] {
      assert w + rest == rest;
    } else {
      assert (w + rest)[1..] == w[1..] + rest;
      WordRead(w[1..], rest, n - 1);
    }
  }

  /** The pieces of s between occurrences of c: `g_strsplit`. */
  function Split(s: string, c: char): (r: seq<string>)
    ensures r != []
  {
    if s == [] then [[]]
    else if s[0] == c then [[]] + Split(s[1..], c)
    else var r := Split(s[1..], c); [[s[0]] + r[0]] + r[1..]
  }

  lemma {:induction false} SplitFirst(a: string, c: char, b: string)
    requires c !in a
    ensures Split(a + [c] + b, c) == [a] + Split(b, c)
  {
    var s := a + [c] + b;
    if a == [] {
      assert s[1..] == b;
    } else {
      assert s[1..] == a[1..] + [c] + b;
      SplitFirst(a[1..], c, b);
      assert [a[0]] + a[1..] == a;
    }
  }

  lemma {:induction false} SplitLast(a: string, c: char)
    requires c !in a
    ensures Split(a, c) == [a]
  {
    if a != [] {
      SplitLast(a[1..], c);
      assert [a[0]] + a[1..] == a;
    }
  }

  /** A number below ten to the power d prints in at most d digits. */
  lemma {:induction false} PrintLength(n: nat, d: nat)
    requires 1 <= d <= 10 && n < Pow10(d)
    ensures |PrintNat(n)| <= d
  {
    if n >= 10 {
      PrintLength(n / 10, d - 1);
    }
  }

  function Pow10(d: nat): nat
  {
    if d == 0 then 1 else 10 * Pow10(d - 1)
  }
}
