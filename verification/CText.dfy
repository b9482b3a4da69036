// Character classes, trimming, splitting and decimal numbers, as the C and Boost
// string routines used by the protocol behave in the "C" locale.
module Options {
  datatype Option<+T> = None | Some(value: T) {
    function GetOr(default: T): T {
      match this
      case Some(v) => v
      case None => default
    }
  }
}

module Search {
  // One past the last element that satisfies p, or 0 if none does.
  function LastWhere<T>(s: seq<T>, p: T -> bool): (r: nat)
    ensures r <= |s|
    ensures r > 0 ==> p(s[r - 1])
    ensures forall j | r <= j < |s| :: !p(s[j])
  {
    if s == [] then 0
    else
      var n := |s| - 1;
      if p(s[n]) then n + 1
      else
        var r := LastWhere(s[..n], p);
        assert forall j | r <= j < n :: !p(s[..n][j]);
        r
  }

  lemma LastWhereIs<T>(s: seq<T>, p: T -> bool, k: nat)
    requires k <= |s|
    requires k > 0 ==> p(s[k - 1])
    requires forall j | k <= j < |s| :: !p(s[j])
    ensures LastWhere(s, p) == k
  {
  }
}

module CText {
  predicate IsSpace(c: char) {
    c == ' ' || 9 <= c as int <= 13
  }

  predicate IsPunct(c: char) {
    var k := c as int;
    33 <= k <= 47 || 58 <= k <= 64 || 91 <= k <= 96 || 123 <= k <= 126
  }

  predicate IsPunctOrSpace(c: char) {
    IsPunct(c) || IsSpace(c)
  }

  predicate IsDigit(c: char) {
    '0' <= c <= '9'
  }

  function Upper(c: char): char {
    if 'a' <= c <= 'z' then (c as int - 32) as char else c
  }

  // Equality of strings up to the case of ASCII letters.
  predicate IEquals(a: string, b: string) {
    |a| == |b| && forall i | 0 <= i < |a| :: Upper(a[i]) == Upper(b[i])
  }

  function IndexOf(s: string, c: char): (r: nat)
    ensures r <= |s|
    ensures c !in s[..r]
    ensures r < |s| ==> s[r] == c
  {
    if s == "" || s[0] == c then 0 else
      var k := IndexOf(s[1..], c);
      assert s[..k + 1] == [s[0]] + s[1..][..k];
      k + 1
  }

  lemma IndexOfUnique(s: string, c: char, k: nat)
    requires k <= |s| && c !in s[..k]
    requires k < |s| ==> s[k] == c
    ensures IndexOf(s, c) == k
  {
    var r := IndexOf(s, c);
    assert forall i | 0 <= i < k :: s[i] in s[..k];
    assert forall i | 0 <= i < r :: s[i] in s[..r];
  }

  // The characters a C string function sees.
  function UpToNul(s: string): (r: string)
    ensures '\0' !in r
    ensures '\0' !in s ==> r == s
  {
    s[..IndexOf(s, '\0')]
  }

  function SkipRun(s: string, c: char): (r: string)
    ensures |r| <= |s|
    ensures r == s[|s| - |r|..]
    ensures r != "" ==> r[0] != c
  {
    if s != "" && s[0] == c then SkipRun(s[1..], c) else s
  }

  function TrimRightIf(s: string, drop: char -> bool): (r: string)
    ensures r <= s
    ensures r != "" ==> !drop(r[|r| - 1])
  {
    if s != "" && drop(s[|s| - 1]) then TrimRightIf(s[..|s| - 1], drop) else s
  }

  function LeadingSpaces(s: string): (r: nat)
    ensures r <= |s|
    ensures r < |s| ==> !IsSpace(s[r])
  {
    if s != "" && IsSpace(s[0]) then 1 + LeadingSpaces(s[1..]) else 0
  }

  function TrimLeft(s: string): (r: string)
    ensures |r| <= |s|
    ensures r != "" ==> !IsSpace(r[0]) && r[|r| - 1] == s[|s| - 1]
  {
    s[LeadingSpaces(s)..]
  }

  function Trim(s: string): (r: string)
    ensures NoOuterSpace(r)
  {
    TrimLeft(TrimRightIf(s, IsSpace))
  }

  predicate NoOuterSpace(s: string) {
    s != "" ==> !IsSpace(s[0]) && !IsSpace(s[|s| - 1])
  }

  lemma TrimKeeps(s: string, c: char)
    ensures c !in s ==> c !in Trim(s)
  {
    var t := TrimRightIf(s, IsSpace);
    assert forall x | x in t :: x in s;
    assert forall x | x in TrimLeft(t) :: x in t;
  }

  lemma TrimId(s: string)
    ensures NoOuterSpace(s) <==> Trim(s) == s
  {
  }

  // White space added at the right of a trimmed string disappears again.
  lemma TrimSuffix(s: string, suffix: string)
    requires NoOuterSpace(s)
    requires forall c | c in suffix :: IsSpace(c)
    ensures Trim(s + suffix) == s
  {
    if suffix == "" {
      assert s + suffix == s;
    } else {
      assert (s + suffix)[..|s + suffix| - 1] == s + suffix[..|suffix| - 1];
      TrimSuffix(s, suffix[..|suffix| - 1]);
    }
  }

  // Tokens of s separated by runs of sep. Empty tokens appear only at the two ends.
  function Split(s: string, sep: char): (r: seq<string>)
    ensures r != []
    decreases |s|
  {
    var i := IndexOf(s, sep);
    if i == |s| then
      [s]
    else
      [s[..i]] + Split(SkipRun(s[i + 1..], sep), sep)
  }

  // A token holds no separator, and no character the text does not hold.
  lemma {:induction false} SplitKeeps(s: string, sep: char, k: nat, c: char)
    requires k < |Split(s, sep)|
    ensures sep !in Split(s, sep)[k]
    ensures c !in s ==> c !in Split(s, sep)[k]
    decreases |s|
  {
    var i := IndexOf(s, sep);
    if i == |s| {
      assert s[..i] == s;
    } else if k > 0 {
      var rest := SkipRun(s[i + 1..], sep);
      assert forall x | x in rest :: x in s;
      SplitKeeps(rest, sep, k - 1, c);
    } else {
      assert forall x | x in s[..i] :: x in s;
    }
  }

  lemma SplitFirst(a: string, b: string, sep: char)
    requires sep !in a
    requires b != "" ==> b[0] != sep
    ensures Split(a + [sep] + b, sep) == [a] + Split(b, sep)
  {
    var s := a + [sep] + b;
    assert s[..|a|] == a && s[|a|] == sep && s[|a| + 1..] == b;
    IndexOfUnique(s, sep, |a|);
  }

  lemma SplitNone(a: string, sep: char)
    requires sep !in a
    ensures Split(a, sep) == [a]
  {
    assert a[..|a|] == a;
    IndexOfUnique(a, sep, |a|);
  }

  lemma SplitPair(a: string, b: string, sep: char)
    requires sep !in a && sep !in b
    ensures Split(a + [sep] + b, sep) == [a, b]
  {
    hide Split;
    assert b != "" ==> b[0] in b;
    SplitFirst(a, b, sep);
    SplitNone(b, sep);
  }

  // ---- decimal integers ----

  const INT_MIN := -0x8000_0000
  const INT_MAX := 0x7fff_ffff
  const LONG_MIN := -0x8000_0000_0000_0000
  const LONG_MAX := 0x7fff_ffff_ffff_ffff

  predicate FitsInt(i: int) {
    INT_MIN <= i <= INT_MAX
  }

  function Digits(n: nat): (s: string)
    ensures s != "" && forall c | c in s :: IsDigit(c)
  {
    var d := [(n % 10 + '0' as int) as char];
    if n < 10 then d else Digits(n / 10) + d
  }

  function ToDecimal(i: int): (s: string)
    ensures s != "" && IsDigit(s[|s| - 1])
    ensures forall c | c in s :: IsDigit(c) || c == '-'
  {
    if i < 0 then "-" + Digits(-i) else Digits(i)
  }

  function DigitRun(s: string): (r: nat)
    ensures r <= |s|
    ensures forall k | 0 <= k < r :: IsDigit(s[k])
    ensures r < |s| ==> !IsDigit(s[r])
  {
    if s != "" && IsDigit(s[0]) then 1 + DigitRun(s[1..]) else 0
  }

  function DigitOf(c: char): nat
    requires IsDigit(c)
  {
    c as int - '0' as int
  }

  function DigitsValue(s: string): nat
    requires forall c | c in s :: IsDigit(c)
  {
    if s == "" then 0
    else
      assert s[|s| - 1] in s;
      10 * DigitsValue(s[..|s| - 1]) + DigitOf(s[|s| - 1])
  }

  // strtol in base 10, before it saturates.
  function LongValue(s: string): int {
    var t := TrimLeft(s);
    var u := if t != "" && (t[0] == '-' || t[0] == '+') then t[1..] else t;
    var n: int := DigitsValue(u[..DigitRun(u)]);
    if t != "" && t[0] == '-' then -n else n
  }

  function Clamp(i: int): int {
    if i < LONG_MIN then LONG_MIN else if i > LONG_MAX then LONG_MAX else i
  }

  // atoi: strtol saturates at the range of a 64-bit long, the result is cut to a 32-bit int.
  function Atoi(s: string): (r: int)
    ensures FitsInt(r)
    ensures FitsInt(LongValue(s)) ==> r == LongValue(s)
  {
    var w := Clamp(LongValue(s)) % 0x1_0000_0000;
    if w > INT_MAX then w - 0x1_0000_0000 else w
  }

  lemma {:induction false} DigitsValueInverse(n: nat)
    ensures DigitsValue(Digits(n)) == n
  {
    if n < 10 {
      assert Digits(n)[..|Digits(n)| - 1] == "";
    } else {
      assert Digits(n)[..|Digits(n)| - 1] == Digits(n / 10);
      DigitsValueInverse(n / 10);
    }
  }

  lemma DigitRunAll(s: string)
    requires forall c | c in s :: IsDigit(c)
    ensures s[..DigitRun(s)] == s
  {
    assert forall k | 0 <= k < |s| :: s[k] in s;
  }

  lemma LongValuePlain(u: string)
    requires u != "" && forall c | c in u :: IsDigit(c)
    ensures LongValue(u) == DigitsValue(u)
  {
    DigitRunAll(u);
    assert u[0] in u;
    assert TrimLeft(u) == u;
  }

  lemma LongValueMinus(u: string)
    requires forall c | c in u :: IsDigit(c)
    ensures LongValue("-" + u) == 0 - DigitsValue(u)
  {
    DigitRunAll(u);
    assert ("-" + u)[0] == '-' && ("-" + u)[1..] == u;
    assert TrimLeft("-" + u) == "-" + u;
  }

  lemma LongValueInverse(i: int)
    ensures LongValue(ToDecimal(i)) == i
  {
    var n: nat := if i < 0 then -i else i;
    DigitsValueInverse(n);
    if i < 0 {
      LongValueMinus(Digits(n));
    } else {
      LongValuePlain(Digits(n));
    }
  }

  lemma AtoiInverse(i: int)
    requires FitsInt(i)
    ensures Atoi(ToDecimal(i)) == i
  {
    LongValueInverse(i);
  }
}
