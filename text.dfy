/**
 * The JavaScript string operations the components rely on, restated over `seq<char>`:
 * `toLowerCase` (ASCII letters only), the regular-expression class `\s`, `repeat`,
 * `padStart`, `Array.prototype.join` and decimal `toString` for non-negative integers.
 *
 * Two readers that the components do not have are added so that the model can state
 * what their output means: `Split`, which cuts a text at a one-character separator
 * with the semantics of JavaScript's `split` and reads a newline join back as its
 * lines, and `ParseNat`, which reads a decimal numeral back as its value.
 */
module Text {
  import opened Wrappers

  // ---------------------------------------------------------------------------
  // Characters
  // ---------------------------------------------------------------------------

  /**
   * ECMAScript's WhiteSpace and LineTerminator code points: exactly what `\s` matches.
   * No ASCII letter, digit or hyphen is whitespace, so the hyphen that replaces a run
   * cannot start a new one.
   */
  predicate IsSpace(c: char)
    ensures IsSpace(c) ==> !('A' <= c <= 'Z') && !('a' <= c <= 'z') && !('0' <= c <= '9') && c != '-'
  {
    c == ' ' || c == '\t' || c == '\n' || c == '\r' || c == '\U{000B}' || c == '\U{000C}'
    || c == '\U{00A0}' || c == '\U{1680}' || ('\U{2000}' <= c <= '\U{200A}')
    || c == '\U{2028}' || c == '\U{2029}' || c == '\U{202F}' || c == '\U{205F}'
    || c == '\U{3000}' || c == '\U{FEFF}'
  }

  predicate IsUpper(c: char) { 'A' <= c <= 'Z' }

  predicate IsDigit(c: char) { '0' <= c <= '9' }

  /**
   * `toLowerCase` of one character, for the ASCII letters: a capital becomes the small
   * letter at the same place in the alphabet; every other character is kept.
   */
  function LowerChar(c: char): (r: char)
    ensures IsUpper(c) ==> 'a' <= r <= 'z' && r as int - 'a' as int == c as int - 'A' as int
    ensures !IsUpper(r)
    ensures IsSpace(r) == IsSpace(c)
    ensures IsUpper(c) || r == c
  {
    if IsUpper(c) then (c as int + 32) as char else c
  }

  /** A string that `toLowerCase` leaves as it is. */
  ghost predicate IsLowered(s: string) {
    forall i :: 0 <= i < |s| ==> !IsUpper(s[i])
  }

  /** `r` is `s` with every character lowered in place, nothing added or removed. */
  ghost predicate LoweredFrom(s: string, r: string) {
    |r| == |s| && forall i :: 0 <= i < |s| ==> r[i] == LowerChar(s[i])
  }

  /** `toLowerCase`: every character lowered in place, nothing added or removed. */
  function Lower(s: string): (r: string)
    ensures |r| == |s|
    ensures forall i :: 0 <= i < |s| ==> r[i] == LowerChar(s[i])
    ensures IsLowered(r)
  {
    if s == [] then [] else [LowerChar(s[0])] + Lower(s[1..])
  }

  lemma LowerOfLowered(s: string)
    requires IsLowered(s)
    ensures Lower(s) == s
  {
  }

  /** Lowering works piece by piece. */
  lemma {:induction false} LowerAppend(a: string, b: string)
    ensures Lower(a + b) == Lower(a) + Lower(b)
  {
    var l, r := Lower(a + b), Lower(a) + Lower(b);
    forall i | 0 <= i < |a + b| ensures l[i] == r[i] {
      if i < |a| {
        assert (a + b)[i] == a[i];
      } else {
        assert (a + b)[i] == b[i - |a|];
      }
    }
    assert l == r;
  }

  // ---------------------------------------------------------------------------
  // repeat and padStart
  // ---------------------------------------------------------------------------

  /** `c.repeat(n)`: exactly `n` copies of `c`. */
  function Repeat(c: char, n: nat): (r: string)
    ensures |r| == n
    ensures forall i :: 0 <= i < n ==> r[i] == c
  {
    if n == 0 then [] else [c] + Repeat(c, n - 1)
  }

  /** `s.padStart(width, fill)` with a one-character fill: `s` kept at the right end, fill in front. */
  function PadStart(s: string, width: nat, fill: char): (r: string)
    ensures |r| == if |s| < width then width else |s|
    ensures r[|r| - |s|..] == s
    ensures forall i :: 0 <= i < |r| - |s| ==> r[i] == fill
  {
    if |s| < width then Repeat(fill, width - |s|) + s else s
  }

  // ---------------------------------------------------------------------------
  // join and split
  // ---------------------------------------------------------------------------

  function TotalLength(xs: seq<string>): nat {
    if xs == [] then 0 else |xs[0]| + TotalLength(xs[1..])
  }

  /** `xs.join(sep)`: the items in order with `sep` between neighbours; "" for no items. */
  function Join(xs: seq<string>, sep: string): (r: string)
    ensures |xs| > 0 ==> |r| == TotalLength(xs) + (|xs| - 1) * |sep|
    ensures |xs| > 0 ==> r[..|xs[0]|] == xs[0]
  {
    if |xs| == 0 then ""
    else if |xs| == 1 then xs[0]
    else xs[0] + sep + Join(xs[1..], sep)
  }

  /**
   * A reader of the model's own, with the semantics of JavaScript's `s.split(c)` for a
   * one-character separator: the pieces between the occurrences of `c`. The components
   * do not split; it reads their newline-joined output back.
   */
  function Split(s: string, c: char): (r: seq<string>)
    ensures |r| >= 1
    ensures forall i :: 0 <= i < |r| ==> c !in r[i]
  {
    if s == [] then [""]
    else
      var rest := Split(s[1..], c);
      if s[0] == c then [""] + rest else [[s[0]] + rest[0]] + rest[1..]
  }

  /** The pieces of every item, one list after the other. */
  function SplitEach(xs: seq<string>, c: char): seq<string> {
    if xs == [] then [] else Split(xs[0], c) + SplitEach(xs[1..], c)
  }

  /** A string without the separator is a single piece. */
  lemma {:induction false} SplitNoSeparator(x: string, c: char)
    requires c !in x
    ensures Split(x, c) == [x]
  {
    if x != [] {
      SplitNoSeparator(x[1..], c);
      assert x[0] != c;
      assert [x[0]] + x[1..] == x;
    }
  }

  /** Splitting at one occurrence of the separator splits the two sides independently. */
  lemma {:induction false} SplitConcat(a: string, b: string, c: char)
    ensures Split(a + [c] + b, c) == Split(a, c) + Split(b, c)
  {
    var s := a + [c] + b;
    if a == [] {
      assert s[1..] == b;
    } else {
      assert s[1..] == a[1..] + [c] + b;
      SplitConcat(a[1..], b, c);
    }
  }

  /** Lines of a joined text are the lines of its items, in order. */
  lemma {:induction false} SplitJoin(xs: seq<string>, c: char)
    requires |xs| > 0
    ensures Split(Join(xs, [c]), c) == SplitEach(xs, c)
  {
    if |xs| == 1 {
      assert SplitEach(xs, c) == Split(xs[0], c) + SplitEach([], c);
    } else {
      SplitConcat(xs[0], Join(xs[1..], [c]), c);
      SplitJoin(xs[1..], c);
    }
  }

  /** Items free of the separator are recovered exactly: join and split are inverse. */
  lemma {:induction false} SplitJoinRoundTrip(xs: seq<string>, c: char)
    requires |xs| > 0
    requires forall i :: 0 <= i < |xs| ==> c !in xs[i]
    ensures Split(Join(xs, [c]), c) == xs
  {
    SplitJoin(xs, c);
    SplitEachNoSeparator(xs, c);
  }

  lemma {:induction false} SplitEachNoSeparator(xs: seq<string>, c: char)
    requires forall i :: 0 <= i < |xs| ==> c !in xs[i]
    ensures SplitEach(xs, c) == xs
  {
    if xs != [] {
      SplitNoSeparator(xs[0], c);
      SplitEachNoSeparator(xs[1..], c);
    }
  }

  // ---------------------------------------------------------------------------
  // Decimal numerals
  // ---------------------------------------------------------------------------

  function DigitChar(d: nat): (c: char)
    requires d < 10
    ensures IsDigit(c)
  {
    ('0' as int + d) as char
  }

  /** `n.toString()` for a non-negative integer: decimal digits without a leading zero. */
  function NatToString(n: nat): (r: string)
    ensures |r| >= 1
    ensures forall i :: 0 <= i < |r| ==> IsDigit(r[i])
    ensures r[0] == '0' ==> n == 0
    ensures |r| == 1 <==> n < 10
    decreases n
  {
    if n < 10 then [DigitChar(n)] else NatToString(n / 10) + [DigitChar(n % 10)]
  }

  predicate AllDigits(s: string) {
    forall i :: 0 <= i < |s| ==> IsDigit(s[i])
  }

  /** The value of a string of decimal digits, most significant first. */
  function DigitsValue(s: string): nat
    requires AllDigits(s)
  {
    if s == [] then 0 else DigitsValue(s[..|s| - 1]) * 10 + (s[|s| - 1] as int - '0' as int)
  }

  /**
   * A decimal reader of the model's own (the components parse no numbers): a non-empty
   * run of digits and its value, anything else absent.
   */
  function ParseNat(s: string): Option<nat> {
    if |s| > 0 && AllDigits(s) then Some(DigitsValue(s)) else None
  }

  /** Reading back what `NatToString` wrote gives the number. */
  lemma {:induction false} ParseNatToString(n: nat)
    ensures ParseNat(NatToString(n)) == Some(n)
    decreases n
  {
    var s := NatToString(n);
    if n < 10 {
      assert s[..|s| - 1] == [];
    } else {
      ParseNatToString(n / 10);
      assert s[..|s| - 1] == NatToString(n / 10);
      assert DigitsValue(s) == (n / 10) * 10 + n % 10;
    }
  }

  /** A leading zero does not change the value. */
  lemma {:induction false} DigitsValueLeadingZero(s: string)
    requires AllDigits(s)
    ensures AllDigits("0" + s) && DigitsValue("0" + s) == DigitsValue(s)
    decreases |s|
  {
    var z := "0" + s;
    if s != [] {
      assert z[..|z| - 1] == "0" + s[..|s| - 1];
      DigitsValueLeadingZero(s[..|s| - 1]);
    }
  }
}
