/** Text helpers shared by the renderers: splitting into lines, decimal digits,
    and the i32 conversions the command line uses (`str::parse::<i32>`,
    `i32::to_string`). */
module Strings {
  import opened Wrappers

  // ---------------------------------------------------------------- lines

  /** The pieces of `s` between its '\n' characters, empty pieces included
      (what `str::split('\n')` yields). */
  function Lines(s: string): (r: seq<string>)
    ensures |r| >= 1
  {
    if s == [] then [""]
    else
      var rest := Lines(s[1..]);
      if s[0] == '\n' then [""] + rest else [[s[0]] + rest[0]] + rest[1..]
  }

  /** `ls` joined with '\n' between neighbours. */
  function Unlines(ls: seq<string>): string
    requires |ls| >= 1
  {
    if |ls| == 1 then ls[0] else ls[0] + "\n" + Unlines(ls[1..])
  }

  predicate NoNewline(s: string) {
    forall i :: 0 <= i < |s| ==> s[i] != '\n'
  }

  lemma {:induction false} LinesOfPlain(s: string)
    requires NoNewline(s)
    ensures Lines(s) == [s]
  {
    if s != [] {
      LinesOfPlain(s[1..]);
      assert s[0] != '\n' && [s[0]] + s[1..] == s;
    }
  }

  /** Splitting distributes over a '\n' placed between two strings. */
  lemma {:induction false} LinesAppend(x: string, y: string)
    ensures Lines(x + "\n" + y) == Lines(x) + Lines(y)
  {
    var s := x + "\n" + y;
    if x == [] {
      assert s[0] == '\n' && s[1..] == y;
    } else {
      assert s[0] == x[0] && s[1..] == x[1..] + "\n" + y;
      LinesAppend(x[1..], y);
    }
  }

  /** Joining lines that hold no '\n' and splitting again gives them back. */
  lemma {:induction false} LinesOfUnlines(ls: seq<string>)
    requires |ls| >= 1
    requires forall i :: 0 <= i < |ls| ==> NoNewline(ls[i])
    ensures Lines(Unlines(ls)) == ls
  {
    if |ls| == 1 {
      LinesOfPlain(ls[0]);
    } else {
      LinesOfPlain(ls[0]);
      LinesOfUnlines(ls[1..]);
      LinesAppend(ls[0], Unlines(ls[1..]));
    }
  }

  function Init(ls: seq<string>): seq<string>
    requires |ls| >= 1
  {
    ls[..|ls| - 1]
  }

  function Last(ls: seq<string>): string
    requires |ls| >= 1
  {
    ls[|ls| - 1]
  }

  /** Appending text without a newline extends the last line. */
  lemma {:induction false} LinesExtend(x: string, s: string)
    requires NoNewline(s)
    ensures Lines(x + s) == Init(Lines(x)) + [Last(Lines(x)) + s]
  {
    if x == [] {
      assert x + s == s;
      LinesOfPlain(s);
      assert "" + s == s;
    } else {
      var xs := x + s;
      assert xs[0] == x[0] && xs[1..] == x[1..] + s;
      LinesExtend(x[1..], s);
      ExtendStep(x[0], Lines(x), Lines(x[1..]), Lines(xs), Lines(x[1..] + s), s);
    }
  }

  /** One character in front of two splittings, the second of which extends
      the last line of the first, keeps that relation. */
  lemma ExtendStep(c: char, lx: seq<string>, l': seq<string>, lxs: seq<string>, r: seq<string>, s: string)
    requires |l'| >= 1 && |r| >= 1 && r == Init(l') + [Last(l') + s]
    requires lx == if c == '\n' then [""] + l' else [[c] + l'[0]] + l'[1..]
    requires lxs == if c == '\n' then [""] + r else [[c] + r[0]] + r[1..]
    ensures lxs == Init(lx) + [Last(lx) + s]
  {
    if c == '\n' {
      assert Init(lx) == [""] + Init(l');
    } else if |l'| == 1 {
      assert r == [l'[0] + s];
      assert [c] + (l'[0] + s) == ([c] + l'[0]) + s;
    } else {
      assert r[0] == l'[0];
      assert r[1..] == Init(l')[1..] + [Last(l') + s];
      assert Init(lx) == [[c] + l'[0]] + Init(l')[1..];
    }
  }

  /** Appending a newline starts a new, empty, last line. */
  lemma {:induction false} LinesBreak(x: string)
    ensures Lines(x + "\n") == Lines(x) + [""]
  {
    var xs := x + "\n";
    if x == [] {
      assert xs == "\n" && xs[1..] == "";
    } else {
      assert xs[0] == x[0] && xs[1..] == x[1..] + "\n";
      LinesBreak(x[1..]);
      var l' := Lines(x[1..]);
      if x[0] != '\n' {
        assert (l' + [""])[0] == l'[0];
        assert (l' + [""])[1..] == l'[1..] + [""];
      }
    }
  }

  /** Appending a separator "\n" + label and a value adds one line, label + value. */
  lemma LinesField(x: string, sep: string, value: string)
    requires |sep| >= 1 && sep[0] == '\n'
    requires NoNewline(sep[1..]) && NoNewline(value)
    ensures Lines(x + sep + value) == Lines(x) + [sep[1..] + value]
  {
    var lx := Lines(x);
    LinesBreak(x);
    assert x + sep == (x + "\n") + sep[1..];
    LinesExtend(x + "\n", sep[1..]);
    assert Init(lx + [""]) == lx && Last(lx + [""]) + sep[1..] == sep[1..];
    assert Lines(x + sep) == lx + [sep[1..]];
    LinesExtend(x + sep, value);
    assert Init(lx + [sep[1..]]) == lx;
  }

  lemma NoNewlineConcat(x: string, y: string)
    requires NoNewline(x) && NoNewline(y)
    ensures NoNewline(x + y)
  {
    var s := x + y;
    forall i | 0 <= i < |s| ensures s[i] != '\n' {
      if i < |x| { assert s[i] == x[i]; } else { assert s[i] == y[i - |x|]; }
    }
  }

  // --------------------------------------------------------------- digits

  predicate IsDigit(c: char) {
    '0' <= c <= '9'
  }

  predicate AllDigits(s: string) {
    forall i :: 0 <= i < |s| ==> IsDigit(s[i])
  }

  function DigitChar(d: nat): (c: char)
    requires d < 10
    ensures IsDigit(c)
  {
    "0123456789"[d]
  }

  function DigitValue(c: char): (d: nat)
    requires IsDigit(c)
    ensures d < 10
  {
    (c as int) - ('0' as int)
  }

  lemma DigitRoundTrip(d: nat)
    requires d < 10
    ensures DigitValue(DigitChar(d)) == d
  {
  }

  /** The value of a run of decimal digits, most significant first. */
  function DigitsValue(s: string): nat
    requires AllDigits(s)
  {
    if s == [] then 0 else DigitsValue(s[..|s| - 1]) * 10 + DigitValue(s[|s| - 1])
  }

  /** Shortest decimal rendering of a natural number. */
  function NatDigits(n: nat): (s: string)
    ensures |s| >= 1 && AllDigits(s)
  {
    if n < 10 then [DigitChar(n)] else NatDigits(n / 10) + [DigitChar(n % 10)]
  }

  lemma {:induction false} NatDigitsValue(n: nat)
    ensures DigitsValue(NatDigits(n)) == n
  {
    var s := NatDigits(n);
    if n < 10 {
      DigitRoundTrip(n);
    } else {
      NatDigitsValue(n / 10);
      DigitRoundTrip(n % 10);
      assert s[..|s| - 1] == NatDigits(n / 10);
    }
  }

  /** Leading zeros do not change a digit run's value. */
  lemma {:induction false} ZerosValue(k: nat, s: string)
    requires AllDigits(s)
    ensures AllDigits(Zeros(k) + s) && DigitsValue(Zeros(k) + s) == DigitsValue(s)
  {
    var z := Zeros(k) + s;
    assert AllDigits(z) by {
      forall i | 0 <= i < |z| ensures IsDigit(z[i]) {
        if i < k { assert z[i] == Zeros(k)[i]; } else { assert z[i] == s[i - k]; }
      }
    }
    if s == [] {
      assert z == Zeros(k);
      if k > 0 {
        assert z[..|z| - 1] == Zeros(k - 1) + [];
        ZerosValue(k - 1, []);
      }
    } else {
      assert z[..|z| - 1] == Zeros(k) + s[..|s| - 1];
      ZerosValue(k, s[..|s| - 1]);
    }
  }

  function Zeros(k: nat): (z: string)
    ensures |z| == k && forall i :: 0 <= i < k ==> z[i] == '0'
  {
    if k == 0 then [] else Zeros(k - 1) + "0"
  }

  /** `n` in decimal, zero-padded on the left to at least `width` characters
      (Rust's `{:0width$}`). */
  function Padded(n: nat, width: nat): (s: string)
    ensures AllDigits(s) && DigitsValue(s) == n
    ensures |s| == if |NatDigits(n)| < width then width else |NatDigits(n)|
  {
    var d := NatDigits(n);
    NatDigitsValue(n);
    ZerosValue(if |d| < width then width - |d| else 0, d);
    Zeros(if |d| < width then width - |d| else 0) + d
  }

  lemma PaddedTwo(n: nat)
    requires n < 100
    ensures |Padded(n, 2)| == 2
  {
    if n >= 10 {
      assert NatDigits(n) == NatDigits(n / 10) + [DigitChar(n % 10)];
    }
  }

  lemma PaddedFour(n: nat)
    requires n < 10000
    ensures |Padded(n, 4)| == 4
  {
    NatDigitsLength(n, 4);
  }

  lemma {:induction false} NatDigitsLength(n: nat, k: nat)
    requires k >= 1
    requires n < Pow10(k)
    ensures |NatDigits(n)| <= k
  {
    if n >= 10 {
      NatDigitsLength(n / 10, k - 1);
    }
  }

  function Pow10(k: nat): (p: nat)
    ensures p >= 1
  {
    if k == 0 then 1 else 10 * Pow10(k - 1)
  }

  // ------------------------------------------------------------ i32 text

  /** `i32::to_string`: a '-' for negative values, then the digits. */
  function DecimalString(n: i32): (s: string)
    ensures |s| >= 1
  {
    if n < 0 then "-" + NatDigits(-(n as int)) else NatDigits(n as int)
  }

  /** `str::parse::<i32>`: an optional '+' or '-', then at least one ASCII
      digit and nothing else, whose value must fit in 32 bits. */
  function ParseI32(s: string): (r: Option<i32>)
    ensures r.Some? ==> |s| >= 1
    ensures r.Some? ==> (s[0] == '-' || s[0] == '+' || IsDigit(s[0]))
  {
    if s == [] then None
    else
      var negative := s[0] == '-';
      var digits := if s[0] == '-' || s[0] == '+' then s[1..] else s;
      if digits == [] || !AllDigits(digits) then None
      else
        var v: int := if negative then -(DigitsValue(digits) as int) else DigitsValue(digits);
        if -0x8000_0000 <= v < 0x8000_0000 then Some(v as i32) else None
  }

  /** Every i32 survives rendering and parsing back: the `length` query value
      carries exactly the number given. */
  lemma ParseDecimalString(n: i32)
    ensures ParseI32(DecimalString(n)) == Some(n)
  {
    if n < 0 {
      NatDigitsValue(-(n as int));
      ParseNegative(NatDigits(-(n as int)), n);
    } else {
      NatDigitsValue(n as int);
      ParsePlain(NatDigits(n as int), n);
    }
  }

  lemma ParseNegative(d: string, n: i32)
    requires d != [] && AllDigits(d) && DigitsValue(d) == -(n as int)
    ensures ParseI32("-" + d) == Some(n)
  {
    var s := "-" + d;
    assert s[0] == '-' && s[1..] == d;
  }

  lemma ParsePlain(d: string, n: i32)
    requires d != [] && AllDigits(d) && DigitsValue(d) == n as int
    ensures ParseI32(d) == Some(n)
  {
    assert IsDigit(d[0]);
  }

  /** Text that is not an optional sign followed by digits never parses. */
  lemma ParseRejectsNonDigit(s: string, i: nat)
    requires 0 < i < |s| && !IsDigit(s[i])
    ensures ParseI32(s) == None
  {
    if s[0] == '-' || s[0] == '+' {
      assert s[1..][i - 1] == s[i];
    }
  }
}
