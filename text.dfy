/** The few pieces of Python's string behaviour the tool's decisions rest on:
    `str.strip()`, `str.lower()`, `str.replace(c, "")`, `sub in s`, `s.split(sep)[-1]`
    and `int(text)`. */
module Text {
  import opened Common

  predicate IsDigit(c: char) { '0' <= c <= '9' }

  predicate AllDigits(s: string) { forall i :: 0 <= i < |s| ==> IsDigit(s[i]) }

  /** The characters for which `str.isspace()` holds, which are exactly the
      ones `str.strip()` removes by default. */
  predicate IsSpace(c: char) {
    var n := c as int;
    (9 <= n <= 13) || (28 <= n <= 32) || n == 0x85 || n == 0xA0 || n == 0x1680
    || (0x2000 <= n <= 0x200A) || n == 0x2028 || n == 0x2029 || n == 0x202F
    || n == 0x205F || n == 0x3000
  }

  /** `s.lstrip()` */
  function LStrip(s: string): (r: string)
    ensures |r| <= |s|
    ensures r == [] || !IsSpace(r[0])
  {
    if s != [] && IsSpace(s[0]) then LStrip(s[1..]) else s
  }

  /** `s.rstrip()` */
  function RStrip(s: string): (r: string)
    ensures |r| <= |s|
    ensures r == [] || !IsSpace(r[|r| - 1])
  {
    if s != [] && IsSpace(s[|s| - 1]) then RStrip(s[..|s| - 1]) else s
  }

  /** `strip()` keeps the text between the first and the last character that is
      not white space. */
  function Strip(s: string): (r: string)
    ensures |r| <= |s|
    ensures r == [] || (!IsSpace(r[0]) && !IsSpace(r[|r| - 1]))
  {
    var l := LStrip(s);
    RStripDropsSpace(l);
    RStrip(l)
  }

  /** `lstrip()` keeps a suffix and what it drops is white space. */
  lemma {:induction false} LStripDropsSpace(s: string)
    ensures LStrip(s) == s[|s| - |LStrip(s)|..]
    ensures forall i :: 0 <= i < |s| - |LStrip(s)| ==> IsSpace(s[i])
  {
    if s != [] && IsSpace(s[0]) {
      LStripDropsSpace(s[1..]);
    }
  }

  /** `rstrip()` keeps a prefix and what it drops is white space. */
  lemma {:induction false} RStripDropsSpace(s: string)
    ensures RStrip(s) == s[..|RStrip(s)|]
    ensures forall i :: |RStrip(s)| <= i < |s| ==> IsSpace(s[i])
  {
    if s != [] && IsSpace(s[|s| - 1]) {
      RStripDropsSpace(s[..|s| - 1]);
    }
  }

  /** `strip()` keeps a contiguous piece of the text and drops only white space
      around it; it is empty exactly for text made of white space. */
  lemma StripIsInfix(s: string)
    ensures Strip(s) == [] || Contains(s, Strip(s))
    ensures Strip(s) == [] <==> forall i :: 0 <= i < |s| ==> IsSpace(s[i])
  {
    var l := LStrip(s);
    var r := RStrip(l);
    LStripDropsSpace(s);
    RStripDropsSpace(l);
    assert r == s[|s| - |l|..|s| - |l| + |r|];
    if r != [] {
      assert OccursAt(s, r, |s| - |l|);
      assert r[0] == s[|s| - |l|];
    } else {
      assert l == [];
    }
  }

  /** A string that does not start or end with white space is its own `strip()`. */
  lemma StripNoSpaceEnds(s: string)
    requires s == [] || (!IsSpace(s[0]) && !IsSpace(s[|s| - 1]))
    ensures Strip(s) == s
  {
    assert LStrip(s) == s;
    assert RStrip(s) == s;
  }

  /** `c.lower()` for the letters of Latin-1 (A-Z and the accented capitals
      such as the `Ü` of the operator prompt). */
  function LowerChar(c: char): (r: char)
    ensures ('A' <= c <= 'Z') ==> r as int == c as int + 32
    ensures 0xC0 <= c as int <= 0xDE && c as int != 0xD7 ==> r as int == c as int + 32
    ensures c == 'Ü' ==> r == 'ü'
    ensures !('A' <= c <= 'Z') && !(0xC0 <= c as int <= 0xDE && c as int != 0xD7) ==> r == c
  {
    if 'A' <= c <= 'Z' || (0xC0 <= c as int <= 0xDE && c as int != 0xD7) then (c as int + 32) as char else c
  }

  /** `s.lower()`, character by character. */
  function Lower(s: string): (r: string)
    ensures |r| == |s|
    ensures forall i {:trigger r[i]} | 0 <= i < |s| :: r[i] == LowerChar(s[i])
  {
    if s == [] then [] else [LowerChar(s[0])] + Lower(s[1..])
  }

  /** Lower-casing twice is lower-casing once. */
  lemma {:induction false} LowerIdempotent(s: string)
    ensures Lower(Lower(s)) == Lower(s)
  {
    if s != [] {
      LowerIdempotent(s[1..]);
      assert Lower(s)[1..] == Lower(s[1..]);
    }
  }

  /** Lower-casing never turns a character into white space or back. */
  lemma LowerCharSpace(c: char)
    ensures IsSpace(LowerChar(c)) <==> IsSpace(c)
  {
  }

  /** `s.replace(c, "")` for a one-character `c`. */
  function Remove(s: string, c: char): (r: string)
    ensures c !in r && |r| <= |s|
    ensures forall x :: x in r ==> x in s
  {
    if s == [] then [] else (if s[0] == c then [] else [s[0]]) + Remove(s[1..], c)
  }

  lemma {:induction false} RemoveAbsent(s: string, c: char)
    requires c !in s
    ensures Remove(s, c) == s
  {
    if s != [] {
      RemoveAbsent(s[1..], c);
    }
  }

  /** Removing a character distributes over concatenation. */
  lemma {:induction false} RemoveAppend(a: string, b: string, c: char)
    ensures Remove(a + b, c) == Remove(a, c) + Remove(b, c)
  {
    if a != [] {
      assert (a + b)[1..] == a[1..] + b;
      RemoveAppend(a[1..], b, c);
    } else {
      assert a + b == b;
    }
  }

  /** `sub` occurs in `s` starting at index `i`. */
  predicate OccursAt(s: string, sub: string, i: int) {
    0 <= i && i + |sub| <= |s| && s[i..i + |sub|] == sub
  }

  /** `sub in s` */
  predicate Contains(s: string, sub: string) {
    exists i | 0 <= i <= |s| :: OccursAt(s, sub, i)
  }

  // ----- decimal numbers -----

  function DigitValue(c: char): nat requires IsDigit(c) { c as int - '0' as int }

  /** The value of a string of decimal digits (leading zeros ignored). */
  function DecimalValue(s: string): nat
    requires AllDigits(s)
  {
    if s == [] then 0 else 10 * DecimalValue(s[..|s| - 1]) + DigitValue(s[|s| - 1])
  }

  /** `str(n)` for a natural number. */
  function Decimal(n: nat): (r: string)
    ensures |r| >= 1 && AllDigits(r)
  {
    var d := [('0' as int + n % 10) as char];
    if n < 10 then d else Decimal(n / 10) + d
  }

  lemma {:induction false} DecimalRoundTrip(n: nat)
    ensures DecimalValue(Decimal(n)) == n
  {
    var d := [('0' as int + n % 10) as char];
    if n >= 10 {
      DecimalRoundTrip(n / 10);
      var s := Decimal(n / 10) + d;
      assert s[..|s| - 1] == Decimal(n / 10);
    }
  }

  /** Python's `int(text)` on a `str`, for ASCII text: optional white space
      around an optional sign and at least one ASCII digit; anything else is
      `None`, where Python raises `ValueError`. Python also reads `_` between
      digits and the decimal digits of other scripts; this reading does not. */
  function PyInt(text: string): (r: Option<int>)
    ensures r.Some? ==> Strip(text) != []
  {
    var t := Strip(text);
    if t != [] && (t[0] == '+' || t[0] == '-') then
      var d := t[1..];
      if d != [] && AllDigits(d) then
        var v: int := DecimalValue(d);
        Some(if t[0] == '-' then -v else v)
      else None
    else if t != [] && AllDigits(t) then Some(DecimalValue(t))
    else None
  }

  /** `int(str(n)) == n`: the parser reads back what `str` writes. */
  lemma DecimalParses(n: nat)
    ensures PyInt(Decimal(n)) == Some(n)
  {
    var s := Decimal(n);
    assert IsDigit(s[0]) && IsDigit(s[|s| - 1]);
    StripNoSpaceEnds(s);
    DecimalRoundTrip(n);
  }

  /** The text after the last occurrence of `sep` (all of `s` when `sep` does
      not occur). This is `s.split(sep)[-1]` when `sep` cannot overlap itself,
      as with `FRITZ!Box`; for a separator such as `aa` Python splits from the
      left and the two differ (`"aaa"`). */
  function AfterLast(s: string, sep: string): (r: string)
    requires sep != []
    ensures |r| <= |s| && r == s[|s| - |r|..]
    decreases |s|
  {
    if |s| < |sep| then s
    else if s[|s| - |sep|..] == sep then []
    else AfterLast(s[..|s| - 1], sep) + [s[|s| - 1]]
  }

  /** What follows the last separator holds no separator. */
  lemma {:induction false} AfterLastHasNoSeparator(s: string, sep: string)
    requires sep != []
    ensures !Contains(AfterLast(s, sep), sep)
    decreases |s|
  {
    if |s| < |sep| {
      assert AfterLast(s, sep) == s;
      NoRoom(s, sep);
    } else if s[|s| - |sep|..] == sep {
      assert AfterLast(s, sep) == [];
    } else {
      var rest := AfterLast(s[..|s| - 1], sep);
      assert AfterLast(s, sep) == rest + [s[|s| - 1]];
      AfterLastHasNoSeparator(s[..|s| - 1], sep);
      ExtendWithout(rest, s[|s| - 1], sep, s);
    }
  }

  lemma NoRoom(s: string, sub: string)
    requires |s| < |sub|
    ensures !Contains(s, sub)
  {
  }

  /** Appending one character creates an occurrence only at the very end. */
  lemma ExtendWithout(rest: string, c: char, sep: string, s: string)
    requires sep != [] && !Contains(rest, sep)
    requires |sep| <= |s| && |rest| < |s| && rest + [c] == s[|s| - |rest| - 1..]
    requires s[|s| - |sep|..] != sep
    ensures !Contains(rest + [c], sep)
  {
    var r := rest + [c];
    if i :| OccursAt(r, sep, i) {
      if i + |sep| <= |rest| {
        assert r[i..i + |sep|] == rest[i..i + |sep|];
        assert OccursAt(rest, sep, i);
        assert false;
      }
      assert false;
    }
  }
}
