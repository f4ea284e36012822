/** The few pieces of Python's `str` behaviour the application relies on:
    `strip()`, `int(text)`, `float(text)`, `str(n)` and `replace(old, new)`
    with a one-character `old`. */
module Text {
  import opened Common

  /** The characters `str.strip()` removes: the ASCII controls \t \n \v \f \r,
      the separators \x1c-\x1f, the space, and the Unicode white space
      U+0085, U+00A0, U+1680, U+2000-U+200A, U+2028, U+2029, U+202F, U+205F,
      U+3000. */
  predicate IsSpace(c: char)
  {
    var n := c as int;
    (9 <= n <= 13) || (28 <= n <= 32) || n == 0x85 || n == 0xA0 || n == 0x1680
    || (0x2000 <= n <= 0x200A) || n == 0x2028 || n == 0x2029 || n == 0x202F
    || n == 0x205F || n == 0x3000
  }

  /** `s.strip()`: white space is removed from both ends; neither end of
      the result is white space, and a string whose ends are not white space
      is returned as it is. */
  function Strip(s: string): (r: string)
    ensures |r| <= |s|
    ensures r == [] || (!IsSpace(r[0]) && !IsSpace(r[|r| - 1]))
    ensures (s == [] || (!IsSpace(s[0]) && !IsSpace(s[|s| - 1]))) ==> r == s
    decreases |s|
  {
    if s != [] && IsSpace(s[0]) then Strip(s[1..])
    else if s != [] && IsSpace(s[|s| - 1]) then Strip(s[..|s| - 1])
    else s
  }

  /** `r` is the piece of `s` starting at `i`, and everything of `s` before
      and after that piece is white space. */
  ghost predicate TrimmedAt(s: string, i: nat, r: string)
  {
    i + |r| <= |s| && r == s[i..i + |r|]
    && (forall k :: 0 <= k < i ==> IsSpace(s[k]))
    && (forall k :: i + |r| <= k < |s| ==> IsSpace(s[k]))
  }

  /** `strip()` removes nothing but white space, and only at the ends: its
      result is a contiguous piece of the text with white space on either
      side. */
  lemma {:induction false} StripRemovesOnlySpace(s: string)
    ensures exists i: nat :: TrimmedAt(s, i, Strip(s))
    decreases |s|
  {
    if s != [] && IsSpace(s[0]) {
      StripRemovesOnlySpace(s[1..]);
      var i: nat :| TrimmedAt(s[1..], i, Strip(s[1..]));
      TrimmedDropFirst(s, i, Strip(s[1..]));
    } else if s != [] && IsSpace(s[|s| - 1]) {
      StripRemovesOnlySpace(s[..|s| - 1]);
      var i: nat :| TrimmedAt(s[..|s| - 1], i, Strip(s[..|s| - 1]));
      TrimmedDropLast(s, i, Strip(s[..|s| - 1]));
    } else {
      assert Strip(s) == s;
      assert s[0..0 + |s|] == s;
      assert TrimmedAt(s, 0, Strip(s));
    }
  }

  lemma TrimmedDropFirst(s: string, i: nat, r: string)
    requires s != [] && IsSpace(s[0])
    requires TrimmedAt(s[1..], i, r)
    ensures TrimmedAt(s, i + 1, r)
  {
    assert s[1..][i..i + |r|] == s[i + 1..i + 1 + |r|];
    forall k | 0 <= k < i + 1
      ensures IsSpace(s[k])
    {
      if k > 0 {
        assert s[k] == s[1..][k - 1];
      }
    }
    forall k | i + 1 + |r| <= k < |s|
      ensures IsSpace(s[k])
    {
      assert s[k] == s[1..][k - 1];
    }
  }

  lemma TrimmedDropLast(s: string, i: nat, r: string)
    requires s != [] && IsSpace(s[|s| - 1])
    requires TrimmedAt(s[..|s| - 1], i, r)
    ensures TrimmedAt(s, i, r)
  {
    var p := s[..|s| - 1];
    assert p[i..i + |r|] == s[i..i + |r|];
    forall k | 0 <= k < i
      ensures IsSpace(s[k])
    {
      assert s[k] == p[k];
    }
    forall k | i + |r| <= k < |s|
      ensures IsSpace(s[k])
    {
      if k < |s| - 1 {
        assert s[k] == p[k];
      }
    }
  }

  predicate IsDigit(c: char)
  {
    '0' <= c <= '9'
  }

  predicate AllDigits(s: string)
  {
    forall i :: 0 <= i < |s| ==> IsDigit(s[i])
  }

  function DigitValue(c: char): nat
    requires IsDigit(c)
  {
    c as int - '0' as int
  }

  function DigitChar(d: nat): (c: char)
    requires d < 10
    ensures IsDigit(c) && DigitValue(c) == d
  {
    ('0' as int + d) as char
  }

  /** The value of a string of decimal digits, most significant first. */
  function DigitsValue(s: string): nat
    requires AllDigits(s)
  {
    if s == [] then 0 else DigitsValue(s[..|s| - 1]) * 10 + DigitValue(s[|s| - 1])
  }

  /** `str(n)` for a natural number: non-empty, digits only, no leading
      zero unless the number is zero, and its digits denote `n`. */
  function NatToDecimal(n: nat): (s: string)
    ensures |s| >= 1 && AllDigits(s)
    ensures DigitsValue(s) == n
    ensures s[0] == '0' ==> n == 0
  {
    if n < 10 then
      [DigitChar(n)]
    else
      var p := NatToDecimal(n / 10);
      var s := p + [DigitChar(n % 10)];
      assert s[..|s| - 1] == p;
      s
  }

  /** `str(i)` for an integer: a minus sign before the digits of a negative
      number. */
  function IntToDecimal(i: int): (s: string)
    ensures |s| >= 1 && IsDigit(s[|s| - 1])
    ensures s[0] == '-' <==> i < 0
  {
    if i < 0 then "-" + NatToDecimal(-i) else NatToDecimal(i)
  }

  /** An optional leading sign split off: (is it '-', the rest). */
  function SplitSign(u: string): (r: (bool, string))
    ensures |r.1| <= |u|
  {
    if u != [] && u[0] == '-' then (true, u[1..])
    else if u != [] && u[0] == '+' then (false, u[1..])
    else (false, u)
  }

  /** Python's `int(text)` on a string: surrounding white space, an optional
      sign, then one or more ASCII digits; anything else raises ValueError,
      modelled as None. */
  function ParseInt(text: string): (r: Option<int>)
    ensures Strip(text) == [] ==> r.None?
    ensures r.Some? && r.value < 0 ==> Strip(text)[0] == '-'
  {
    var (negative, body) := SplitSign(Strip(text));
    if body != [] && AllDigits(body) then
      var magnitude: int := DigitsValue(body);
      Some(if negative then -magnitude else magnitude)
    else
      None
  }

  /** The position of the first `c` in `s`, or |s| when there is none. */
  function IndexOf(s: string, c: char): (k: nat)
    ensures k <= |s|
    ensures k < |s| ==> s[k] == c
    ensures forall i :: 0 <= i < k ==> s[i] != c
  {
    if s == [] then 0 else if s[0] == c then 0 else 1 + IndexOf(s[1..], c)
  }

  /** The value of the digits after a decimal point, first digit tenths:
      always a fraction in [0, 1). */
  function FractionValue(s: string): (v: real)
    requires AllDigits(s)
    ensures 0.0 <= v < 1.0
  {
    if s == [] then 0.0 else (DigitValue(s[0]) as real + FractionValue(s[1..])) / 10.0
  }

  /** Python's `float(text)` on a string in plain decimal notation: white
      space around, an optional sign, digits with at most one '.', and at
      least one digit; anything else raises ValueError, modelled as None. */
  function ParseReal(text: string): (r: Option<real>)
    ensures Strip(text) == [] ==> r.None?
    ensures r.Some? && r.value < 0.0 ==> Strip(text)[0] == '-'
  {
    var (negative, body) := SplitSign(Strip(text));
    var k := IndexOf(body, '.');
    var whole := body[..k];
    var frac := if k < |body| then body[k + 1..] else [];
    if AllDigits(whole) && AllDigits(frac) && |whole| + |frac| >= 1 then
      var magnitude := DigitsValue(whole) as real + FractionValue(frac);
      Some(if negative then -magnitude else magnitude)
    else
      None
  }

  /** `int(str(i)) == i`: the decimal rendering of an integer parses back to it. */
  lemma {:induction false} ParseIntRoundTrip(i: int)
    ensures ParseInt(IntToDecimal(i)) == Some(i)
  {
    var s := IntToDecimal(i);
    assert !IsSpace(s[0]) && !IsSpace(s[|s| - 1]);
    assert Strip(s) == s;
    if i < 0 {
      assert SplitSign(s) == (true, NatToDecimal(-i));
    } else {
      var d := NatToDecimal(i);
      assert s == d && IsDigit(d[0]);
      assert SplitSign(s) == (false, d);
    }
  }

  /** Whatever `int()` accepts, `float()` accepts with the same value. */
  lemma ParseRealExtendsParseInt(text: string, n: int)
    requires ParseInt(text) == Some(n)
    ensures ParseReal(text) == Some(n as real)
  {
    var (negative, body) := SplitSign(Strip(text));
    assert AllDigits(body);
    assert forall i :: 0 <= i < |body| ==> body[i] != '.';
    assert IndexOf(body, '.') == |body|;
    assert body[..|body|] == body;
  }

  /** `s.replace(c, repl)` for a single character `c`: every `c` in `s`
      becomes `repl`, left to right. */
  function ReplaceChar(s: string, c: char, repl: string): (r: string)
    ensures c !in s ==> r == s
    ensures c !in repl ==> c !in r
    ensures forall x :: x in r ==> x in s || x in repl
  {
    if s == [] then []
    else (if s[0] == c then repl else [s[0]]) + ReplaceChar(s[1..], c, repl)
  }

  /** The intended reading of a template with placeholders 'A' and 'B':
      both replaced in a single pass. */
  function Substitute(s: string, a: string, b: string): string
  {
    if s == [] then []
    else (if s[0] == 'A' then a else if s[0] == 'B' then b else [s[0]])
         + Substitute(s[1..], a, b)
  }

  /** Replacing in a concatenation replaces in each part. */
  lemma {:induction false} ReplaceCharAppend(x: string, y: string, c: char, repl: string)
    ensures ReplaceChar(x + y, c, repl) == ReplaceChar(x, c, repl) + ReplaceChar(y, c, repl)
  {
    if x == [] {
      assert x + y == y;
    } else {
      var xy := x + y;
      var head := if x[0] == c then repl else [x[0]];
      var rest := ReplaceChar(x[1..], c, repl);
      assert xy[0] == x[0] && xy[1..] == x[1..] + y;
      ReplaceCharAppend(x[1..], y, c, repl);
      ReplaceCharCons(xy, c, repl);
      ReplaceCharCons(x, c, repl);
      AppendAssociates(head, rest, ReplaceChar(y, c, repl));
    }
  }

  lemma AppendAssociates(a: string, b: string, c: string)
    ensures a + (b + c) == (a + b) + c
  {
  }

  /** One step of the replacement: the first character, then the rest. */
  lemma ReplaceCharCons(s: string, c: char, repl: string)
    requires s != []
    ensures ReplaceChar(s, c, repl) == (if s[0] == c then repl else [s[0]]) + ReplaceChar(s[1..], c, repl)
  {
  }

  /** Replacing 'A' and then 'B' equals the single-pass substitution when
      the text put in for 'A' contains no 'B'. */
  lemma {:induction false} ReplaceTwiceIsSubstitute(s: string, a: string, b: string)
    requires 'B' !in a
    ensures ReplaceChar(ReplaceChar(s, 'A', a), 'B', b) == Substitute(s, a, b)
  {
    if s != [] {
      var head := if s[0] == 'A' then a else [s[0]];
      ReplaceCharAppend(head, ReplaceChar(s[1..], 'A', a), 'B', b);
      ReplaceTwiceIsSubstitute(s[1..], a, b);
      if s[0] != 'A' && s[0] != 'B' {
        assert ReplaceChar(head, 'B', b) == [s[0]] by {
          assert head[1..] == [];
        }
      } else if s[0] == 'B' {
        assert ReplaceChar(head, 'B', b) == b by {
          assert head[1..] == [];
          assert b + [] == b;
        }
      }
    }
  }
}
