/** The Python built-ins the configuration code leans on: whitespace
    stripping and splitting, case mapping, `int()` on a string, `str()` of an
    integer, substring tests and `range`. Case mapping is Python 2's simple
    mapping on the ASCII letters and on the four other characters whose
    image is an ASCII letter; every other character is left as it is.
    `int()` reads ASCII digits only. */
module Builtins {
  import opened Wrappers

  /** Python's unicode whitespace (`unicode.isspace`). */
  predicate IsSpace(c: char)
  {
    || ('\t' <= c <= '\r')
    || ('\U{1c}' <= c <= '\U{1f}')
    || c == ' ' || c == '\U{85}' || c == '\U{a0}' || c == '\U{1680}' || c == '\U{180e}'
    || ('\U{2000}' <= c <= '\U{200a}')
    || c == '\U{2028}' || c == '\U{2029}' || c == '\U{202f}' || c == '\U{205f}' || c == '\U{3000}'
  }

  predicate NoSpace(s: string)
  {
    forall k :: 0 <= k < |s| ==> !IsSpace(s[k])
  }

  /** The characters of `s` that are not whitespace, in order. */
  function NonSpace(s: string): string
  {
    if s == [] then [] else (if IsSpace(s[0]) then [] else [s[0]]) + NonSpace(s[1..])
  }

  function StripLeft(s: string): string
  {
    if s != [] && IsSpace(s[0]) then StripLeft(s[1..]) else s
  }

  /** `StripLeft` cuts a prefix made of whitespace, as far as the first
      character that is not. */
  lemma {:induction false} StripLeftSpec(s: string)
    ensures var r := StripLeft(s);
            && |r| <= |s| && r == s[|s| - |r|..]
            && (r == [] || !IsSpace(r[0]))
            && forall k :: 0 <= k < |s| - |r| ==> IsSpace(s[k])
  {
    if s != [] && IsSpace(s[0]) {
      var t := s[1..];
      StripLeftSpec(t);
      var r := StripLeft(t);
      assert StripLeft(s) == r;
      assert r == s[|s| - |r|..] by {
        assert t[|t| - |r|..] == s[|s| - |r|..];
      }
      forall k | 0 <= k < |s| - |r| ensures IsSpace(s[k]) {
        if k > 0 {
          assert s[k] == t[k - 1];
        }
      }
    }
  }

  function StripRight(s: string): string
  {
    if s != [] && IsSpace(s[|s| - 1]) then StripRight(s[..|s| - 1]) else s
  }

  /** `StripRight` cuts a suffix made of whitespace, back to the last
      character that is not. */
  lemma {:induction false} StripRightSpec(s: string)
    ensures var r := StripRight(s);
            && |r| <= |s| && r == s[..|r|]
            && (r == [] || !IsSpace(r[|r| - 1]))
            && forall k :: |r| <= k < |s| ==> IsSpace(s[k])
  {
    if s != [] && IsSpace(s[|s| - 1]) {
      var t := s[..|s| - 1];
      StripRightSpec(t);
      var r := StripRight(t);
      assert StripRight(s) == r;
      assert r == s[..|r|] by {
        assert t[..|r|] == s[..|r|];
      }
      forall k | |r| <= k < |s| ensures IsSpace(s[k]) {
        if k < |s| - 1 {
          assert s[k] == t[k];
        }
      }
    }
  }

  /** `str.strip()`. */
  function Strip(s: string): string
  {
    StripRight(StripLeft(s))
  }

  /** `Strip` gives the longest middle part of `s` that neither starts nor
      ends with whitespace; everything cut off is whitespace. */
  lemma {:induction false} StripSpec(s: string)
    ensures var r := Strip(s);
            && (exists i, j :: 0 <= i <= j <= |s| && r == s[i..j]
                              && (forall k :: 0 <= k < i ==> IsSpace(s[k]))
                              && (forall k :: j <= k < |s| ==> IsSpace(s[k])))
            && (r == [] || (!IsSpace(r[0]) && !IsSpace(r[|r| - 1])))
  {
    var l := StripLeft(s);
    var r := StripRight(l);
    StripLeftSpec(s);
    StripRightSpec(l);
    var i := |s| - |l|;
    assert r == s[i..i + |r|];
    assert forall k :: i + |r| <= k < |s| ==> IsSpace(s[k]) by {
      forall k | i + |r| <= k < |s| ensures IsSpace(s[k]) {
        assert s[k] == l[k - i];
      }
    }
  }

  /** The leading run of non-whitespace characters. */
  function Word(s: string): (w: string)
    ensures |w| <= |s| && w == s[..|w|] && NoSpace(w)
    ensures |w| < |s| ==> IsSpace(s[|w|])
  {
    if s == [] || IsSpace(s[0]) then [] else [s[0]] + Word(s[1..])
  }

  lemma {:induction false} NonSpaceOfWord(s: string)
    ensures NonSpace(s) == Word(s) + NonSpace(s[|Word(s)|..])
  {
    if s != [] && !IsSpace(s[0]) {
      var t := s[1..];
      NonSpaceOfWord(t);
      var w := Word(t);
      assert Word(s) == [s[0]] + w;
      assert NonSpace(s) == [s[0]] + NonSpace(t);
      assert t[|w|..] == s[|Word(s)|..];
      assert NonSpace(s) == [s[0]] + (w + NonSpace(t[|w|..]));
    }
  }

  /** `str.split()` without arguments: the maximal runs of non-whitespace
      characters. Every word is non-empty and free of whitespace, and the
      words together hold exactly the non-whitespace characters of `s`. */
  function Split(s: string): (ws: seq<string>)
    ensures forall k :: 0 <= k < |ws| ==> ws[k] != [] && NoSpace(ws[k])
    ensures Concat(ws) == NonSpace(s)
    decreases |s|
  {
    if s == [] then []
    else if IsSpace(s[0]) then
      assert NonSpace(s) == NonSpace(s[1..]);
      Split(s[1..])
    else
      var w := Word(s);
      NonSpaceOfWord(s);
      [w] + Split(s[|w|..])
  }

  function Concat(ws: seq<string>): string
  {
    if ws == [] then [] else ws[0] + Concat(ws[1..])
  }

  function LowerChar(c: char): char
  {
    if 'A' <= c <= 'Z' then (c as int + 32) as char
    else if c == '\U{130}' then 'i'   // capital I with dot above
    else if c == '\U{212a}' then 'k'  // Kelvin sign
    else c
  }

  function UpperChar(c: char): char
  {
    if 'a' <= c <= 'z' then (c as int - 32) as char
    else if c == '\U{131}' then 'I'   // dotless small i
    else if c == '\U{17f}' then 'S'   // long s
    else c
  }

  /** `str.lower()`. */
  function Lower(s: string): (r: string)
    ensures |r| == |s| && forall k :: 0 <= k < |s| ==> r[k] == LowerChar(s[k])
  {
    seq(|s|, k requires 0 <= k < |s| => LowerChar(s[k]))
  }

  /** `str.capitalize()`: first character upper case, the rest lower case. */
  function Capitalize(s: string): (r: string)
    ensures |r| == |s|
  {
    if s == [] then [] else [UpperChar(s[0])] + Lower(s[1..])
  }

  predicate IsDigit(c: char)
  {
    '0' <= c <= '9'
  }

  /** The value of a non-empty run of decimal digits, most significant first. */
  function DigitsValue(ds: string): nat
    requires forall k :: 0 <= k < |ds| ==> IsDigit(ds[k])
  {
    if ds == [] then 0
    else
      var d := ds[|ds| - 1];
      assert IsDigit(d);
      10 * DigitsValue(ds[..|ds| - 1]) + (d as int - '0' as int)
  }

  /** `int(s)` in base ten: optional surrounding whitespace, an optional sign,
      then at least one digit; anything else raises ValueError (`None`). */
  function ParseInt(s: string): (r: Option<int>)
  {
    ParseSigned(Strip(s))
  }

  /** `int()` on text without surrounding whitespace. Whitespace between
      the sign and the digits is skipped, as `PyOS_strtoul` does. */
  function ParseSigned(t: string): (r: Option<int>)
    ensures r.Some? ==> t != []
  {
    if t == [] then None
    else
      var neg := t[0] == '-';
      var body := if t[0] == '-' || t[0] == '+' then StripLeft(t[1..]) else t;
      if body != [] && forall k :: 0 <= k < |body| ==> IsDigit(body[k]) then
        Some(if neg then -(DigitsValue(body) as int) else DigitsValue(body))
      else None
  }

  function DigitChar(d: nat): (c: char)
    requires d < 10
    ensures IsDigit(c) && c as int - '0' as int == d
  {
    ('0' as int + d) as char
  }

  /** The decimal digits of a natural number, without leading zeros. */
  function Digits(n: nat): (ds: string)
    ensures ds != [] && forall k :: 0 <= k < |ds| ==> IsDigit(ds[k])
  {
    if n < 10 then [DigitChar(n)] else Digits(n / 10) + [DigitChar(n % 10)]
  }

  /** `str(n)` for an integer. */
  function Decimal(n: int): string
  {
    if n < 0 then "-" + Digits(-n) else Digits(n)
  }

  lemma {:induction false} DigitsValueOfDigits(n: nat)
    ensures DigitsValue(Digits(n)) == n
  {
    if n >= 10 {
      var ds := Digits(n);
      assert ds[..|ds| - 1] == Digits(n / 10);
      DigitsValueOfDigits(n / 10);
    }
  }

  /** `int(str(n)) == n`: printing an integer and parsing it back is the
      identity. */
  lemma {:induction false} ParseDecimal(n: int)
    ensures ParseInt(Decimal(n)) == Some(n)
  {
    var t := Decimal(n);
    DecimalUnspaced(n);
    StripUnspaced(t);
    ParseSignedDecimal(n);
  }

  lemma {:induction false} DecimalUnspaced(n: int)
    ensures Decimal(n) != [] && !IsSpace(Decimal(n)[0]) && !IsSpace(Decimal(n)[|Decimal(n)| - 1])
  {
    var ds := Digits(if n < 0 then -n else n);
    assert IsDigit(ds[0]) && IsDigit(ds[|ds| - 1]);
  }

  lemma {:induction false} ParseSignedDecimal(n: int)
    ensures ParseSigned(Decimal(n)) == Some(n)
  {
    var m: nat := if n < 0 then -n else n;
    var ds := Digits(m);
    DigitsValueOfDigits(m);
    var t := Decimal(n);
    if n < 0 {
      assert t == "-" + ds && t[1..] == ds;
      StripLeftUnspaced(ds);
    } else {
      assert t == ds;
      assert IsDigit(t[0]);
    }
  }

  lemma {:induction false} StripLeftUnspaced(s: string)
    requires s != [] && IsDigit(s[0])
    ensures StripLeft(s) == s
  {
  }

  /** Whitespace after the sign is skipped: `int("- 5") == -5`, and
      likewise after `+`. */
  lemma {:induction false} SpaceAfterSign(ws: string, n: nat)
    requires forall k :: 0 <= k < |ws| ==> IsSpace(ws[k])
    ensures ParseSigned("-" + ws + Digits(n)) == Some(-(n as int))
    ensures ParseSigned("+" + ws + Digits(n)) == Some(n)
  {
    var ds := Digits(n);
    DigitsValueOfDigits(n);
    assert IsDigit(ds[0]);
    StripLeftSpaces(ws, ds);
    assert ("-" + ws + ds)[1..] == ws + ds;
    assert ("+" + ws + ds)[1..] == ws + ds;
  }

  /** Text that neither starts nor ends with whitespace is left alone by
      `Strip`. */
  lemma {:induction false} StripUnspaced(s: string)
    requires s != [] ==> !IsSpace(s[0]) && !IsSpace(s[|s| - 1])
    ensures Strip(s) == s
  {
    assert StripLeft(s) == s;
    assert StripRight(s) == s;
  }

  /** Text with whitespace around it strips to the text. */
  lemma {:induction false} StripSurrounded(pre: string, t: string, post: string)
    requires forall k :: 0 <= k < |pre| ==> IsSpace(pre[k])
    requires forall k :: 0 <= k < |post| ==> IsSpace(post[k])
    requires t != [] && !IsSpace(t[0]) && !IsSpace(t[|t| - 1])
    ensures Strip(pre + t + post) == t
  {
    StripLeftSpaces(pre, t + post);
    assert pre + t + post == pre + (t + post);
    StripRightSpaces(t, post);
  }

  lemma {:induction false} StripLeftSpaces(pre: string, u: string)
    requires forall k :: 0 <= k < |pre| ==> IsSpace(pre[k])
    requires u != [] && !IsSpace(u[0])
    ensures StripLeft(pre + u) == u
  {
    if pre != [] {
      assert (pre + u)[1..] == pre[1..] + u;
      StripLeftSpaces(pre[1..], u);
    } else {
      assert pre + u == u;
    }
  }

  lemma {:induction false} StripRightSpaces(t: string, post: string)
    requires forall k :: 0 <= k < |post| ==> IsSpace(post[k])
    requires t != [] && !IsSpace(t[|t| - 1])
    ensures StripRight(t + post) == t
  {
    if post != [] {
      var last := |post| - 1;
      assert (t + post)[..|t + post| - 1] == t + post[..last];
      StripRightSpaces(t, post[..last]);
    } else {
      assert t + post == t;
    }
  }

  /** `x in s` for strings: `needle` occurs as a contiguous part of `hay`. */
  predicate Contains(hay: string, needle: string)
  {
    exists i | 0 <= i <= |hay| - |needle| :: OccursAt(hay, needle, i)
  }

  predicate OccursAt(hay: string, needle: string, i: nat)
  {
    i + |needle| <= |hay| && hay[i..i + |needle|] == needle
  }

  /** `range(start, stop, step)` for a non-zero step. */
  function Range(start: int, stop: int, step: int): seq<int>
    requires step != 0
    decreases if step > 0 then stop - start else start - stop
  {
    if (step > 0 && start < stop) || (step < 0 && start > stop) then [start] + Range(start + step, stop, step)
    else []
  }

  /** The entries of `range(start, stop, step)` are `start + k * step` for
      every `k` that keeps them on the near side of `stop`, in order: the
      first value past `stop` is not included. */
  lemma {:induction false} RangeEntries(start: int, stop: int, step: int)
    requires step != 0
    ensures var r := Range(start, stop, step);
            && (forall k :: 0 <= k < |r| ==> r[k] == start + k * step)
            && (forall k :: 0 <= k < |r| ==> if step > 0 then r[k] < stop else r[k] > stop)
            && (if step > 0 then start + |r| * step >= stop else start + |r| * step <= stop)
    decreases if step > 0 then stop - start else start - stop
  {
    var r := Range(start, stop, step);
    if (step > 0 && start < stop) || (step < 0 && start > stop) {
      RangeEntries(start + step, stop, step);
      var rest := Range(start + step, stop, step);
      assert r == [start] + rest;
      forall k | 0 <= k < |r|
        ensures r[k] == start + k * step
      {
        if k == 0 {
          assert r[k] == start;
        } else {
          assert r[k] == rest[k - 1];
          NextStep(start, step, k);
        }
      }
      NextStep(start, step, |r|);
    }
  }

  /** One step further along a range. */
  lemma {:induction false} NextStep(start: int, step: int, k: int)
    ensures start + step + (k - 1) * step == start + k * step
  {
  }
}
