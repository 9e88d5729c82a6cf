/**
 * The few Python string operations the modelled code relies on: `str(int)`,
 * the `repr` of a list of ints, `str.strip()`, `str.upper()` and `sub in s`.
 */
module Text {

  /** A decimal digit as a character. */
  function DigitChar(d: nat): (c: char)
    requires d < 10
    ensures '0' <= c <= '9'
  {
    (('0' as int) + d) as char
  }

  /** The number a string of decimal digits denotes, most significant digit first. */
  function DigitsValue(s: string): int
  {
    if s == [] then 0 else DigitsValue(s[..|s| - 1]) * 10 + (s[|s| - 1] as int - '0' as int)
  }

  /** `str(n)` for a non-negative integer: never empty, and led by a digit. */
  function NatToString(n: nat): (s: string)
    ensures |s| >= 1 && '0' <= s[0] <= '9'
    decreases n
  {
    if n < 10 then [DigitChar(n)] else NatToString(n / 10) + [DigitChar(n % 10)]
  }

  /** `str(n)` is decimal digits with no leading zero, and they denote n. */
  lemma {:induction false} NatToStringDigits(n: nat)
    ensures forall i :: 0 <= i < |NatToString(n)| ==> '0' <= NatToString(n)[i] <= '9'
    ensures |NatToString(n)| > 1 ==> NatToString(n)[0] != '0'
    ensures DigitsValue(NatToString(n)) == n
    decreases n
  {
    var s := NatToString(n);
    if n < 10 {
      assert s[..0] == [];
    } else {
      var front := NatToString(n / 10);
      NatToStringDigits(n / 10);
      assert s == front + [DigitChar(n % 10)];
      assert s[..|s| - 1] == front;
    }
  }

  /** `str(n)` for any integer: a minus sign exactly when n is negative. */
  function IntToString(n: int): (s: string)
    ensures |s| >= 1
    ensures s[0] == '-' <==> n < 0
  {
    if n < 0 then "-" + NatToString(-n) else NatToString(n)
  }

  /** `str(n)` denotes n: the digits after an optional minus sign have the value |n|. */
  lemma IntToStringValue(n: int)
    ensures n >= 0 ==> DigitsValue(IntToString(n)) == n
    ensures n < 0 ==> |IntToString(n)| >= 2 && DigitsValue(IntToString(n)[1..]) == -n
  {
    if n < 0 {
      var digits := NatToString(-n);
      NatToStringDigits(-n);
      assert IntToString(n)[1..] == digits;
    } else {
      NatToStringDigits(n);
    }
  }

  /** The elements of `f"{xs}"` for a list of ints, without the brackets. */
  function JoinInts(xs: seq<int>): string
  {
    if xs == [] then ""
    else if |xs| == 1 then IntToString(xs[0])
    else IntToString(xs[0]) + ", " + JoinInts(xs[1..])
  }

  /** Each further element is written after the others, separated by ", ". */
  lemma {:induction false} JoinIntsSnoc(xs: seq<int>, x: int)
    requires xs != []
    ensures JoinInts(xs + [x]) == JoinInts(xs) + ", " + IntToString(x)
  {
    var head, last := IntToString(xs[0]), IntToString(x);
    var ys := xs + [x];
    assert ys[0] == xs[0] && |ys| > 1;
    if |xs| == 1 {
      assert ys[1..] == [x];
      calc {
        JoinInts(ys);
        head + ", " + JoinInts([x]);
        head + ", " + last;
      }
    } else {
      var rest := xs[1..];
      assert ys[1..] == rest + [x];
      JoinIntsSnoc(rest, x);
      calc {
        JoinInts(ys);
        head + ", " + JoinInts(rest + [x]);
        head + ", " + (JoinInts(rest) + ", " + last);
        (head + ", " + JoinInts(rest)) + ", " + last;
        JoinInts(xs) + ", " + last;
      }
    }
  }

  /** `f"{xs}"` for a Python list of ints, e.g. "[1, 2, 3]" and "[]". */
  function FormatIntList(xs: seq<int>): (s: string)
    ensures |s| >= 2 && s[0] == '[' && s[|s| - 1] == ']'
    ensures s == "[]" <==> xs == []
  {
    "[" + JoinInts(xs) + "]"
  }

  /** Between its brackets the list repr holds exactly the joined elements. */
  lemma FormatIntListInner(xs: seq<int>)
    ensures FormatIntList(xs)[1..|FormatIntList(xs)| - 1] == JoinInts(xs)
  {
    var joined := JoinInts(xs);
    assert ("[" + joined + "]")[1..|joined| + 1] == joined;
  }

  /** A one-element list prints as its element's `str` in brackets, e.g. "[7]". */
  lemma FormatIntListSingle(x: int)
    ensures FormatIntList([x]) == "[" + IntToString(x) + "]"
  {
    assert JoinInts([x]) == IntToString(x);
  }

  /** The list repr written element by element: `[x0, ..., xn]` is `[x0, ..., xn-1` + ", " + `xn]`. */
  lemma FormatIntListSnoc(xs: seq<int>, x: int)
    requires xs != []
    ensures FormatIntList(xs + [x]) == "[" + JoinInts(xs) + ", " + IntToString(x) + "]"
  {
    JoinIntsSnoc(xs, x);
    var joined, last := JoinInts(xs), IntToString(x);
    calc {
      FormatIntList(xs + [x]);
      "[" + JoinInts(xs + [x]) + "]";
      "[" + (joined + ", " + last) + "]";
      "[" + joined + ", " + last + "]";
    }
  }

  /** `f"{name}: {value}"`, the text of a joint's slider label. */
  function JointLabel(name: string, value: int): string
  {
    name + ": " + IntToString(value)
  }

  /** A label is the joint's name, ": ", then the decimal text of the value, which denotes the value. */
  lemma JointLabelParts(name: string, value: int)
    ensures var text := JointLabel(name, value);
      text[..|name|] == name && text[|name|..|name| + 2] == ": "
      && text[|name| + 2..] == IntToString(value)
      && (value >= 0 ==> DigitsValue(text[|name| + 2..]) == value)
  {
    IntToStringValue(value);
  }

  /** `sub` occurs in `s` starting at position `i`. */
  predicate OccursAt(s: string, sub: string, i: int)
  {
    0 <= i <= |s| - |sub| && s[i..i + |sub|] == sub
  }

  /** `r` is the slice of `s` at position `a`, with only whitespace before and after it. */
  predicate StrippedAt(s: string, r: string, a: int)
  {
    OccursAt(s, r, a)
    && (forall k :: 0 <= k < a ==> IsSpace(s[k]))
    && (forall k :: a + |r| <= k < |s| ==> IsSpace(s[k]))
  }

  /** Python's `str.isspace()` for one character (the characters `str.strip()` removes). */
  predicate IsSpace(c: char)
  {
    var n := c as int;
    (0x09 <= n <= 0x0D) || (0x1C <= n <= 0x20) || n == 0x85 || n == 0xA0
    || n == 0x1680 || (0x2000 <= n <= 0x200A) || n == 0x2028 || n == 0x2029
    || n == 0x202F || n == 0x205F || n == 0x3000
  }

  /** `str.lstrip()`: drops the leading whitespace and nothing else. */
  function StripLeft(s: string): (r: string)
    ensures |r| <= |s| && r == s[|s| - |r|..]
    ensures forall k :: 0 <= k < |s| - |r| ==> IsSpace(s[k])
    ensures r == [] || !IsSpace(r[0])
  {
    if s != [] && IsSpace(s[0]) then StripLeft(s[1..]) else s
  }

  /** `str.rstrip()`: drops the trailing whitespace and nothing else. */
  function StripRight(s: string): (r: string)
    ensures |r| <= |s| && r == s[..|r|]
    ensures forall k :: |r| <= k < |s| ==> IsSpace(s[k])
    ensures r == [] || !IsSpace(r[|r| - 1])
  {
    if s != [] && IsSpace(s[|s| - 1]) then StripRight(s[..|s| - 1]) else s
  }

  /** `str.strip()`: whitespace removed from both ends. */
  function Strip(s: string): (r: string)
    ensures |r| <= |s|
  {
    StripRight(StripLeft(s))
  }

  /**
   * `str.strip()` yields the slice of `s` left after removing whitespace from
   * both ends: empty exactly when `s` is all whitespace, otherwise without
   * whitespace at either end.
   */
  lemma StripTrims(s: string)
    ensures Strip(s) == [] <==> forall k :: 0 <= k < |s| ==> IsSpace(s[k])
    ensures Strip(s) == [] || (!IsSpace(Strip(s)[0]) && !IsSpace(Strip(s)[|Strip(s)| - 1]))
    ensures exists a :: StrippedAt(s, Strip(s), a)
  {
    StripEmpty(s);
    StripFramed(s);
    StripEnds(s);
  }

  /** Neither end of the stripped text is whitespace. */
  lemma StripEnds(s: string)
    ensures var r := StripRight(StripLeft(s)); r == [] || (!IsSpace(r[0]) && !IsSpace(r[|r| - 1]))
  {
    var left := StripLeft(s);
    var r := StripRight(left);
    if r != [] {
      assert r[0] == left[0];
    }
  }

  /** Stripping both ends leaves nothing exactly when `s` is all whitespace. */
  lemma StripEmpty(s: string)
    ensures StripRight(StripLeft(s)) == [] <==> forall k :: 0 <= k < |s| ==> IsSpace(s[k])
  {
    var left := StripLeft(s);
    var a := |s| - |left|;
    if left != [] {
      assert left[0] == s[a];
    }
  }

  /** Stripping both ends leaves the slice of `s` after its leading whitespace, with only whitespace behind it. */
  lemma StripFramed(s: string)
    ensures StrippedAt(s, StripRight(StripLeft(s)), |s| - |StripLeft(s)|)
  {
    var left := StripLeft(s);
    SliceFramed(s, left, StripRight(left), |s| - |left|);
  }

  /** A prefix `r` of the suffix `left` of `s`, with whitespace before `left` and after `r`, is framed by whitespace. */
  lemma SliceFramed(s: string, left: string, r: string, a: int)
    requires 0 <= a <= |s| && left == s[a..] && |r| <= |left| && r == left[..|r|]
    requires forall k :: 0 <= k < a ==> IsSpace(s[k])
    requires forall k :: |r| <= k < |left| ==> IsSpace(left[k])
    ensures StrippedAt(s, r, a)
  {
    assert s[a..a + |r|] == r;
    forall k | a + |r| <= k < |s| ensures IsSpace(s[k]) {
      assert s[k] == left[k - a];
    }
  }

  /** ASCII `upper()` of one character. */
  function UpperChar(c: char): (u: char)
    ensures 'a' <= c <= 'z' ==> u as int == c as int - 32
    ensures !('a' <= c <= 'z') ==> u == c
  {
    if 'a' <= c <= 'z' then (c as int - 32) as char else c
  }

  /** `s.upper()` over ASCII letters. */
  function Upper(s: string): (r: string)
    ensures |r| == |s| && forall i :: 0 <= i < |s| ==> r[i] == UpperChar(s[i])
  {
    seq(|s|, i requires 0 <= i < |s| => UpperChar(s[i]))
  }

  /** Python's `sub in s` for strings. */
  predicate Contains(s: string, sub: string)
    decreases |s|
  {
    (|sub| <= |s| && s[..|sub|] == sub) || (|s| > 0 && Contains(s[1..], sub))
  }

  /** `sub in s` holds exactly when `sub` occurs in `s` at some position. */
  lemma {:induction false} ContainsIff(s: string, sub: string)
    ensures Contains(s, sub) <==> exists i :: OccursAt(s, sub, i)
    decreases |s|
  {
    if |s| > 0 {
      ContainsIff(s[1..], sub);
      if |sub| <= |s| && s[..|sub|] == sub {
        assert OccursAt(s, sub, 0);
      }
      if exists i :: OccursAt(s, sub, i) {
        var i :| OccursAt(s, sub, i);
        if i == 0 {
          assert s[..|sub|] == s[0..|sub|];
        } else {
          assert s[1..][i - 1..i - 1 + |sub|] == s[i..i + |sub|];
          assert OccursAt(s[1..], sub, i - 1);
        }
      }
      if Contains(s[1..], sub) {
        var i :| OccursAt(s[1..], sub, i);
        assert s[1..][i..i + |sub|] == s[i + 1..i + 1 + |sub|];
        assert OccursAt(s, sub, i + 1);
      }
    } else if sub == [] {
      assert OccursAt(s, sub, 0);
    }
  }
}
