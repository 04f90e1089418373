/** String helpers for the menu search and the merchant message: ASCII
    lower-casing, `String.prototype.includes`, `Array.prototype.join` and the
    decimal rendering of an integer. */
module Text {

  /** Lower-cases one character; only the ASCII letters A..Z change. */
  function LowerChar(c: char): char
  {
    if 'A' <= c <= 'Z' then (c as int + 32) as char else c
  }

  /** `s.toLowerCase()`, restricted to ASCII letters. */
  function ToLower(s: string): (r: string)
    ensures |r| == |s|
    ensures forall k :: 0 <= k < |s| ==> r[k] == LowerChar(s[k])
  {
    if s == [] then [] else [LowerChar(s[0])] + ToLower(s[1..])
  }

  /** Lower-casing leaves no upper-case ASCII letter behind. */
  lemma ToLowerHasNoUpper(s: string)
    ensures forall k :: 0 <= k < |s| ==> !('A' <= ToLower(s)[k] <= 'Z')
  {
  }

  /** Lower-casing twice is lower-casing once. */
  lemma ToLowerIdempotent(s: string)
    ensures ToLower(ToLower(s)) == ToLower(s)
  {
  }

  /** `hay.includes(needle)`: `needle` occurs as a contiguous run of `hay`. */
  predicate Includes(hay: string, needle: string): (found: bool)
    ensures needle <= hay ==> found
    ensures found ==> |needle| <= |hay|
    decreases |hay|
  {
    needle <= hay || (hay != [] && Includes(hay[1..], needle))
  }

  /** `needle` occurs in `hay` starting at position `i`. */
  ghost predicate OccursAt(hay: string, needle: string, i: nat)
  {
    i + |needle| <= |hay| && hay[i..i + |needle|] == needle
  }

  /** The position-based reading of a substring, independent of how `Includes` scans. */
  ghost predicate IsSubstring(needle: string, hay: string)
  {
    exists i: nat :: OccursAt(hay, needle, i)
  }

  /** `Includes` finds an occurrence exactly when one exists. */
  lemma {:induction false} IncludesIffSubstring(hay: string, needle: string)
    ensures Includes(hay, needle) <==> IsSubstring(needle, hay)
    decreases |hay|
  {
    if needle <= hay {
      assert OccursAt(hay, needle, 0);
    } else if hay != [] {
      IncludesIffSubstring(hay[1..], needle);
      if Includes(hay[1..], needle) {
        var j: nat :| OccursAt(hay[1..], needle, j);
        assert hay[j + 1..j + 1 + |needle|] == hay[1..][j..j + |needle|];
        assert OccursAt(hay, needle, j + 1);
      }
      if IsSubstring(needle, hay) {
        var i: nat :| OccursAt(hay, needle, i);
        if i > 0 {
          assert hay[1..][i - 1..i - 1 + |needle|] == hay[i..i + |needle|];
          assert OccursAt(hay[1..], needle, i - 1);
        }
      }
    }
  }

  /** Every string includes the empty string. */
  lemma IncludesEmpty(hay: string)
    ensures Includes(hay, "")
  {
  }

  /** `lines.join(sep)`. */
  function Join(lines: seq<string>, sep: string): (joined: string)
    ensures |lines| > 0 ==> lines[0] <= joined
    ensures |lines| > 1 ==> lines[0] + sep <= joined
  {
    if |lines| == 0 then ""
    else if |lines| == 1 then lines[0]
    else lines[0] + sep + Join(lines[1..], sep)
  }

  /** The digit characters of a natural number, most significant first. */
  function NatToString(n: nat): (r: string)
    ensures |r| > 0
    ensures forall k :: 0 <= k < |r| ==> '0' <= r[k] <= '9'
    decreases n
  {
    var d := ['0' + (n % 10) as char];
    if n < 10 then d else NatToString(n / 10) + d
  }

  /** `${n}` for an integer: a minus sign for negative values, then the digits. */
  function IntToString(n: int): string
  {
    if n < 0 then "-" + NatToString(-n) else NatToString(n)
  }

  /** Reads back the decimal digits written by `NatToString`. */
  function ParseDigits(s: string): int
  {
    if s == [] then 0 else ParseDigits(s[..|s| - 1]) * 10 + (s[|s| - 1] as int - '0' as int)
  }

  /** `NatToString` loses nothing: reading its digits back gives the number. */
  lemma {:induction false} NatToStringRoundTrip(n: nat)
    ensures ParseDigits(NatToString(n)) == n
    decreases n
  {
    var d := ['0' + (n % 10) as char];
    if n >= 10 {
      NatToStringRoundTrip(n / 10);
      var s := NatToString(n / 10) + d;
      assert s[..|s| - 1] == NatToString(n / 10);
    }
  }

  /** `IntToString` writes a minus sign for negative numbers only, followed by the
      digits of the absolute value, which read back to it. */
  lemma IntToStringRoundTrip(n: int)
    ensures |IntToString(n)| > 0 && (IntToString(n)[0] == '-' <==> n < 0)
    ensures n >= 0 ==> ParseDigits(IntToString(n)) == n
    ensures n < 0 ==> IntToString(n)[1..] == NatToString(-n) && ParseDigits(IntToString(n)[1..]) == -n
  {
    NatToStringRoundTrip(if n < 0 then -n else n);
    if n < 0 {
      assert IntToString(n)[1..] == NatToString(-n);
    }
  }

  /** Each element of a joined list occurs in the joined string. */
  lemma {:induction false} JoinContains(lines: seq<string>, sep: string, k: nat)
    requires k < |lines|
    ensures IsSubstring(lines[k], Join(lines, sep))
  {
    if |lines| == 1 {
      assert OccursAt(Join(lines, sep), lines[k], 0);
    } else if k == 0 {
      assert Join(lines, sep)[..|lines[0]|] == lines[0];
      assert OccursAt(Join(lines, sep), lines[0], 0);
    } else {
      JoinContains(lines[1..], sep, k - 1);
      var i: nat :| OccursAt(Join(lines[1..], sep), lines[k], i);
      OccursInside(lines[0] + sep, Join(lines[1..], sep), "", lines[k], i);
      assert lines[0] + sep + Join(lines[1..], sep) + "" == Join(lines, sep);
    }
  }

  /** An occurrence in `b` is an occurrence in `a + b + c`, shifted by `|a|`. */
  lemma OccursInside(a: string, b: string, c: string, x: string, i: nat)
    requires OccursAt(b, x, i)
    ensures OccursAt(a + b + c, x, |a| + i)
  {
  }

  /** Joined elements appear in list order: the occurrence of an earlier element
      ends before the occurrence of a later one begins. */
  lemma {:induction false} JoinOrder(lines: seq<string>, sep: string, j: nat, k: nat)
    requires j < k < |lines|
    ensures exists p: nat, q: nat ::
      (OccursAt(Join(lines, sep), lines[j], p) && OccursAt(Join(lines, sep), lines[k], q) && p + |lines[j]| <= q)
  {
    var rest := Join(lines[1..], sep);
    assert lines[0] + sep + rest + "" == Join(lines, sep);
    if j == 0 {
      JoinContains(lines[1..], sep, k - 1);
      var i: nat :| OccursAt(rest, lines[k], i);
      OccursInside(lines[0] + sep, rest, "", lines[k], i);
      assert OccursAt(Join(lines, sep), lines[0], 0);
    } else {
      JoinOrder(lines[1..], sep, j - 1, k - 1);
      var p: nat, q: nat :| OccursAt(rest, lines[j], p) && OccursAt(rest, lines[k], q) && p + |lines[j]| <= q;
      OccursInside(lines[0] + sep, rest, "", lines[j], p);
      OccursInside(lines[0] + sep, rest, "", lines[k], q);
    }
  }
}
