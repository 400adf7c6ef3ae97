/**
 * The string operations of Python that the server's rendering uses:
 * `sep.join(parts)` as `Join` and `str(n)` for integers as `IntToString`.
 * `Lines` is Python's `s.split("\n")`; the program never calls it, and it
 * is here only to state properties of the output line by line.
 */
module Text {

  /** `s` holds no line break. */
  predicate NoBreak(s: string) {
    '\n' !in s
  }

  lemma NoBreakConcat(a: string, b: string)
    requires NoBreak(a) && NoBreak(b)
    ensures NoBreak(a + b)
  {
  }

  /** Python's `s.startswith(prefix)`. */
  predicate StartsWith(s: string, prefix: string) {
    |prefix| <= |s| && s[..|prefix|] == prefix
  }

  /** A string starts with what it was built from. */
  lemma PrefixOf(prefix: string, rest: string)
    ensures StartsWith(prefix + rest, prefix)
  {
    assert (prefix + rest)[..|prefix|] == prefix;
  }

  /** A string that differs from a prefix at some position does not start with it. */
  lemma NotStartsWith(s: string, prefix: string, i: nat)
    requires i < |s| && i < |prefix| && s[i] != prefix[i]
    ensures !StartsWith(s, prefix)
  {
  }

  /** Python's `sep.join(parts)`. */
  function Join(sep: string, parts: seq<string>): string
  {
    if |parts| == 0 then ""
    else if |parts| == 1 then parts[0]
    else parts[0] + sep + Join(sep, parts[1..])
  }

  /** Python's `s.split("\n")`: the pieces between line breaks, never empty. */
  function Lines(s: string): (ls: seq<string>)
    ensures |ls| >= 1
    decreases |s|
  {
    if s == [] then [""]
    else
      var rest := Lines(s[1..]);
      if s[0] == '\n' then [""] + rest
      else [[s[0]] + rest[0]] + rest[1..]
  }

  /** The lines of every part, one part after the other. */
  function LinesOfAll(parts: seq<string>): seq<string>
  {
    if parts == [] then [] else Lines(parts[0]) + LinesOfAll(parts[1..])
  }

  /** Splitting at a line break splits the two sides independently. */
  lemma {:induction false} LinesConcat(a: string, b: string)
    ensures Lines(a + "\n" + b) == Lines(a) + Lines(b)
    decreases |a|
  {
    if a == [] {
      assert a + "\n" + b == "\n" + b;
      assert ("\n" + b)[1..] == b;
    } else {
      LinesConcat(a[1..], b);
      LinesConsStep(a[0], a[1..] + "\n" + b, a[1..], Lines(b));
      assert a == [a[0]] + a[1..];
      assert a + "\n" + b == [a[0]] + (a[1..] + "\n" + b);
    }
  }

  /**
   * The step of `LinesConcat`: when the lines of `t` begin with the lines of `a`,
   * putting a character in front of both keeps it so.
   */
  lemma LinesConsStep(c: char, t: string, a: string, more: seq<string>)
    requires Lines(t) == Lines(a) + more
    ensures Lines([c] + t) == Lines([c] + a) + more
  {
    if c == '\n' {
      BreakStep(t, a, more);
    } else {
      CharStep(c, t, a, more);
    }
  }

  /** `LinesConsStep` for a line break in front. */
  lemma BreakStep(t: string, a: string, more: seq<string>)
    requires Lines(t) == Lines(a) + more
    ensures Lines(['\n'] + t) == Lines(['\n'] + a) + more
  {
    LinesConsBreak(t);
    LinesConsBreak(a);
    ConsAppend("", Lines(t), Lines(a), more);
  }

  /** A line in front of lines that continue with `more`. */
  lemma ConsAppend(x: string, ys: seq<string>, zs: seq<string>, more: seq<string>)
    requires ys == zs + more
    ensures [x] + ys == ([x] + zs) + more
  {
  }

  /** `LinesConsStep` for any other character in front. */
  lemma CharStep(c: char, t: string, a: string, more: seq<string>)
    requires c != '\n' && Lines(t) == Lines(a) + more
    ensures Lines([c] + t) == Lines([c] + a) + more
  {
    LinesConsChar(c, t);
    LinesConsChar(c, a);
    ExtendFirst(c, Lines(a), more);
  }

  /** A line break in front adds an empty first line. */
  lemma LinesConsBreak(t: string)
    ensures Lines(['\n'] + t) == [""] + Lines(t)
  {
    assert (['\n'] + t)[1..] == t;
  }

  /** Any other character in front extends the first line. */
  lemma LinesConsChar(c: char, t: string)
    requires c != '\n'
    ensures Lines([c] + t) == [[c] + Lines(t)[0]] + Lines(t)[1..]
  {
    assert ([c] + t)[0] == c && ([c] + t)[1..] == t;
  }

  /** Prepending a character to the first line commutes with appending further lines. */
  lemma ExtendFirst(c: char, xs: seq<string>, ys: seq<string>)
    requires |xs| >= 1
    ensures [[c] + (xs + ys)[0]] + (xs + ys)[1..] == ([[c] + xs[0]] + xs[1..]) + ys
  {
    assert (xs + ys)[0] == xs[0];
    assert (xs + ys)[1..] == xs[1..] + ys;
  }

  /** A string without a line break is a single line. */
  lemma {:induction false} LinesNoBreak(s: string)
    requires NoBreak(s)
    ensures Lines(s) == [s]
    decreases |s|
  {
    if s != [] {
      assert s[0] in s;
      assert forall i :: 0 <= i < |s[1..]| ==> s[1..][i] == s[i + 1];
      LinesNoBreak(s[1..]);
      assert [s[0]] + s[1..] == s;
    }
  }

  /** Five lines joined by line breaks split back into those five lines. */
  lemma FiveLines(a: string, b: string, c: string, d: string, e: string)
    requires NoBreak(a) && NoBreak(b) && NoBreak(c) && NoBreak(d) && NoBreak(e)
    ensures Lines(a + "\n" + b + "\n" + c + "\n" + d + "\n" + e) == [a, b, c, d, e]
  {
    var de := d + "\n" + e;
    var cde := c + "\n" + de;
    var bcde := b + "\n" + cde;
    JoinFive(a, b, c, d, e);
    LinesNoBreak(e);
    LinesPrepend(d, e, [e]);
    assert [d] + [e] == [d, e];
    LinesPrepend(c, de, [d, e]);
    assert [c] + [d, e] == [c, d, e];
    LinesPrepend(b, cde, [c, d, e]);
    assert [b] + [c, d, e] == [b, c, d, e];
    LinesPrepend(a, bcde, [b, c, d, e]);
    assert [a] + [b, c, d, e] == [a, b, c, d, e];
  }

  /** Five strings joined by line breaks, grouped from the right. */
  lemma JoinFive(a: string, b: string, c: string, d: string, e: string)
    ensures a + "\n" + b + "\n" + c + "\n" + d + "\n" + e == a + "\n" + (b + "\n" + (c + "\n" + (d + "\n" + e)))
  {
  }

  /** A line without a break, put in front of a text and a line break, becomes its first line. */
  lemma LinesPrepend(a: string, rest: string, ls: seq<string>)
    requires NoBreak(a) && Lines(rest) == ls
    ensures Lines(a + "\n" + rest) == [a] + ls
  {
    LinesConcat(a, rest);
    LinesNoBreak(a);
  }


  /** Joining with line breaks and splitting again gives back the lines of every part. */
  lemma {:induction false} LinesOfJoin(parts: seq<string>)
    requires |parts| >= 1
    ensures Lines(Join("\n", parts)) == LinesOfAll(parts)
  {
    if |parts| == 1 {
      assert LinesOfAll(parts[1..]) == [];
    } else {
      LinesConcat(parts[0], Join("\n", parts[1..]));
      LinesOfJoin(parts[1..]);
    }
  }

  /** Splitting into lines and joining them again gives back the string. */
  lemma {:induction false} JoinOfLines(s: string)
    ensures Join("\n", Lines(s)) == s
    decreases |s|
  {
    if s != [] {
      var rest := Lines(s[1..]);
      JoinOfLines(s[1..]);
      if s[0] == '\n' {
        assert ([""] + rest)[1..] == rest;
        assert s == "\n" + s[1..];
      } else if |rest| == 1 {
        assert s == [s[0]] + s[1..];
      } else {
        var ls := [[s[0]] + rest[0]] + rest[1..];
        assert ls[1..] == rest[1..];
        assert s == [s[0]] + s[1..];
      }
    }
  }

  /** Joining one more part appends a separator and that part. */
  lemma {:induction false} JoinSnoc(sep: string, parts: seq<string>, x: string)
    requires |parts| >= 1
    ensures Join(sep, parts + [x]) == Join(sep, parts) + sep + x
  {
    if |parts| == 1 {
      assert (parts + [x])[1..] == [x];
    } else {
      assert (parts + [x])[1..] == parts[1..] + [x];
      JoinSnoc(sep, parts[1..], x);
    }
  }

  /** The character of one decimal digit. */
  function Digit(d: nat): (c: char)
    requires d < 10
    ensures '0' <= c <= '9'
  {
    ('0' as int + d) as char
  }

  /** Python's `str(n)` for a non-negative integer: its decimal digits, most significant first. */
  function NatToString(n: nat): (s: string)
    ensures |s| >= 1
    decreases n
  {
    if n < 10 then [Digit(n)] else NatToString(n / 10) + [Digit(n % 10)]
  }

  /** Every character of `str(n)` is a decimal digit. */
  lemma {:induction false} NatToStringDigits(n: nat)
    ensures forall i :: 0 <= i < |NatToString(n)| ==> '0' <= NatToString(n)[i] <= '9'
    decreases n
  {
    if n >= 10 {
      NatToStringDigits(n / 10);
      var s := NatToString(n);
      forall i | 0 <= i < |s| ensures '0' <= s[i] <= '9' {
        if i < |NatToString(n / 10)| {
          assert s[i] == NatToString(n / 10)[i];
        }
      }
    }
  }

  /** Python's `str(i)` for any integer. */
  function IntToString(i: int): (s: string)
    ensures |s| >= 1
  {
    if i < 0 then "-" + NatToString(-i) else NatToString(i)
  }

  /** `str(i)` holds no line break. */
  lemma IntToStringNoBreak(i: int)
    ensures NoBreak(IntToString(i))
  {
    var n: nat := if i < 0 then -i else i;
    NatToStringDigits(n);
    var s := IntToString(i);
    forall k | 0 <= k < |s| ensures s[k] != '\n' {
      if i < 0 && k > 0 {
        assert s[k] == NatToString(n)[k - 1];
      }
    }
  }

  /** The value of a string of decimal digits; the inverse of `NatToString`. */
  function ParseNat(s: string): int
  {
    if s == [] then 0 else ParseNat(s[..|s| - 1]) * 10 + (s[|s| - 1] as int - '0' as int)
  }

  /** The value of an optionally signed string of decimal digits; the inverse of `IntToString`. */
  function ParseInt(s: string): int
  {
    if |s| > 0 && s[0] == '-' then -ParseNat(s[1..]) else ParseNat(s)
  }

  lemma {:induction false} ParseNatToString(n: nat)
    ensures ParseNat(NatToString(n)) == n
    decreases n
  {
    var s := NatToString(n);
    if n < 10 {
      assert s[..|s| - 1] == [];
    } else {
      assert s[..|s| - 1] == NatToString(n / 10);
      ParseNatToString(n / 10);
    }
  }

  /** A sign in front of a decimal digit string negates its value. */
  lemma ParseSigned(digits: string)
    requires |digits| >= 1 && '0' <= digits[0] <= '9'
    ensures ParseInt(digits) == ParseNat(digits)
    ensures ParseInt("-" + digits) == -ParseNat(digits)
  {
    assert ("-" + digits)[1..] == digits;
  }

  /** The decimal rendering of an integer loses nothing: parsing it gives the integer back. */
  lemma IntToStringRoundTrip(i: int)
    ensures ParseInt(IntToString(i)) == i
  {
    var n: nat := if i < 0 then -i else i;
    var digits := NatToString(n);
    NatToStringDigits(n);
    ParseSigned(digits);
    ParseNatToString(n);
    assert ParseNat(digits) == n;
    assert IntToString(i) == if i < 0 then "-" + digits else digits;
  }
}
