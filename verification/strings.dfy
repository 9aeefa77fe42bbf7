/**
 * The string operations the OpenVPN codec relies on: Go's `strings.Split`
 * with a one-character separator, `strings.ReplaceAll(s, "\r", "")`,
 * `strings.ToLower` restricted to ASCII, and the newline-terminated line
 * layout that `Export` produces.
 */
module Strings {

  /** ASCII lower-casing of one character; every other character is kept. */
  function LowerChar(c: char): char {
    if 'A' <= c <= 'Z' then (c as int - 'A' as int + 'a' as int) as char else c
  }

  /** Character-wise ASCII lower-casing (`strings.ToLower` on ASCII text). */
  function Lower(s: string): (r: string)
    ensures |r| == |s|
    ensures forall i :: 0 <= i < |s| ==> r[i] == LowerChar(s[i])
  {
    if s == [] then [] else [LowerChar(s[0])] + Lower(s[1..])
  }

  /**
   * Go's `strings.Split(s, string(sep))`: the pieces of `s` between
   * occurrences of `sep`. Splitting the empty string gives one empty piece,
   * and a separator at either end gives an empty piece there.
   */
  function Split(s: string, sep: char): (parts: seq<string>)
    ensures |parts| >= 1
    decreases |s|
  {
    if s == [] then [""]
    else
      var rest := Split(s[1..], sep);
      if s[0] == sep then [""] + rest else [[s[0]] + rest[0]] + rest[1..]
  }

  lemma {:induction false} SplitWithoutSeparator(s: string, sep: char)
    requires sep !in s
    ensures Split(s, sep) == [s]
    decreases |s|
  {
    if s != [] {
      SplitWithoutSeparator(s[1..], sep);
      assert [s[0]] + s[1..] == s;
    }
  }

  /** No piece of a split holds the separator, and every character of a piece comes from the text. */
  lemma {:induction false} SplitPieces(s: string, sep: char)
    ensures forall p <- Split(s, sep) :: sep !in p && forall c <- p :: c in s
    decreases |s|
  {
    if s != [] {
      SplitPieces(s[1..], sep);
      var rest := Split(s[1..], sep);
      assert forall c <- s[1..] :: c in s;
      if s[0] != sep {
        var first := [s[0]] + rest[0];
        assert rest[0] in rest;
        assert forall c <- first :: c == s[0] || c in rest[0];
        assert forall p <- rest[1..] :: p in rest;
        assert Split(s, sep) == [first] + rest[1..];
      }
    }
  }

  /** A separator-free prefix followed by a separator is exactly the first piece. */
  lemma {:induction false} SplitAtFirst(a: string, sep: char, b: string)
    requires sep !in a
    ensures Split(a + [sep] + b, sep) == [a] + Split(b, sep)
    decreases |a|
  {
    if a == [] {
      assert a + [sep] + b == [sep] + b;
    } else {
      assert (a + [sep] + b)[1..] == a[1..] + [sep] + b;
      SplitAtFirst(a[1..], sep, b);
      assert [a[0]] + a[1..] == a;
    }
  }

  /** The text holding each line of `lines` followed by a line feed. */
  function Unlines(lines: seq<string>): string {
    if lines == [] then "" else lines[0] + "\n" + Unlines(lines[1..])
  }

  lemma {:induction false} UnlinesAppend(a: seq<string>, b: seq<string>)
    ensures Unlines(a + b) == Unlines(a) + Unlines(b)
  {
    if a != [] {
      assert (a + b)[0] == a[0] && (a + b)[1..] == a[1..] + b;
      UnlinesAppend(a[1..], b);
      calc {
        Unlines(a + b);
        a[0] + "\n" + Unlines(a[1..] + b);
        a[0] + "\n" + (Unlines(a[1..]) + Unlines(b));
        (a[0] + "\n" + Unlines(a[1..])) + Unlines(b);
      }
    } else {
      assert a + b == b;
    }
  }

  /** Splitting newline-terminated lines on line feeds gives the lines back. */
  lemma {:induction false} SplitUnlines(lines: seq<string>, rest: string)
    requires forall l <- lines :: '\n' !in l
    ensures Split(Unlines(lines) + rest, '\n') == lines + Split(rest, '\n')
  {
    if lines != [] {
      assert Unlines(lines) + rest == lines[0] + "\n" + (Unlines(lines[1..]) + rest);
      SplitAtFirst(lines[0], '\n', Unlines(lines[1..]) + rest);
      SplitUnlines(lines[1..], rest);
      calc {
        Split(Unlines(lines) + rest, '\n');
        [lines[0]] + Split(Unlines(lines[1..]) + rest, '\n');
        [lines[0]] + (lines[1..] + Split(rest, '\n'));
        { assert lines == [lines[0]] + lines[1..]; }
        lines + Split(rest, '\n');
      }
    } else {
      assert Unlines(lines) + rest == rest;
    }
  }

  /** Re-terminating every piece of a split gives the text back, plus a final line feed. */
  lemma {:induction false} UnlinesSplit(s: string)
    ensures Unlines(Split(s, '\n')) == s + "\n"
    decreases |s|
  {
    if s != [] {
      UnlinesSplit(s[1..]);
      var rest := Split(s[1..], '\n');
      if s[0] != '\n' {
        calc {
          Unlines(Split(s, '\n'));
          ([s[0]] + rest[0]) + "\n" + Unlines(rest[1..]);
          [s[0]] + (rest[0] + "\n" + Unlines(rest[1..]));
          [s[0]] + Unlines(rest);
          [s[0]] + (s[1..] + "\n");
          { assert [s[0]] + s[1..] == s; }
          s + "\n";
        }
      } else {
        assert [s[0]] + s[1..] == s;
      }
    }
  }

  lemma {:induction false} UnlinesWithoutCarriageReturn(lines: seq<string>)
    requires forall l <- lines :: '\r' !in l
    ensures '\r' !in Unlines(lines)
  {
    if lines != [] {
      UnlinesWithoutCarriageReturn(lines[1..]);
    }
  }

  /** `strings.ReplaceAll(s, "\r", "")`: every carriage return removed. */
  function StripCarriageReturns(s: string): (r: string)
    ensures '\r' !in r
    ensures '\r' !in s ==> r == s
    ensures |r| <= |s|
  {
    if s == [] then []
    else if s[0] == '\r' then StripCarriageReturns(s[1..])
    else [s[0]] + StripCarriageReturns(s[1..])
  }

  /** A single character is dropped exactly when it is a carriage return. */
  lemma StripOne(c: char)
    ensures StripCarriageReturns([c]) == if c == '\r' then [] else [c]
  {
    assert [c][1..] == [];
  }

  /**
   * Removal works piece by piece; with `StripOne` it says that the result
   * is the input with every carriage return deleted and all else kept in order.
   */
  lemma {:induction false} StripAppend(a: string, b: string)
    ensures StripCarriageReturns(a + b) == StripCarriageReturns(a) + StripCarriageReturns(b)
    decreases |a|
  {
    if a == [] {
      assert a + b == b;
    } else {
      assert (a + b)[0] == a[0] && (a + b)[1..] == a[1..] + b;
      StripAppend(a[1..], b);
    }
  }
}
