/** String helpers the bot relies on: Python's `str(int)`, `"\n".join(...)`,
    and `str.splitlines()` restricted to the line feed separator. */
module Text {

  /** True when `s` contains no line feed. */
  predicate NoNewline(s: string) {
    forall i :: 0 <= i < |s| ==> s[i] != '\n'
  }

  // ---------------------------------------------------------------------
  // Decimal rendering of integers, as in an f-string `{index}`
  // ---------------------------------------------------------------------

  function DigitChar(d: nat): (c: char)
    requires d < 10
    ensures '0' <= c <= '9'
  {
    (48 + d) as char
  }

  function DigitValue(c: char): (d: nat)
    requires '0' <= c <= '9'
    ensures d < 10 && DigitChar(d) == c
  {
    c as int - 48
  }

  predicate IsDigits(s: string) {
    forall i :: 0 <= i < |s| ==> '0' <= s[i] <= '9'
  }

  /** The decimal digits of `n`, most significant first, without leading zeros. */
  function NatToString(n: nat): (s: string)
    ensures |s| >= 1 && IsDigits(s)
    ensures s[0] != '0' || s == "0"
    ensures s == "0" <==> n == 0
    decreases n
  {
    if n < 10 then [DigitChar(n)] else NatToString(n / 10) + [DigitChar(n % 10)]
  }

  /** Python's `str(i)`: a minus sign before the digits of a negative number. */
  function IntToString(i: int): (s: string)
    ensures |s| >= 1 && NoNewline(s)
  {
    if i < 0 then "-" + NatToString(-i) else NatToString(i)
  }

  /** Reference reading of a string of decimal digits. */
  function DigitsValue(s: string): nat
    requires IsDigits(s)
  {
    if s == [] then 0 else 10 * DigitsValue(s[..|s| - 1]) + DigitValue(s[|s| - 1])
  }

  /** Reference reading of an optionally signed decimal numeral. */
  function ParseInt(s: string): int
    requires |s| >= 1
    requires IsDigits(s) || (s[0] == '-' && IsDigits(s[1..]))
  {
    if s[0] == '-' then -(DigitsValue(s[1..]) as int) else DigitsValue(s)
  }

  lemma {:induction false} NatToStringRoundTrip(n: nat)
    ensures DigitsValue(NatToString(n)) == n
    decreases n
  {
    if n >= 10 {
      var s, front := NatToString(n), NatToString(n / 10);
      NatToStringRoundTrip(n / 10);
      assert s == front + [DigitChar(n % 10)];
      assert s[..|s| - 1] == front;
      assert DigitValue(s[|s| - 1]) == n % 10;
      assert DigitsValue(s) == 10 * (n / 10) + n % 10;
    }
  }

  /** The rendering of an index can be read back: no two indices print alike. */
  lemma IntToStringRoundTrip(i: int)
    ensures var s := IntToString(i);
      (IsDigits(s) || (s[0] == '-' && IsDigits(s[1..]))) && ParseInt(s) == i
  {
    var s := IntToString(i);
    if i < 0 {
      assert s[1..] == NatToString(-i);
      NatToStringRoundTrip(-i);
    } else {
      NatToStringRoundTrip(i);
    }
  }

  // ---------------------------------------------------------------------
  // Joining and splitting on line feeds
  // ---------------------------------------------------------------------

  /** Python's `"\n".join(lines)`. */
  function Join(lines: seq<string>): string {
    if |lines| == 0 then ""
    else if |lines| == 1 then lines[0]
    else Join(lines[..|lines| - 1]) + "\n" + lines[|lines| - 1]
  }

  /** Python's `s.split("\n")`: the pieces between line feeds, never none. */
  function Split(s: string): (pieces: seq<string>)
    ensures |pieces| >= 1
  {
    if s == "" then [""]
    else
      var rest := Split(s[1..]);
      if s[0] == '\n' then [""] + rest
      else [[s[0]] + rest[0]] + rest[1..]
  }

  /** Python's `s.splitlines()` when the only line separator in `s` is the line
      feed: a final line feed ends the last line instead of opening a new
      one, and the empty string has no lines. */
  function SplitLines(s: string): seq<string> {
    if s == "" then []
    else if s[|s| - 1] == '\n' then Split(s[..|s| - 1])
    else Split(s)
  }

  predicate EndsWithNewline(s: string) {
    |s| > 0 && s[|s| - 1] == '\n'
  }

  lemma {:induction false} JoinAppend(a: seq<string>, b: seq<string>)
    requires |a| >= 1 && |b| >= 1
    ensures Join(a + b) == Join(a) + "\n" + Join(b)
    decreases |b|
  {
    if |b| == 1 {
      assert (a + b)[..|a + b| - 1] == a;
    } else {
      var b' := b[..|b| - 1];
      assert (a + b)[..|a + b| - 1] == a + b';
      JoinAppend(a, b');
    }
  }

  lemma {:induction false} SplitNoNewline(s: string)
    requires NoNewline(s)
    ensures Split(s) == [s]
    decreases |s|
  {
    if s != "" {
      SplitNoNewline(s[1..]);
      assert s[0] != '\n';
      assert [s[0]] + s[1..] == s;
    }
  }

  /** No piece of a split holds a line feed. */
  lemma {:induction false} SplitPieces(s: string)
    ensures forall k :: 0 <= k < |Split(s)| ==> NoNewline(Split(s)[k])
    decreases |s|
  {
    if s != "" {
      SplitPieces(s[1..]);
    }
  }

  /** Splitting distributes over a line feed between two strings. */
  lemma {:induction false} SplitConcat(a: string, b: string)
    ensures Split(a + "\n" + b) == Split(a) + Split(b)
    decreases |a|
  {
    if a == "" {
      assert (a + "\n" + b)[1..] == b;
    } else {
      SplitConcat(a[1..], b);
      SplitConcatStep(a, b);
    }
  }

  lemma SplitConcatStep(a: string, b: string)
    requires a != ""
    requires Split(a[1..] + "\n" + b) == Split(a[1..]) + Split(b)
    ensures Split(a + "\n" + b) == Split(a) + Split(b)
  {
    var s := a + "\n" + b;
    assert s[0] == a[0] && s[1..] == a[1..] + "\n" + b;
    SplitCons(s);
    SplitCons(a);
    if a[0] == '\n' {
      Assoc([""], Split(a[1..]), Split(b));
    } else {
      ConsFirst(a[0], Split(a[1..]), Split(b));
    }
  }

  lemma Assoc<T>(x: seq<T>, y: seq<T>, z: seq<T>)
    ensures x + (y + z) == (x + y) + z
  {
  }

  /** One unfolding of `Split`. */
  lemma SplitCons(s: string)
    requires s != ""
    ensures Split(s) == if s[0] == '\n' then [""] + Split(s[1..])
                        else [[s[0]] + Split(s[1..])[0]] + Split(s[1..])[1..]
  {
  }

  lemma ConsFirst(c: char, front: seq<string>, back: seq<string>)
    requires |front| >= 1
    ensures [[c] + (front + back)[0]] + (front + back)[1..] == ([[c] + front[0]] + front[1..]) + back
  {
    assert (front + back)[0] == front[0];
    assert (front + back)[1..] == front[1..] + back;
  }

  /** Joining the pieces of a split gives the string back. */
  lemma {:induction false} JoinSplit(s: string)
    ensures Join(Split(s)) == s
    decreases |s|
  {
    if s != "" {
      JoinSplit(s[1..]);
      if s[0] == '\n' {
        JoinSplitAtNewline(s);
      } else {
        JoinSplitAtChar(s);
      }
    }
  }

  lemma JoinSplitAtNewline(s: string)
    requires s != "" && s[0] == '\n' && Join(Split(s[1..])) == s[1..]
    ensures Join(Split(s)) == s
  {
    var rest := Split(s[1..]);
    assert Split(s) == [""] + rest;
    JoinAppend([""], rest);
  }

  lemma JoinSplitAtChar(s: string)
    requires s != "" && s[0] != '\n' && Join(Split(s[1..])) == s[1..]
    ensures Join(Split(s)) == s
  {
    var rest := Split(s[1..]);
    var first := [s[0]] + rest[0];
    assert Split(s) == [first] + rest[1..];
    if |rest| == 1 {
      assert [first] + rest[1..] == [first];
    } else {
      JoinSplitAtCharLong(s[0], rest);
    }
  }

  lemma JoinSplitAtCharLong(c: char, rest: seq<string>)
    requires |rest| >= 2
    ensures Join([[c] + rest[0]] + rest[1..]) == [c] + Join(rest)
  {
    var r0, more := rest[0], Join(rest[1..]);
    assert Join(rest) == r0 + "\n" + more by {
      JoinAppend([r0], rest[1..]);
      assert [r0] + rest[1..] == rest;
    }
    calc {
      Join([[c] + r0] + rest[1..]);
      { JoinAppend([[c] + r0], rest[1..]); }
      [c] + r0 + "\n" + more;
      { Assoc([c], r0, "\n"); }
      [c] + (r0 + "\n") + more;
      { Assoc([c], r0 + "\n", more); }
      [c] + Join(rest);
    }
  }

  /** Splitting the join of lines free of line feeds gives the lines back. */
  lemma {:induction false} SplitJoin(lines: seq<string>)
    requires |lines| >= 1
    requires forall k :: 0 <= k < |lines| ==> NoNewline(lines[k])
    ensures Split(Join(lines)) == lines
    decreases |lines|
  {
    var last := lines[|lines| - 1];
    SplitNoNewline(last);
    if |lines| > 1 {
      var init := lines[..|lines| - 1];
      SplitJoin(init);
      SplitConcat(Join(init), last);
    }
  }

  /** Split lines rejoined with line feeds give the text back, except for a
      final line feed, which `splitlines` drops. */
  lemma SplitLinesRoundTrip(s: string)
    ensures Join(SplitLines(s)) + (if EndsWithNewline(s) then "\n" else "") == s
    ensures forall k :: 0 <= k < |SplitLines(s)| ==> NoNewline(SplitLines(s)[k])
  {
    if s != "" {
      if s[|s| - 1] == '\n' {
        JoinSplit(s[..|s| - 1]);
        SplitPieces(s[..|s| - 1]);
      } else {
        JoinSplit(s);
        SplitPieces(s);
      }
    }
  }
}
