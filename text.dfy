/**
 * Python string operations the sync engine relies on: `str.strip()`, `str.split(sep)`
 * and `sep.join(parts)`, plus decimal rendering of a counter (`f"{n}"`).
 */
module Text {

  /** Python's `str.isspace()` for one character. */
  predicate IsSpace(c: char) {
    var n := c as int;
    n == 0x20 || 0x09 <= n <= 0x0d || 0x1c <= n <= 0x1f || n == 0x85 || n == 0xa0
    || n == 0x1680 || 0x2000 <= n <= 0x200a || n == 0x2028 || n == 0x2029
    || n == 0x202f || n == 0x205f || n == 0x3000
  }

  predicate AllSpace(s: string) {
    forall i :: 0 <= i < |s| ==> IsSpace(s[i])
  }

  /** Neither end of `s` is whitespace (the empty string qualifies). */
  predicate NoEdgeSpace(s: string) {
    |s| == 0 || (!IsSpace(s[0]) && !IsSpace(s[|s| - 1]))
  }

  /** `s.lstrip()` */
  function TrimStart(s: string): string {
    if |s| > 0 && IsSpace(s[0]) then TrimStart(s[1..]) else s
  }

  /** `s.rstrip()` */
  function TrimEnd(s: string): string {
    if |s| > 0 && IsSpace(s[|s| - 1]) then TrimEnd(s[..|s| - 1]) else s
  }

  /** Trimming the start drops a run of whitespace and stops at a non-space character. */
  lemma {:induction false} TrimStartShape(s: string)
    ensures |TrimStart(s)| <= |s| && TrimStart(s) == s[|s| - |TrimStart(s)|..]
    ensures AllSpace(s[..|s| - |TrimStart(s)|])
    ensures |TrimStart(s)| == 0 || !IsSpace(TrimStart(s)[0])
  {
    if |s| > 0 && IsSpace(s[0]) {
      var t := s[1..];
      TrimStartShape(t);
      var r := TrimStart(t);
      var k := |s| - |r|;
      assert r == s[k..];
      forall i | 0 <= i < k ensures IsSpace(s[i]) {
        if i > 0 {
          assert s[i] == t[..k - 1][i - 1];
        }
      }
    }
  }

  /** Trimming the end drops a run of whitespace and stops at a non-space character. */
  lemma {:induction false} TrimEndShape(s: string)
    ensures |TrimEnd(s)| <= |s| && TrimEnd(s) == s[..|TrimEnd(s)|]
    ensures AllSpace(s[|TrimEnd(s)|..])
    ensures |TrimEnd(s)| == 0 || !IsSpace(TrimEnd(s)[|TrimEnd(s)| - 1])
  {
    if |s| > 0 && IsSpace(s[|s| - 1]) {
      var t := s[..|s| - 1];
      TrimEndShape(t);
      var r := TrimEnd(t);
      var k := |r|;
      assert r == s[..k];
      forall i | k <= i < |s| ensures IsSpace(s[i]) {
        if i < |s| - 1 {
          assert s[i] == t[k..][i - k];
        }
      }
    }
  }

  /** `s.strip()`: the longest infix of `s` that has whitespace at neither end. */
  function Strip(s: string): (r: string)
    ensures NoEdgeSpace(r)
    ensures exists i, j :: 0 <= i <= j <= |s| && r == s[i..j] && AllSpace(s[..i]) && AllSpace(s[j..])
  {
    TrimBothEnds(s);
    TrimEnd(TrimStart(s))
  }

  /** Trimming both ends keeps an infix of `s` and drops only whitespace around it. */
  lemma {:induction false} TrimBothEnds(s: string)
    ensures NoEdgeSpace(TrimEnd(TrimStart(s)))
    ensures exists i, j :: 0 <= i <= j <= |s| && TrimEnd(TrimStart(s)) == s[i..j] && AllSpace(s[..i]) && AllSpace(s[j..])
  {
    var t := TrimStart(s);
    var r := TrimEnd(t);
    TrimStartShape(s);
    TrimEndShape(t);
    var i := |s| - |t|;
    var j := i + |r|;
    assert t == s[i..];
    assert r == s[i..j];
    assert s[j..] == t[|r|..];
    assert AllSpace(s[..i]) && AllSpace(s[j..]);
    if |r| > 0 {
      assert r[0] == t[0];
    }
    assert NoEdgeSpace(r);
    assert 0 <= i <= j <= |s| && r == s[i..j] && AllSpace(s[..i]) && AllSpace(s[j..]);
  }

  /** `[x.strip() for x in xs]` */
  function StripAll(xs: seq<string>): (r: seq<string>)
    ensures |r| == |xs|
    ensures forall i :: 0 <= i < |xs| ==> r[i] == Strip(xs[i])
  {
    seq(|xs|, i requires 0 <= i < |xs| => Strip(xs[i]))
  }

  lemma StripKeeps(s: string)
    requires NoEdgeSpace(s)
    ensures Strip(s) == s
  {
    if |s| > 0 {
      assert TrimStart(s) == s;
      assert TrimEnd(s) == s;
    }
  }

  lemma StripDropsLeadingSpace(s: string)
    requires NoEdgeSpace(s)
    ensures Strip(" " + s) == s
  {
    assert (" " + s)[1..] == s;
    assert TrimStart(" " + s) == TrimStart(s);
    StripKeeps(s);
  }

  /** `s.split(sep)` for a one-character separator: never empty, "" gives [""]. */
  function Split(s: string, sep: char): (parts: seq<string>)
    ensures |parts| >= 1
    ensures forall i :: 0 <= i < |parts| ==> sep !in parts[i]
  {
    if |s| == 0 then [""]
    else
      var rest := Split(s[1..], sep);
      if s[0] == sep then [""] + rest else [[s[0]] + rest[0]] + rest[1..]
  }

  /** `sep.join(xs)` */
  function Join(xs: seq<string>, sep: string): string {
    if |xs| == 0 then ""
    else if |xs| == 1 then xs[0]
    else xs[0] + sep + Join(xs[1..], sep)
  }

  /** Splitting at the first separator of `a + [sep] + b` when `a` has none. */
  lemma {:induction false} SplitAfterPiece(a: string, sep: char, b: string)
    requires sep !in a
    ensures Split(a + [sep] + b, sep) == [a] + Split(b, sep)
  {
    if |a| == 0 {
      assert (a + [sep] + b)[1..] == b;
    } else {
      assert (a + [sep] + b)[1..] == a[1..] + [sep] + b;
      SplitAfterPiece(a[1..], sep, b);
      assert [a[0]] + a[1..] == a;
    }
  }

  lemma {:induction false} SplitWithoutSeparator(a: string, sep: char)
    requires sep !in a
    ensures Split(a, sep) == [a]
  {
    if |a| > 0 {
      SplitWithoutSeparator(a[1..], sep);
      assert [a[0]] + a[1..] == a;
    }
  }

  /** Joining the pieces of a split gives back the original string. */
  lemma {:induction false} JoinSplit(s: string, sep: char)
    ensures Join(Split(s, sep), [sep]) == s
  {
    if |s| > 0 {
      var rest := Split(s[1..], sep);
      JoinSplit(s[1..], sep);
      if s[0] == sep {
        assert Join([""] + rest, [sep]) == [sep] + Join(rest, [sep]);
      } else {
        var parts := [[s[0]] + rest[0]] + rest[1..];
        if |rest| == 1 {
          assert Join(parts, [sep]) == [s[0]] + rest[0];
        } else {
          assert parts[1..] == rest[1..];
          assert Join(rest, [sep]) == rest[0] + [sep] + Join(rest[1..], [sep]);
        }
      }
    }
  }

  /** The pieces `", ".join(xs).split(",")` yields: the first name, then each later one after a space. */
  function SpacedPieces(xs: seq<string>): (r: seq<string>)
    requires |xs| >= 1
    ensures |r| == |xs| && r[0] == xs[0]
    ensures forall i :: 1 <= i < |xs| ==> r[i] == " " + xs[i]
  {
    var later := seq(|xs| - 1, i requires 0 <= i < |xs| - 1 => " " + xs[i + 1]);
    assert forall i :: 1 <= i < |xs| ==> ([xs[0]] + later)[i] == later[i - 1];
    [xs[0]] + later
  }

  lemma {:induction false} SplitJoinCommaSpace(xs: seq<string>)
    requires |xs| >= 1
    requires forall i :: 0 <= i < |xs| ==> ',' !in xs[i]
    ensures Split(Join(xs, ", "), ',') == SpacedPieces(xs)
  {
    if |xs| == 1 {
      SplitWithoutSeparator(xs[0], ',');
    } else {
      var tail := xs[1..];
      var j := Join(tail, ", ");
      var rest := Split(j, ',');
      assert rest == SpacedPieces(tail) by {
        SplitJoinCommaSpace(tail);
      }
      assert Split(Join(xs, ", "), ',') == [xs[0]] + Split(" " + j, ',') by {
        assert Join(xs, ", ") == xs[0] + [','] + (" " + j);
        SplitAfterPiece(xs[0], ',', " " + j);
      }
      assert Split(" " + j, ',') == [" " + rest[0]] + rest[1..] by {
        assert (" " + j)[1..] == j;
      }
      PrependPiece(xs, rest);
    }
  }

  lemma PrependPiece(xs: seq<string>, rest: seq<string>)
    requires |xs| >= 2 && rest == SpacedPieces(xs[1..])
    ensures [xs[0]] + ([" " + rest[0]] + rest[1..]) == SpacedPieces(xs)
  {
    var tail := [" " + rest[0]] + rest[1..];
    var got := [xs[0]] + tail;
    var want := SpacedPieces(xs);
    assert |got| == |want|;
    forall i | 0 <= i < |xs| ensures got[i] == want[i] {
      if i == 0 {
      } else if i == 1 {
        assert got[1] == tail[0] == " " + rest[0];
        assert rest[0] == xs[1..][0];
      } else {
        assert got[i] == tail[i - 1] == rest[1..][i - 2] == rest[i - 1];
        assert rest[i - 1] == " " + xs[1..][i - 1];
      }
    }
  }

  /**
   * Joining with ", " and then splitting on "," and stripping every piece gives back the
   * list, provided it is non-empty and no element holds a comma or edge whitespace.
   */
  lemma JoinSplitStripRoundTrip(xs: seq<string>)
    requires |xs| >= 1
    requires forall i :: 0 <= i < |xs| ==> ',' !in xs[i] && NoEdgeSpace(xs[i])
    ensures StripAll(Split(Join(xs, ", "), ',')) == xs
  {
    SplitJoinCommaSpace(xs);
    StripSpacedPieces(xs);
  }

  lemma StripSpacedPieces(xs: seq<string>)
    requires |xs| >= 1
    requires forall i :: 0 <= i < |xs| ==> NoEdgeSpace(xs[i])
    ensures StripAll(SpacedPieces(xs)) == xs
  {
    var pieces := SpacedPieces(xs);
    var stripped := StripAll(pieces);
    forall i | 0 <= i < |xs| ensures stripped[i] == xs[i] {
      if i == 0 {
        StripKeeps(xs[0]);
      } else {
        StripDropsLeadingSpace(xs[i]);
      }
    }
  }

  function DigitChar(d: nat): (c: char)
    requires d < 10
  {
    "0123456789"[d]
  }

  /** `str(n)` for a natural number. */
  function Digits(n: nat): (s: string)
    ensures 1 <= |s|
    ensures n >= 10 ==> |s| >= 2
    decreases n
  {
    if n < 10 then [DigitChar(n)] else Digits(n / 10) + [DigitChar(n % 10)]
  }

  lemma {:induction false} DigitsInjective(n: nat, m: nat)
    requires Digits(n) == Digits(m)
    ensures n == m
    decreases n
  {
    var s := Digits(n);
    if n >= 10 && m >= 10 {
      assert Digits(n / 10) == s[..|s| - 1] == Digits(m / 10);
      DigitsInjective(n / 10, m / 10);
      assert DigitChar(n % 10) == s[|s| - 1] == DigitChar(m % 10);
    }
  }
}
