/**
 * get_csv_path: the day's CSV file name under a base directory, "MMDD.csv", or when that
 * file exists the first "MMDD_<n>.csv" with n = 2, 3, ... that does not. The files on
 * disk are the finite set `existing`; the date is the parameter `today`.
 */
module CsvPath {
  import Text

  /** What `strftime("%m%d")` produces: four decimal digits. */
  predicate MonthDay(s: string) {
    |s| == 4 && forall i :: 0 <= i < 4 ==> '0' <= s[i] <= '9'
  }

  /**
   * `os.path.join(base, name)` for two parts: an absolute `name` replaces `base`, an empty
   * `base` adds nothing, and a "/" separates them unless `base` already ends with one.
   */
  function PathJoin(base: string, name: string): (p: string)
    ensures |name| > 0 && name[0] == '/' ==> p == name
    ensures !(|name| > 0 && name[0] == '/') ==> |p| >= |base| + |name| && p[..|base|] == base && p[|p| - |name|..] == name
  {
    if |name| > 0 && name[0] == '/' then name
    else if |base| == 0 then name
    else if base[|base| - 1] == '/' then base + name
    else base + "/" + name
  }

  /** For a relative name, the join with a fixed base tells the name apart. */
  lemma PathJoinInjective(base: string, a: string, b: string)
    requires !(|a| > 0 && a[0] == '/') && !(|b| > 0 && b[0] == '/')
    requires PathJoin(base, a) == PathJoin(base, b)
    ensures a == b
  {
    var p := PathJoin(base, a);
    if |base| == 0 {
    } else if base[|base| - 1] == '/' {
      assert a == p[|base|..] == b;
    } else {
      assert a == p[|base| + 1..] == b;
    }
  }

  /** "MMDD.csv" */
  function BaseName(today: string): string {
    today + ".csv"
  }

  /** "MMDD_<n>.csv" */
  function CandidateName(today: string, n: nat): string {
    today + "_" + Text.Digits(n) + ".csv"
  }

  function BasePath(base: string, today: string): string {
    PathJoin(base, BaseName(today))
  }

  function CandidatePath(base: string, today: string, n: nat): string {
    PathJoin(base, CandidateName(today, n))
  }

  /** The numbered names are all different from one another and from the plain one. */
  lemma PathsDistinct(base: string, today: string, n: nat, m: nat)
    requires MonthDay(today)
    ensures CandidatePath(base, today, n) != BasePath(base, today)
    ensures CandidatePath(base, today, n) == CandidatePath(base, today, m) ==> n == m
  {
    var cn, cm := CandidateName(today, n), CandidateName(today, m);
    assert cn[0] == today[0] && BaseName(today)[0] == today[0] && cm[0] == today[0];
    assert |cn| > |BaseName(today)|;
    if CandidatePath(base, today, n) == BasePath(base, today) {
      PathJoinInjective(base, cn, BaseName(today));
    }
    if CandidatePath(base, today, n) == CandidatePath(base, today, m) {
      PathJoinInjective(base, cn, cm);
      var dn, dm := Text.Digits(n), Text.Digits(m);
      assert |dn| == |dm|;
      assert dn == cn[5..5 + |dn|] && dm == cm[5..5 + |dm|];
      Text.DigitsInjective(n, m);
    }
  }

  /** The numbered paths tried before `n`: those for 2 .. n - 1. */
  ghost function Tried(base: string, today: string, n: nat): set<string>
    decreases n
  {
    if n <= 2 then {} else Tried(base, today, n - 1) + {CandidatePath(base, today, n - 1)}
  }

  /** A candidate numbered `n` or more has not been tried before `n`. */
  lemma {:induction false} TriedExcludes(base: string, today: string, n: nat, m: nat)
    requires MonthDay(today) && m >= n
    ensures CandidatePath(base, today, m) !in Tried(base, today, n)
    decreases n
  {
    if n > 2 {
      TriedExcludes(base, today, n - 1, m);
      PathsDistinct(base, today, m, n - 1);
    }
  }

  /** Every candidate from 2 up to `n - 1` has been tried before `n`. */
  lemma {:induction false} TriedContains(base: string, today: string, n: nat, k: nat)
    requires 2 <= k < n
    ensures CandidatePath(base, today, k) in Tried(base, today, n)
    decreases n
  {
    if k < n - 1 {
      TriedContains(base, today, n - 1, k);
    }
  }

  /** The candidates tried before `n` are `n - 2` distinct paths. */
  lemma {:induction false} TriedSize(base: string, today: string, n: nat)
    requires MonthDay(today) && n >= 2
    ensures |Tried(base, today, n)| == n - 2
    decreases n
  {
    if n > 2 {
      TriedSize(base, today, n - 1);
      TriedExcludes(base, today, n - 1, n - 1);
    }
  }

  /** Once the tried candidates all exist, so does every candidate before `n`. */
  lemma TriedAllExist(base: string, today: string, existing: set<string>, n: nat)
    requires Tried(base, today, n) <= existing
    ensures forall k: nat :: 2 <= k < n ==> CandidatePath(base, today, k) in existing
  {
    forall k: nat | 2 <= k < n
      ensures CandidatePath(base, today, k) in existing
    {
      TriedContains(base, today, n, k);
    }
  }

  /** Trying one more existing candidate keeps the tried set inside `existing`, one larger. */
  lemma TriedGrows(base: string, today: string, existing: set<string>, n: nat)
    requires MonthDay(today) && n >= 2
    requires Tried(base, today, n) <= existing && CandidatePath(base, today, n) in existing
    ensures Tried(base, today, n + 1) <= existing
    ensures |Tried(base, today, n + 1)| == n - 1 <= |existing|
  {
    TriedSize(base, today, n + 1);
    var tried := Tried(base, today, n + 1);
    assert existing == tried + (existing - tried);
  }

  /**
   * get_csv_path: the path returned does not exist; it is the plain one when that is free,
   * and otherwise the numbered one with the smallest number from 2 that is free.
   */
  method GetCsvPath(base: string, today: string, existing: set<string>) returns (p: string)
    requires MonthDay(today)
    ensures p !in existing
    ensures BasePath(base, today) !in existing ==> p == BasePath(base, today)
    ensures BasePath(base, today) in existing ==>
              exists n: nat :: && n >= 2 && p == CandidatePath(base, today, n)
                               && forall k: nat :: 2 <= k < n ==> CandidatePath(base, today, k) in existing
  {
    var basePath := PathJoin(base, BaseName(today));
    if basePath !in existing {
      return basePath;
    }
    var counter: nat := 2;
    while true
      invariant counter >= 2
      invariant Tried(base, today, counter) <= existing
      invariant |Tried(base, today, counter)| == counter - 2
      decreases |existing| + 2 - counter
    {
      var newPath := PathJoin(base, CandidateName(today, counter));
      if newPath !in existing {
        TriedAllExist(base, today, existing, counter);
        assert newPath == CandidatePath(base, today, counter);
        return newPath;
      }
      TriedGrows(base, today, existing, counter);
      counter := counter + 1;
    }
  }
}
