/**
 * should_update_db: the decision whether a freshly fetched batch holds anything the
 * cache has not seen, made by comparing the newest cached play time with the play time
 * of the batch's row labelled 0.
 */
module ChangeGate {
  import opened Wrappers
  import opened Api
  import opened Rows

  /** `SELECT played_at FROM cache ORDER BY played_at DESC LIMIT 1`: the newest cached play time. */
  function NewestCached(cache: seq<LogRow>): (r: Option<int>)
    ensures r.None? <==> |cache| == 0
    ensures r.Some? ==> (exists i :: 0 <= i < |cache| && cache[i].playedAt == r.value)
    ensures r.Some? ==> forall i :: 0 <= i < |cache| ==> cache[i].playedAt <= r.value
  {
    if |cache| == 0 then None
    else
      var rest := NewestCached(cache[1..]);
      if rest.None? || cache[0].playedAt >= rest.value then Some(cache[0].playedAt)
      else
        assert forall i :: 1 <= i < |cache| ==> cache[i] == cache[1..][i - 1];
        Some(rest.value)
  }

  /**
   * The `played_at` values `df.loc[0, "played_at"]` selects from a frame built by
   * concatenating pages: each page keeps its own labels 0..n-1, so every non-empty page
   * contributes its first row.
   */
  function LabelZero(pages: seq<seq<PlayRow>>): (r: seq<int>)
    ensures |r| <= |pages|
  {
    if |pages| == 0 then []
    else LabelZero(pages[..|pages| - 1]) + (if |pages[|pages| - 1]| > 0 then [pages[|pages| - 1][0].playedAt] else [])
  }

  /**
   * The decision inside the try. `cacheRead` is the outcome of reading the cache (a
   * database error is a Failure); `atZero` holds the batch's `played_at` values labelled 0.
   * No label 0 (a frame with columns but no rows, which the fetchers never build) raises
   * KeyError, several make the comparison's truth value ambiguous (ValueError); both are
   * caught and, like a read error or an empty cache, mean "update". A batch without
   * columns fails before the try: see ShouldUpdateDb.
   */
  function ShouldUpdate(cacheRead: Result<seq<LogRow>, Error>, atZero: seq<int>): (r: bool)
    ensures !r <==> cacheRead.Success? && |cacheRead.value| > 0 && |atZero| == 1
                    && atZero[0] == NewestCached(cacheRead.value).value
    ensures cacheRead.Failure? ==> r
    ensures cacheRead.Success? && |cacheRead.value| == 0 ==> r
  {
    match cacheRead
    case Failure(_) => true
    case Success(cache) =>
      match NewestCached(cache)
      case None => true
      case Some(newest) =>
        if |atZero| != 1 then true
        else atZero[0] != newest
  }

  /** A concatenated frame has some row labelled 0 exactly when one of its pages has a row. */
  lemma {:induction false} LabelZeroEmpty(pages: seq<seq<PlayRow>>)
    ensures |LabelZero(pages)| == 0 <==> forall i :: 0 <= i < |pages| ==> |pages[i]| == 0
  {
    if |pages| > 0 {
      var init := pages[..|pages| - 1];
      LabelZeroEmpty(init);
      assert forall i :: 0 <= i < |init| ==> init[i] == pages[i];
    }
  }

  /**
   * should_update_db on the batch concatenated from `pages`. `played_at` is converted
   * before the try: when every page is empty the frame has no columns, and that read
   * raises KeyError to the caller. Any other batch reaches the decision with a row
   * labelled 0, so the caught "no label 0" case never arises from fetched pages.
   */
  function ShouldUpdateDb(cacheRead: Result<seq<LogRow>, Error>, pages: seq<seq<PlayRow>>): (r: Result<bool, Error>)
    ensures r.Failure? <==> |LabelZero(pages)| == 0
    ensures r.Failure? ==> r.error == KeyError("played_at")
    ensures r.Success? ==> |LabelZero(pages)| >= 1 && r.value == ShouldUpdate(cacheRead, LabelZero(pages))
  {
    LabelZeroEmpty(pages);
    if forall i :: 0 <= i < |pages| ==> |pages[i]| == 0 then Failure(KeyError("played_at"))
    else Success(ShouldUpdate(cacheRead, LabelZero(pages)))
  }

  /** A frame that is one page (or freshly indexed) has exactly its first row at label 0. */
  lemma {:induction false} LabelZeroOfOnePage(rows: seq<PlayRow>)
    requires |rows| > 0
    ensures LabelZero([rows]) == [rows[0].playedAt]
  {
    assert [rows][..0] == [];
  }

  lemma {:induction false} LabelZeroCountsNonEmptyPages(pages: seq<seq<PlayRow>>, i: int, j: int)
    requires 0 <= i < j < |pages| && |pages[i]| > 0 && |pages[j]| > 0
    ensures |LabelZero(pages)| >= 2
  {
    var init := pages[..|pages| - 1];
    if j == |pages| - 1 {
      LabelZeroHasPage(init, i);
    } else {
      LabelZeroCountsNonEmptyPages(init, i, j);
    }
  }

  lemma {:induction false} LabelZeroHasPage(pages: seq<seq<PlayRow>>, i: int)
    requires 0 <= i < |pages| && |pages[i]| > 0
    ensures |LabelZero(pages)| >= 1
  {
    if i < |pages| - 1 {
      LabelZeroHasPage(pages[..|pages| - 1], i);
    }
  }

  /**
   * For a batch concatenated from two or more non-empty pages, label 0 is ambiguous and
   * the gate always answers "update", whatever the cache holds.
   */
  lemma MultiPageBatchAlwaysUpdates(cacheRead: Result<seq<LogRow>, Error>, pages: seq<seq<PlayRow>>, i: int, j: int)
    requires 0 <= i < j < |pages| && |pages[i]| > 0 && |pages[j]| > 0
    ensures ShouldUpdate(cacheRead, LabelZero(pages))
  {
    LabelZeroCountsNonEmptyPages(pages, i, j);
  }

  /**
   * For a single-page batch the gate says "skip" exactly when the cache is readable and
   * non-empty, and the batch's first play is at the newest cached time: no play newer than
   * the cache can then be at the head of the batch.
   */
  lemma OnePageDecision(cache: seq<LogRow>, rows: seq<PlayRow>)
    requires |rows| > 0
    ensures !ShouldUpdate(Success(cache), LabelZero([rows]))
            <==> |cache| > 0 && rows[0].playedAt == NewestCached(cache).value
    ensures !ShouldUpdate(Success(cache), LabelZero([rows]))
            ==> forall i :: 0 <= i < |cache| ==> cache[i].playedAt <= rows[0].playedAt
  {
    LabelZeroOfOnePage(rows);
  }

  /**
   * Asked about the play at the head of the cache, the gate says "nothing new" exactly
   * when no cached play is later than it.
   */
  lemma SkipAtCachedHead(cache: seq<LogRow>)
    requires |cache| > 0
    ensures !ShouldUpdate(Success(cache), [cache[0].playedAt])
            <==> forall i :: 0 <= i < |cache| ==> cache[i].playedAt <= cache[0].playedAt
  {
    var newest := NewestCached(cache).value;
    if forall i :: 0 <= i < |cache| ==> cache[i].playedAt <= cache[0].playedAt {
      var j :| 0 <= j < |cache| && cache[j].playedAt == newest;
      assert newest <= cache[0].playedAt;
    }
  }
}
