/**
 * The refresh-token variant of the fetcher: it redeems a refresh token once, then pages
 * through the recently-played endpoint with that access token, keeping artist names and
 * ids as lists. Its loop swallows every exception: a failed request leaves the cursor as
 * it was and is simply tried again, and a page that fails to parse is dropped after the
 * cursor has already moved past it.
 */
module RefreshFlow {
  import opened Wrappers
  import opened Seqs
  import opened Text
  import opened Api
  import opened Rows
  import opened Tokens
  import RecentParse
  import Pagination

  /** The record of this variant: `artist` and `artist_id` are lists, not joined strings. */
  datatype ListPlay = ListPlay(
    artist: seq<string>, artistId: seq<string>, track: string, trackId: string,
    album: string, albumId: string, totalTracks: int, durationMs: int,
    playedAt: int, trackNumber: int, releaseDate: string)

  /** parse_track with list-valued artist fields. */
  function ParseTrackList(item: Item): (r: Result<ListPlay, Error>)
    ensures r.Failure? <==> item.track.None?
    ensures r.Failure? ==> r.error == KeyError("track")
    ensures r.Success? ==>
              var artists := item.track.value.artists;
              && |r.value.artist| == |artists| && |r.value.artistId| == |artists|
              && (forall i :: 0 <= i < |artists| ==> r.value.artist[i] == artists[i].name && r.value.artistId[i] == artists[i].id)
  {
    match item.track
    case None => Failure(KeyError("track"))
    case Some(t) =>
      Success(ListPlay(
        RecentParse.Names(t.artists), RecentParse.Ids(t.artists), t.name, t.id,
        t.album.name, t.album.id, t.album.totalTracks, t.durationMs,
        item.playedAt, t.trackNumber, t.album.releaseDate))
  }

  /** The list record with its artist lists joined by ", ": the record of the other client. */
  function Joined(p: ListPlay): PlayRow {
    PlayRow(
      Join(p.artist, ", "), Join(p.artistId, ", "), p.track, p.trackId, p.album, p.albumId,
      p.totalTracks, p.durationMs, p.playedAt, p.trackNumber, p.releaseDate)
  }

  /** The two parse_track variants agree: joining the lists gives the other client's record. */
  lemma ListAndJoinedAgree(item: Item)
    ensures ParseTrackList(item).Success? <==> RecentParse.ParseTrack(item).Success?
    ensures ParseTrackList(item).Success? ==> Joined(ParseTrackList(item).value) == RecentParse.ParseTrack(item).value
  {
  }

  /** `pd.DataFrame(parse_track(x) for x in batch)` for this variant. */
  function ParseBatchList(batch: seq<Item>): (r: Result<seq<ListPlay>, Error>)
    ensures r.Success? <==> forall i :: 0 <= i < |batch| ==> batch[i].track.Some?
    ensures r.Success? ==> |r.value| == |batch| && forall i :: 0 <= i < |batch| ==> Success(r.value[i]) == ParseTrackList(batch[i])
  {
    if |batch| == 0 then Success([])
    else
      match ParseTrackList(batch[0])
      case Failure(e) => Failure(e)
      case Success(row) =>
        match ParseBatchList(batch[1..])
        case Failure(e) => Failure(e)
        case Success(rest) =>
          assert forall i :: 1 <= i < |batch| ==> batch[i] == batch[1..][i - 1];
          Success([row] + rest)
  }

  /** The loop's variables besides the fixed access token: `next_url` and `items`. */
  datatype Walk = Walk(nextUrl: Option<string>, pages: seq<seq<ListPlay>>)

  /**
   * One iteration under `except: pass`. A failed request changes nothing. A page that
   * arrives moves the cursor to its `next` at once; it is appended if it parses and lost
   * otherwise.
   */
  function Step(server: Server, access: string, w: Walk): (r: Walk)
    requires Pagination.Truthy(w.nextUrl)
    ensures Pagination.GetSpotifyItems(server, w.nextUrl.value, access).Failure? ==> r == w
    ensures Pagination.GetSpotifyItems(server, w.nextUrl.value, access).Success? ==>
              && r.nextUrl == server(w.nextUrl.value, access).next
              && (ParseBatchList(server(w.nextUrl.value, access).items).Success? ==>
                    r.pages == w.pages + [ParseBatchList(server(w.nextUrl.value, access).items).value])
              && (ParseBatchList(server(w.nextUrl.value, access).items).Failure? ==> r.pages == w.pages)
  {
    match Pagination.GetSpotifyItems(server, w.nextUrl.value, access)
    case Failure(_) => w
    case Success(page) =>
      match ParseBatchList(page.1)
      case Failure(_) => w.(nextUrl := page.0)
      case Success(rows) => Walk(page.0, w.pages + [rows])
  }

  datatype RunOutcome = Done(final: Walk) | OutOfFuel

  /** The loop from `w` with at most `fuel` iterations; it stops exactly when the cursor is not truthy. */
  function Run(server: Server, access: string, w: Walk, fuel: nat): (r: RunOutcome)
    ensures r.Done? ==> !Pagination.Truthy(r.final.nextUrl) && w.pages <= r.final.pages
    decreases fuel
  {
    if !Pagination.Truthy(w.nextUrl) then Done(w)
    else if fuel == 0 then OutOfFuel
    else Run(server, access, Step(server, access, w), fuel - 1)
  }

  /**
   * A page whose request fails, for good, is retried forever: whatever the budget, the
   * loop does not end.
   */
  lemma {:induction false} FailingPageLoopsForever(server: Server, access: string, w: Walk, fuel: nat)
    requires Pagination.Truthy(w.nextUrl)
    requires Pagination.GetSpotifyItems(server, w.nextUrl.value, access).Failure?
    ensures Run(server, access, w, fuel) == OutOfFuel
    decreases fuel
  {
    if fuel > 0 {
      FailingPageLoopsForever(server, access, w, fuel - 1);
    }
  }

  datatype FlowOutcome = Fetched(rows: seq<ListPlay>) | Failed(error: Error) | Exhausted

  /**
   * fetch_recently_played of this variant: one refresh, whose failure propagates, then the
   * loop from the recently-played URL with the new access token; `pd.concat` of no pages
   * raises ValueError.
   */
  function FlowSpec(server: Server, endpoint: TokenEndpoint, refreshToken: Option<string>, fuel: nat): (r: FlowOutcome)
    ensures endpoint(refreshToken).Failure? ==> r == Failed(endpoint(refreshToken).error)
    ensures r.Failed? && endpoint(refreshToken).Success? ==> r.error == ValueError
  {
    match RefreshAccessToken(endpoint, refreshToken)
    case Failure(e) => Failed(e)
    case Success(tok) =>
      match Run(server, tok.accessToken, Walk(Some(Pagination.RecentlyPlayedUrl), []), fuel)
      case OutOfFuel => Exhausted
      case Done(w) => if |w.pages| == 0 then Failed(ValueError) else Fetched(Flatten(w.pages))
  }

  /**
   * A fetch that returns rows ran the loop to its end with at least one kept page, and
   * its rows are the kept pages concatenated in fetch order; it runs out of budget exactly
   * when the loop does.
   */
  lemma FlowFetchedIsConcatenation(server: Server, endpoint: TokenEndpoint, refreshToken: Option<string>, fuel: nat)
    requires endpoint(refreshToken).Success?
    ensures var access := RefreshAccessToken(endpoint, refreshToken).value.accessToken;
            var run := Run(server, access, Walk(Some(Pagination.RecentlyPlayedUrl), []), fuel);
            && (FlowSpec(server, endpoint, refreshToken, fuel).Exhausted? <==> run.OutOfFuel?)
            && (FlowSpec(server, endpoint, refreshToken, fuel).Fetched? <==> run.Done? && |run.final.pages| >= 1)
            && (FlowSpec(server, endpoint, refreshToken, fuel).Fetched? ==>
                  && FlowSpec(server, endpoint, refreshToken, fuel).rows == Flatten(run.final.pages)
                  && forall i, x :: 0 <= i < |run.final.pages| && x in run.final.pages[i] ==>
                       x in FlowSpec(server, endpoint, refreshToken, fuel).rows)
  {
    var access := RefreshAccessToken(endpoint, refreshToken).value.accessToken;
    var run := Run(server, access, Walk(Some(Pagination.RecentlyPlayedUrl), []), fuel);
    if run.Done? {
      var pages := run.final.pages;
      forall i, x | 0 <= i < |pages| && x in pages[i] ensures x in Flatten(pages) {
        InFlatten(pages, x);
      }
    }
  }

  /**
   * Exactly one refresh comes before any page request: when it fails, no page server is
   * consulted (any two servers give the same outcome).
   */
  lemma RefreshBeforeAnyRequest(s1: Server, s2: Server, endpoint: TokenEndpoint, refreshToken: Option<string>, fuel: nat)
    requires endpoint(refreshToken).Failure?
    ensures FlowSpec(s1, endpoint, refreshToken, fuel) == FlowSpec(s2, endpoint, refreshToken, fuel)
  {
  }

  /**
   * If the very first page request fails for good, the fetch never returns; if the first
   * page arrives without a `next` and does not parse, nothing was kept and concatenating
   * no pages raises ValueError.
   */
  lemma FirstPageFates(server: Server, endpoint: TokenEndpoint, refreshToken: Option<string>, fuel: nat)
    requires endpoint(refreshToken).Success?
    ensures var access := RefreshAccessToken(endpoint, refreshToken).value.accessToken;
            (Pagination.GetSpotifyItems(server, Pagination.RecentlyPlayedUrl, access).Failure?
             ==> FlowSpec(server, endpoint, refreshToken, fuel) == Exhausted)
    ensures var access := RefreshAccessToken(endpoint, refreshToken).value.accessToken;
            ((&& fuel > 0
              && Pagination.GetSpotifyItems(server, Pagination.RecentlyPlayedUrl, access).Success?
              && !Pagination.Truthy(server(Pagination.RecentlyPlayedUrl, access).next)
              && ParseBatchList(server(Pagination.RecentlyPlayedUrl, access).items).Failure?)
             ==> FlowSpec(server, endpoint, refreshToken, fuel) == Failed(ValueError))
  {
    var access := RefreshAccessToken(endpoint, refreshToken).value.accessToken;
    var start := Walk(Some(Pagination.RecentlyPlayedUrl), []);
    if Pagination.GetSpotifyItems(server, Pagination.RecentlyPlayedUrl, access).Failure? {
      FailingPageLoopsForever(server, access, start, fuel);
    } else if fuel > 0 && ParseBatchList(server(Pagination.RecentlyPlayedUrl, access).items).Failure? {
      var w1 := Step(server, access, start);
      assert w1 == Walk(server(Pagination.RecentlyPlayedUrl, access).next, []);
      assert Run(server, access, start, fuel) == Run(server, access, w1, fuel - 1);
    }
  }

  /** fetch_recently_played of this variant, with at most `fuel` iterations of its loop. */
  method FetchRecentlyPlayed(server: Server, endpoint: TokenEndpoint, refreshToken: Option<string>, fuel: nat) returns (r: FlowOutcome)
    ensures r == FlowSpec(server, endpoint, refreshToken, fuel)
  {
    var tok := RefreshAccessToken(endpoint, refreshToken);
    if tok.Failure? {
      return Failed(tok.error);
    }
    var accessToken := tok.value.accessToken;
    var items: seq<seq<ListPlay>> := [];
    var nextUrl: Option<string> := Some(Pagination.RecentlyPlayedUrl);
    var left := fuel;
    while Pagination.Truthy(nextUrl)
      invariant Run(server, accessToken, Walk(Some(Pagination.RecentlyPlayedUrl), []), fuel)
                == Run(server, accessToken, Walk(nextUrl, items), left)
      decreases left
    {
      if left == 0 {
        return Exhausted;
      }
      ghost var w := Walk(nextUrl, items);
      var page := Pagination.GetSpotifyItems(server, nextUrl.value, accessToken);
      if page.Success? {
        nextUrl := page.value.0;
        var batch := ParseBatchList(page.value.1);
        if batch.Success? {
          items := items + [batch.value];
        }
      }
      assert Step(server, accessToken, w) == Walk(nextUrl, items);
      left := left - 1;
    }
    if |items| == 0 {
      return Failed(ValueError);
    }
    r := Fetched(Flatten(items));
  }
}
