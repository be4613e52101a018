/**
 * Paging through the recently-played endpoint (the `fetch_recently_played` of the
 * recently-played client): each page is requested with the current access token; a 401
 * refreshes the tokens and retries the same cursor, any other error propagates, and a page
 * is parsed and kept before its `next` cursor is followed. The loop has no bound of its
 * own, so the model counts requests against a budget `fuel`.
 */
module Pagination {
  import opened Wrappers
  import opened Seqs
  import opened Api
  import opened Rows
  import opened Tokens
  import RecentParse

  const RecentlyPlayedUrl: string := "https://api.spotify.com/v1/me/player/recently-played"

  /** Columns of a non-empty parsed page. */
  const PlayColumns: nat := 11

  /** `while next_url`: only a present, non-empty cursor is followed. */
  predicate Truthy(next: Option<string>) {
    next.Some? && |next.value| > 0
  }

  /**
   * get_spotify_items: 401 raises PermissionError, any other 4xx or 5xx status the HTTP
   * error of raise_for_status; otherwise the page's `next` (None when absent) and `items`.
   */
  function GetSpotifyItems(server: Server, url: string, access: string): (r: Result<(Option<string>, seq<Item>), Error>)
    ensures r.Failure? <==> 400 <= server(url, access).status < 600
    ensures r.Failure? && r.error == PermissionError <==> server(url, access).status == 401
    ensures r.Failure? && server(url, access).status != 401 ==> r.error == HttpError(server(url, access).status)
    ensures r.Success? ==> r.value.0 == server(url, access).next && r.value.1 == server(url, access).items
  {
    var resp := server(url, access);
    if resp.status == 401 then Failure(PermissionError)
    else if 400 <= resp.status < 600 then Failure(HttpError(resp.status))
    else Success((resp.next, resp.items))
  }

  /** The loop's variables: `next_url`, `access_token`, `refresh_token` and `items`. */
  datatype Cursor = Cursor(nextUrl: Option<string>, access: string, refresh: Option<string>, pages: seq<seq<PlayRow>>)

  /**
   * One iteration. A 401 redeems the refresh token and keeps the cursor and the pages; a
   * page is parsed and appended, and its `next` becomes the cursor; every other failure,
   * including one of the refresh, propagates.
   */
  function Step(server: Server, endpoint: TokenEndpoint, c: Cursor): (r: Result<Cursor, Error>)
    requires Truthy(c.nextUrl)
    ensures server(c.nextUrl.value, c.access).status == 401 && r.Success? ==>
              && r.value.nextUrl == c.nextUrl && r.value.pages == c.pages
              && RefreshAccessToken(endpoint, c.refresh).Success?
              && r.value.access == RefreshAccessToken(endpoint, c.refresh).value.accessToken
              && r.value.refresh == RefreshAccessToken(endpoint, c.refresh).value.refreshToken
    ensures server(c.nextUrl.value, c.access).status == 401 ==> (r.Failure? <==> endpoint(c.refresh).Failure?)
    ensures server(c.nextUrl.value, c.access).status == 401 && r.Failure? ==> r.error == endpoint(c.refresh).error
    ensures server(c.nextUrl.value, c.access).status != 401 ==>
              (r.Failure? <==> (|| 400 <= server(c.nextUrl.value, c.access).status < 600
                               || RecentParse.ParseBatch(server(c.nextUrl.value, c.access).items).Failure?))
    ensures server(c.nextUrl.value, c.access).status != 401 && r.Failure? ==>
              r.error == if 400 <= server(c.nextUrl.value, c.access).status < 600
                         then HttpError(server(c.nextUrl.value, c.access).status)
                         else KeyError("track")
    ensures server(c.nextUrl.value, c.access).status != 401 && r.Success? ==>
              && !(400 <= server(c.nextUrl.value, c.access).status < 600)
              && r.value.nextUrl == server(c.nextUrl.value, c.access).next
              && r.value.access == c.access && r.value.refresh == c.refresh
              && RecentParse.ParseBatch(server(c.nextUrl.value, c.access).items).Success?
              && r.value.pages == c.pages + [RecentParse.ParseBatch(server(c.nextUrl.value, c.access).items).value]
  {
    match GetSpotifyItems(server, c.nextUrl.value, c.access)
    case Failure(e) =>
      if e == PermissionError then
        match RefreshAccessToken(endpoint, c.refresh)
        case Failure(e') => Failure(e')
        case Success(tok) => Success(c.(access := tok.accessToken, refresh := tok.refreshToken))
      else Failure(e)
    case Success(page) =>
      match RecentParse.ParseBatch(page.1)
      case Failure(e) => Failure(e)
      case Success(rows) => Success(c.(nextUrl := page.0, pages := c.pages + [rows]))
  }

  /** How the loop ends: the cursor ran out, an exception escaped, or the budget was spent. */
  datatype RunOutcome = Done(final: Cursor) | Raised(error: Error) | OutOfFuel(at: Cursor)

  /**
   * The loop from cursor `c` with at most `fuel` iterations. It stops exactly when the
   * cursor is not truthy; what was fetched before is kept in front; and a run that starts
   * at a truthy cursor ends only after at least one more page.
   */
  function Run(server: Server, endpoint: TokenEndpoint, c: Cursor, fuel: nat): (r: RunOutcome)
    ensures r.Done? ==> !Truthy(r.final.nextUrl) && c.pages <= r.final.pages
    ensures r.Done? && Truthy(c.nextUrl) ==> |r.final.pages| > |c.pages|
    decreases fuel
  {
    if !Truthy(c.nextUrl) then Done(c)
    else if fuel == 0 then OutOfFuel(c)
    else
      match Step(server, endpoint, c)
      case Failure(e) => Raised(e)
      case Success(c') => Run(server, endpoint, c', fuel - 1)
  }

  /**
   * The exceptions that can escape the loop: an HTTP error status other than 401, a play
   * without a track, or an error of the refresh grant. A 401 itself never escapes.
   */
  ghost predicate Escaping(endpoint: TokenEndpoint, e: Error) {
    || (e.HttpError? && 400 <= e.status < 600 && e.status != 401)
    || e == KeyError("track")
    || exists t :: endpoint(t).Failure? && endpoint(t).error == e
  }

  /** Whatever the loop raises is one of the escaping exceptions. */
  lemma {:induction false} RunRaisesEscaping(server: Server, endpoint: TokenEndpoint, c: Cursor, fuel: nat)
    ensures Run(server, endpoint, c, fuel).Raised? ==> Escaping(endpoint, Run(server, endpoint, c, fuel).error)
    decreases fuel
  {
    if Truthy(c.nextUrl) && fuel > 0 {
      match Step(server, endpoint, c)
      case Failure(e) =>
        if server(c.nextUrl.value, c.access).status == 401 {
          assert endpoint(c.refresh).Failure? && endpoint(c.refresh).error == e;
        }
      case Success(c') =>
        RunRaisesEscaping(server, endpoint, c', fuel - 1);
    }
  }

  /** `df_batch.shape` of a parsed page: an empty page is an empty frame. */
  function Shape(page: seq<PlayRow>): (s: (nat, nat))
    ensures s.0 == |page| && (s.1 == 0 <==> |page| == 0)
  {
    if |page| == 0 then (0, 0) else (|page|, PlayColumns)
  }

  /** What fetch_recently_played returns: the concatenated pages and the last page's shape. */
  datatype FetchOutcome = Fetched(rows: seq<PlayRow>, lastShape: (nat, nat)) | Failed(error: Error) | Exhausted

  /** The first cursor: the fixed recently-played URL and the tokens of `tok`. */
  function Start(tok: Token): (c: Cursor)
    ensures Truthy(c.nextUrl) && c.pages == []
  {
    Cursor(Some(RecentlyPlayedUrl), tok.accessToken, tok.refreshToken, [])
  }

  function FetchSpec(server: Server, endpoint: TokenEndpoint, tok: Token, fuel: nat): (r: FetchOutcome)
    ensures r.Fetched? <==> Run(server, endpoint, Start(tok), fuel).Done?
    ensures r.Exhausted? <==> Run(server, endpoint, Start(tok), fuel).OutOfFuel?
  {
    match Run(server, endpoint, Start(tok), fuel)
    case Done(c) => Fetched(Flatten(c.pages), Shape(c.pages[|c.pages| - 1]))
    case Raised(e) => Failed(e)
    case OutOfFuel(_) => Exhausted
  }

  /**
   * A finished fetch holds at least one page: its rows are the pages concatenated in
   * fetch order and its shape is that of the page fetched last.
   */
  lemma FetchedIsConcatenation(server: Server, endpoint: TokenEndpoint, tok: Token, fuel: nat)
    requires FetchSpec(server, endpoint, tok, fuel).Fetched?
    ensures var pages := Run(server, endpoint, Start(tok), fuel).final.pages;
            && |pages| >= 1
            && FetchSpec(server, endpoint, tok, fuel).rows == Flatten(pages)
            && FetchSpec(server, endpoint, tok, fuel).lastShape == Shape(pages[|pages| - 1])
            && (forall i :: 0 <= i < |pages| ==> forall x :: x in pages[i] ==> x in FetchSpec(server, endpoint, tok, fuel).rows)
  {
    var pages := Run(server, endpoint, Start(tok), fuel).final.pages;
    forall i, x | 0 <= i < |pages| && x in pages[i] ensures x in Flatten(pages) {
      InFlatten(pages, x);
    }
  }

  /**
   * A fetch that fails raises what the loop raised: an HTTP error other than 401, a play
   * without a track, or an error of the refresh grant.
   */
  lemma FetchFailureEscapes(server: Server, endpoint: TokenEndpoint, tok: Token, fuel: nat)
    ensures FetchSpec(server, endpoint, tok, fuel).Failed? ==>
              && Run(server, endpoint, Start(tok), fuel).Raised?
              && FetchSpec(server, endpoint, tok, fuel).error == Run(server, endpoint, Start(tok), fuel).error
              && Escaping(endpoint, FetchSpec(server, endpoint, tok, fuel).error)
  {
    RunRaisesEscaping(server, endpoint, Start(tok), fuel);
  }

  /**
   * A server that answers the cursor with 401 whatever the token, with a token endpoint
   * that keeps granting tokens: the loop refreshes forever and never returns.
   */
  lemma {:induction false} Persistent401NeverEnds(server: Server, endpoint: TokenEndpoint, c: Cursor, fuel: nat)
    requires Truthy(c.nextUrl)
    requires forall a :: server(c.nextUrl.value, a).status == 401
    requires forall t :: endpoint(t).Success?
    ensures Run(server, endpoint, c, fuel).OutOfFuel?
    decreases fuel
  {
    if fuel > 0 {
      var c' := Step(server, endpoint, c).value;
      Persistent401NeverEnds(server, endpoint, c', fuel - 1);
    }
  }

  lemma RunUnfold(server: Server, endpoint: TokenEndpoint, c: Cursor, fuel: nat, c': Cursor)
    requires Truthy(c.nextUrl) && fuel > 0 && Step(server, endpoint, c) == Success(c')
    ensures Run(server, endpoint, c, fuel) == Run(server, endpoint, c', fuel - 1)
  {
  }

  /** fetch_recently_played, with at most `fuel` iterations of its loop. */
  method FetchRecentlyPlayed(server: Server, endpoint: TokenEndpoint, tok: Token, fuel: nat) returns (r: FetchOutcome)
    ensures r == FetchSpec(server, endpoint, tok, fuel)
  {
    var accessToken, refreshToken := tok.accessToken, tok.refreshToken;
    var items: seq<seq<PlayRow>> := [];
    var nextUrl: Option<string> := Some(RecentlyPlayedUrl);
    var dfBatch: seq<PlayRow> := [];
    var left := fuel;
    while Truthy(nextUrl)
      invariant Run(server, endpoint, Start(tok), fuel) == Run(server, endpoint, Cursor(nextUrl, accessToken, refreshToken, items), left)
      invariant Truthy(nextUrl) || (|items| > 0 && dfBatch == items[|items| - 1])
      invariant |items| > 0 ==> dfBatch == items[|items| - 1]
      decreases left
    {
      if left == 0 {
        return Exhausted;
      }
      ghost var c := Cursor(nextUrl, accessToken, refreshToken, items);
      var page := GetSpotifyItems(server, nextUrl.value, accessToken);
      if page.Failure? {
        if page.error != PermissionError {
          return Failed(page.error);
        }
        var renewed := RefreshAccessToken(endpoint, refreshToken);
        if renewed.Failure? {
          return Failed(renewed.error);
        }
        accessToken, refreshToken := renewed.value.accessToken, renewed.value.refreshToken;
      } else {
        var batch := RecentParse.ParseBatch(page.value.1);
        if batch.Failure? {
          return Failed(batch.error);
        }
        nextUrl, dfBatch := page.value.0, batch.value;
        items := items + [dfBatch];
      }
      assert Step(server, endpoint, c) == Success(Cursor(nextUrl, accessToken, refreshToken, items));
      RunUnfold(server, endpoint, c, left, Cursor(nextUrl, accessToken, refreshToken, items));
      left := left - 1;
    }
    r := Fetched(Flatten(items), Shape(dfBatch));
  }
}
