/**
 * The upstream web API as the sync engine sees it: the JSON objects of a
 * "recently played" page and of a token-endpoint reply, and the exceptions the engine
 * raises or catches. The HTTP transport itself is abstracted as two function parameters:
 * a page server and a token endpoint.
 */
module Api {
  import opened Wrappers

  /** The Python exceptions that matter to the engine's control flow. */
  datatype Error =
    | PermissionError            // raised by get_spotify_items on HTTP 401
    | HttpError(status: int)     // raised by raise_for_status on 4xx/5xx
    | KeyError(key: string)      // a JSON field that parse_track or get_valid_token reads is missing
    | AttributeError             // `.get` called on a JSON null
    | ValueError                 // pandas: explode with unequal list lengths; invalid conversion type
    | TimeoutError               // no authorization code arrived in time
    | IntegrityError             // a database constraint (primary/foreign key) rejects a statement
    | DatabaseError              // any other database failure (connection, I/O)
    | UnboundLocalError(name: string)

  datatype ArtistObj = ArtistObj(id: string, name: string)

  datatype AlbumObj = AlbumObj(id: string, name: string, totalTracks: int, releaseDate: string)

  datatype TrackObj = TrackObj(
    id: string, name: string, artists: seq<ArtistObj>, album: AlbumObj,
    durationMs: int, trackNumber: int)

  /** The optional `context` member of a play: absent, JSON null, or an object whose `type`/`uri` may be missing. */
  datatype ContextField = NoContext | NullContext | ContextObj(kind: Option<string>, uri: Option<string>)

  /**
   * One element of a page's `items`. `track == None` stands for a track object that lacks a
   * member parse_track reads (or is null), which makes parse_track raise.
   * `playedAt` is the play time in whole seconds.
   */
  datatype Item = Item(track: Option<TrackObj>, playedAt: int, context: ContextField)

  /** A reply of the "recently played" endpoint: status code, optional `next` cursor, `items`. */
  datatype Response = Response(status: int, next: Option<string>, items: seq<Item>)

  /** A token-endpoint reply; `refreshToken == None` when the reply has no `refresh_token` member. */
  datatype TokenResponse = TokenResponse(accessToken: string, refreshToken: Option<string>, expiresIn: int)

  /** The page server: what a GET of `url` with bearer token `access` answers. */
  type Server = (string, string) -> Response

  /**
   * The token endpoint's refresh grant for the given refresh token (None when the caller
   * holds none): a reply, or the HTTP error raise_for_status raises.
   */
  type TokenEndpoint = Option<string> -> Result<TokenResponse, Error>
}
