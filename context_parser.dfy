/**
 * The shared parse_track: the list-valued record of the refresh-token fetcher plus the
 * play's `context` type and URI, read with `item.get("context", {}).get(...)`.
 */
module ContextParser {
  import opened Wrappers
  import opened Api
  import RecentParse
  import RefreshFlow

  /** The parsed record: thirteen fields, whatever the input. */
  datatype Play = Play(
    artist: seq<string>, artistId: seq<string>, track: string, trackId: string,
    album: string, albumId: string, totalTracks: int, durationMs: int, playedAt: int,
    contextType: Option<string>, contextUri: Option<string>,
    trackNumber: int, releaseDate: string)

  /**
   * `item.get("context", {}).get("type")` and `.get("uri")`: a missing `context` reads as
   * an empty object; a JSON null has no `.get` and raises AttributeError.
   */
  function ContextFields(c: ContextField): (r: Result<(Option<string>, Option<string>), Error>)
    ensures r.Failure? <==> c.NullContext?
    ensures r.Failure? ==> r.error == AttributeError
    ensures c.NoContext? ==> r == Success((None, None))
    ensures c.ContextObj? ==> r == Success((c.kind, c.uri))
  {
    match c
    case NoContext => Success((None, None))
    case NullContext => Failure(AttributeError)
    case ContextObj(kind, uri) => Success((kind, uri))
  }

  /** parse_track with the context fields. */
  function ParseTrack(item: Item): (r: Result<Play, Error>)
    ensures r.Success? <==> item.track.Some? && !item.context.NullContext?
    ensures item.track.None? ==> r == Failure(KeyError("track"))
    ensures item.track.Some? && item.context.NullContext? ==> r == Failure(AttributeError)
    ensures r.Success? ==>
              && r.value.trackId == item.track.value.id
              && r.value.albumId == item.track.value.album.id
              && r.value.playedAt == item.playedAt
              && r.value.contextType == ContextFields(item.context).value.0
              && r.value.contextUri == ContextFields(item.context).value.1
  {
    match item.track
    case None => Failure(KeyError("track"))
    case Some(t) =>
      match ContextFields(item.context)
      case Failure(e) => Failure(e)
      case Success(ctx) =>
        Success(Play(
          RecentParse.Names(t.artists), RecentParse.Ids(t.artists), t.name, t.id,
          t.album.name, t.album.id, t.album.totalTracks, t.durationMs, item.playedAt,
          ctx.0, ctx.1, t.trackNumber, t.album.releaseDate))
  }

  /** The eleven fields the two list-valued parsers share. */
  function Common(p: Play): RefreshFlow.ListPlay {
    RefreshFlow.ListPlay(
      p.artist, p.artistId, p.track, p.trackId, p.album, p.albumId,
      p.totalTracks, p.durationMs, p.playedAt, p.trackNumber, p.releaseDate)
  }

  /**
   * This parser agrees with the refresh-token fetcher's parse_track on every field that
   * one has, and fails in addition only on a null `context`; an item without a `context`
   * parses with both context fields None.
   */
  lemma AgreesWithListParser(item: Item)
    ensures ParseTrack(item).Success? ==> RefreshFlow.ParseTrackList(item).Success?
                                           && Common(ParseTrack(item).value) == RefreshFlow.ParseTrackList(item).value
    ensures RefreshFlow.ParseTrackList(item).Success? && !item.context.NullContext? ==> ParseTrack(item).Success?
    ensures item.track.Some? && item.context.NoContext? ==>
              ParseTrack(item).Success? && ParseTrack(item).value.contextType.None? && ParseTrack(item).value.contextUri.None?
  {
  }
}
