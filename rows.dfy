/**
 * The tabular records of the engine: the flat play record produced by parse_track, the
 * five entity rows written to the database, and each table's natural key.
 */
module Rows {

  /**
   * A flat play record (one DataFrame row). `artist` and `artistId` are the comma-joined
   * name and id lists; `playedAt` is in whole seconds.
   */
  datatype PlayRow = PlayRow(
    artist: string, artistId: string, track: string, trackId: string,
    album: string, albumId: string, totalTracks: int, durationMs: int,
    playedAt: int, trackNumber: int, releaseDate: string)

  datatype LogRow = LogRow(trackId: string, playedAt: int)

  datatype TrackRow = TrackRow(id: string, track: string, albumId: string, durationMs: int, trackNumber: int)

  datatype AlbumRow = AlbumRow(id: string, album: string, totalTracks: int, releaseDate: string)

  datatype ArtistRow = ArtistRow(id: string, artist: string)

  datatype TrackArtistRow = TrackArtistRow(trackId: string, artistId: string, artistOrder: nat)

  /** The five entity batches split_df returns. */
  datatype Tables = Tables(
    logs: seq<LogRow>, tracks: seq<TrackRow>, albums: seq<AlbumRow>,
    artists: seq<ArtistRow>, trackArtists: seq<TrackArtistRow>)

  // Natural keys: the primary key or unique constraint of each table.

  function AlbumKey(a: AlbumRow): string { a.id }

  function ArtistKey(a: ArtistRow): string { a.id }

  function TrackKey(t: TrackRow): string { t.id }

  function TrackArtistKey(t: TrackArtistRow): (string, string) { (t.trackId, t.artistId) }

  function LogKey(l: LogRow): (string, int) { (l.trackId, l.playedAt) }
}
