/**
 * parse_track of the recently-played client: one play of a page becomes one flat record,
 * with the track's artist names and ids each joined with ", " in the track's artist order.
 * split_df later splits those strings on "," and strips the pieces, which gives the lists
 * back.
 */
module RecentParse {
  import opened Wrappers
  import opened Text
  import opened Api
  import opened Rows
  import Normalizer

  /** `[a["name"] for a in t["artists"]]` */
  function Names(artists: seq<ArtistObj>): (r: seq<string>)
    ensures |r| == |artists| && forall i :: 0 <= i < |artists| ==> r[i] == artists[i].name
  {
    seq(|artists|, i requires 0 <= i < |artists| => artists[i].name)
  }

  /** `[a["id"] for a in t["artists"]]` */
  function Ids(artists: seq<ArtistObj>): (r: seq<string>)
    ensures |r| == |artists| && forall i :: 0 <= i < |artists| ==> r[i] == artists[i].id
  {
    seq(|artists|, i requires 0 <= i < |artists| => artists[i].id)
  }

  /**
   * parse_track: every field copied from its path in the play object; a track object that
   * lacks a member raises KeyError.
   */
  function ParseTrack(item: Item): (r: Result<PlayRow, Error>)
    ensures r.Failure? <==> item.track.None?
    ensures r.Failure? ==> r.error == KeyError("track")
    ensures r.Success? ==>
              var t := item.track.value;
              && r.value.trackId == t.id && r.value.track == t.name
              && r.value.albumId == t.album.id && r.value.album == t.album.name
              && r.value.totalTracks == t.album.totalTracks && r.value.releaseDate == t.album.releaseDate
              && r.value.durationMs == t.durationMs && r.value.trackNumber == t.trackNumber
              && r.value.playedAt == item.playedAt
  {
    match item.track
    case None => Failure(KeyError("track"))
    case Some(t) =>
      Success(PlayRow(
        Join(Names(t.artists), ", "), Join(Ids(t.artists), ", "), t.name, t.id,
        t.album.name, t.album.id, t.album.totalTracks, t.durationMs,
        item.playedAt, t.trackNumber, t.album.releaseDate))
  }

  /** An artist whose id and name split_df gets back intact: non-empty, no comma, no edge whitespace. */
  predicate PlainArtist(a: ArtistObj) {
    Normalizer.Plain(a.id) && Normalizer.Plain(a.name)
  }

  /**
   * Round trip: for a track with at least one artist and plain ids and names, split_df's
   * split-and-strip of the parsed record gives back the track's id and name lists, so the
   * two lists line up and no non-blank id lacks its name.
   */
  lemma ParseThenSplitRecoversArtists(item: Item)
    requires item.track.Some? && |item.track.value.artists| >= 1
    requires forall i :: 0 <= i < |item.track.value.artists| ==> PlainArtist(item.track.value.artists[i])
    ensures Normalizer.ArtistIds(ParseTrack(item).value) == Ids(item.track.value.artists)
    ensures Normalizer.ArtistNames(ParseTrack(item).value) == Names(item.track.value.artists)
    ensures Normalizer.CountsMatch([ParseTrack(item).value])
    ensures Normalizer.NamesPresent([ParseTrack(item).value])
  {
    var artists := item.track.value.artists;
    var row := ParseTrack(item).value;
    var ids, names := Ids(artists), Names(artists);
    assert row.artistId == Join(ids, ", ") && row.artist == Join(names, ", ");
    PlainPieces(artists);
    JoinSplitStripRoundTrip(ids);
    JoinSplitStripRoundTrip(names);
    OneRowPairs(row, names);
  }

  /** Plain artists give ids and names that a split-and-strip does not alter. */
  lemma PlainPieces(artists: seq<ArtistObj>)
    requires forall i :: 0 <= i < |artists| ==> PlainArtist(artists[i])
    ensures forall i :: 0 <= i < |artists| ==> ',' !in Ids(artists)[i] && NoEdgeSpace(Ids(artists)[i])
    ensures forall i :: 0 <= i < |artists| ==> ',' !in Names(artists)[i] && NoEdgeSpace(Names(artists)[i])
    ensures forall i :: 0 <= i < |artists| ==> Names(artists)[i] != ""
  {
  }

  /** A row whose two lists are equally long and whose names are all non-blank passes both checks. */
  lemma OneRowPairs(row: PlayRow, names: seq<string>)
    requires Normalizer.ArtistNames(row) == names && |Normalizer.ArtistIds(row)| == |names|
    requires forall i :: 0 <= i < |names| ==> names[i] != ""
    ensures Normalizer.CountsMatch([row]) && Normalizer.NamesPresent([row])
  {
    assert [row][0] == row;
  }

  /** A track with no artists parses to empty artist strings, which split into one blank piece. */
  lemma NoArtistsGivesOneBlank(item: Item)
    requires item.track.Some? && |item.track.value.artists| == 0
    ensures Normalizer.ArtistIds(ParseTrack(item).value) == [""]
    ensures Normalizer.ArtistNames(ParseTrack(item).value) == [""]
  {
    var row := ParseTrack(item).value;
    assert row.artistId == "" && row.artist == "";
    StripKeeps("");
  }

  /**
   * `pd.DataFrame(parse_track(x) for x in batch)`: one record per play, in page order; the
   * first play that fails to parse raises.
   */
  function ParseBatch(batch: seq<Item>): (r: Result<seq<PlayRow>, Error>)
    ensures r.Success? <==> forall i :: 0 <= i < |batch| ==> batch[i].track.Some?
    ensures r.Success? ==> |r.value| == |batch| && forall i :: 0 <= i < |batch| ==> Success(r.value[i]) == ParseTrack(batch[i])
    ensures r.Failure? ==> r.error == KeyError("track")
  {
    if |batch| == 0 then Success([])
    else
      match ParseTrack(batch[0])
      case Failure(e) => Failure(e)
      case Success(row) =>
        match ParseBatch(batch[1..])
        case Failure(e) => Failure(e)
        case Success(rest) =>
          assert forall i :: 1 <= i < |batch| ==> batch[i] == batch[1..][i - 1];
          Success([row] + rest)
  }
}
