/**
 * split_df: the decomposition of a batch of flat play records into the five entity
 * batches (logs, tracks, albums, artists, track_artists) with each batch's own
 * projection and de-duplication rule.
 */
module Normalizer {
  import opened Wrappers
  import opened Text
  import opened Seqs
  import opened Api
  import opened Rows

  function LogOf(r: PlayRow): LogRow { LogRow(r.trackId, r.playedAt) }

  function TrackOf(r: PlayRow): TrackRow { TrackRow(r.trackId, r.track, r.albumId, r.durationMs, r.trackNumber) }

  function AlbumOf(r: PlayRow): AlbumRow { AlbumRow(r.albumId, r.album, r.totalTracks, r.releaseDate) }

  function TrackIdOf(r: PlayRow): string { r.trackId }

  function AlbumIdOf(r: PlayRow): string { r.albumId }

  function LogTrackId(l: LogRow): string { l.trackId }

  function PairKey(p: (string, string)): (string, string) { p }

  /** The logs batch: one (track_id, played_at) row per play, in input order, duplicates kept. */
  function Logs(rows: seq<PlayRow>): (r: seq<LogRow>)
    ensures |r| == |rows|
    ensures forall i :: 0 <= i < |rows| ==> r[i].trackId == rows[i].trackId && r[i].playedAt == rows[i].playedAt
  {
    Map(rows, LogOf)
  }

  /** The tracks batch: the track columns, `track_id` renamed `id`, first row per id kept. */
  function Tracks(rows: seq<PlayRow>): seq<TrackRow> {
    DropDuplicates(Map(rows, TrackOf), TrackKey)
  }

  /** The albums batch: the album columns, `album_id` renamed `id`, first row per id kept. */
  function Albums(rows: seq<PlayRow>): seq<AlbumRow> {
    DropDuplicates(Map(rows, AlbumOf), AlbumKey)
  }

  /** `s.split(",")` followed by stripping every piece. */
  function SplitStrip(s: string): (r: seq<string>)
    ensures |r| >= 1
  {
    StripAll(Split(s, ','))
  }

  function ArtistIds(r: PlayRow): seq<string> { SplitStrip(r.artistId) }

  function ArtistNames(r: PlayRow): seq<string> { SplitStrip(r.artist) }

  /** Exploding `id` and `artist` together needs equally long lists in every row. */
  predicate CountsMatch(rows: seq<PlayRow>) {
    forall i :: 0 <= i < |rows| ==> |ArtistIds(rows[i])| == |ArtistNames(rows[i])|
  }

  /** The (id, name) rows one play explodes into, paired by position. */
  function ArtistPairs(r: PlayRow): (a: seq<ArtistRow>)
    requires |ArtistIds(r)| == |ArtistNames(r)|
    ensures |a| == |ArtistIds(r)|
    ensures forall p :: 0 <= p < |a| ==> a[p] == ArtistRow(ArtistIds(r)[p], ArtistNames(r)[p])
  {
    var ids, names := ArtistIds(r), ArtistNames(r);
    seq(|ids|, p requires 0 <= p < |ids| => ArtistRow(ids[p], names[p]))
  }

  function ExplodeArtists(rows: seq<PlayRow>): seq<ArtistRow>
    requires CountsMatch(rows)
  {
    Flatten(seq(|rows|, i requires 0 <= i < |rows| => ArtistPairs(rows[i])))
  }

  /** Neither the id nor the name is the empty string (pandas `astype(bool)` on str). */
  predicate NonBlank(a: ArtistRow) { a.id != "" && a.artist != "" }

  function NonBlankArtists(rows: seq<PlayRow>): seq<ArtistRow>
    requires CountsMatch(rows)
  {
    Filter(ExplodeArtists(rows), NonBlank)
  }

  /**
   * The artists batch: ids and names split on "," and stripped, exploded together, blank
   * ids and blank names dropped, first row per id kept. pandas raises ValueError when a
   * row's two lists differ in length.
   */
  function Artists(rows: seq<PlayRow>): (r: Result<seq<ArtistRow>, Error>)
    ensures r.Success? <==> CountsMatch(rows)
    ensures r.Failure? ==> r.error == ValueError
  {
    if !CountsMatch(rows) then Failure(ValueError)
    else Success(DropDuplicates(NonBlankArtists(rows), ArtistKey))
  }

  /** The (track_id, artist_id) pairs one play explodes into. */
  function ArtistIdPairs(r: PlayRow): (ps: seq<(string, string)>)
    ensures |ps| == |ArtistIds(r)|
    ensures forall p :: 0 <= p < |ps| ==> ps[p] == (r.trackId, ArtistIds(r)[p])
  {
    var ids := ArtistIds(r);
    seq(|ids|, p requires 0 <= p < |ids| => (r.trackId, ids[p]))
  }

  function NonBlankArtistId(p: (string, string)): bool { p.1 != "" }

  /** Exploded pairs, blank artist ids dropped, duplicate pairs dropped (first kept). */
  function TrackArtistPairs(rows: seq<PlayRow>): seq<(string, string)> {
    DropDuplicates(KeptIdPairs(rows), PairKey)
  }

  /** How many of `pairs` belong to track `t`. */
  function CountTrack(pairs: seq<(string, string)>, t: string): nat {
    if |pairs| == 0 then 0
    else CountTrack(pairs[..|pairs| - 1], t) + (if pairs[|pairs| - 1].0 == t then 1 else 0)
  }

  /**
   * `groupby("track_id").cumcount() + 1`: every pair is numbered by how many earlier
   * pairs share its track, plus one.
   */
  function CumCount(pairs: seq<(string, string)>): (r: seq<TrackArtistRow>)
    ensures |r| == |pairs|
    ensures forall i :: 0 <= i < |pairs| ==> r[i].trackId == pairs[i].0 && r[i].artistId == pairs[i].1
  {
    if |pairs| == 0 then []
    else
      var init, last := pairs[..|pairs| - 1], pairs[|pairs| - 1];
      CumCount(init) + [TrackArtistRow(last.0, last.1, 1 + CountTrack(init, last.0))]
  }

  /** The track_artists batch. */
  function TrackArtists(rows: seq<PlayRow>): seq<TrackArtistRow> {
    CumCount(TrackArtistPairs(rows))
  }

  /** split_df: the five batches, or the ValueError the artists explode raises. */
  function SplitDf(rows: seq<PlayRow>): (r: Result<Tables, Error>)
    ensures r.Success? <==> CountsMatch(rows)
    ensures r.Failure? ==> r.error == ValueError
  {
    match Artists(rows)
    case Failure(e) => Failure(e)
    case Success(artists) =>
      Success(Tables(Logs(rows), Tracks(rows), Albums(rows), artists, TrackArtists(rows)))
  }

  // ---------------------------------------------------------------------------------
  // Properties of the batches

  /**
   * tracks: exactly one row per distinct track id of the input; each row is the
   * projection of the first play of that track; rows are in order of first play.
   */
  lemma TracksFirstPerId(rows: seq<PlayRow>)
    ensures DistinctKeys(Tracks(rows), TrackKey)
    ensures KeySet(Tracks(rows), TrackKey) == KeySet(rows, TrackIdOf)
    ensures forall i :: 0 <= i < |Tracks(rows)| ==>
      Tracks(rows)[i].id in KeySet(rows, TrackIdOf)
      && Tracks(rows)[i] == TrackOf(rows[IndexOfKey(rows, TrackIdOf, Tracks(rows)[i].id)])
    ensures forall i, j :: 0 <= i < j < |Tracks(rows)| ==>
      IndexOfKey(rows, TrackIdOf, Tracks(rows)[i].id) < IndexOfKey(rows, TrackIdOf, Tracks(rows)[j].id)
  {
    var m := Map(rows, TrackOf);
    KeysOfMap(rows, TrackOf, TrackKey, TrackIdOf);
    DropSeenKeepsFirst(m, TrackKey, {});
  }

  /** albums: the same rule as tracks, keyed by album id. */
  lemma AlbumsFirstPerId(rows: seq<PlayRow>)
    ensures DistinctKeys(Albums(rows), AlbumKey)
    ensures KeySet(Albums(rows), AlbumKey) == KeySet(rows, AlbumIdOf)
    ensures forall i :: 0 <= i < |Albums(rows)| ==>
      Albums(rows)[i].id in KeySet(rows, AlbumIdOf)
      && Albums(rows)[i] == AlbumOf(rows[IndexOfKey(rows, AlbumIdOf, Albums(rows)[i].id)])
    ensures forall i, j :: 0 <= i < j < |Albums(rows)| ==>
      IndexOfKey(rows, AlbumIdOf, Albums(rows)[i].id) < IndexOfKey(rows, AlbumIdOf, Albums(rows)[j].id)
  {
    var m := Map(rows, AlbumOf);
    KeysOfMap(rows, AlbumOf, AlbumKey, AlbumIdOf);
    DropSeenKeepsFirst(m, AlbumKey, {});
  }

  /** The ids in tracks are exactly the track ids in logs; every track's album is in albums. */
  lemma TablesReferToEachOther(rows: seq<PlayRow>)
    ensures KeySet(Tracks(rows), TrackKey) == KeySet(Logs(rows), LogTrackId)
    ensures forall i :: 0 <= i < |Tracks(rows)| ==> Tracks(rows)[i].albumId in KeySet(Albums(rows), AlbumKey)
  {
    TracksFirstPerId(rows);
    AlbumsFirstPerId(rows);
    KeysOfMap(rows, LogOf, LogTrackId, TrackIdOf);
    forall i | 0 <= i < |Tracks(rows)| ensures Tracks(rows)[i].albumId in KeySet(Albums(rows), AlbumKey) {
      var j := IndexOfKey(rows, TrackIdOf, Tracks(rows)[i].id);
      assert AlbumIdOf(rows[j]) in KeySet(rows, AlbumIdOf);
    }
  }

  lemma {:induction false} InExplodeArtists(rows: seq<PlayRow>, a: ArtistRow)
    requires CountsMatch(rows)
    ensures a in ExplodeArtists(rows) <==> exists i :: 0 <= i < |rows| && a in ArtistPairs(rows[i])
  {
    var parts := seq(|rows|, i requires 0 <= i < |rows| => ArtistPairs(rows[i]));
    assert ExplodeArtists(rows) == Flatten(parts);
    InFlatten(parts, a);
    assert forall i :: 0 <= i < |rows| ==> parts[i] == ArtistPairs(rows[i]);
  }

  /** Position `p` of play `i` pairs the split id `id` with the split name `name`. */
  predicate PairedAt(rows: seq<PlayRow>, i: int, p: int, id: string, name: string) {
    0 <= i < |rows| && 0 <= p < |ArtistIds(rows[i])| && p < |ArtistNames(rows[i])|
    && ArtistIds(rows[i])[p] == id && ArtistNames(rows[i])[p] == name
  }

  lemma KeptArtistIsPaired(rows: seq<PlayRow>, a: ArtistRow)
    requires CountsMatch(rows)
    requires a in NonBlankArtists(rows)
    ensures NonBlank(a)
    ensures exists i, p :: PairedAt(rows, i, p, a.id, a.artist)
  {
    InExplodeArtists(rows, a);
    var i :| 0 <= i < |rows| && a in ArtistPairs(rows[i]);
    var p :| 0 <= p < |ArtistPairs(rows[i])| && ArtistPairs(rows[i])[p] == a;
    assert PairedAt(rows, i, p, a.id, a.artist);
  }

  /** artists, soundness: every row is a non-blank (id, name) pair found at one position of one play. */
  lemma ArtistsSound(rows: seq<PlayRow>)
    requires CountsMatch(rows)
    ensures forall k :: 0 <= k < |Artists(rows).value| ==>
              NonBlank(Artists(rows).value[k])
              && exists i, p :: PairedAt(rows, i, p, Artists(rows).value[k].id, Artists(rows).value[k].artist)
  {
    var kept := NonBlankArtists(rows);
    var a := Artists(rows).value;
    forall k | 0 <= k < |a|
      ensures a[k] in kept
    {
      ArtistsFirstPerId(rows);
    }
    forall k | 0 <= k < |a|
      ensures NonBlank(a[k]) && exists i, p :: PairedAt(rows, i, p, a[k].id, a[k].artist)
    {
      KeptArtistIsPaired(rows, a[k]);
    }
  }

  lemma PairedArtistIsKept(rows: seq<PlayRow>, i: int, p: int)
    requires CountsMatch(rows)
    requires 0 <= i < |rows| && 0 <= p < |ArtistIds(rows[i])|
    requires ArtistIds(rows[i])[p] != "" && ArtistNames(rows[i])[p] != ""
    ensures ArtistIds(rows[i])[p] in KeySet(NonBlankArtists(rows), ArtistKey)
  {
    var x := ArtistRow(ArtistIds(rows[i])[p], ArtistNames(rows[i])[p]);
    assert x == ArtistPairs(rows[i])[p];
    InExplodeArtists(rows, x);
    var kept := NonBlankArtists(rows);
    assert x in kept;
    var n :| 0 <= n < |kept| && kept[n] == x;
    assert ArtistKey(kept[n]) in KeySet(kept, ArtistKey);
  }

  /** artists, completeness: the id of every non-blank positional pair of every play is present. */
  lemma ArtistsComplete(rows: seq<PlayRow>)
    requires CountsMatch(rows)
    ensures forall i, p :: 0 <= i < |rows| && 0 <= p < |ArtistIds(rows[i])|
                           && ArtistIds(rows[i])[p] != "" && ArtistNames(rows[i])[p] != ""
                           ==> ArtistIds(rows[i])[p] in KeySet(Artists(rows).value, ArtistKey)
  {
    var kept := NonBlankArtists(rows);
    DropSeenKeepsFirst(kept, ArtistKey, {});
    forall i, p | 0 <= i < |rows| && 0 <= p < |ArtistIds(rows[i])|
                  && ArtistIds(rows[i])[p] != "" && ArtistNames(rows[i])[p] != ""
      ensures ArtistIds(rows[i])[p] in KeySet(Artists(rows).value, ArtistKey)
    {
      PairedArtistIsKept(rows, i, p);
    }
  }

  /**
   * artists, de-duplication: ids are distinct and each row is the first non-blank pair
   * with its id, in order of first occurrence.
   */
  lemma ArtistsFirstPerId(rows: seq<PlayRow>)
    requires CountsMatch(rows)
    ensures DistinctKeys(Artists(rows).value, ArtistKey)
    ensures forall k :: 0 <= k < |Artists(rows).value| ==>
              Artists(rows).value[k].id in KeySet(NonBlankArtists(rows), ArtistKey)
              && Artists(rows).value[k]
                 == NonBlankArtists(rows)[IndexOfKey(NonBlankArtists(rows), ArtistKey, Artists(rows).value[k].id)]
    ensures forall k, l :: 0 <= k < l < |Artists(rows).value| ==>
              IndexOfKey(NonBlankArtists(rows), ArtistKey, Artists(rows).value[k].id)
              < IndexOfKey(NonBlankArtists(rows), ArtistKey, Artists(rows).value[l].id)
  {
    DropSeenKeepsFirst(NonBlankArtists(rows), ArtistKey, {});
  }

  lemma {:induction false} InExplodedIdPairs(rows: seq<PlayRow>, x: (string, string))
    ensures x in Flatten(Map(rows, ArtistIdPairs)) <==>
            exists i, p :: 0 <= i < |rows| && 0 <= p < |ArtistIds(rows[i])| && x == (rows[i].trackId, ArtistIds(rows[i])[p])
  {
    var parts := Map(rows, ArtistIdPairs);
    InFlatten(parts, x);
    if x in Flatten(parts) {
      var i :| 0 <= i < |parts| && x in parts[i];
      var p :| 0 <= p < |parts[i]| && parts[i][p] == x;
    }
    if exists i, p :: 0 <= i < |rows| && 0 <= p < |ArtistIds(rows[i])| && x == (rows[i].trackId, ArtistIds(rows[i])[p]) {
      var i, p :| 0 <= i < |rows| && 0 <= p < |ArtistIds(rows[i])| && x == (rows[i].trackId, ArtistIds(rows[i])[p]);
      assert parts[i][p] == x;
    }
  }

  /** The (track, artist) pairs kept after dropping blank artist ids, before de-duplication. */
  function KeptIdPairs(rows: seq<PlayRow>): seq<(string, string)> {
    Filter(Flatten(Map(rows, ArtistIdPairs)), NonBlankArtistId)
  }

  /** The key of every track_artists row is the pair it was numbered from. */
  lemma TrackArtistsKeys(rows: seq<PlayRow>)
    ensures DistinctKeys(TrackArtists(rows), TrackArtistKey)
    ensures KeySet(TrackArtists(rows), TrackArtistKey) == KeySet(KeptIdPairs(rows), PairKey)
  {
    var pairs := TrackArtistPairs(rows);
    var ta := TrackArtists(rows);
    assert forall k :: 0 <= k < |ta| ==> TrackArtistKey(ta[k]) == pairs[k];
    assert KeySet(ta, TrackArtistKey) == KeySet(pairs, PairKey);
  }

  /** track_artists, soundness: no blank artist id, and every pair comes from one play's split id list. */
  lemma TrackArtistsSound(rows: seq<PlayRow>)
    ensures forall k :: 0 <= k < |TrackArtists(rows)| ==>
              TrackArtists(rows)[k].artistId != ""
              && exists i, p :: 0 <= i < |rows| && 0 <= p < |ArtistIds(rows[i])|
                                && rows[i].trackId == TrackArtists(rows)[k].trackId
                                && ArtistIds(rows[i])[p] == TrackArtists(rows)[k].artistId
  {
    TrackArtistsKeys(rows);
    var kept := KeptIdPairs(rows);
    var ta := TrackArtists(rows);
    forall k | 0 <= k < |ta|
      ensures ta[k].artistId != ""
      ensures exists i, p :: 0 <= i < |rows| && 0 <= p < |ArtistIds(rows[i])|
                             && rows[i].trackId == ta[k].trackId && ArtistIds(rows[i])[p] == ta[k].artistId
    {
      var x := TrackArtistKey(ta[k]);
      assert x in KeySet(ta, TrackArtistKey);
      var n :| 0 <= n < |kept| && PairKey(kept[n]) == x;
      InExplodedIdPairs(rows, x);
    }
  }

  /** track_artists, completeness: every non-blank split id of every play is paired with that play's track. */
  lemma TrackArtistsComplete(rows: seq<PlayRow>)
    ensures forall i, p :: 0 <= i < |rows| && 0 <= p < |ArtistIds(rows[i])| && ArtistIds(rows[i])[p] != ""
                           ==> (rows[i].trackId, ArtistIds(rows[i])[p]) in KeySet(TrackArtists(rows), TrackArtistKey)
  {
    TrackArtistsKeys(rows);
    var kept := KeptIdPairs(rows);
    forall i, p | 0 <= i < |rows| && 0 <= p < |ArtistIds(rows[i])| && ArtistIds(rows[i])[p] != ""
      ensures (rows[i].trackId, ArtistIds(rows[i])[p]) in KeySet(kept, PairKey)
    {
      var x := (rows[i].trackId, ArtistIds(rows[i])[p]);
      InExplodedIdPairs(rows, x);
      assert x in kept;
      var m :| 0 <= m < |kept| && kept[m] == x;
      assert PairKey(kept[m]) in KeySet(kept, PairKey);
    }
  }

  /** The artist orders of the rows of track `t`, in batch order. */
  function OrdersOf(r: seq<TrackArtistRow>, t: string): seq<nat> {
    if |r| == 0 then []
    else OrdersOf(r[..|r| - 1], t) + (if r[|r| - 1].trackId == t then [r[|r| - 1].artistOrder] else [])
  }

  /** 1, 2, ..., n */
  function OneTo(n: nat): (r: seq<nat>)
    ensures |r| == n
    ensures forall i :: 0 <= i < n ==> r[i] == i + 1
  {
    seq(n, i requires 0 <= i < n => i + 1)
  }

  /** Within every track, the cumulative count numbers its pairs 1, 2, ..., n in batch order. */
  lemma {:induction false} CumCountNumbersEachTrack(pairs: seq<(string, string)>, t: string)
    ensures OrdersOf(CumCount(pairs), t) == OneTo(CountTrack(pairs, t))
  {
    if |pairs| > 0 {
      var init, last := pairs[..|pairs| - 1], pairs[|pairs| - 1];
      var r := CumCount(pairs);
      var row := TrackArtistRow(last.0, last.1, 1 + CountTrack(init, last.0));
      assert r == CumCount(init) + [row];
      assert r[..|r| - 1] == CumCount(init) && r[|r| - 1] == row;
      CumCountNumbersEachTrack(init, t);
      if last.0 == t {
        OneToSnoc(CountTrack(init, t));
      }
    }
  }

  lemma OneToSnoc(n: nat)
    ensures OneTo(n) + [n + 1] == OneTo(n + 1)
  {
  }

  /**
   * track_artists numbering: for every track, `artist_order` runs 1..n over that track's
   * rows, and those rows stand in the order in which their (track, artist) pairs first
   * occur in the exploded, blank-free input.
   */
  lemma TrackArtistsOrder(rows: seq<PlayRow>, t: string)
    ensures OrdersOf(TrackArtists(rows), t) == OneTo(CountTrack(TrackArtistPairs(rows), t))
    ensures forall i, j :: 0 <= i < j < |TrackArtists(rows)| ==>
              TrackArtistKey(TrackArtists(rows)[i]) in KeySet(KeptIdPairs(rows), PairKey)
              && TrackArtistKey(TrackArtists(rows)[j]) in KeySet(KeptIdPairs(rows), PairKey)
              && IndexOfKey(KeptIdPairs(rows), PairKey, TrackArtistKey(TrackArtists(rows)[i]))
                 < IndexOfKey(KeptIdPairs(rows), PairKey, TrackArtistKey(TrackArtists(rows)[j]))
  {
    CumCountNumbersEachTrack(TrackArtistPairs(rows), t);
    var kept := KeptIdPairs(rows);
    var pairs := TrackArtistPairs(rows);
    DropSeenKeepsFirst(kept, PairKey, {});
    var ta := TrackArtists(rows);
    forall i | 0 <= i < |ta| ensures TrackArtistKey(ta[i]) == pairs[i] && pairs[i] in KeySet(kept, PairKey) {
      assert PairKey(pairs[i]) in KeySet(pairs, PairKey);
    }
  }

  /** Every track of track_artists is in the tracks batch. */
  lemma TrackArtistsReferToTracks(rows: seq<PlayRow>)
    ensures forall k :: 0 <= k < |TrackArtists(rows)| ==> TrackArtists(rows)[k].trackId in KeySet(Tracks(rows), TrackKey)
  {
    TrackArtistsSound(rows);
    TracksFirstPerId(rows);
    forall k | 0 <= k < |TrackArtists(rows)| ensures TrackArtists(rows)[k].trackId in KeySet(rows, TrackIdOf) {
      var i, p :| 0 <= i < |rows| && 0 <= p < |ArtistIds(rows[i])|
          && rows[i].trackId == TrackArtists(rows)[k].trackId
          && ArtistIds(rows[i])[p] == TrackArtists(rows)[k].artistId;
      assert TrackIdOf(rows[i]) in KeySet(rows, TrackIdOf);
    }
  }

  /** Every position whose split id is non-blank also has a non-blank split name. */
  predicate NamesPresent(rows: seq<PlayRow>)
    requires CountsMatch(rows)
  {
    forall i, p :: 0 <= i < |rows| && 0 <= p < |ArtistIds(rows[i])| && ArtistIds(rows[i])[p] != ""
      ==> ArtistNames(rows[i])[p] != ""
  }

  /**
   * Every artist of track_artists is in the artists batch, provided no non-blank id is
   * paired with a blank name (artists drops such pairs, track_artists keeps them).
   */
  lemma TrackArtistsReferToArtists(rows: seq<PlayRow>)
    requires CountsMatch(rows) && NamesPresent(rows)
    ensures forall k :: 0 <= k < |TrackArtists(rows)| ==> TrackArtists(rows)[k].artistId in KeySet(Artists(rows).value, ArtistKey)
  {
    TrackArtistsSound(rows);
    ArtistsComplete(rows);
  }

  // ---------------------------------------------------------------------------------
  // Worked examples

  /** The pieces of an "A, B"-style joined list. */
  lemma SplitStripTwo(x: string, y: string)
    requires ',' !in x && ',' !in y && NoEdgeSpace(x) && NoEdgeSpace(y) && |x| > 0 && |y| > 0
    ensures SplitStrip(x + ", " + y) == [x, y]
  {
    assert Join([x, y], ", ") == x + ", " + y;
    JoinSplitStripRoundTrip([x, y]);
  }

  /** A plain artist name or id: non-empty, no comma, no edge whitespace. */
  predicate Plain(s: string) { |s| > 0 && ',' !in s && NoEdgeSpace(s) }

  /**
   * One play by two artists with distinct ids, names and ids joined with ", ": track_artists
   * holds exactly (track, first id, order 1) and (track, second id, order 2), and artists
   * one row for each id.
   */
  lemma TwoArtistPlay(row: PlayRow, n1: string, n2: string, i1: string, i2: string)
    requires Plain(n1) && Plain(n2) && Plain(i1) && Plain(i2) && i1 != i2
    requires row.artist == n1 + ", " + n2 && row.artistId == i1 + ", " + i2
    ensures TrackArtists([row]) == [TrackArtistRow(row.trackId, i1, 1), TrackArtistRow(row.trackId, i2, 2)]
    ensures Artists([row]) == Success([ArtistRow(i1, n1), ArtistRow(i2, n2)])
  {
    SplitStripTwo(n1, n2);
    SplitStripTwo(i1, i2);
    TwoArtistPairs(row, i1, i2);
    TwoArtistRows(row, n1, n2, i1, i2);
  }

  lemma KeptIdPairsOfOne(row: PlayRow)
    requires forall p :: 0 <= p < |ArtistIds(row)| ==> ArtistIds(row)[p] != ""
    ensures KeptIdPairs([row]) == ArtistIdPairs(row)
  {
    var ps := ArtistIdPairs(row);
    var exploded := Map([row], ArtistIdPairs);
    assert exploded == [ps] + [];
    FlattenCons(ps, []);
    assert Flatten(exploded) == ps;
    FilterKeepsAll(ps, NonBlankArtistId);
  }

  lemma ExplodeArtistsOfOne(row: PlayRow)
    requires |ArtistIds(row)| == |ArtistNames(row)|
    ensures ExplodeArtists([row]) == ArtistPairs(row)
  {
    var parts := seq(1, i requires 0 <= i < 1 => ArtistPairs([row][i]));
    assert parts == [ArtistPairs(row)] + [];
    FlattenCons(ArtistPairs(row), []);
  }

  lemma NonBlankArtistsOfOne(row: PlayRow)
    requires |ArtistIds(row)| == |ArtistNames(row)|
    requires forall p :: 0 <= p < |ArtistIds(row)| ==> ArtistIds(row)[p] != "" && ArtistNames(row)[p] != ""
    ensures CountsMatch([row]) && NonBlankArtists([row]) == ArtistPairs(row)
  {
    assert CountsMatch([row]);
    ExplodeArtistsOfOne(row);
    FilterKeepsAll(ArtistPairs(row), NonBlank);
  }

  lemma TwoArtistPairs(row: PlayRow, i1: string, i2: string)
    requires ArtistIds(row) == [i1, i2] && i1 != i2 && i1 != "" && i2 != ""
    ensures TrackArtists([row]) == [TrackArtistRow(row.trackId, i1, 1), TrackArtistRow(row.trackId, i2, 2)]
  {
    var ps := [(row.trackId, i1), (row.trackId, i2)];
    TwoKeptIdPairs(row, i1, i2);
    DropSeenDistinct(ps, PairKey, {});
    assert TrackArtistPairs([row]) == ps;
    CumCountOfTwo(row.trackId, i1, i2);
  }

  lemma TwoKeptIdPairs(row: PlayRow, i1: string, i2: string)
    requires ArtistIds(row) == [i1, i2] && i1 != "" && i2 != ""
    ensures KeptIdPairs([row]) == [(row.trackId, i1), (row.trackId, i2)]
  {
    assert ArtistIdPairs(row) == [(row.trackId, i1), (row.trackId, i2)];
    KeptIdPairsOfOne(row);
  }

  lemma CumCountOfTwo(t: string, i1: string, i2: string)
    ensures CumCount([(t, i1), (t, i2)]) == [TrackArtistRow(t, i1, 1), TrackArtistRow(t, i2, 2)]
  {
    var ps := [(t, i1), (t, i2)];
    assert ps[..1] == [(t, i1)];
    assert |ps[..1][..0]| == 0;
    assert CountTrack(ps[..1], t) == 1;
    assert CumCount(ps[..1]) == [TrackArtistRow(t, i1, 1)];
  }

  lemma TwoArtistRows(row: PlayRow, n1: string, n2: string, i1: string, i2: string)
    requires ArtistIds(row) == [i1, i2] && ArtistNames(row) == [n1, n2]
    requires i1 != i2 && i1 != "" && i2 != "" && n1 != "" && n2 != ""
    ensures Artists([row]) == Success([ArtistRow(i1, n1), ArtistRow(i2, n2)])
  {
    var pairs := [ArtistRow(i1, n1), ArtistRow(i2, n2)];
    TwoNonBlankArtists(row, n1, n2, i1, i2);
    DropSeenDistinct(pairs, ArtistKey, {});
  }

  lemma TwoNonBlankArtists(row: PlayRow, n1: string, n2: string, i1: string, i2: string)
    requires ArtistIds(row) == [i1, i2] && ArtistNames(row) == [n1, n2]
    requires i1 != "" && i2 != "" && n1 != "" && n2 != ""
    ensures CountsMatch([row]) && NonBlankArtists([row]) == [ArtistRow(i1, n1), ArtistRow(i2, n2)]
  {
    assert ArtistPairs(row) == [ArtistRow(i1, n1), ArtistRow(i2, n2)];
    NonBlankArtistsOfOne(row);
  }

  /**
   * A play whose artist name itself contains a comma, credited to a single artist id,
   * splits into more names than ids, so the whole batch fails with ValueError.
   */
  lemma CommaInArtistNameFailsBatch(rows: seq<PlayRow>, k: int, before: string, after: string)
    requires 0 <= k < |rows|
    requires ',' !in rows[k].artistId && ',' !in before
    requires rows[k].artist == before + ", " + after
    ensures SplitDf(rows) == Failure(ValueError)
  {
    SplitWithoutSeparator(rows[k].artistId, ',');
    assert rows[k].artist == before + [','] + (" " + after);
    SplitAfterPiece(before, ',', " " + after);
    assert |ArtistNames(rows[k])| >= 2;
  }
}
