/**
 * The upsert writer: postgres_upsert's conflict-skipping insert, and insert_data_from_df,
 * which writes the five batches split_df produces in parent-before-child order and then
 * replaces the cache with the logs batch, all inside one transaction.
 */
module Store {
  import opened Wrappers
  import opened Seqs
  import opened Api
  import opened Rows
  import Normalizer
  import ChangeGate

  /** The five entity tables insert_data_from_df writes. */
  datatype TableName = Albums | Artists | Tracks | TrackArtists | Logs

  /** The order of the write loop: parents before the tables that reference them. */
  const WriteOrder: seq<TableName> := [Albums, Artists, Tracks, TrackArtists, Logs]

  /** The tables a table's foreign keys reference. */
  function Parents(name: TableName): set<TableName> {
    match name
    case Albums => {}
    case Artists => {}
    case Tracks => {Albums}
    case TrackArtists => {Tracks, Artists}
    case Logs => {Tracks}
  }

  /** Every table is written after every table it references. */
  lemma WriteOrderRespectsForeignKeys()
    ensures |WriteOrder| == 5
    ensures forall i, j :: 0 <= i < |WriteOrder| && 0 <= j < |WriteOrder| && WriteOrder[j] in Parents(WriteOrder[i]) ==> j < i
    ensures forall name: TableName :: name in WriteOrder
  {
    forall name: TableName ensures name in WriteOrder {
      match name
      case Albums => assert WriteOrder[0] == name;
      case Artists => assert WriteOrder[1] == name;
      case Tracks => assert WriteOrder[2] == name;
      case TrackArtists => assert WriteOrder[3] == name;
      case Logs => assert WriteOrder[4] == name;
    }
  }

  /**
   * `INSERT ... ON CONFLICT (key) DO NOTHING` of `rows` into a table held as a map from
   * its conflict key: a row whose key is already present is skipped, so an existing row is
   * never changed and, within the batch, the first row with a new key wins.
   */
  function InsertAll<K(==), T>(m: map<K, T>, rows: seq<T>, key: T -> K): (r: map<K, T>)
    ensures r.Keys == m.Keys + KeySet(rows, key)
    ensures forall k :: k in m ==> r[k] == m[k]
  {
    if |rows| == 0 then m
    else
      var before := InsertAll(m, rows[..|rows| - 1], key);
      var last := rows[|rows| - 1];
      KeySetSnoc(rows, key);
      if key(last) in before then before else before[key(last) := last]
  }

  /** A key that the batch adds maps to the first row of the batch with that key. */
  lemma InsertAllFirstWins<K, T>(m: map<K, T>, rows: seq<T>, key: T -> K)
    ensures forall k :: k in KeySet(rows, key) && k !in m ==> InsertAll(m, rows, key)[k] == rows[IndexOfKey(rows, key, k)]
  {
    forall k | k in KeySet(rows, key) && k !in m
      ensures InsertAll(m, rows, key)[k] == rows[IndexOfKey(rows, key, k)]
    {
      InsertAllFirstWinsAt(m, rows, key, k);
    }
  }

  lemma {:induction false} InsertAllFirstWinsAt<K, T>(m: map<K, T>, rows: seq<T>, key: T -> K, k: K)
    requires k in KeySet(rows, key) && k !in m
    ensures InsertAll(m, rows, key)[k] == rows[IndexOfKey(rows, key, k)]
  {
    var init, last := rows[..|rows| - 1], rows[|rows| - 1];
    KeySetSnoc(rows, key);
    var before := InsertAll(m, init, key);
    var after := InsertAll(m, rows, key);
    assert after == if key(last) in before then before else before[key(last) := last];
    if k in KeySet(init, key) {
      InsertAllFirstWinsAt(m, init, key, k);
      var j := IndexOfKey(init, key, k);
      assert k in before && after[k] == before[k] == init[j];
      assert rows[j] == init[j];
      forall i | 0 <= i < j ensures key(rows[i]) != k {
        assert rows[i] == init[i];
      }
      IndexOfKeyUnique(rows, key, k, j);
    } else {
      assert k == key(last) && k !in before;
      forall j | 0 <= j < |rows| - 1 ensures key(rows[j]) != k {
        assert rows[j] == init[j];
        assert key(init[j]) in KeySet(init, key);
      }
      IndexOfKeyUnique(rows, key, k, |rows| - 1);
    }
  }

  /** A batch whose keys are all present already changes nothing. */
  lemma InsertAllPresent<K, T>(m: map<K, T>, rows: seq<T>, key: T -> K)
    requires KeySet(rows, key) <= m.Keys
    ensures InsertAll(m, rows, key) == m
  {
  }

  /** Applying the same batch twice gives the same table as applying it once. */
  lemma InsertAllIdempotent<K, T>(m: map<K, T>, rows: seq<T>, key: T -> K)
    ensures InsertAll(InsertAll(m, rows, key), rows, key) == InsertAll(m, rows, key)
  {
    InsertAllPresent(InsertAll(m, rows, key), rows, key);
  }

  /** Every entry of the table is stored under its own key. */
  predicate KeyedBy<K, T>(m: map<K, T>, key: T -> K) {
    forall k :: k in m ==> key(m[k]) == k
  }

  lemma {:induction false} InsertAllKeyedBy<K, T>(m: map<K, T>, rows: seq<T>, key: T -> K)
    requires KeyedBy(m, key)
    ensures KeyedBy(InsertAll(m, rows, key), key)
  {
    InsertAllFirstWins(m, rows, key);
  }

  /** The persisted state: one map per table from its conflict key, and the cache rows. */
  datatype Db = Db(
    albums: map<string, AlbumRow>,
    artists: map<string, ArtistRow>,
    tracks: map<string, TrackRow>,
    trackArtists: map<(string, string), TrackArtistRow>,
    logs: map<(string, int), LogRow>,
    cache: seq<LogRow>)

  /** Keys match rows, and every foreign key points at a present row (the schema's constraints). */
  predicate Consistent(db: Db) {
    && KeyedBy(db.albums, AlbumKey)
    && KeyedBy(db.artists, ArtistKey)
    && KeyedBy(db.tracks, TrackKey)
    && KeyedBy(db.trackArtists, TrackArtistKey)
    && KeyedBy(db.logs, LogKey)
    && (forall k :: k in db.tracks ==> db.tracks[k].albumId in db.albums)
    && (forall k :: k in db.trackArtists ==> db.trackArtists[k].trackId in db.tracks && db.trackArtists[k].artistId in db.artists)
    && (forall k :: k in db.logs ==> db.logs[k].trackId in db.tracks)
  }

  // Foreign-key checks of the rows a statement inserts (rows whose key is new).

  predicate TrackRefsOk(db: Db, rows: seq<TrackRow>) {
    forall i :: 0 <= i < |rows| && rows[i].id !in db.tracks ==> rows[i].albumId in db.albums
  }

  predicate TrackArtistRefsOk(db: Db, rows: seq<TrackArtistRow>) {
    forall i :: 0 <= i < |rows| && TrackArtistKey(rows[i]) !in db.trackArtists ==>
      rows[i].trackId in db.tracks && rows[i].artistId in db.artists
  }

  predicate LogRefsOk(db: Db, rows: seq<LogRow>) {
    forall i :: 0 <= i < |rows| && LogKey(rows[i]) !in db.logs ==> rows[i].trackId in db.tracks
  }

  /** The number of rows in the batch for `name`. */
  function BatchSize(name: TableName, t: Tables): nat {
    match name
    case Albums => |t.albums|
    case Artists => |t.artists|
    case Tracks => |t.tracks|
    case TrackArtists => |t.trackArtists|
    case Logs => |t.logs|
  }

  /**
   * postgres_upsert for one table: the count it returns (0 for an empty batch, otherwise
   * the batch length, not the number of rows actually inserted) and the new state, or the
   * IntegrityError of a foreign key that a new row breaks.
   */
  function ApplyUpsert(db: Db, name: TableName, t: Tables): (r: Result<(nat, Db), Error>)
    ensures r.Success? ==> r.value.0 == BatchSize(name, t) && r.value.1.cache == db.cache
    ensures r.Success? && name != Albums ==> r.value.1.albums == db.albums
    ensures r.Success? && name != Artists ==> r.value.1.artists == db.artists
    ensures r.Success? && name != Tracks ==> r.value.1.tracks == db.tracks
    ensures r.Success? && name != TrackArtists ==> r.value.1.trackArtists == db.trackArtists
    ensures r.Success? && name != Logs ==> r.value.1.logs == db.logs
    ensures r.Failure? ==> r.error == IntegrityError && (name == Tracks || name == TrackArtists || name == Logs)
    ensures name == Albums || name == Artists ==> r.Success?
  {
    match name
    case Albums => Success((|t.albums|, db.(albums := InsertAll(db.albums, t.albums, AlbumKey))))
    case Artists => Success((|t.artists|, db.(artists := InsertAll(db.artists, t.artists, ArtistKey))))
    case Tracks =>
      if !TrackRefsOk(db, t.tracks) then Failure(IntegrityError)
      else Success((|t.tracks|, db.(tracks := InsertAll(db.tracks, t.tracks, TrackKey))))
    case TrackArtists =>
      if !TrackArtistRefsOk(db, t.trackArtists) then Failure(IntegrityError)
      else Success((|t.trackArtists|, db.(trackArtists := InsertAll(db.trackArtists, t.trackArtists, TrackArtistKey))))
    case Logs =>
      if !LogRefsOk(db, t.logs) then Failure(IntegrityError)
      else Success((|t.logs|, db.(logs := InsertAll(db.logs, t.logs, LogKey))))
  }

  /** An upsert keeps every existing row and adds exactly the keys of its batch. */
  lemma UpsertKeepsRows(db: Db, name: TableName, t: Tables)
    requires ApplyUpsert(db, name, t).Success?
    ensures var d := ApplyUpsert(db, name, t).value.1;
            && (forall k :: k in db.albums ==> k in d.albums && d.albums[k] == db.albums[k])
            && (forall k :: k in db.artists ==> k in d.artists && d.artists[k] == db.artists[k])
            && (forall k :: k in db.tracks ==> k in d.tracks && d.tracks[k] == db.tracks[k])
            && (forall k :: k in db.trackArtists ==> k in d.trackArtists && d.trackArtists[k] == db.trackArtists[k])
            && (forall k :: k in db.logs ==> k in d.logs && d.logs[k] == db.logs[k])
  {
  }

  /** An upsert of a consistent state succeeds only into a consistent state. */
  lemma UpsertPreservesConsistency(db: Db, name: TableName, t: Tables)
    requires Consistent(db) && ApplyUpsert(db, name, t).Success?
    ensures Consistent(ApplyUpsert(db, name, t).value.1)
  {
    match name
    case Albums => InsertAllKeyedBy(db.albums, t.albums, AlbumKey);
    case Artists => InsertAllKeyedBy(db.artists, t.artists, ArtistKey);
    case Tracks => TracksUpsertConsistent(db, t);
    case TrackArtists => TrackArtistsUpsertConsistent(db, t);
    case Logs => LogsUpsertConsistent(db, t);
  }

  lemma TracksUpsertConsistent(db: Db, t: Tables)
    requires Consistent(db) && TrackRefsOk(db, t.tracks)
    ensures Consistent(db.(tracks := InsertAll(db.tracks, t.tracks, TrackKey)))
  {
    var d := db.(tracks := InsertAll(db.tracks, t.tracks, TrackKey));
    InsertAllKeyedBy(db.tracks, t.tracks, TrackKey);
    InsertAllFirstWins(db.tracks, t.tracks, TrackKey);
    forall k | k in d.tracks ensures d.tracks[k].albumId in d.albums {
      if k !in db.tracks {
        var i := IndexOfKey(t.tracks, TrackKey, k);
        assert d.tracks[k] == t.tracks[i];
      }
    }
  }

  lemma TrackArtistsUpsertConsistent(db: Db, t: Tables)
    requires Consistent(db) && TrackArtistRefsOk(db, t.trackArtists)
    ensures Consistent(db.(trackArtists := InsertAll(db.trackArtists, t.trackArtists, TrackArtistKey)))
  {
    var d := db.(trackArtists := InsertAll(db.trackArtists, t.trackArtists, TrackArtistKey));
    InsertAllKeyedBy(db.trackArtists, t.trackArtists, TrackArtistKey);
    InsertAllFirstWins(db.trackArtists, t.trackArtists, TrackArtistKey);
    forall k | k in d.trackArtists ensures d.trackArtists[k].trackId in d.tracks && d.trackArtists[k].artistId in d.artists {
      if k !in db.trackArtists {
        var i := IndexOfKey(t.trackArtists, TrackArtistKey, k);
        assert d.trackArtists[k] == t.trackArtists[i];
      }
    }
  }

  lemma LogsUpsertConsistent(db: Db, t: Tables)
    requires Consistent(db) && LogRefsOk(db, t.logs)
    ensures Consistent(db.(logs := InsertAll(db.logs, t.logs, LogKey)))
  {
    var d := db.(logs := InsertAll(db.logs, t.logs, LogKey));
    InsertAllKeyedBy(db.logs, t.logs, LogKey);
    InsertAllFirstWins(db.logs, t.logs, LogKey);
    forall k | k in d.logs ensures d.logs[k].trackId in d.tracks {
      if k !in db.logs {
        var i := IndexOfKey(t.logs, LogKey, k);
        assert d.logs[k] == t.logs[i];
      }
    }
  }

  /** Upserting a batch a second time changes nothing and succeeds. */
  lemma UpsertIdempotent(db: Db, name: TableName, t: Tables)
    requires ApplyUpsert(db, name, t).Success?
    ensures var d := ApplyUpsert(db, name, t).value.1;
            ApplyUpsert(d, name, t) == Success((BatchSize(name, t), d))
  {
    var d := ApplyUpsert(db, name, t).value.1;
    assert Extends(d, d);
    UpsertFromLarger(db, d, name, t);
  }

  /** A point of insert_data_from_df where a database error can strike. */
  datatype Stage = Connect | Write(table: TableName) | ClearCache | FillCache

  /** A failed write: the table being written, the error, and the state the earlier writes reached. */
  type WriteFailure = (TableName, Error, Db)

  /**
   * One iteration of the write loop: after an earlier failure nothing more is written;
   * otherwise table `name` is upserted, unless the database fails at that point.
   */
  function WriteStep(prev: Result<Db, WriteFailure>, t: Tables, name: TableName, faults: set<Stage>): (r: Result<Db, WriteFailure>)
    ensures prev.Failure? ==> r == prev
    ensures prev.Success? && r.Success? ==> r.value.cache == prev.value.cache
    ensures prev.Success? && r.Failure? ==> r.error.0 == name && r.error.2 == prev.value
  {
    match prev
    case Failure(f) => Failure(f)
    case Success(d) =>
      if Write(name) in faults then Failure((name, DatabaseError, d))
      else
        match ApplyUpsert(d, name, t)
        case Failure(e) => Failure((name, e, d))
        case Success(res) => Success(res.1)
  }

  /**
   * The write loop over `order`: stop at the first table whose write fails, naming it.
   * `faults` are the stages at which the database itself fails (connection loss, I/O).
   */
  function WriteAll(db: Db, t: Tables, order: seq<TableName>, faults: set<Stage>): (r: Result<Db, WriteFailure>)
    ensures r.Success? ==> r.value.cache == db.cache
    ensures r.Failure? ==> r.error.0 in order && r.error.2.cache == db.cache
  {
    if |order| == 0 then Success(db)
    else WriteStep(WriteAll(db, t, order[..|order| - 1], faults), t, order[|order| - 1], faults)
  }

  /** The loop over WriteOrder spelled out: albums, artists, tracks, track_artists, logs. */
  lemma WriteAllInOrder(db: Db, t: Tables, faults: set<Stage>, order: seq<TableName>)
    requires order == [Albums, Artists, Tracks, TrackArtists, Logs]
    ensures WriteAll(db, t, order, faults)
            == WriteStep(WriteStep(WriteStep(WriteStep(WriteStep(Success(db), t, Albums, faults),
                 t, Artists, faults), t, Tracks, faults), t, TrackArtists, faults), t, Logs, faults)
  {
    var w1 := WriteAll(db, t, order[..1], faults);
    var w2 := WriteAll(db, t, order[..2], faults);
    var w3 := WriteAll(db, t, order[..3], faults);
    var w4 := WriteAll(db, t, order[..4], faults);
    assert w1 == WriteStep(Success(db), t, Albums, faults) by {
      assert order[..1][..0] == [];
      assert order[..1][0] == Albums;
      assert WriteAll(db, t, [], faults) == Success(db);
    }
    assert w2 == WriteStep(w1, t, Artists, faults) by {
      assert order[..2][..1] == order[..1];
    }
    assert w3 == WriteStep(w2, t, Tracks, faults) by {
      assert order[..3][..2] == order[..2];
    }
    assert w4 == WriteStep(w3, t, TrackArtists, faults) by {
      assert order[..4][..3] == order[..3];
    }
    assert order[..4] == order[..|order| - 1];
  }

  /** The loop over the first `i + 1` tables is the loop over the first `i` and one more step. */
  lemma WriteAllSnoc(db: Db, t: Tables, order: seq<TableName>, faults: set<Stage>, i: nat)
    requires i < |order|
    ensures WriteAll(db, t, order[..i + 1], faults) == WriteStep(WriteAll(db, t, order[..i], faults), t, order[i], faults)
  {
    assert order[..i + 1][..i] == order[..i];
  }

  /** Once a write has failed, the remaining tables are not written. */
  lemma {:induction false} WriteAllStopsAtFailure(db: Db, t: Tables, order: seq<TableName>, faults: set<Stage>, i: nat)
    requires i <= |order| && WriteAll(db, t, order[..i], faults).Failure?
    ensures WriteAll(db, t, order, faults) == WriteAll(db, t, order[..i], faults)
    decreases |order|
  {
    if i < |order| {
      var init := order[..|order| - 1];
      assert init[..i] == order[..i];
      WriteAllStopsAtFailure(db, t, init, faults, i);
    } else {
      assert order[..i] == order;
    }
  }

  /** How a call of insert_data_from_df ends. */
  datatype Outcome =
    | Completed                                   // every write and the cache refill succeeded
    | Reported(table: TableName, error: Error)    // caught and printed, naming `table_name`
    | Raised(error: Error)                        // propagates to the caller

  /** The error message's `table_name` is the loop variable: after the loop it is "logs". */
  const CacheStageTable: TableName := Logs

  /**
   * The state left by a block that failed after reaching `reached`: the state at its start
   * when the connection rolls the transaction back, otherwise whatever was written.
   */
  function AfterFailure(db: Db, reached: Db, rollback: bool): Db {
    if rollback then db else reached
  }

  /**
   * The try block of insert_data_from_df on the split batches. A failed connection leaves
   * the loop variable unbound, so the handler's message raises UnboundLocalError. Any later
   * failure is caught and reported with the table being written (the cache steps report
   * "logs"). Otherwise the five tables are upserted, the cache is emptied and then refilled
   * with the logs batch; a duplicate (track_id, played_at) in that batch violates the
   * cache's primary key. `rollback` says whether the connection undoes a failed block.
   */
  function Commit(db: Db, t: Tables, faults: set<Stage>, rollback: bool): (r: (Outcome, Db))
    ensures r.0.Raised? <==> Connect in faults
    ensures r.0.Raised? ==> r.1 == db
    ensures r.0 != Completed && rollback ==> r.1 == db
    ensures r.0 == Completed ==> r.1.cache == t.logs && DistinctKeys(t.logs, LogKey)
    ensures r.0.Reported? && r.1.cache != db.cache ==> !rollback && r.1.cache == [] && r.0.table == CacheStageTable
  {
    if Connect in faults then (Raised(UnboundLocalError("table_name")), db)
    else Finish(db, WriteAll(db, t, WriteOrder, faults), t, faults, rollback)
  }

  /** The try block from the end of the write loop on, given how the loop ended. */
  function Finish(db: Db, w: Result<Db, WriteFailure>, t: Tables, faults: set<Stage>, rollback: bool): (r: (Outcome, Db))
    requires w.Success? ==> w.value.cache == db.cache
    requires w.Failure? ==> w.error.2.cache == db.cache
    ensures !r.0.Raised?
    ensures r.0 != Completed && rollback ==> r.1 == db
    ensures r.0 == Completed ==> r.1.cache == t.logs && DistinctKeys(t.logs, LogKey)
    ensures r.0.Reported? && r.1.cache != db.cache ==> !rollback && r.1.cache == [] && r.0.table == CacheStageTable
  {
    match w
    case Failure(f) => (Reported(f.0, f.1), AfterFailure(db, f.2, rollback))
    case Success(d) =>
      if ClearCache in faults then (Reported(CacheStageTable, DatabaseError), AfterFailure(db, d, rollback))
      else if FillCache in faults then (Reported(CacheStageTable, DatabaseError), AfterFailure(db, d.(cache := []), rollback))
      else if !DistinctKeys(t.logs, LogKey) then (Reported(CacheStageTable, IntegrityError), AfterFailure(db, d.(cache := []), rollback))
      else (Completed, d.(cache := t.logs))
  }

  /**
   * insert_data_from_df on a state and a batch. A batch without plays is the frame
   * concatenated from empty pages, which has no columns: reading its `played_at` raises
   * KeyError before the try. split_df also runs outside the try, so its ValueError
   * propagates; otherwise the try block runs on the five batches.
   */
  function InsertDataSpec(db: Db, rows: seq<PlayRow>, faults: set<Stage>, rollback: bool): (r: (Outcome, Db))
    ensures r.0.Raised? <==> |rows| == 0 || !Normalizer.CountsMatch(rows) || Connect in faults
    ensures |rows| == 0 ==> r.0 == Raised(KeyError("played_at"))
    ensures r.0.Raised? ==> r.1 == db
    ensures r.0 != Completed && rollback ==> r.1 == db
    ensures r.0 == Completed ==> r.1.cache == Normalizer.Logs(rows)
  {
    if |rows| == 0 then (Raised(KeyError("played_at")), db)
    else
    match Normalizer.SplitDf(rows)
    case Failure(e) => (Raised(e), db)
    case Success(t) => Commit(db, t, faults, rollback)
  }

  /** The state after all five upserts of `t` and the cache refill. */
  function Committed(db: Db, t: Tables): Db {
    Db(InsertAll(db.albums, t.albums, AlbumKey),
       InsertAll(db.artists, t.artists, ArtistKey),
       InsertAll(db.tracks, t.tracks, TrackKey),
       InsertAll(db.trackArtists, t.trackArtists, TrackArtistKey),
       InsertAll(db.logs, t.logs, LogKey),
       t.logs)
  }

  /** The batches refer to each other: every foreign key of a batch row names a row of its parent batch. */
  predicate BatchesReferToEachOther(t: Tables) {
    && (forall i :: 0 <= i < |t.tracks| ==> t.tracks[i].albumId in KeySet(t.albums, AlbumKey))
    && (forall i :: 0 <= i < |t.trackArtists| ==>
          t.trackArtists[i].trackId in KeySet(t.tracks, TrackKey) && t.trackArtists[i].artistId in KeySet(t.artists, ArtistKey))
    && (forall i :: 0 <= i < |t.logs| ==> t.logs[i].trackId in KeySet(t.tracks, TrackKey))
  }

  /** The two parent tables have no foreign keys: their writes succeed from any state. */
  lemma ParentWrites(d: Db, t: Tables)
    ensures WriteStep(WriteStep(Success(d), t, Albums, {}), t, Artists, {})
            == Success(d.(albums := InsertAll(d.albums, t.albums, AlbumKey), artists := InsertAll(d.artists, t.artists, ArtistKey)))
  {
  }

  /**
   * Once the parents' batches are in, the child batches' foreign keys hold whatever else
   * is stored, so the three child writes succeed.
   */
  lemma ChildWrites(d: Db, t: Tables)
    requires BatchesReferToEachOther(t)
    requires KeySet(t.albums, AlbumKey) <= d.albums.Keys && KeySet(t.artists, ArtistKey) <= d.artists.Keys
    ensures WriteStep(WriteStep(WriteStep(Success(d), t, Tracks, {}), t, TrackArtists, {}), t, Logs, {})
            == Success(d.(tracks := InsertAll(d.tracks, t.tracks, TrackKey),
                          trackArtists := InsertAll(d.trackArtists, t.trackArtists, TrackArtistKey),
                          logs := InsertAll(d.logs, t.logs, LogKey)))
  {
    var d3 := d.(tracks := InsertAll(d.tracks, t.tracks, TrackKey));
    var d4 := d3.(trackArtists := InsertAll(d.trackArtists, t.trackArtists, TrackArtistKey));
    assert TrackRefsOk(d, t.tracks);
    assert WriteStep(Success(d), t, Tracks, {}) == Success(d3);
    assert TrackArtistRefsOk(d3, t.trackArtists);
    assert WriteStep(Success(d3), t, TrackArtists, {}) == Success(d4);
    assert LogRefsOk(d4, t.logs);
  }

  /** Batches that refer to each other are written in full from any state. */
  lemma ReferringBatchesWrite(db: Db, t: Tables)
    requires BatchesReferToEachOther(t)
    ensures WriteAll(db, t, WriteOrder, {}) == Success(Committed(db, t).(cache := db.cache))
  {
    WriteAllInOrder(db, t, {}, WriteOrder);
    ParentWrites(db, t);
    ChildWrites(db.(albums := InsertAll(db.albums, t.albums, AlbumKey), artists := InsertAll(db.artists, t.artists, ArtistKey)), t);
  }

  /** The batches split_df produces refer to each other (given non-blank names for non-blank ids). */
  lemma SplitBatchesReferToEachOther(rows: seq<PlayRow>)
    requires Normalizer.CountsMatch(rows) && Normalizer.NamesPresent(rows)
    ensures BatchesReferToEachOther(Normalizer.SplitDf(rows).value)
  {
    var t := Normalizer.SplitDf(rows).value;
    Normalizer.TablesReferToEachOther(rows);
    Normalizer.TrackArtistsReferToTracks(rows);
    Normalizer.TrackArtistsReferToArtists(rows);
    forall i | 0 <= i < |t.logs| ensures t.logs[i].trackId in KeySet(t.tracks, TrackKey) {
      assert Normalizer.LogTrackId(t.logs[i]) in KeySet(t.logs, Normalizer.LogTrackId);
    }
  }

  /**
   * A well-formed batch commits: when every play's artist lists line up, no non-blank
   * artist id comes with a blank name, the logs batch has no duplicate, and the database
   * does not fail, the call completes and leaves exactly the upserted tables and the new
   * cache.
   */
  lemma WellFormedBatchCommits(db: Db, rows: seq<PlayRow>, rollback: bool)
    requires Normalizer.CountsMatch(rows) && Normalizer.NamesPresent(rows)
    requires DistinctKeys(Normalizer.Logs(rows), LogKey)
    ensures |rows| > 0 ==> InsertDataSpec(db, rows, {}, rollback) == (Completed, Committed(db, Normalizer.SplitDf(rows).value))
  {
    var t := Normalizer.SplitDf(rows).value;
    SplitBatchesReferToEachOther(rows);
    ReferringBatchesWrite(db, t);
    assert Commit(db, t, {}, rollback) == (Completed, Committed(db, t));
  }

  /** Every state the write loop reaches, finished or cut short, is consistent. */
  lemma {:induction false} WriteAllConsistent(db: Db, t: Tables, order: seq<TableName>, faults: set<Stage>)
    requires Consistent(db)
    ensures WriteAll(db, t, order, faults).Success? ==> Consistent(WriteAll(db, t, order, faults).value)
    ensures WriteAll(db, t, order, faults).Failure? ==> Consistent(WriteAll(db, t, order, faults).error.2)
  {
    if |order| > 0 {
      var init := order[..|order| - 1];
      WriteAllConsistent(db, t, init, faults);
      var w := WriteAll(db, t, init, faults);
      if w.Success? && Write(order[|order| - 1]) !in faults && ApplyUpsert(w.value, order[|order| - 1], t).Success? {
        UpsertPreservesConsistency(w.value, order[|order| - 1], t);
      }
    }
  }

  /**
   * The states the try block can leave: the state at its start, the state a cut-short
   * write loop reached, or the fully written tables with some cache.
   */
  lemma CommitLeaves(db: Db, t: Tables, faults: set<Stage>, rollback: bool)
    ensures || Commit(db, t, faults, rollback).1 == db
            || (WriteAll(db, t, WriteOrder, faults).Failure?
                && Commit(db, t, faults, rollback).1 == WriteAll(db, t, WriteOrder, faults).error.2)
            || (WriteAll(db, t, WriteOrder, faults).Success?
                && Commit(db, t, faults, rollback).1
                   == WriteAll(db, t, WriteOrder, faults).value.(cache := Commit(db, t, faults, rollback).1.cache))
  {
    if Connect !in faults {
      FinishLeaves(db, WriteAll(db, t, WriteOrder, faults), t, faults, rollback);
    }
  }

  lemma FinishLeaves(db: Db, w: Result<Db, WriteFailure>, t: Tables, faults: set<Stage>, rollback: bool)
    requires w.Success? ==> w.value.cache == db.cache
    requires w.Failure? ==> w.error.2.cache == db.cache
    ensures || Finish(db, w, t, faults, rollback).1 == db
            || (w.Failure? && Finish(db, w, t, faults, rollback).1 == w.error.2)
            || (w.Success? && Finish(db, w, t, faults, rollback).1 == w.value.(cache := Finish(db, w, t, faults, rollback).1.cache))
  {
  }

  lemma CommitPreservesConsistency(db: Db, t: Tables, faults: set<Stage>, rollback: bool)
    requires Consistent(db)
    ensures Consistent(Commit(db, t, faults, rollback).1)
  {
    WriteAllConsistent(db, t, WriteOrder, faults);
    CommitLeaves(db, t, faults, rollback);
  }

  /** Whatever happens, with or without rollback, a consistent database stays consistent. */
  lemma InsertPreservesConsistency(db: Db, rows: seq<PlayRow>, faults: set<Stage>, rollback: bool)
    requires Consistent(db)
    ensures Consistent(InsertDataSpec(db, rows, faults, rollback).1)
  {
    if |rows| > 0 && Normalizer.CountsMatch(rows) {
      var t := Normalizer.SplitDf(rows).value;
      CommitPreservesConsistency(db, t, faults, rollback);
      assert InsertDataSpec(db, rows, faults, rollback) == Commit(db, t, faults, rollback);
    }
  }

  /** `big` holds every row `small` holds (and possibly more). */
  predicate Extends(big: Db, small: Db) {
    && (forall k :: k in small.albums ==> k in big.albums && big.albums[k] == small.albums[k])
    && (forall k :: k in small.artists ==> k in big.artists && big.artists[k] == small.artists[k])
    && (forall k :: k in small.tracks ==> k in big.tracks && big.tracks[k] == small.tracks[k])
    && (forall k :: k in small.trackArtists ==> k in big.trackArtists && big.trackArtists[k] == small.trackArtists[k])
    && (forall k :: k in small.logs ==> k in big.logs && big.logs[k] == small.logs[k])
  }

  lemma ExtendsTransitive(a: Db, b: Db, c: Db)
    requires Extends(a, b) && Extends(b, c)
    ensures Extends(a, c)
  {
  }

  /** Writing the tables of `order` only adds rows, whether or not the loop is cut short. */
  lemma {:induction false} WriteAllExtends(db: Db, t: Tables, order: seq<TableName>, faults: set<Stage>)
    ensures WriteAll(db, t, order, faults).Success? ==> Extends(WriteAll(db, t, order, faults).value, db)
    ensures WriteAll(db, t, order, faults).Failure? ==> Extends(WriteAll(db, t, order, faults).error.2, db)
  {
    if |order| > 0 {
      var init := order[..|order| - 1];
      var name := order[|order| - 1];
      WriteAllExtends(db, t, init, faults);
      var w := WriteAll(db, t, init, faults);
      if w.Success? && WriteAll(db, t, order, faults).Success? {
        UpsertKeepsRows(w.value, name, t);
        ExtendsTransitive(WriteAll(db, t, order, faults).value, w.value, db);
      }
    }
  }

  /** Whatever happens, with or without rollback, no stored row is changed or removed. */
  lemma CommitOnlyAdds(db: Db, t: Tables, faults: set<Stage>, rollback: bool)
    ensures Extends(Commit(db, t, faults, rollback).1, db)
  {
    WriteAllExtends(db, t, WriteOrder, faults);
    CommitLeaves(db, t, faults, rollback);
  }

  lemma InsertOnlyAdds(db: Db, rows: seq<PlayRow>, faults: set<Stage>, rollback: bool)
    ensures Extends(InsertDataSpec(db, rows, faults, rollback).1, db)
  {
    if |rows| > 0 && Normalizer.CountsMatch(rows) {
      var t := Normalizer.SplitDf(rows).value;
      CommitOnlyAdds(db, t, faults, rollback);
      assert InsertDataSpec(db, rows, faults, rollback) == Commit(db, t, faults, rollback);
    }
  }

  /**
   * An upsert whose batch keys are all present in `e`, which extends the state `d` it
   * succeeded on, leaves `e` unchanged.
   */
  lemma UpsertFromLarger(d: Db, e: Db, name: TableName, t: Tables)
    requires ApplyUpsert(d, name, t).Success? && Extends(e, ApplyUpsert(d, name, t).value.1)
    ensures ApplyUpsert(e, name, t) == Success((BatchSize(name, t), e))
  {
    var after := ApplyUpsert(d, name, t).value.1;
    match name
    case Albums =>
      assert KeySet(t.albums, AlbumKey) <= after.albums.Keys <= e.albums.Keys;
      RowsPresent(e.albums, t.albums, AlbumKey);
    case Artists =>
      assert KeySet(t.artists, ArtistKey) <= after.artists.Keys <= e.artists.Keys;
      RowsPresent(e.artists, t.artists, ArtistKey);
    case Tracks =>
      assert KeySet(t.tracks, TrackKey) <= after.tracks.Keys <= e.tracks.Keys;
      RowsPresent(e.tracks, t.tracks, TrackKey);
    case TrackArtists =>
      assert KeySet(t.trackArtists, TrackArtistKey) <= after.trackArtists.Keys <= e.trackArtists.Keys;
      RowsPresent(e.trackArtists, t.trackArtists, TrackArtistKey);
    case Logs =>
      assert KeySet(t.logs, LogKey) <= after.logs.Keys <= e.logs.Keys;
      RowsPresent(e.logs, t.logs, LogKey);
  }

  /** A batch whose keys are all present: every row's key is stored, and inserting it changes nothing. */
  lemma RowsPresent<K, T>(m: map<K, T>, rows: seq<T>, key: T -> K)
    requires KeySet(rows, key) <= m.Keys
    ensures forall i :: 0 <= i < |rows| ==> key(rows[i]) in m
    ensures InsertAll(m, rows, key) == m
  {
    InsertAllPresent(m, rows, key);
    assert forall i :: 0 <= i < |rows| ==> key(rows[i]) in KeySet(rows, key);
  }

  /** Replaying `order` on a state that extends the result of writing it from `db` is a no-op. */
  lemma {:induction false} WriteAllFixes(e: Db, t: Tables, order: seq<TableName>, faults: set<Stage>, db: Db)
    requires WriteAll(db, t, order, faults).Success? && Extends(e, WriteAll(db, t, order, faults).value)
    ensures WriteAll(e, t, order, faults) == Success(e)
  {
    if |order| > 0 {
      var init := order[..|order| - 1];
      var name := order[|order| - 1];
      var d := WriteAll(db, t, init, faults).value;
      var d' := WriteAll(db, t, order, faults).value;
      assert d' == ApplyUpsert(d, name, t).value.1;
      UpsertKeepsRows(d, name, t);
      ExtendsTransitive(e, d', d);
      WriteAllFixes(e, t, init, faults, db);
      UpsertFromLarger(d, e, name, t);
    }
  }

  /**
   * Idempotence: running insert_data_from_df again with the same batch on the state a
   * completed run left changes nothing and completes again.
   */
  lemma InsertIdempotent(db: Db, rows: seq<PlayRow>, faults: set<Stage>, rollback: bool)
    requires InsertDataSpec(db, rows, faults, rollback).0 == Completed
    ensures InsertDataSpec(InsertDataSpec(db, rows, faults, rollback).1, rows, faults, rollback) == InsertDataSpec(db, rows, faults, rollback)
  {
    var t := Normalizer.SplitDf(rows).value;
    assert InsertDataSpec(db, rows, faults, rollback) == Commit(db, t, faults, rollback);
    CommitIdempotent(db, t, faults, rollback);
  }

  lemma CommitIdempotent(db: Db, t: Tables, faults: set<Stage>, rollback: bool)
    requires Commit(db, t, faults, rollback).0 == Completed
    ensures Commit(Commit(db, t, faults, rollback).1, t, faults, rollback) == Commit(db, t, faults, rollback)
  {
    var d := WriteAll(db, t, WriteOrder, faults).value;
    var e := d.(cache := t.logs);
    assert Commit(db, t, faults, rollback) == (Completed, e);
    assert Extends(e, d);
    WriteAllFixes(e, t, WriteOrder, faults, db);
  }

  /**
   * Nothing else changes: a completed run leaves each table equal to the upsert of its
   * batch and the cache equal to the logs batch.
   */
  lemma CompletedRunUpsertsEveryTable(db: Db, rows: seq<PlayRow>, faults: set<Stage>, rollback: bool)
    requires InsertDataSpec(db, rows, faults, rollback).0 == Completed
    ensures InsertDataSpec(db, rows, faults, rollback).1 == Committed(db, Normalizer.SplitDf(rows).value)
  {
    var t := Normalizer.SplitDf(rows).value;
    assert InsertDataSpec(db, rows, faults, rollback) == Commit(db, t, faults, rollback);
    CommitUpsertsEveryTable(db, t, faults, rollback);
  }

  lemma CommitUpsertsEveryTable(db: Db, t: Tables, faults: set<Stage>, rollback: bool)
    requires Commit(db, t, faults, rollback).0 == Completed
    ensures Commit(db, t, faults, rollback).1 == Committed(db, t)
  {
    CommitCompleted(db, t, faults, rollback);
    SuccessfulWriteUpsertsEveryTable(db, t, faults, WriteOrder);
  }

  /** A write loop over the five tables that succeeds leaves each table upserted with its batch. */
  lemma SuccessfulWriteUpsertsEveryTable(db: Db, t: Tables, faults: set<Stage>, order: seq<TableName>)
    requires order == [Albums, Artists, Tracks, TrackArtists, Logs]
    requires WriteAll(db, t, order, faults).Success?
    ensures WriteAll(db, t, order, faults).value == Committed(db, t).(cache := db.cache)
  {
    WriteAllInOrder(db, t, faults, order);
    var w2 := WriteStep(WriteStep(Success(db), t, Albums, faults), t, Artists, faults);
    assert w2.Success?;
    ParentsWritten(db, t, faults);
    ChildrenWritten(w2.value, t, faults);
  }

  lemma ParentsWritten(d: Db, t: Tables, faults: set<Stage>)
    requires WriteStep(WriteStep(Success(d), t, Albums, faults), t, Artists, faults).Success?
    ensures WriteStep(WriteStep(Success(d), t, Albums, faults), t, Artists, faults).value
            == d.(albums := InsertAll(d.albums, t.albums, AlbumKey), artists := InsertAll(d.artists, t.artists, ArtistKey))
  {
  }

  lemma ChildrenWritten(d: Db, t: Tables, faults: set<Stage>)
    requires WriteStep(WriteStep(WriteStep(Success(d), t, Tracks, faults), t, TrackArtists, faults), t, Logs, faults).Success?
    ensures WriteStep(WriteStep(WriteStep(Success(d), t, Tracks, faults), t, TrackArtists, faults), t, Logs, faults).value
            == d.(tracks := InsertAll(d.tracks, t.tracks, TrackKey),
                  trackArtists := InsertAll(d.trackArtists, t.trackArtists, TrackArtistKey),
                  logs := InsertAll(d.logs, t.logs, LogKey))
  {
    var w3 := WriteStep(Success(d), t, Tracks, faults);
    var w4 := WriteStep(w3, t, TrackArtists, faults);
    assert w4.Success? && w3.Success?;
  }

  lemma CommitCompleted(db: Db, t: Tables, faults: set<Stage>, rollback: bool)
    requires Commit(db, t, faults, rollback).0 == Completed
    ensures WriteAll(db, t, WriteOrder, faults).Success?
    ensures Commit(db, t, faults, rollback).1 == WriteAll(db, t, WriteOrder, faults).value.(cache := t.logs)
  {
    FinishCompleted(db, WriteAll(db, t, WriteOrder, faults), t, faults, rollback);
  }

  lemma FinishCompleted(db: Db, w: Result<Db, WriteFailure>, t: Tables, faults: set<Stage>, rollback: bool)
    requires w.Success? ==> w.value.cache == db.cache
    requires w.Failure? ==> w.error.2.cache == db.cache
    requires Finish(db, w, t, faults, rollback).0 == Completed
    ensures w.Success? && Finish(db, w, t, faults, rollback).1 == w.value.(cache := t.logs)
  {
  }

  /**
   * After a completed run on a non-empty batch, the gate, asked about a batch headed by
   * the same first play, says "nothing new" exactly when that play is the latest in the
   * batch.
   */
  lemma GateAfterCommit(db: Db, rows: seq<PlayRow>, faults: set<Stage>, rollback: bool)
    requires InsertDataSpec(db, rows, faults, rollback).0 == Completed && |rows| > 0
    ensures !ChangeGate.ShouldUpdate(Success(InsertDataSpec(db, rows, faults, rollback).1.cache), [rows[0].playedAt])
            <==> forall i :: 0 <= i < |rows| ==> rows[i].playedAt <= rows[0].playedAt
  {
    GateOnLogs(rows);
  }

  lemma GateOnLogs(rows: seq<PlayRow>)
    requires |rows| > 0
    ensures !ChangeGate.ShouldUpdate(Success(Normalizer.Logs(rows)), [rows[0].playedAt])
            <==> forall i :: 0 <= i < |rows| ==> rows[i].playedAt <= rows[0].playedAt
  {
    var cache := Normalizer.Logs(rows);
    ChangeGate.SkipAtCachedHead(cache);
    assert forall i :: 0 <= i < |rows| ==> cache[i].playedAt == rows[i].playedAt;
  }

  /** The database: one field per table and the cache, updated in place by the writer. */
  class Database {
    var albums: map<string, AlbumRow>
    var artists: map<string, ArtistRow>
    var tracks: map<string, TrackRow>
    var trackArtists: map<(string, string), TrackArtistRow>
    var logs: map<(string, int), LogRow>
    var cache: seq<LogRow>

    function State(): Db
      reads this
    {
      Db(albums, artists, tracks, trackArtists, logs, cache)
    }

    /** A freshly created schema: every table empty. */
    constructor ()
      ensures State() == Db(map[], map[], map[], map[], map[], [])
      ensures Consistent(State())
    {
      albums, artists, tracks, trackArtists, logs, cache := map[], map[], map[], map[], map[], [];
    }

    /** The transaction's rollback to the state at its start. */
    method Restore(snapshot: Db)
      modifies this
      ensures State() == snapshot
    {
      albums, artists, tracks := snapshot.albums, snapshot.artists, snapshot.tracks;
      trackArtists, logs, cache := snapshot.trackArtists, snapshot.logs, snapshot.cache;
    }

    /** One statement's rows, inserted one after another, each skipped on a key conflict. */
    static method InsertRows<K(==), T>(m: map<K, T>, rows: seq<T>, key: T -> K) returns (r: map<K, T>)
      ensures r == InsertAll(m, rows, key)
    {
      r := m;
      var i := 0;
      while i < |rows|
        invariant 0 <= i <= |rows|
        invariant r == InsertAll(m, rows[..i], key)
      {
        assert rows[..i + 1][..i] == rows[..i];
        if key(rows[i]) !in r {
          r := r[key(rows[i]) := rows[i]];
        }
        i := i + 1;
      }
      assert rows[..i] == rows;
    }

    /** postgres_upsert of table `name`'s batch. */
    method Upsert(name: TableName, t: Tables) returns (r: Result<nat, Error>)
      modifies this
      ensures r.Success? ==> ApplyUpsert(old(State()), name, t) == Success((r.value, State()))
      ensures r.Failure? ==> ApplyUpsert(old(State()), name, t) == Failure(r.error) && State() == old(State())
    {
      match name
      case Albums =>
        albums := InsertRows(albums, t.albums, AlbumKey);
        r := Success(|t.albums|);
      case Artists =>
        artists := InsertRows(artists, t.artists, ArtistKey);
        r := Success(|t.artists|);
      case Tracks =>
        if !TrackRefsOk(State(), t.tracks) {
          return Failure(IntegrityError);
        }
        tracks := InsertRows(tracks, t.tracks, TrackKey);
        r := Success(|t.tracks|);
      case TrackArtists =>
        if !TrackArtistRefsOk(State(), t.trackArtists) {
          return Failure(IntegrityError);
        }
        trackArtists := InsertRows(trackArtists, t.trackArtists, TrackArtistKey);
        r := Success(|t.trackArtists|);
      case Logs =>
        if !LogRefsOk(State(), t.logs) {
          return Failure(IntegrityError);
        }
        logs := InsertRows(logs, t.logs, LogKey);
        r := Success(|t.logs|);
    }

    /** The loop over WriteOrder: upsert each table in turn, stopping at the first failure. */
    method WriteTables(t: Tables, faults: set<Stage>) returns (failed: Option<(TableName, Error)>)
      modifies this
      ensures failed.None? ==> WriteAll(old(State()), t, WriteOrder, faults) == Success(State())
      ensures failed.Some? ==> WriteAll(old(State()), t, WriteOrder, faults) == Failure((failed.value.0, failed.value.1, State()))
    {
      ghost var start := State();
      var i := 0;
      while i < |WriteOrder|
        invariant 0 <= i <= |WriteOrder|
        invariant WriteAll(start, t, WriteOrder[..i], faults) == Success(State())
      {
        var name := WriteOrder[i];
        WriteAllSnoc(start, t, WriteOrder, faults, i);
        if Write(name) in faults {
          WriteAllStopsAtFailure(start, t, WriteOrder, faults, i + 1);
          return Some((name, DatabaseError));
        }
        var r := Upsert(name, t);
        if r.Failure? {
          WriteAllStopsAtFailure(start, t, WriteOrder, faults, i + 1);
          return Some((name, r.error));
        }
        i := i + 1;
      }
      assert WriteOrder[..i] == WriteOrder;
      failed := None;
    }

    /**
     * The try block: connect, write the tables, empty and refill the cache; on failure
     * roll back when the connection does so.
     */
    method CommitTables(t: Tables, faults: set<Stage>, rollback: bool) returns (outcome: Outcome)
      modifies this
      ensures (outcome, State()) == Commit(old(State()), t, faults, rollback)
    {
      if Connect in faults {
        return Raised(UnboundLocalError("table_name"));
      }
      var snapshot := State();
      var failed := WriteTables(t, faults);
      if failed.Some? {
        if rollback { Restore(snapshot); }
        return Reported(failed.value.0, failed.value.1);
      }
      if ClearCache in faults {
        if rollback { Restore(snapshot); }
        return Reported(CacheStageTable, DatabaseError);
      }
      cache := [];
      if FillCache in faults || !DistinctKeys(t.logs, LogKey) {
        if rollback { Restore(snapshot); }
        return Reported(CacheStageTable, if FillCache in faults then DatabaseError else IntegrityError);
      }
      cache := t.logs;
      outcome := Completed;
    }

    /** insert_data_from_df: read the batch's columns and split it (errors propagate), then run the try block. */
    method InsertDataFromDf(rows: seq<PlayRow>, faults: set<Stage>, rollback: bool) returns (outcome: Outcome)
      modifies this
      ensures (outcome, State()) == InsertDataSpec(old(State()), rows, faults, rollback)
    {
      if |rows| == 0 {
        return Raised(KeyError("played_at"));
      }
      var split := Normalizer.SplitDf(rows);
      if split.Failure? {
        return Raised(split.error);
      }
      outcome := CommitTables(split.value, faults, rollback);
    }
  }
}
