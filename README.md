# spotify-logger, modelled in Dafny

spotify-logger pulls a user's recently played tracks from the Spotify Web API and stores
them in a relational database. This project models the core of that pipeline:

- **Normaliser** (`Normalizer`). `split_df` turns a flat batch of plays into five entity
  batches: logs, tracks, albums, artists and track_artists. Artist names and ids arrive as
  ", "-joined strings. They are split on ",", stripped, exploded, cleaned of blanks and
  de-duplicated, and each track's artists are numbered 1..n.
- **Store** (`Store`).
  - `postgres_upsert` is an insert-or-skip on each table's natural key.
  - `insert_data_from_df` writes the tables parents-first (albums, artists, tracks,
    track_artists, logs) and then replaces the `cache` table with the batch's logs.
  - The database is a `class Database` with one map per table, keyed by the declared
    keys, plus the cache rows. Its methods are proved against the value-level functions
    `ApplyUpsert`, `WriteAll`, `Commit` and `InsertDataSpec`.
- **Change gate** (`ChangeGate`). `should_update_db` compares the newest cached play time
  with the play time of the batch row labelled 0.
- **Tokens** (`Tokens`). This covers the validity test with its 60-second margin, and the
  refresh grant that keeps the old refresh token when the reply has none.
  `get_valid_token` reuses, refreshes or obtains a token and saves it to the token file,
  which is a `class TokenFile`.
- **Pagination**.
  - `Pagination` models the recently-played client. `get_spotify_items` classifies
    statuses. In its `while next_url` loop, a 401 refreshes the tokens and retries the
    same cursor.
  - `RefreshFlow` models the refresh-token client. Its loop swallows every exception, so
    a page that keeps failing is retried forever.
- **Record parsing**. The three `parse_track` variants are `RecentParse`
  (joined strings), `RefreshFlow` (lists) and `ContextParser` (lists plus the play's
  context).
- **OAuth redirect handler** (`OAuthCallback`). `do_GET` accepts an authorization code
  only on the redirect path, with the expected `state` (the anti-CSRF check of section
  10.12 of RFC 6749), and only when a `code` is present (section 4.1.2 of RFC 6749).
- **Supporting pieces**.
  - `get_csv_path` (`CsvPath`) finds the first free `MMDD.csv` / `MMDD_n.csv` name.
  - `SqlTypes` covers the type dispatch of `process_datetime_for_sql`.

The Spotify page server and the token endpoint are function parameters (oracles). The
loops that the source does not bound carry a request budget `fuel`. Running out of it is
an explicit outcome (`OutOfFuel`/`Exhausted`), so a result that is returned is exactly
the source's result.

Shared modules:
- `Wrappers` provides `Option` and `Result`.
- `Api` holds the JSON shapes and Python exceptions as an `Error` datatype.
- `Rows` holds the table rows and their keys.
- `Seqs` holds map, filter, flatten and first-occurrence de-duplication.
- `Text` holds `str.strip`, `str.split`, `", ".join` and `str(n)`.

## Model

| member | source | states |
|---|---|---|
| Text.Strip | spotify_log/sqlite_utils.py:109 | `str.strip`: the result is an infix of the input with only whitespace cut on either side, and has no edge whitespace |
| Text.TrimStartShape | spotify_log/sqlite_utils.py:109 | `str.lstrip`: the result is a suffix of the input, only whitespace is cut, and it does not start with whitespace |
| Text.TrimEndShape | spotify_log/sqlite_utils.py:109 | `str.rstrip`: the result is a prefix of the input, only whitespace is cut, and it does not end with whitespace |
| Text.Split | spotify_log/sqlite_utils.py:109 | `str.split(",")`: at least one piece, no piece contains the separator; `Text.JoinSplit` proves joining the pieces gives the input back |
| Text.JoinSplit | spotify_log/sqlite_utils.py:109 | joining the pieces of `s.split(sep)` with `sep` gives `s` back |
| Text.JoinSplitStripRoundTrip | spotify_log/sqlite_utils.py:109 | splitting a ", "-joined list on "," and stripping each piece gives the list back when no element has a comma or edge whitespace |
| Text.DigitsInjective | spotify_log/utils.py:26 | distinct counters give distinct decimal strings |
| Seqs.DropDuplicates | spotify_log/sqlite_utils.py:99 | `drop_duplicates([key])`: keys of the result are distinct and are exactly the keys of the input |
| Seqs.DropSeenKeepsFirst | spotify_log/sqlite_utils.py:99 | each kept row is the first row of the input with its key, and kept rows are in order of first occurrence |
| Seqs.DropDuplicatesIdempotent | spotify_log/sqlite_utils.py:99 | de-duplicating twice is the same as once |
| Normalizer.Logs | spotify_log/sqlite_utils.py:94 | logs: one (track_id, played_at) row per play, in input order, with no de-duplication |
| Normalizer.TracksFirstPerId | spotify_log/sqlite_utils.py:97-99 | tracks: distinct ids, exactly the input's track ids, each row the projection of the first play of that track, in first-play order |
| Normalizer.AlbumsFirstPerId | spotify_log/sqlite_utils.py:102-104 | albums: the same first-occurrence rule keyed by album id |
| Normalizer.TablesReferToEachOther | spotify_log/sqlite_utils.py:94-104 | the ids in tracks are exactly the track ids in logs; every track's album id is in albums |
| Normalizer.SplitStrip | spotify_log/sqlite_utils.py:109-110 | split-and-strip of an artist field yields at least one piece |
| Normalizer.ArtistPairs | spotify_log/sqlite_utils.py:111 | `explode(['id','artist'])` of one play pairs the p-th split id with the p-th split name |
| Normalizer.Artists | spotify_log/sqlite_utils.py:107-115 | the artists batch exists exactly when every play's id and name lists have equal length; otherwise explode raises ValueError |
| Normalizer.InExplodeArtists | spotify_log/sqlite_utils.py:111 | a pair is in the exploded artists exactly when some play has it at some position |
| Normalizer.ArtistsSound | spotify_log/sqlite_utils.py:107-115 | every artist row is non-blank in both columns and is an (id, name) pair at one position of one play |
| Normalizer.ArtistsComplete | spotify_log/sqlite_utils.py:107-115 | every position of every play with non-blank id and name has its id in artists |
| Normalizer.ArtistsFirstPerId | spotify_log/sqlite_utils.py:113-115 | artist ids are distinct; each row is the first non-blank pair with its id, in first-occurrence order |
| Normalizer.ArtistIdPairs | spotify_log/sqlite_utils.py:118-120 | exploding one play's artist ids pairs its track id with each split id, in order |
| Normalizer.CumCount | spotify_log/sqlite_utils.py:123 | one numbered row per (track, artist) pair, keeping both ids |
| Normalizer.CumCountNumbersEachTrack | spotify_log/sqlite_utils.py:123 | `groupby("track_id").cumcount() + 1` numbers each track's rows 1..n in order |
| Normalizer.TrackArtistsKeys | spotify_log/sqlite_utils.py:118-122 | track_artists has distinct (track_id, artist_id) keys: exactly the non-blank exploded pairs |
| Normalizer.TrackArtistsSound | spotify_log/sqlite_utils.py:118-122 | every track_artists row has a non-blank artist id that one play of that track lists |
| Normalizer.TrackArtistsComplete | spotify_log/sqlite_utils.py:118-122 | every non-blank split artist id of every play is paired with that play's track |
| Normalizer.TrackArtistsOrder | spotify_log/sqlite_utils.py:118-123 | for each track, `artist_order` runs 1..n; rows stand in first-occurrence order of their pairs |
| Normalizer.TrackArtistsReferToTracks | spotify_log/sqlite_utils.py:94-123 | every track of track_artists is in tracks |
| Normalizer.TrackArtistsReferToArtists | spotify_log/sqlite_utils.py:107-123 | every artist of track_artists is in artists, provided no non-blank id comes with a blank name |
| Normalizer.SplitDf | spotify_log/sqlite_utils.py:91-125 | split_df fails, with ValueError, exactly when some play's id and name lists differ in length |
| Normalizer.TwoArtistPlay | spotify_log/sqlite_utils.py:107-123 | a play by "A, B" with ids "a, b" gives artists [(a, A), (b, B)] and track_artists numbered 1 and 2 |
| Normalizer.CommaInArtistNameFailsBatch | spotify_log/sqlite_utils.py:110-111 | an artist name containing a comma makes the name list longer than the id list, and the whole batch fails with ValueError |
| ChangeGate.NewestCached | spotify_log/sqlite_utils.py:138-141 | `ORDER BY played_at DESC LIMIT 1`: None exactly for an empty cache, otherwise a cached time that no cached time exceeds |
| ChangeGate.ShouldUpdate | spotify_log/sqlite_utils.py:128-155 | "skip" exactly when the cache was read, is non-empty, and the single label-0 time equals the newest cached time; a read error or an empty cache means update |
| ChangeGate.LabelZeroEmpty | spotify_log/sqlite_utils.py:145 | a concatenated frame has a row labelled 0 exactly when one of its pages has a row |
| ChangeGate.ShouldUpdateDb | spotify_log/sqlite_utils.py:128-155 | a batch whose pages are all empty has no `played_at` column and raises KeyError before the try; any other batch reaches the decision with a row labelled 0 |
| ChangeGate.LabelZeroOfOnePage | spotify_log/sqlite_utils.py:145 | in a single-page frame, label 0 is exactly the first row |
| ChangeGate.MultiPageBatchAlwaysUpdates | spotify_log/sqlite_utils.py:144-155 | in a batch concatenated from two or more non-empty pages, label 0 is ambiguous and the gate always says update |
| ChangeGate.OnePageDecision | spotify_log/sqlite_utils.py:143-151 | for one page, skip exactly when the cache is non-empty and the first play is at the newest cached time; then no cached play is later |
| ChangeGate.SkipAtCachedHead | spotify_log/sqlite_utils.py:143-151 | asked about the cache's first play, the gate skips exactly when no cached play is later |
| SqlTypes.ProcessDatetimeForSql | spotify_log/sqlite_utils.py:73-89 | succeeds exactly for the types "datetime" and "date"; any other type raises ValueError |
| Store.WriteOrderRespectsForeignKeys | spotify_log/sqlite_utils.py:201 | the five tables are all written, each after every table it references |
| Store.InsertAll | spotify_log/sqlite_utils.py:178-183 | `ON CONFLICT DO NOTHING`: the table's keys become the old keys plus the batch's keys, and existing rows never change |
| Store.InsertAllFirstWins | spotify_log/sqlite_utils.py:178-183 | a new key receives the first batch row with that key |
| Store.InsertAllPresent | spotify_log/sqlite_utils.py:178-183 | a batch whose keys are all present changes nothing |
| Store.InsertAllIdempotent | spotify_log/sqlite_utils.py:178-183 | upserting the same batch twice is the same as once |
| Store.InsertAllKeyedBy | spotify_log/sqlite_utils.py:167-180 | every stored row stays under its own natural key |
| Store.ApplyUpsert | spotify_log/sqlite_utils.py:158-185 | one table's upsert: returns the batch size, changes no other table and not the cache; only a child table can fail, with IntegrityError on a missing parent |
| Store.UpsertKeepsRows | spotify_log/sqlite_utils.py:178-183 | an upsert keeps every existing row of every table |
| Store.UpsertPreservesConsistency | spotify_log/sqlite_utils.py:158-185 | an upsert keeps keys and foreign keys consistent |
| Store.UpsertIdempotent | spotify_log/sqlite_utils.py:178-183 | repeating a successful upsert changes nothing |
| Store.WriteStep | spotify_log/sqlite_utils.py:201-203 | a failure stops later writes; a failure names its table and carries the state the writes had reached |
| Store.WriteAll | spotify_log/sqlite_utils.py:201-203 | the loop over the tables never touches the cache; a failure names a table of the order |
| Store.WriteAllInOrder | spotify_log/sqlite_utils.py:201-203 | the write is the five upserts chained in the order albums, artists, tracks, track_artists, logs |
| Store.WriteAllStopsAtFailure | spotify_log/sqlite_utils.py:201-203 | once a prefix of the order has failed, the rest of the order is not run |
| Store.Commit | spotify_log/sqlite_utils.py:196-211 | raises exactly on a connection failure, leaving the store; after a completed run the cache is exactly the logs batch; a cache change on failure means the cache was emptied and is reported under "logs" |
| Store.InsertDataSpec | spotify_log/sqlite_utils.py:188-211 | raises exactly when the batch has no plays (a frame without columns, whose `played_at` read raises KeyError before the try), when split_df fails, or when the connection fails; after a completed run the cache is the batch's logs |
| Store.ReferringBatchesWrite | spotify_log/sqlite_utils.py:201-203 | batches whose rows refer only to rows of the same batch always write without error |
| Store.ParentWrites | spotify_log/sqlite_utils.py:201-203 | the albums and artists writes, which have no foreign keys, succeed from any state and upsert their batches |
| Store.ChildWrites | spotify_log/sqlite_utils.py:201-203 | once the parent batches are stored, the tracks, track_artists and logs writes of referring batches succeed and upsert their batches |
| Store.SplitBatchesReferToEachOther | spotify_log/sqlite_utils.py:91-125 | split_df's batches refer only to each other, when no non-blank artist id has a blank name |
| Store.WellFormedBatchCommits | spotify_log/sqlite_utils.py:188-211 | without faults, such a non-empty batch with distinct log keys completes and upserts every table |
| Store.WriteAllConsistent | spotify_log/sqlite_utils.py:201-203 | the write loop keeps the store consistent, both at success and at the point of failure |
| Store.CommitLeaves | spotify_log/sqlite_utils.py:196-211 | the final state is the old state, the state writes reached (maybe with an emptied cache), or the full write with the new cache |
| Store.CommitPreservesConsistency | spotify_log/sqlite_utils.py:196-211 | every outcome of the commit leaves a consistent store |
| Store.InsertPreservesConsistency | spotify_log/sqlite_utils.py:188-211 | insert_data_from_df never breaks key or foreign-key consistency |
| Store.ExtendsTransitive | spotify_log/sqlite_utils.py:178-183 | "only adds rows" composes |
| Store.WriteAllExtends | spotify_log/sqlite_utils.py:201-203 | the write loop only adds rows |
| Store.CommitOnlyAdds | spotify_log/sqlite_utils.py:196-211 | a commit never removes or changes a stored row |
| Store.InsertOnlyAdds | spotify_log/sqlite_utils.py:188-211 | insert_data_from_df never removes or changes a stored row of the five tables |
| Store.UpsertFromLarger | spotify_log/sqlite_utils.py:178-183 | an upsert on any store that already holds its result succeeds and changes nothing |
| Store.WriteAllFixes | spotify_log/sqlite_utils.py:201-203 | writing the same batches again onto a store that holds them changes nothing |
| Store.InsertIdempotent | spotify_log/sqlite_utils.py:188-211 | re-inserting a batch that completed completes again and leaves the state as it was |
| Store.CommitIdempotent | spotify_log/sqlite_utils.py:196-211 | committing the same batches twice is committing once |
| Store.CompletedRunUpsertsEveryTable | spotify_log/sqlite_utils.py:188-211 | a completed run upserts every batch into its table and sets the cache to the logs |
| Store.CommitUpsertsEveryTable | spotify_log/sqlite_utils.py:196-208 | a completed commit is the five upserts plus the new cache |
| Store.CommitCompleted | spotify_log/sqlite_utils.py:196-208 | a completed commit's write loop succeeded, and its state is that write with the logs as cache |
| Store.SuccessfulWriteUpsertsEveryTable | spotify_log/sqlite_utils.py:201-203 | a write loop that gets through all five tables leaves each table upserted with its batch and the cache untouched |
| Store.Finish | spotify_log/sqlite_utils.py:205-211 | after the loop: never raises; with rollback a failure leaves the old state; completion sets the cache to the logs batch, which then has distinct keys; a changed cache on failure was emptied and is reported under "logs" |
| Store.FinishLeaves | spotify_log/sqlite_utils.py:205-211 | after the loop the state is the old one, the state the loop reached, or the written tables with some cache |
| Store.FinishCompleted | spotify_log/sqlite_utils.py:205-211 | completion after the loop means the loop succeeded, and the state is its result with the logs as cache |
| Store.GateAfterCommit | spotify_log/sqlite_utils.py:143-151 | right after a completed insert, asked about the inserted batch's first play, the gate skips exactly when that first play is the latest play in the batch |
| Store.GateOnLogs | spotify_log/sqlite_utils.py:143-151 | with a cache holding exactly a batch's logs, asked about that batch's first play, the gate skips exactly when that first play is the latest play in the batch |
| Store.Database.constructor | spotify_log/sqlite_utils.py:8-70 | a new store is empty and consistent |
| Store.Database.Restore | spotify_log/sqlite_utils.py:196-211 | the state becomes the snapshot |
| Store.Database.InsertRows | spotify_log/sqlite_utils.py:178-183 | the insert-or-skip loop computes exactly `InsertAll` |
| Store.Database.Upsert | spotify_log/sqlite_utils.py:158-185 | the in-place upsert of one table is exactly `ApplyUpsert`; a failing upsert changes nothing |
| Store.Database.WriteTables | spotify_log/sqlite_utils.py:201-203 | the in-place write loop is exactly `WriteAll`, in the fixed order |
| Store.Database.CommitTables | spotify_log/sqlite_utils.py:196-211 | the in-place commit and its outcome are exactly `Commit` |
| Store.Database.InsertDataFromDf | spotify_log/sqlite_utils.py:188-211 | insert_data_from_df on the store is exactly `InsertDataSpec` |
| Tokens.MarginExamples | spotify_log/spotify_recent.py:120 | a token with 61 seconds left is usable; one with 60 or 59 seconds left is not |
| Tokens.SetDefaultRefresh | spotify_log/spotify_recent.py:100 | `setdefault`: a reply's own refresh token wins; a reply without one gets the token sent |
| Tokens.SetDefaultRefreshStable | spotify_log/spotify_recent.py:100 | applying the default again changes nothing, and a sent refresh token is never lost |
| Tokens.RefreshAccessToken | spotify_log/spotify_recent.py:94-101 | fails exactly when the endpoint fails, with its error; keeps the old refresh token when the reply has none |
| Tokens.Stamp | spotify_log/spotify_recent.py:124 | a new token is stamped with the time it was obtained |
| Tokens.ValidToken | spotify_log/spotify_recent.py:116-132 | a failure leaves the token file alone; a success saves what it returns; the result is the stored usable token or one stamped now; with no stored token, it is the authorization's reply stamped now, or that flow's error |
| Tokens.ValidTokenRefreshFailures | spotify_log/spotify_recent.py:120-125 | an expired stored token fails exactly when it has no refresh token (KeyError) or the refresh grant fails (its error), with the file unchanged |
| Tokens.ValidTokenReusesOnlyUsable | spotify_log/spotify_recent.py:118-126 | a usable token is returned unchanged; otherwise the result is the refresh of the stored refresh token, stamped now |
| Tokens.RefreshTokenSurvives | spotify_log/spotify_recent.py:116-126 | after a success, the saved token still has a refresh token when the one it replaced had one |
| Tokens.FreshTokenUsable | spotify_log/spotify_recent.py:120-124 | a fresh token is usable at once exactly when it lives longer than 60 seconds |
| Tokens.TokenFile.constructor | spotify_log/spotify_recent.py:103-108 | the file starts with the given content |
| Tokens.TokenFile.Load | spotify_log/spotify_recent.py:103-108 | load_token returns what the file holds |
| Tokens.TokenFile.Save | spotify_log/spotify_recent.py:111-113 | save_token replaces the content |
| Tokens.TokenFile.GetValidToken | spotify_log/spotify_recent.py:116-132 | get_valid_token's result and the file afterwards are exactly `ValidToken` |
| RecentParse.Names | spotify_log/spotify_recent.py:147 | the artists' names, in the track's artist order |
| RecentParse.Ids | spotify_log/spotify_recent.py:148 | the artists' ids, in the track's artist order |
| RecentParse.ParseTrack | spotify_log/spotify_recent.py:144-158 | fails exactly when the play has no track (KeyError); every other field is copied from its path |
| RecentParse.ParseThenSplitRecoversArtists | spotify_log/spotify_recent.py:147-148 | with at least one artist and plain names and ids, split_df's split-and-strip gives back the id and name lists; the lists match up and no name is blank |
| RecentParse.NoArtistsGivesOneBlank | spotify_log/spotify_recent.py:147-148 | a track without artists splits into one blank piece (which split_df drops) |
| RecentParse.ParseBatch | spotify_log/spotify_recent.py:184 | one record per play in page order; fails exactly when some play has no track |
| Pagination.GetSpotifyItems | spotify_log/spotify_recent.py:166-173 | 401 raises PermissionError; other 4xx and 5xx raise the HTTP error; otherwise returns the page's `next` and items |
| Pagination.Step | spotify_log/spotify_recent.py:167-192 | on 401, exactly one refresh and the same cursor and pages with the new tokens, or the refresh's error; otherwise it fails exactly on a 4xx/5xx status (`HttpError(status)`) or a play without a track (`KeyError("track")`), and a page that arrives and parses is appended with its `next` as the cursor |
| Pagination.RunRaisesEscaping | spotify_log/spotify_recent.py:180-192 | what the loop raises is an HTTP error other than 401, a play without a track, or an error of the refresh grant; a 401 never escapes |
| Pagination.Run | spotify_log/spotify_recent.py:180-192 | the loop stops exactly at a falsy cursor; earlier pages stay in front; a run from a truthy cursor adds at least one page |
| Pagination.Shape | spotify_log/spotify_recent.py:194 | `df_batch.shape`: the row count, with zero columns exactly for an empty page |
| Pagination.Start | spotify_log/spotify_recent.py:177-178 | the loop starts at the recently-played URL with no pages |
| Pagination.FetchSpec | spotify_log/spotify_recent.py:176-194 | a fetch returns rows exactly when the loop ends, and runs out of budget exactly when the loop does |
| Pagination.FetchFailureEscapes | spotify_log/spotify_recent.py:176-194 | a failed fetch raises the loop's exception, which is one of the escaping kinds |
| Pagination.FetchedIsConcatenation | spotify_log/spotify_recent.py:186-194 | a returned fetch has at least one page; its rows are the pages concatenated in order, and its shape is the last page's |
| Pagination.Persistent401NeverEnds | spotify_log/spotify_recent.py:189-192 | a cursor answered with 401 whatever the token, with refreshes that succeed, is retried forever |
| Pagination.FetchRecentlyPlayed | spotify_log/spotify_recent.py:176-194 | the imperative loop returns exactly `FetchSpec` |
| RefreshFlow.ParseTrackList | spotify_log/spotify_refresh_tok_flow.py:34-48 | fails exactly when there is no track; artist and artist_id are lists of the artists' names and ids, in order and of the same length |
| RefreshFlow.ListAndJoinedAgree | spotify_log/spotify_refresh_tok_flow.py:34-48 | joining the two lists with ", " gives the recently-played client's record |
| RefreshFlow.ParseBatchList | spotify_log/spotify_refresh_tok_flow.py:70 | one record per play in page order; fails exactly when some play has no track |
| RefreshFlow.Step | spotify_log/spotify_refresh_tok_flow.py:66-76 | a failed request changes nothing; an arriving page moves the cursor at once and is appended only if it parses |
| RefreshFlow.Run | spotify_log/spotify_refresh_tok_flow.py:66-76 | the loop stops exactly at a falsy cursor and keeps earlier pages in front |
| RefreshFlow.FailingPageLoopsForever | spotify_log/spotify_refresh_tok_flow.py:66-76 | a page whose request keeps failing is retried forever |
| RefreshFlow.FlowFetchedIsConcatenation | spotify_log/spotify_refresh_tok_flow.py:61-78 | rows are returned exactly when the loop ends with at least one kept page, and they are the kept pages concatenated in fetch order; the budget runs out exactly when the loop's does |
| RefreshFlow.FlowSpec | spotify_log/spotify_refresh_tok_flow.py:61-78 | a failed initial refresh propagates its error; any other failure is ValueError from concatenating no pages |
| RefreshFlow.RefreshBeforeAnyRequest | spotify_log/spotify_refresh_tok_flow.py:62-64 | the refresh happens before any page request: when it fails, no server is consulted |
| RefreshFlow.FirstPageFates | spotify_log/spotify_refresh_tok_flow.py:64-78 | a first page that keeps failing never returns; a last-and-first page that does not parse ends in ValueError |
| RefreshFlow.FetchRecentlyPlayed | spotify_log/spotify_refresh_tok_flow.py:61-78 | the imperative loop returns exactly `FlowSpec` |
| ContextParser.ContextFields | spotify_log/parser.py:15-16 | a missing context gives None and None; a null context raises AttributeError; otherwise its type and URI |
| ContextParser.ParseTrack | spotify_log/parser.py:3-19 | succeeds exactly with a track and a non-null context; track_id, album_id, played_at and the context fields are copied from their paths |
| ContextParser.AgreesWithListParser | spotify_log/parser.py:3-19 | agrees with the list parser on all its eleven fields; fails additionally only on a null context; with no context, both context fields are None |
| CsvPath.PathJoin | spotify_log/utils.py:17-26 | `os.path.join`: an absolute name replaces the base; otherwise the result starts with the base and ends with the name |
| CsvPath.PathJoinInjective | spotify_log/utils.py:17-26 | joining relative names to one base keeps them apart |
| CsvPath.PathsDistinct | spotify_log/utils.py:17-26 | the numbered paths are pairwise distinct and distinct from the plain one |
| CsvPath.TriedSize | spotify_log/utils.py:24-29 | the paths the loop has tried before counter n are n - 2 distinct paths |
| CsvPath.TriedExcludes | spotify_log/utils.py:24-29 | no candidate numbered n or more is among the paths tried before n |
| CsvPath.TriedContains | spotify_log/utils.py:24-29 | every candidate numbered 2 to n - 1 is among the paths tried before n |
| CsvPath.TriedGrows | spotify_log/utils.py:24-29 | trying one more existing candidate keeps every tried path existing and the count at most the number of existing files, which bounds the loop |
| CsvPath.GetCsvPath | spotify_log/utils.py:4-29 | the result does not exist; it is `MMDD.csv` when that is free, otherwise `MMDD_n.csv` for the smallest free n ≥ 2 (never `_1`); the loop terminates on a finite set of files |
| OAuthCallback.FirstOr | spotify_log/spotify_recent.py:46-47 | `qs.get(name, [default])[0]`: the first value when present, else the default |
| OAuthCallback.Status | spotify_log/spotify_recent.py:39-62 | 200 exactly for an accepted code, 404 exactly for a wrong path, 400 otherwise |
| OAuthCallback.Decide | spotify_log/spotify_recent.py:37-56 | 404 exactly when the path differs from the redirect path; an accepted code is the query's first `code` |
| OAuthCallback.AcceptsExactlyMatchingRequests | spotify_log/spotify_recent.py:39-56 | a code is accepted exactly when the path matches, the first `state` is the expected one and a `code` is present; with a non-empty expected state, a request without `state` is refused |
| OAuthCallback.CallbackServer.constructor | spotify_log/spotify_recent.py:71 | a new server has no code |
| OAuthCallback.CallbackServer.DoGet | spotify_log/spotify_recent.py:37-62 | answers the decision's status; records the code only when accepted, and otherwise leaves `auth_code` untouched |

## Left out

- Network I/O is not modelled. This covers `requests.get`/`post`, HTTP Basic auth, JSON
  decoding, timeouts and the `limit` parameter. The page server and the token endpoint
  are total function parameters. The server is deterministic, so a page that fails keeps
  failing.
- The `TCPServer`/`webbrowser` flow of `get_code_via_local_server` and its wall-clock
  deadline loop are not modelled. Neither are `exchange_code_for_token`, `fetch_token`
  and the URL encoding of `auth_url`. The outcome of the interactive authorization is
  the `authorize` parameter of `Tokens.ValidToken`.
- `OAuthCallback.Decide` takes the request already parsed. `urlparse` and `parse_qs` are
  not modelled. The only thing assumed about `parse_qs` is that it never lists a name
  without a value (`ParsedQuery`).
- The `random.uniform` sleeps between pages and the `print` calls are not modelled.
- Token-file JSON is not modelled. The file's content is `TokenFile.stored`. Edge cases
  not modelled:
  - an empty token dict is falsy;
  - a stored token without `got_at` raises;
  - a JSON-null `refresh_token` is `None` here.
- Tokens.ValidToken: the two `time.time()` calls of `get_valid_token` read one clock value
  `now`. Time is whole seconds, not a float.
- Pagination.Run: fuel counts loop iterations. A run that spends it ends in `OutOfFuel`.
  It is not a result the source can return, because the source never gives up.
- RefreshFlow.Run: fuel counts loop iterations. A run that spends it ends in `OutOfFuel`.
  It is not a result the source can return, because the source never gives up.
- A page without `items` is not modelled (`j["items"]` would raise KeyError). A missing
  track member is modelled as the play having no track (`KeyError("track")`), whichever
  member is missing. A JSON-null `track` is modelled the same way, although the source
  raises TypeError at `t["artists"]` for it.
- RecentParse.ParseTrack: a JSON-null artist `id` or `name` is not modelled, because
  artist ids and names are plain strings here. The source's `", ".join` raises TypeError
  for it, as for the null ids of local-file tracks. `RefreshFlow.ParseTrackList` and
  `ContextParser.ParseTrack` do not model it either; their source lists would keep the
  null instead of raising.
- ContextParser.ParseTrack: for a track that lacks `track_number` or `release_date` and
  a play whose context is null, the model reports KeyError. Python evaluates the context
  first and raises AttributeError.
- The database engine is not modelled. This covers SQLAlchemy, table reflection,
  `to_sql`, the DDL and the logs `SERIAL` id. The tables are maps keyed by the declared
  natural keys.
- Database errors other than a missing parent row are not modelled from the data. They
  are the `faults` input: a failed connection, a failed table write, a failed cache
  delete and a failed cache insert.
- Store.Commit: the transaction behaviour of `get_db_connection` is not part of the
  source, so it is the `rollback` parameter. With rollback, a failed call leaves the
  store unchanged. Without it, the writes reached stay. Both are proved consistent and
  add-only.
- Store.Commit: the cache refill is one statement, so a duplicate log key fails it as a
  whole.
- Foreign keys are checked only for rows whose key is new, as on-conflict-do-nothing
  skips the others. Later batch rows repeating a new key are checked too, although the
  database skips them. After split_df this makes no difference: tracks and track-artist
  pairs are de-duplicated, and log rows with the same key share their `track_id`.
- No check is made on `played_at` values beyond the foreign keys and natural keys the
  database enforces.
- The `pd.to_datetime` coercion and floor-to-second of `process_datetime_for_sql` are not
  modelled; only its type dispatch is. Play times are integer seconds. Release dates are
  kept as the API's strings.
- `insert_data_from_df` in the store does not call `SqlTypes.ProcessDatetimeForSql`. Its
  two calls pass the type names "datetime" and "date", which the dispatch accepts. The
  `played_at` conversion is taken to keep the integer play times as they are.
- The "date" conversion of `release_date` (format `%Y-%m-%d` with `errors='coerce'`) is
  not modelled. It turns a release date of year or month precision, such as "1998" or
  "1998-05", into NaT, which is stored as NULL. The model stores the string unchanged.
- The gate's inputs are the cache read (or its error) and the batch's pages, or for
  `ChangeGate.ShouldUpdate` the `played_at` values at label 0. An empty batch is taken to
  be a frame without columns, as concatenating empty pages gives. A frame concatenated from several pages keeps each
  page's labels, which `ChangeGate.LabelZero` models.
- `get_csv_path` does not create the directory. The date is the `today` parameter, four
  digits as `strftime("%m%d")` gives, instead of `datetime.now()`.
- Files whose paths differ only by normalization are not modelled: the files on disk are
  a finite set of path strings.
- The output of `parser.parse_track` has the same 13 keys for every input. The record
  type `ContextParser.Play` gives this by construction, not by a contract.
- `main.py`, `config.py` and `update_artist_genres.py` are glue around the core and are
  not part of this model. So are the `db_utils` and `auth_code_flow` modules they
  import.
