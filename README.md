# Chopin composition engine in Dafny

Chopin builds Spotify playlists from a *composer configuration*: a target number
of songs, an optional release-date range, and weighted sources (user playlists
by name, the listening history by time range, playlists by URI). This project
models the engine that turns such a configuration into tracks and then into a
playlist, and proves what that engine promises:

- the validation of the configuration and the per-item quota allocation
  (`ceil(weight / W * nb_songs)`), with its overshoot bound;
- the dispatch of each source's items to a resolver, the in-order
  concatenation of their outputs, and the final shuffle;
- the four selection rules (random, popularity, latest, original);
- the resolvers: lookup by simplified name, "This Is" and genre-mix playlists,
  playlist URIs, and the artist radio pool;
- the remote side that these operations change: a user's playlists, their
  items, the liked tracks, and the log of write requests. This includes
  paging by 99, replacement as remove-then-add, create-or-empty, and
  fill-with-distinct-ids;
- the value helpers: string simplification and matching, share-link
  parsing, release-range parsing, dictionary flattening, track and playlist
  records with their statistics and their dictionary round trip, and the
  recommendation seed cap and `target_*` feature mapping.

Randomness (`random.sample`, `np.random.choice`) is an oracle: a sequence of
natural numbers from which each draw takes an index. Every property is proved
for every oracle, so it holds for every random outcome. The Spotify service is
the `Endpoints.Account` class. Its fields are the listed playlists, the items
each playlist holds, the liked uris and the requests sent. Lookups that the
repository imports but does not define are passed in as parameters: the
"This Is" and genre-mix playlist searches, related artists, an artist's top
tracks, the listening history and the recommendation endpoint.

Files, one module each:

- `common.dfy`: `Option`, `Result`, and the error kinds.
- `seqs.dfy`: sequence helpers.
- `strings.dfy`, `dates.dfy` and `dictionaries.dfy`: the `chopin/tools` helpers.
- `tracks.dfy`, `playlist_schema.dfy` and `composer.dfy`: the schemas.
- `selection.dfy`, `composition.dfy`, `playlist_manager.dfy`, `radio.dfy` and `track_manager.dfy`: the managers.
- `endpoints.dfy`: the client endpoints.
- `recommendation.dfy`: the recommendation manager.

## Model

| member | source | states |
|---|---|---|
| Strings.RStrip | chopin/tools/strings.py:13 | the result is a prefix of the input that does not end in the stripped character, and everything cut off is that character |
| Strings.LStrip | chopin/tools/strings.py:14 | the result is a suffix of the input that does not start with the stripped character, and everything cut off is that character |
| Strings.RemoveChar | chopin/tools/strings.py:15-16 | `replace(c, "")` leaves no `c`, and leaves a string without `c` unchanged |
| Strings.RemoveCharMembers | chopin/tools/strings.py:15-16 | the characters of the result are exactly the input's characters other than `c` |
| Strings.ReplaceChar | chopin/tools/strings.py:17 | same length; each `&` becomes `_` position by position and every other character stays |
| Strings.SimplifyString | chopin/tools/strings.py:9-18 | a simplified name holds no space, no apostrophe and no `&` |
| Strings.SimplifyStringSpec | chopin/tools/strings.py:11-17 | stripping the outer spaces is subsumed: simplify = lower-case the emoji-free text, drop `'` and spaces, map `&` to `_` |
| Strings.SimplifiedIsLower | chopin/tools/strings.py:12 | when lower-casing is idempotent, every character of a simplified name is already lower-case |
| Strings.SimplifyIdempotent | chopin/tools/strings.py:9-18 | simplifying an emoji-free simplified name returns it unchanged, so re-simplifying stored names is harmless |
| Strings.SimplifyExample | chopin/tools/strings.py:9-18 | `"A & b'c"` simplifies to `"a_bc"` |
| Strings.MatchStrings | chopin/tools/strings.py:36-37 | fewer than two strings always match |
| Strings.AllNormalizeToSpec | chopin/tools/strings.py:39 | `all(...)` holds iff every remaining string normalises to the target |
| Strings.MatchStringsSpec | chopin/tools/strings.py:21-39 | the strings match iff all of them normalise to the same value |
| Strings.PatternAtIsMaximalRun | chopin/tools/strings.py:54 | the regex matches at a position with a group of length `n` iff `n` is the maximal alphanumeric run there and `?` follows it |
| Strings.SearchFrom | chopin/tools/strings.py:55 | `re.search` finds the leftmost match from a position, or reports that none exists |
| Strings.ExtractUriFromPlaylistLink | chopin/tools/strings.py:42-58 | the result is alphanumeric; it is empty iff the pattern matches nowhere, and otherwise it is the group of the leftmost match |
| Strings.NoQuestionMarkNoUri | chopin/tools/strings.py:54-58 | a link without `?` yields `""` |
| Strings.ExtractFromShareLink | chopin/tools/strings.py:45-46 | a share link `https://open.spotify.com/playlist/<id>?<query>` yields `<id>` |
| Dates.ParseDmy | chopin/tools/dates.py:23 | a parsed `%d/%m/%Y` string is a valid calendar date at midnight |
| Dates.ParseFormatDmy | chopin/tools/dates.py:23 | parsing a formatted date gives that date back iff it is a real calendar date |
| Dates.ParseExampleJanuary | chopin/tools/dates.py:18-19 | `"10/01/2023"` is 10 January 2023 (day first) |
| Dates.ParseExampleNoLeapDay | chopin/tools/dates.py:28 | `"29/02/2023"` is rejected |
| Dates.ReadDate | chopin/tools/dates.py:8-32 | `None` and `(None, None)` give no range; for each shape of range, success iff every given bound parses, with the parsed bounds, `now` for an open end and 1 January 1900 for an open start; any failure is a `ValueError` |
| Dates.ReadDateExamples | chopin/tools/dates.py:17-21 | the two docstring examples |
| Dictionaries.PutKeys | chopin/tools/dictionaries.py:29-31 | assigning a key keeps the key order and appends only a new key |
| Dictionaries.PutLookup | chopin/tools/dictionaries.py:29-31 | after an assignment the key maps to the new value, and other keys are unchanged |
| Dictionaries.PutAllKeys | chopin/tools/dictionaries.py:25-31 | the keys of the result are the written keys in first-write order, without repeats |
| Dictionaries.PutAllLookup | chopin/tools/dictionaries.py:25-31 | every key maps to the value written last |
| Dictionaries.NestedWrites | chopin/tools/dictionaries.py:28-29 | a nested entry `sub` of `key` is written as `key.sub` with its value |
| Dictionaries.FlattenDict | chopin/tools/dictionaries.py:4-32 | the nested loops compute exactly the dictionary obtained by applying the writes in order |
| Dictionaries.FlattenKeys | chopin/tools/dictionaries.py:25-31 | the flattened keys are distinct and in first-write order |
| Dictionaries.FlattenLookup | chopin/tools/dictionaries.py:25-31 | on a key collision the later write wins |
| Dictionaries.EntryWritesShape | chopin/tools/dictionaries.py:27-31 | a non-dict value is written under its own key; a dict value writes one `key.sub` entry per sub-entry and never the parent key |
| Dictionaries.EmptyNestedContributesNothing | chopin/tools/dictionaries.py:27-29 | an empty nested dict contributes no keys |
| Dictionaries.FlattenExample | chopin/tools/dictionaries.py:7-23 | only one level is flattened: a deeper dict stays a value |
| Tracks.DatetimeToDate | chopin/schemas/track.py:13-17 | the result is present iff the input is, and it is a date |
| Tracks.DatetimeToDateSpec | chopin/schemas/track.py:13-17 | a datetime is truncated to its date, a date passes through, `None` stays `None`, and the function is idempotent |
| Tracks.ValidateTrack | chopin/schemas/track.py:42-50 | a raw track validates iff it conforms; name, id, uri, duration, album and artists are carried over; a missing popularity defaults to 0 (the second declaration wins); `added_at` is truncated to a date |
| Tracks.LoadDumpArtist | chopin/schemas/artist.py:5-25 | validating a dumped artist gives it back |
| Tracks.ReleaseDateAsWritten | chopin/schemas/album.py:26-30 | as written, a string goes to the parser and a `date` is refused |
| Tracks.ReleaseDate | chopin/schemas/album.py:26-30 | as intended, a string goes to the parser and a `date` passes through |
| Tracks.LoadAlbum | chopin/schemas/album.py:9-30 | a validated album takes its name, id and uri from their keys and its release date from the validator's reading of `release_date` |
| Tracks.LoadDumpAlbum | chopin/schemas/album.py:9-30 | with the intended validator, validating a dumped album gives it back |
| Tracks.DumpedAlbumRejected | chopin/schemas/album.py:26-30 | as written, validating a dumped album fails for every parser |
| Tracks.DumpTrack | chopin/schemas/track.py:23-50 | `model_dump` gives the eight fields under distinct keys, in declaration order |
| Tracks.DumpTrackLookups | chopin/schemas/track.py:42-50 | the dumped track holds each field under its own key |
| Tracks.LoadTrack | chopin/schemas/track.py:23-50 | a validated track takes its scalar fields from their keys and its album from the album validator; a missing popularity is 0 |
| Tracks.LoadDumpTrack | chopin/schemas/track.py:23-50 | with the intended album validator, validating a dumped track gives it back |
| Tracks.DumpedTrackRejected | chopin/schemas/album.py:26-30 | as written, no dumped track validates, because its album is refused |
| Tracks.LoadDumpTracks | chopin/schemas/track.py:23-50 | with the intended album validator, the same for a list of tracks |
| Tracks.TrackRecord.ToFlattenDict | chopin/schemas/track.py:52-56 | succeeds iff the artists field is not an empty list; a list is replaced in place by its first artist, and an empty one raises `IndexError` and is kept; on success the result is the flattened dump, namely the plain fields followed by the `album.*` and `artists.*` entries of that one artist |
| Tracks.FlatTrackKeysDistinct | chopin/schemas/track.py:52-56 | the flattened track has distinct keys |
| Tracks.FlattenSingleArtistDump | chopin/schemas/track.py:52-56 | flattening a track with one artist gives `album.*` and `artists.*` entries next to the plain fields |
| Selection.ParseMethodName | chopin/managers/selection.py:15-21 | every method's value parses back to that method |
| Selection.PyPrefix | chopin/managers/selection.py:47 | a Python slice `s[:n]`: a prefix of length `min(n, len)`, or `len + n` for negative `n` |
| Selection.SelectOriginal | chopin/managers/selection.py:37-47 | a prefix of the input, of length `min(n, len)`, or `len + n` for a negative `n` (Python slicing) |
| Selection.SelectRandom | chopin/managers/selection.py:24-34 | `min(n, len)` tracks drawn without replacement (a sub-multiset); a negative count raises |
| Selection.SelectPopular | chopin/managers/selection.py:50-61 | succeeds iff the popularities can be compared |
| Selection.SelectLatest | chopin/managers/selection.py:64-75 | the same length as ORIGINAL, taken from the input, in non-increasing release-date order |
| Selection.SelectTracks | chopin/managers/selection.py:86-103 | a missing method is RANDOM; only a negative random count or incomparable popularities raise |
| Selection.SelectLengthAndSource | chopin/managers/selection.py:34-75 | for `nb_tracks >= 0` every rule returns exactly `min(nb_tracks, len)` tracks taken from the input |
| Selection.SelectNothing | chopin/managers/selection.py:78-103 | an empty input or a zero count selects nothing under every rule |
| Selection.SelectOriginalPrefix | chopin/managers/selection.py:37-47 | ORIGINAL returns the input prefix of that length, in order |
| Selection.SelectOriginalNegative | chopin/managers/selection.py:34-47 | with a count of -1, ORIGINAL drops the last track while RANDOM raises |
| Selection.SelectPopularTop | chopin/managers/selection.py:60-61 | POPULARITY output is non-increasing, and no unselected track is more popular than the last selected one |
| Selection.SelectLatestTop | chopin/managers/selection.py:74-75 | LATEST output is non-increasing in release date, with the same top-k condition |
| Selection.ReleaseKeyChronological | chopin/managers/selection.py:74 | the sort key orders release dates chronologically |
| Selection.SelectStable | chopin/managers/selection.py:60-74 | sorting keeps tracks with equal keys in input order |
| Selection.SelectPopularOfRanked | chopin/managers/selection.py:60-61 | on an already ranked list POPULARITY is ORIGINAL |
| Selection.SelectLatestIdempotent | chopin/managers/selection.py:74-75 | selecting the latest tracks twice changes nothing |
| Composer.ParseTimeRangeName | chopin/schemas/composer.py:62 | every time range's literal parses back to it |
| Composer.ExtractUriFromLink | chopin/schemas/composer.py:35-43 | a name starting with the Spotify host becomes an alphanumeric id; any other name is unchanged |
| Composer.ShareLinkBecomesId | chopin/schemas/composer.py:35-43 | a share link becomes the playlist id it carries |
| Composer.LinkWithoutQueryIsEmpty | chopin/schemas/composer.py:41-42 | a Spotify link without `?` becomes the empty name |
| Composer.ValidateMethod | chopin/schemas/composer.py:33-50 | the default is RANDOM; a falsy value becomes `None`; otherwise the lower-cased value must name a method |
| Composer.ValidateMethodExample | chopin/schemas/composer.py:45-50 | `"LATEST"` is accepted as LATEST, and `"newest"` is rejected |
| Composer.ValidateItem | chopin/schemas/composer.py:22-50 | an item is accepted iff its weight (default 1) is non-negative and its method validates; its count starts at 0 |
| Composer.ValidateHistoryItem | chopin/schemas/composer.py:53-64 | accepted iff the weight is non-negative and the time range is one of the three literals; the default is `short_term` |
| Composer.ValidateItems | chopin/schemas/composer.py:83-85 | a list validates iff each item does, item by item |
| Composer.UniqueRangesAtMostThree | chopin/schemas/composer.py:84-93 | unique time ranges allow at most three history items |
| Composer.ValidateOptItems | chopin/schemas/composer.py:83-85 | a `None` list is kept; a given list validates iff each item does |
| Composer.ValidateFields | chopin/schemas/composer.py:67-93 | a configuration is accepted iff `nb_songs > 0`, the range parses, every item validates, and the history is given, with at most 3 items and distinct ranges; a `None` history raises `TypeError` in its validator whatever the other fields hold; every other failure, the range's `ValueError` included, is a `ValidationError`; the defaults fill the name and description |
| Composer.ValidatedFields | chopin/schemas/composer.py:31-93 | an accepted configuration has `nb_songs > 0`, non-negative weights in every given list, and unique ranges |
| Composer.DuplicateRangeRejected | chopin/schemas/composer.py:87-93 | two history items with the same range are rejected |
| Composer.Quota | chopin/schemas/composer.py:107 | `ceil(weight / W * nb_songs)`: the least integer at or above the item's share |
| Composer.Allocate | chopin/schemas/composer.py:105-107 | each item keeps its fields and gets its own quota |
| Composer.AllocateBounds | chopin/schemas/composer.py:105-108 | the total allocated lies between the summed shares and that sum plus the item count |
| Composer.Overshoot | chopin/schemas/composer.py:102-108 | with `W > 0`, `nb_songs <= total <= nb_songs + #items - 1` |
| Composer.QuotaProperties | chopin/schemas/composer.py:107 | a zero weight gets 0, and a larger weight never gets fewer songs |
| Composer.QuotaExamples | chopin/schemas/composer.py:107 | weights 1 and 1 for 20 songs give 10 and 10; weights 1 and 0.2 give 17 and 4 |
| Composer.ComposerConfig.Items | chopin/schemas/composer.py:112-114 | the sources are playlists, history and uris in that order; artists, radios and mixes never appear; together they hold every item |
| Composer.ComposerConfig.FillNbSongs | chopin/schemas/composer.py:95-110 | every item of the three categories gets its quota over the summed weight; the returned total is the sum of the quotas |
| Composer.FillCategory | chopin/schemas/composer.py:106-108 | the inner loop assigns each quota and accumulates its sum |
| Composer.NewComposerConfig | chopin/schemas/composer.py:67-110 | a configuration is built iff the fields validate, the playlists and uris lists are given (a `None` one raises `TypeError`), and the weights are not all zero; its items carry their quotas |
| Composition.Chain | chopin/managers/composition.py:37 | the chain of outputs succeeds iff every call does and is their concatenation; otherwise it is the first error |
| Composition.ChainAppend | chopin/managers/composition.py:125-131 | chaining two runs of calls is chaining their chains |
| Composition.AddFrom | chopin/managers/composition.py:23-99 | each `_add_from_*` helper (with the uris call corrected) returns the in-order concatenation of its per-item outputs, whose length is their sum |
| Composition.RangeNotForwarded | chopin/managers/composition.py:55-84 | radio and history calls ignore the release range; history asks for `nb_songs` top tracks of its time range |
| Composition.Pool | chopin/managers/composition.py:125-131 | a pool gathered without error had every non-empty source succeed; with no items the pool is `[]` |
| Composition.PoolIsChainOfCalls | chopin/managers/composition.py:125-131 | the loop that skips empty sources and extends the accumulator yields the chain of all item calls |
| Composition.PoolStep | chopin/managers/composition.py:126-130 | one more source: an empty item list adds nothing, otherwise its output is appended or its error ends the pool |
| Composition.PoolErrorSticks | chopin/managers/composition.py:130 | once a source raises, the composition raises that error |
| Composition.ComposePlaylist | chopin/managers/composition.py:112-133 | the composition is a shuffle of the pool, or the pool's error |
| Composition.ComposedIsPermutationOfOutputs | chopin/managers/composition.py:125-133 | the result is a permutation of the concatenated resolver outputs, and its length is their total |
| Composition.NoItemsNoCalls | chopin/managers/composition.py:127-129 | sources whose item lists are empty cause no call |
| Composition.EmptyConfigComposesNothing | chopin/managers/composition.py:125-133 | a configuration without items calls nothing and composes `[]` |
| Composition.UrisAsWrittenFail | chopin/managers/composition.py:60-72 | as written, any non-empty uris list raises `TypeError` |
| Composition.ComposeWithUris | chopin/managers/composition.py:60-72 | a configuration with uris fails as written; with the corrected call it composes whenever the resolvers succeed |
| Endpoints.ValidateSingleTrack | chopin/client/endpoints.py:127-144 | an item validates iff it holds a track that conforms |
| Endpoints.ValidateTracks | chopin/client/endpoints.py:147-150 | at most one track per item, and one for every item exactly when every item is accepted |
| Endpoints.ValidateTracksSpec | chopin/client/endpoints.py:147-150 | `_validate_tracks` keeps exactly the accepted items, in order |
| Endpoints.ValidateTracksAppend | chopin/client/endpoints.py:147-150 | validation distributes over pages |
| Endpoints.PlaylistTracksAppend | chopin/client/endpoints.py:181-188 | the filtered tracks of two pages are the concatenation of each page's |
| Endpoints.PlaylistTracksInRange | chopin/client/endpoints.py:182-187 | with a range, a track is kept iff it validates and its release date lies in the inclusive range |
| Endpoints.PageOffsetsShape | chopin/client/endpoints.py:172-191 | the offsets advance by each page's size and stop at the first empty page |
| Endpoints.FetchPlaylist | chopin/client/endpoints.py:153-192 | an unknown playlist raises; a held one yields its validated, range-filtered tracks |
| Endpoints.PageStep | chopin/client/endpoints.py:172-191 | a page extends the tracks read so far; the offset requested is the next of `PageOffsets`, and an empty page comes only at the end |
| Endpoints.PageTracks | chopin/client/endpoints.py:181-188 | a page contributes its valid tracks, only those released in the range when one is given |
| Endpoints.GetPlaylistTracks | chopin/client/endpoints.py:168-192 | the paging loop computes `FetchPlaylist`, reading pages at the offsets `PageOffsets` describes |
| Endpoints.UserPlaylists | chopin/client/endpoints.py:95-103 | one record for each playlist of the first page of at most 50, keeping its id and uri |
| Endpoints.ListingIgnoresLaterPlaylists | chopin/client/endpoints.py:102 | once the first page is full, playlists after it change nothing that is listed |
| Endpoints.UserPlaylistNamesSimplified | chopin/client/endpoints.py:103-119 | for a listed playlist, the stored name is the simplified name, and re-simplifying it changes nothing |
| Endpoints.GetNamedPlaylist | chopin/client/endpoints.py:106-124 | returns the first playlist whose simplified name matches, else `ValueError` |
| Endpoints.GetNamedPlaylistFirst | chopin/client/endpoints.py:106-124 | whenever playlist `i` is the first whose simplified name matches, that playlist is the one returned |
| Endpoints.SearchArtist | chopin/client/endpoints.py:22-35 | returns the first search result whose name matches, or nothing |
| Endpoints.ArtistTopTracks | chopin/client/endpoints.py:38-50 | `min(len, max_tracks)` tracks sampled without replacement, distinct when the input is |
| Endpoints.TopTracksLimit | chopin/client/endpoints.py:294-299 | the limit is clamped to 50 and unchanged at or below it |
| Endpoints.GetTopTracks | chopin/client/endpoints.py:274-301 | the history is asked for `min(limit, 50)` tracks |
| Endpoints.AddRequests | chopin/client/endpoints.py:217-219 | one add request per page, in order |
| Endpoints.RemoveRequests | chopin/client/endpoints.py:231-233 | one remove request per page, in order |
| Endpoints.BatchesCover | chopin/client/endpoints.py:217-219 | the pages are non-empty, hold at most 99 ids, are full except the last, and concatenate to the input; an empty input sends nothing |
| Endpoints.RemoveIds | chopin/client/endpoints.py:231-233 | the remaining items are exactly the items that hold none of the ids |
| Endpoints.RemoveIdsAppend | chopin/client/endpoints.py:232-233 | removing the pages one after another is removing all their ids |
| Endpoints.RemoveValidLeavesRejected | chopin/client/endpoints.py:229-233 | after removing every valid id, only items that never validated remain |
| Endpoints.RemoveValidEmpties | chopin/client/endpoints.py:229-233 | a playlist whose items all validate is emptied |
| Endpoints.Account.AddTracksToPlaylist | chopin/client/endpoints.py:210-219 | sends the pages of ids and appends the ids' tracks to the playlist; an empty list changes nothing |
| Endpoints.Account.AppendPages | chopin/client/endpoints.py:218-219 | each batch is one request whose items are appended to the playlist, in order |
| Endpoints.AddPageStep | chopin/client/endpoints.py:218-219 | one more batch appends its items after those already added and logs one more request |
| Endpoints.RemovePageStep | chopin/client/endpoints.py:231-233 | one more removal batch removes its ids from what is left, the same as removing both batches at once |
| Endpoints.Account.RemoveTracks | chopin/client/endpoints.py:231-233 | sends the remove pages and drops every occurrence of the ids |
| Endpoints.Account.ReplaceTracksInPlaylist | chopin/client/endpoints.py:222-234 | removes every current valid id (paged), then adds exactly the new ids; an unknown playlist raises and changes nothing |
| Endpoints.ReplacedContents | chopin/client/endpoints.py:222-234 | after a replacement, only never-valid items precede the new ones, and a fully valid playlist holds exactly the new tracks |
| Endpoints.Account.CreateUserPlaylist | chopin/client/endpoints.py:195-207 | a new empty playlist is listed and returned, with an empty description |
| Endpoints.Account.LikeTracks | chopin/client/endpoints.py:237-243 | the uris are appended to the liked tracks |
| TrackManager.ShuffleTracks | chopin/managers/track.py:22-31 | the shuffle has the same length and the same multiset of tracks |
| TrackManager.ShuffleTracksReachesEveryOrder | chopin/managers/track.py:22-31 | every reordering of the tracks is the shuffle of some oracle, so together with the multiset ensures the possible shuffles are exactly the permutations |
| TrackManager.SaveTracks | chopin/managers/track.py:12-19 | likes exactly the tracks' uris, in order, in one request; playlists are untouched |
| PlaylistManager.CreateTarget | chopin/managers/playlist.py:61-62 | the first user playlist whose stored name equals the simplified name, or none |
| PlaylistManager.Create | chopin/managers/playlist.py:46-72 | a matching name with overwrite empties that playlist and returns it; without overwrite it raises `ValueError` and changes nothing; no match creates a new playlist |
| PlaylistManager.EmptyPlaylist | chopin/managers/playlist.py:64-66 | replacing with `[]` removes every valid id, page by page, so an overwritten playlist whose items all validate ends up empty |
| PlaylistManager.FillIds | chopin/managers/playlist.py:85 | `list(set(ids))` is duplicate-free and holds exactly the tracks' ids |
| PlaylistManager.Fill | chopin/managers/playlist.py:75-86 | adds the deduplicated ids to the playlist, in pages |
| PlaylistManager.FillSubmitsEachIdOnce | chopin/managers/playlist.py:85-86 | across all pages sent, each track id appears exactly once |
| PlaylistManager.ShuffledIds | chopin/managers/playlist.py:105-107 | the ids written back are a permutation of the playlist's own valid ids |
| PlaylistManager.ShufflePlaylist | chopin/managers/playlist.py:89-108 | an unknown name raises and changes nothing; otherwise the playlist is replaced by its shuffled ids |
| PlaylistManager.ShuffleKeepsTracks | chopin/managers/playlist.py:105-107 | a fully valid playlist ends up holding the same tracks in a new order |
| PlaylistManager.SelectFrom | chopin/managers/playlist.py:155-156 | fetch the playlist's tracks in the range, then select from them; an unknown playlist raises |
| PlaylistManager.SelectFromHeld | chopin/managers/playlist.py:155-156 | for a held playlist the selection succeeds with `min(nb, len)` tracks, all from the playlist and all in the range |
| PlaylistManager.TracksFromArtistName | chopin/managers/playlist.py:130-156 | no "This Is" playlist gives `[]`; otherwise select from it |
| PlaylistManager.TracksFromPlaylistUri | chopin/managers/playlist.py:159-182 | a failed fetch gives `[]`; otherwise select from the playlist; only selection errors escape |
| PlaylistManager.TracksFromPlaylistName | chopin/managers/playlist.py:185-212 | no simplified-name match among the user playlists gives `[]` |
| PlaylistManager.TracksFromFirstNamed | chopin/managers/playlist.py:185-212 | when a user playlist matches, the tracks are selected from the first match |
| PlaylistManager.TracksFromMix | chopin/managers/playlist.py:244-271 | no genre-mix playlist gives `[]`; otherwise select from it |
| PlaylistManager.TracksFromRadio | chopin/managers/playlist.py:215-241 | an unknown artist gives `[]`; otherwise select from the radio pool of the artist and their related artists |
| Radio.RadioPoolSnoc | chopin/managers/playlist.py:239-240 | gathering one more artist appends that artist's sample to the pool |
| PlaylistManager.GatherRadio | chopin/managers/playlist.py:238-240 | the loop extends the pool with each artist's top tracks, in order |
| Radio.TopOf | chopin/managers/playlist.py:240 | at most 10 top tracks per artist |
| Radio.Samples | chopin/managers/playlist.py:239-240 | one sample of top tracks per artist, in order |
| Radio.RadioPoolBounds | chopin/managers/playlist.py:237-240 | the pool holds at most 10 tracks per artist, each a top track of one of them |
| Radio.RadioPoolStartsWithArtist | chopin/managers/playlist.py:239-240 | the pool starts with the searched artist's own top tracks |
| PlaylistSchema.FirstArtistNames | chopin/schemas/playlist.py:52 | the first artist's name of each track |
| PlaylistSchema.NbArtists | chopin/schemas/playlist.py:52 | the number of distinct first-artist names: at most the track count, and positive for a non-empty list |
| PlaylistSchema.AvgPopularity | chopin/schemas/playlist.py:54 | average times count is the popularity sum; 0 for no tracks |
| PlaylistSchema.TotalDurationBounds | chopin/schemas/playlist.py:53 | with non-negative durations the total is non-negative and at least each track's duration |
| PlaylistSchema.TotalDurationAppend | chopin/schemas/playlist.py:53 | the total duration adds up over concatenation |
| PlaylistSchema.UniformTracks | chopin/schemas/playlist.py:53-54 | equal durations sum to count times duration, and equal popularities average to that popularity |
| PlaylistSchema.PopularitySumBounds | chopin/schemas/playlist.py:54 | the popularity sum lies between the track count times the lowest and times the highest popularity |
| PlaylistSchema.AvgPopularityBounds | chopin/schemas/playlist.py:54 | the average lies between the lowest and the highest popularity |
| PlaylistSchema.PlaylistSummary.FillFields | chopin/schemas/playlist.py:46-55 | sets the count, distinct artists, total duration and average; a track without artists raises `IndexError` and a missing popularity `TypeError`, each at the step where the source fails |
| PlaylistSchema.NewPlaylistSummary | chopin/schemas/playlist.py:23-55 | a summary is built iff every track has an artist and a popularity, with all statistics filled |
| PlaylistSchema.EmptySummary | chopin/schemas/playlist.py:51-54 | no tracks give 0 artists, 0 duration and 0 average |
| PlaylistSchema.SerializeSummary | chopin/schemas/playlist.py:63-70 | the form has the keys `playlist`, `tracks` and `version`, and `version` is the package version |
| PlaylistSchema.LoadDumpPlaylist | chopin/schemas/playlist.py:9-20 | validating a dumped playlist record gives it back |
| PlaylistSchema.LoadSummary | chopin/schemas/playlist.py:39-40 | the playlist and the tracks are read from their keys; `version` is ignored |
| PlaylistSchema.SerializeRoundTrip | chopin/schemas/playlist.py:63-70 | with the intended album validator, reading the serialized summary gives back the playlist and its tracks |
| PlaylistSchema.SerializeAsWrittenFails | chopin/schemas/playlist.py:63-70 | as written, the serialized form of a summary with any track cannot be validated again |
| PlaylistSchema.ValidateSummary | chopin/schemas/playlist.py:46-55 | `model_validate` succeeds iff the fields read and every track has an artist and a popularity; the statistics are then recomputed from the tracks |
| Recommendation.Fields | schemas/base.py:21-33 | the twelve features, in declaration order |
| Recommendation.TargetEntries | managers/recommendation.py:22-26 | at most one keyword per feature |
| Recommendation.TargetEntriesSpec | managers/recommendation.py:22-26 | `target_<name>` maps to the value for every present feature and never for a `None` one |
| Recommendation.GenerateTargetFeatures | managers/recommendation.py:12-26 | the keywords are exactly `target_<feature>` for each feature with a value |
| Recommendation.TwoFeatures | managers/recommendation.py:22-26 | features with only acousticness and loudness set give exactly `target_acousticness` and `target_loudness`, with their values, in field order |
| Recommendation.KwargsOf | managers/recommendation.py:57 | without target features no keyword is sent |
| Recommendation.SeedIds | managers/recommendation.py:53-56 | more than 5 items give exactly 5 distinct seeds drawn from them; 5 or fewer give all ids in order |
| Recommendation.CountedSeeds | managers/recommendation.py:106-114 | the counted list is the artists if any, else the tracks if any, else the genres |
| Recommendation.ValidateRecommended | schemas/base.py:68-76 | a raw track validates iff it conforms and has a popularity, which is kept with the other fields |
| Recommendation.RecommendedIsStricter | schemas/base.py:68-76 | a recommended track also validates as a playlist track with the same popularity; one without popularity validates only as a playlist track |
| Recommendation.ValidateAll | managers/recommendation.py:124 | the answer validates iff every track validates, track by track |
| Recommendation.GetRecommendationsAsWritten | managers/recommendation.py:85-124 | raises `ValueError` iff the counted list has more than 5 seeds |
| Recommendation.GetRecommendations | managers/recommendation.py:85-124 | raises `ValueError` iff there are more than 5 seeds in all |
| Recommendation.SixSeedsSlipThrough | managers/recommendation.py:106-116 | three artists and three tracks pass as written, but are refused when all seeds are counted |
| Recommendation.OneSeedKindAgrees | managers/recommendation.py:106-116 | with a single kind of seed both checks agree |
| Recommendation.RecommendFromArtists | managers/recommendation.py:35-58 | the recommendations for the artist seeds and target keywords |
| Recommendation.RecommendFromTracks | managers/recommendation.py:60-83 | the recommendations for the track seeds and target keywords |

## Left out

- Transport, authentication, caching (`lru_cache`) and logging are not modelled. The Spotify service is the abstract `Account` state.
- Some lookups are imported by `chopin/managers/playlist.py` and `chopin/client/endpoints.py` but not defined in the repository: `get_this_is_playlist`, `get_genre_mix_playlist`, `get_related_artists` and `owner_is_spotify`. The first three are parameters: the found playlist, and `relatedOf`. The last is not needed, because the choice of client does not change the result.
- The `parse_release_date` album date parser is not part of this model. It is the parameter `parse`, and album release dates are already `Date` values.
- Emoji removal, NFD decomposition and the combining-mark test are the uninterpreted functions of `Strings.TextLib`.
- `Strings.Lower`: lower-casing maps each character to one character, independently of its neighbours (`TextLib.lowerChar`). Python's `str.lower` also maps one character to several (`'İ'` gives `'i'` and a combining dot) and lower-cases a final sigma by context (`'ΑΣ'` gives `'ας'`). `Strings.SimplifyString` and the name matching inherit this narrowing.
- `Endpoints.SearchArtist`, `Endpoints.ArtistTopTracks`, `Endpoints.GetTopTracks`: the service's answers arrive already typed, as `Artist` and `Track` values. So the `ValidationError` that `ArtistData(**...)` and `TrackData(**...)` raise on an answer that does not fit the schema is not modelled. Examples are a null `duration_ms` or an album date the parser refuses.
- `datetime.now()` is the parameter `now`.
- Random choices come from an oracle, and the radio takes one oracle per artist. A fixed rule for turning oracle values into indices is used (each draw is reduced modulo the number of elements left). The properties hold for every oracle; the model does not claim uniform distributions.
- `create_playlist` / `get_current_user` are parameters to `Create`: the user id, and the new playlist's id and uri that the service would assign.
- `create_playlist_from_queue`, `get_queue`, `get_likes`, `get_top_artists`, `get_currently_playing` and `add_to_queue` are not modelled. They are not part of the composition engine.
- `summarize_playlist` and `dump` are not modelled: they are a fetch plus a file write. The summary and its serialized form are modelled in `PlaylistSchema`.
- `PlaylistManager.TracksFromMix` omits the `ipdb.set_trace()` breakpoint at `chopin/managers/playlist.py:268-270`.
- Playlists are addressed by id. The service state does not tell ids and uris apart, so `fill(uri, …)` and `tracks_from_playlist_uri` look the given string up among the held ids.
- A write to a playlist the account does not hold is modelled as a transport error (HTTP 404) that changes nothing.
- `Tracks.ValidateTrack`: the type checks on the remaining fields of a raw track are summarised by one `conforms` flag. `album` and `artists` are not optional in the model, which keeps only the shapes the engine reads.
- Composer weights are exact reals, not floats. With items whose weights are all zero, the source computes `0/0` and then fails on `ceil(nan)`. `NewComposerConfig` reports this as an error, and `FillNbSongs` requires a positive total weight.
- `Recommendation.SeedIds`: the sample is drawn on the items' ids rather than on the items. The ids of the drawn items are the same draw.
- `get_related_artists` is the parameter `relatedOf`, called with the limit 10. The model does not assume its answer respects that limit, so the radio pool is bounded per artist, not in total.
- `Endpoints.GetPlaylistTracks`: the page size the service returns is fixed at 100, and the request's `fields` filter is not modelled.
- `PlaylistSchema.PlaylistSummary.FillFields`: `_total_duration` is an integer, and `__str__` is not modelled.
- `PlaylistSchema.AvgPopularity`: the average is an exact rational, not the float `sum / len` computes, so rounding is not modelled.
- `Composer.ValidateFields`: pydantic checks every field and reports all failures in one `ValidationError`. The model reports the first failing check. So it keeps the error kind, but not which failures the message lists.
- `Dates.ParseDmy`: only the ASCII digits `0`-`9` are digits. `strptime`'s `\d` also accepts other Unicode decimal digits, such as Arabic-Indic digits, which the model refuses. `Dates.ReadDate` and the configuration's release range inherit this.
- `Recommendation.ValidateRecommended`: the raw answer always carries an album and artists in the model, so the optional `album` and `artists` of `schemas/base.py` are never absent. The `features` field and that file's year-only album release date are not modelled.
- `Endpoints.UserPlaylists`: the page size of `current_user_playlists` is the client default, 50.

## Findings

| source | as written | input that shows it | evidently intended | confidence | as-written member | corrected member |
|---|---|---|---|---|---|---|
| chopin/managers/composition.py:65 | `_add_from_uris` calls `tracks_from_playlist_uri(playlist_id=...)`, but that function's parameter is `playlist_uri` (chopin/managers/playlist.py:159-164), so every call raises `TypeError` | a configuration with one entry under `uris` | pass the item's name as `playlist_uri` | high, not executed | Composition.UrisAsWrittenFail | Composition.ComposeWithUris |
| managers/recommendation.py:106-116 | the conditional expression counts only the first non-empty seed list, so the 5-seed check ignores the other lists | `seed_artists` of 3 ids together with `seed_tracks` of 3 ids (6 seeds in all) | count every seed given, since the service accepts at most 5 seeds in total | medium, not executed | Recommendation.SixSeedsSlipThrough | Recommendation.GetRecommendations |
| chopin/schemas/album.py:26-30 | the `release_date` validator returns a value only for a string, so the `date` that `model_dump` leaves in a dumped album becomes `None`, which the declared type (a `date` or a `str`) refuses; a serialized summary therefore cannot be validated again | `PlaylistSummary.model_validate(summary.model_dump())` for a summary with one track, as tests/schemas/test_playlist.py:20-26 does | let a `date` pass through the validator unchanged | high, not executed | PlaylistSchema.SerializeAsWrittenFails | PlaylistSchema.SerializeRoundTrip |
