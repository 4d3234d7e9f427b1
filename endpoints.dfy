/** `chopin/client/endpoints.py`: the calls to the Spotify service that the
    composition engine relies on. The service is an abstract remote state
    (`Account`): the user's playlists, the items each playlist holds, the
    saved tracks, and the log of write requests sent to it. Answers that come
    from elsewhere in the service (search results, an artist's top tracks, a
    user's listening history) are parameters. */
module Endpoints {
  import opened Common
  import opened Seqs
  import opened Dates
  import Strings
  import opened Tracks
  import opened PlaylistSchema

  /** Items per `playlist_items` page (the client's default `limit`). */
  const PageLimit := 100
  /** Track ids sent per add or remove request. */
  const MaxItemsPerRequest := 99
  /** `SPOTIFY_API_HISTORY_LIMIT`: the most top tracks the service returns. */
  const HistoryLimit := 50

  // ---------------------------------------------------------------------
  // Validation of playlist items

  /** One entry of a `playlist_items` page: when it was added, and its track,
      which is absent for an item the service no longer has. */
  datatype PlaylistItem = PlaylistItem(addedAt: Option<Temporal>, track: Option<RawTrack>)

  /** The item holds a track and that track passes `TrackData` validation. */
  predicate Accepted(item: PlaylistItem) {
    item.track.Some? && item.track.value.conforms
  }

  /** `_validate_single_track`: an item without a track gives `None`, and so
      does a track that fails validation (the error is logged and dropped). */
  function ValidateSingleTrack(item: PlaylistItem): (r: Option<Track>)
    ensures r.Some? <==> Accepted(item)
    ensures r.Some? ==> r.value.id == item.track.value.id && r.value.album == item.track.value.album
  {
    if item.track.None? then None else ValidateTrack(item.track.value, item.addedAt)
  }

  /** `_validate_tracks`: the validated tracks, in item order. */
  function ValidateTracks(items: seq<PlaylistItem>): (r: seq<Track>)
    ensures |r| <= |items|
    ensures |r| == |items| <==> forall i :: 0 <= i < |items| ==> Accepted(items[i])
  {
    if |items| == 0 then []
    else
      match ValidateSingleTrack(items[0])
      case Some(t) => [t] + ValidateTracks(items[1..])
      case None => ValidateTracks(items[1..])
  }

  /** The validated tracks are the accepted items, in order, each validated:
      filtering and then validating gives the same list. */
  lemma {:induction false} ValidateTracksSpec(items: seq<PlaylistItem>)
    ensures |ValidateTracks(items)| == |Filter(items, Accepted)|
    ensures forall i :: 0 <= i < |ValidateTracks(items)| ==>
              ValidateSingleTrack(Filter(items, Accepted)[i]) == Some(ValidateTracks(items)[i])
  {
    if |items| > 0 {
      ValidateTracksSpec(items[1..]);
    }
  }

  lemma {:induction false} ValidateTracksAppend(a: seq<PlaylistItem>, b: seq<PlaylistItem>)
    ensures ValidateTracks(a + b) == ValidateTracks(a) + ValidateTracks(b)
  {
    if |a| == 0 {
      assert a + b == b;
    } else {
      assert (a + b)[1..] == a[1..] + b;
      ValidateTracksAppend(a[1..], b);
    }
  }

  /** Every accepted item's track id is among the validated ids. */
  lemma {:induction false} AcceptedIdsValidated(items: seq<PlaylistItem>)
    ensures forall i :: 0 <= i < |items| && Accepted(items[i]) ==> items[i].track.value.id in ValidIds(items)
  {
    if |items| > 0 {
      AcceptedIdsValidated(items[1..]);
      forall i | 0 <= i < |items| && Accepted(items[i])
        ensures items[i].track.value.id in ValidIds(items)
      {
        if i > 0 {
          assert items[1..][i - 1] == items[i];
          var k :| 0 <= k < |ValidIds(items[1..])| && ValidIds(items[1..])[k] == items[i].track.value.id;
          if Accepted(items[0]) {
            assert ValidIds(items)[k + 1] == ValidIds(items[1..])[k];
          } else {
            assert ValidIds(items)[k] == ValidIds(items[1..])[k];
          }
        } else {
          assert ValidIds(items)[0] == items[0].track.value.id;
        }
      }
    }
  }

  function TrackId(t: Track): string {
    t.id
  }

  /** The ids of the validated tracks. */
  function ValidIds(items: seq<PlaylistItem>): seq<string> {
    Map(ValidateTracks(items), TrackId)
  }

  // ---------------------------------------------------------------------
  // The release-date filter and the paginated fetch

  function ReleasedIn(range: ReleaseRange): Track -> bool {
    (t: Track) => InRange(t.album.releaseDate, range)
  }

  /** What `get_playlist_tracks` returns for a playlist holding `items`: the
      validated tracks, and with a range only those released inside it. */
  function PlaylistTracks(items: seq<PlaylistItem>, range: Option<ReleaseRange>): seq<Track> {
    var valid := ValidateTracks(items);
    if range.None? then valid else Filter(valid, ReleasedIn(range.value))
  }

  lemma PlaylistTracksAppend(a: seq<PlaylistItem>, b: seq<PlaylistItem>, range: Option<ReleaseRange>)
    ensures PlaylistTracks(a + b, range) == PlaylistTracks(a, range) + PlaylistTracks(b, range)
  {
    ValidateTracksAppend(a, b);
    if range.Some? {
      FilterAppend(ValidateTracks(a), ValidateTracks(b), ReleasedIn(range.value));
    }
  }

  /** With a range, a track is returned exactly when it is valid and its
      album came out between the two dates, both ends included. */
  lemma PlaylistTracksInRange(items: seq<PlaylistItem>, range: ReleaseRange)
    ensures forall t :: t in PlaylistTracks(items, Some(range))
              <==> t in ValidateTracks(items)
                   && DateLe(range.start.date, t.album.releaseDate) && DateLe(t.album.releaseDate, range.end.date)
  {
    FilterSubset(ValidateTracks(items), ReleasedIn(range));
  }

  /** The offsets of the successive `playlist_items` requests for a playlist
      of `n` items, starting at `offset`: each page holds up to `PageLimit`
      items, and the request at offset `n` gets the empty page that ends the
      loop. */
  function PageOffsets(n: nat, offset: nat): seq<nat>
    decreases n - offset
  {
    if offset >= n then [offset]
    else [offset] + PageOffsets(n, offset + Min(PageLimit, n - offset))
  }

  /** Request `i` asks for offset `min(i * 100, n)`: the offset grows by a
      full page until the items run out, and the last request, the only one
      at offset `n`, is the one that comes back empty. */
  lemma {:induction false} PageOffsetsShape(n: nat, offset: nat)
    requires offset <= n
    ensures var r := PageOffsets(n, offset);
      && |r| > 0 && r[|r| - 1] == n
      && (forall i :: 0 <= i < |r| ==> r[i] == Min(offset + i * PageLimit, n))
      && (forall i :: 0 <= i < |r| - 1 ==> r[i] < n)
    decreases n - offset
  {
    if offset < n {
      var next := offset + Min(PageLimit, n - offset);
      PageOffsetsShape(n, next);
      var r := PageOffsets(n, offset);
      var rest := PageOffsets(n, next);
      assert r == [offset] + rest;
      forall i | 1 <= i < |r| ensures r[i] == Min(offset + i * PageLimit, n) {
        assert r[i] == rest[i - 1];
        if n - offset > PageLimit {
          assert next + (i - 1) * PageLimit == offset + i * PageLimit;
        }
      }
    }
  }

  lemma PageOffsetsNext(n: nat, offset: nat)
    requires offset <= n
    ensures offset == n ==> PageOffsets(n, offset) == [offset]
    ensures offset < n ==> PageOffsets(n, offset) == [offset] + PageOffsets(n, offset + Min(PageLimit, n - offset))
  {
  }

  /** What fetching a playlist gives: its tracks, or the error of the first
      request when the service does not hold it. */
  function FetchPlaylist(contents: map<string, seq<PlaylistItem>>, playlistId: string, range: Option<ReleaseRange>): (r: Result<seq<Track>>)
    ensures r.Err? <==> playlistId !in contents
    ensures r.Ok? ==> r.value == PlaylistTracks(contents[playlistId], range)
  {
    if playlistId in contents then Ok(PlaylistTracks(contents[playlistId], range))
    else Err(TransportError("http status: 404, Not found."))
  }

  /** One request of `get_playlist_tracks` at `offset`: the tracks of the
      page extend those already read, and the offset requested is the next
      one of the sequence; an empty page comes only at the end. */
  lemma PageStep(items: seq<PlaylistItem>, offset: nat, range: Option<ReleaseRange>, offsets: seq<nat>)
    requires offset <= |items|
    requires offsets + PageOffsets(|items|, offset) == PageOffsets(|items|, 0)
    ensures var end := Min(offset + PageLimit, |items|);
      && PlaylistTracks(items[..end], range) == PlaylistTracks(items[..offset], range) + PlaylistTracks(items[offset..end], range)
      && (end == offset ==> offset == |items| && offsets + [offset] == PageOffsets(|items|, 0))
      && (end != offset ==> (offsets + [offset]) + PageOffsets(|items|, end) == PageOffsets(|items|, 0))
  {
    var end := Min(offset + PageLimit, |items|);
    assert items[..end] == items[..offset] + items[offset..end];
    PlaylistTracksAppend(items[..offset], items[offset..end], range);
    PageOffsetsNext(|items|, offset);
    if end != offset {
      assert (offsets + [offset]) + PageOffsets(|items|, end) == offsets + PageOffsets(|items|, offset);
    }
  }

  /** One page of `get_playlist_tracks`: validate its items, and with a
      range keep the tracks released inside it. */
  method PageTracks(page: seq<PlaylistItem>, range: Option<ReleaseRange>) returns (pageTracks: seq<Track>)
    ensures pageTracks == PlaylistTracks(page, range)
  {
    pageTracks := ValidateTracks(page);
    if range.Some? {
      pageTracks := Filter(pageTracks, ReleasedIn(range.value));
    }
  }

  /** `get_playlist_tracks`: request pages at increasing offsets, advancing
      by the size of each page, until a page comes back empty; validate each
      page, and with a release range keep only the tracks released inside it.
      A playlist the service does not hold makes the first request fail.
      `offsets` lists the offsets requested. */
  method GetPlaylistTracks(contents: map<string, seq<PlaylistItem>>, playlistId: string, range: Option<ReleaseRange>)
    returns (r: Result<seq<Track>>, offsets: seq<nat>)
    ensures r == FetchPlaylist(contents, playlistId, range)
    ensures r.Ok? ==> offsets == PageOffsets(|contents[playlistId]|, 0)
  {
    if playlistId !in contents {
      return Err(TransportError("http status: 404, Not found.")), [0];
    }
    var items := contents[playlistId];
    var offset: nat := 0;
    var tracks: seq<Track> := [];
    offsets := [];
    while true
      invariant offset <= |items|
      invariant tracks == PlaylistTracks(items[..offset], range)
      invariant offsets + PageOffsets(|items|, offset) == PageOffsets(|items|, 0)
      decreases |items| - offset
    {
      var end := Min(offset + PageLimit, |items|);
      var page := items[offset..end];
      PageStep(items, offset, range, offsets);
      offsets := offsets + [offset];
      var pageTracks := PageTracks(page, range);
      tracks := tracks + pageTracks;
      if |page| == 0 {
        break;
      }
      offset := end;
    }
    assert items[..offset] == items;
    return Ok(tracks), offsets;
  }

  // ---------------------------------------------------------------------
  // Playlists by name

  /** A user playlist as the service lists it. */
  datatype RemotePlaylist = RemotePlaylist(name: string, uri: string, id: string)

  /** How many playlists one call to `current_user_playlists` lists: the
      client's default page size. */
  const PlaylistPageLimit := 50

  /** `get_user_playlists`: the first page of the user's playlists, names
      simplified; the playlists after it are never read. */
  function UserPlaylists(lib: Strings.TextLib, listed: seq<RemotePlaylist>): (r: seq<PlaylistData>)
    ensures |r| == Min(PlaylistPageLimit, |listed|)
    ensures forall i :: 0 <= i < |r| ==> r[i].id == listed[i].id && r[i].uri == listed[i].uri
  {
    var n := Min(PlaylistPageLimit, |listed|);
    seq(n, i requires 0 <= i < n =>
      NewPlaylistData(Strings.SimplifyString(lib, listed[i].name), listed[i].uri, listed[i].id))
  }

  /** Once a page is full, playlists added after it do not change what is
      listed. */
  lemma ListingIgnoresLaterPlaylists(lib: Strings.TextLib, listed: seq<RemotePlaylist>, more: seq<RemotePlaylist>)
    requires |listed| >= PlaylistPageLimit
    ensures UserPlaylists(lib, listed + more) == UserPlaylists(lib, listed)
  {
    var a, b := UserPlaylists(lib, listed + more), UserPlaylists(lib, listed);
    forall i | 0 <= i < |a| ensures a[i] == b[i] {
      assert (listed + more)[i] == listed[i];
    }
  }

  /** The stored names are simplified ones, so simplifying them again, as
      the name lookups do, leaves them unchanged (for emoji-free names). */
  lemma UserPlaylistNamesSimplified(lib: Strings.TextLib, listed: seq<RemotePlaylist>, i: nat)
    requires Strings.WellBehaved(lib) && i < |listed| && i < PlaylistPageLimit
    requires var s := Strings.SimplifyString(lib, listed[i].name); lib.replaceEmoji(s) == s
    ensures var name := UserPlaylists(lib, listed)[i].name;
      && name == Strings.SimplifyString(lib, listed[i].name)
      && Strings.SimplifyString(lib, name) == name
  {
    Strings.SimplifyIdempotent(lib, listed[i].name);
  }

  /** Does the playlist's simplified name equal the simplified query? */
  predicate NameMatches(lib: Strings.TextLib, p: PlaylistData, name: string) {
    Strings.SimplifyString(lib, p.name) == Strings.SimplifyString(lib, name)
  }

  /** `get_named_playlist`: the first playlist whose simplified name equals
      the simplified query; `ValueError` when there is none. */
  function GetNamedPlaylist(lib: Strings.TextLib, playlists: seq<PlaylistData>, name: string): (r: Result<PlaylistData>)
    ensures r.Err? <==> forall i :: 0 <= i < |playlists| ==> !NameMatches(lib, playlists[i], name)
    ensures r.Err? ==> r.error.ValueError?
    ensures r.Ok? ==> exists i :: 0 <= i < |playlists| && playlists[i] == r.value && NameMatches(lib, playlists[i], name)
                                  && forall j :: 0 <= j < i ==> !NameMatches(lib, playlists[j], name)
  {
    match FirstWhere(playlists, (p: PlaylistData) => NameMatches(lib, p, name))
    case None => Err(ValueError("Couldn't find playlist " + name + " in user playlists"))
    case Some(i) => Ok(playlists[i])
  }

  /** The first matching playlist is the one found. */
  lemma GetNamedPlaylistFirst(lib: Strings.TextLib, playlists: seq<PlaylistData>, name: string, i: nat)
    requires i < |playlists| && NameMatches(lib, playlists[i], name)
    requires forall j :: 0 <= j < i ==> !NameMatches(lib, playlists[j], name)
    ensures GetNamedPlaylist(lib, playlists, name) == Ok(playlists[i])
  {
    var r := GetNamedPlaylist(lib, playlists, name);
    var k :| 0 <= k < |playlists| && playlists[k] == r.value && NameMatches(lib, playlists[k], name)
             && forall j :: 0 <= j < k ==> !NameMatches(lib, playlists[j], name);
    assert !(k < i);
    assert !(i < k);
  }

  // ---------------------------------------------------------------------
  // Artists and top tracks

  /** `search_artist`: among the artists the search returned, the first whose
      name matches the query accent- and case-insensitively. */
  function SearchArtist(lib: Strings.TextLib, found: seq<Artist>, artistName: string): (r: Option<Artist>)
    ensures r.None? <==> forall i :: 0 <= i < |found| ==> !Strings.MatchStrings(lib, [found[i].name, artistName])
    ensures r.Some? ==> exists i :: 0 <= i < |found| && found[i] == r.value
                                    && Strings.MatchStrings(lib, [found[i].name, artistName])
                                    && forall j :: 0 <= j < i ==> !Strings.MatchStrings(lib, [found[j].name, artistName])
  {
    match FirstWhere(found, (a: Artist) => Strings.MatchStrings(lib, [a.name, artistName]))
    case None => None
    case Some(i) => Some(found[i])
  }

  /** `get_artist_top_tracks`: `random.sample` of `min(len(tracks), max_tracks)`
      of the artist's top tracks; a negative count raises `ValueError`. */
  function ArtistTopTracks(tracks: seq<Track>, maxTracks: int, rng: seq<nat>): (r: Result<seq<Track>>)
    ensures r.Err? <==> maxTracks < 0
    ensures r.Ok? ==> |r.value| == Min(|tracks|, maxTracks)
    ensures r.Ok? ==> multiset(r.value) <= multiset(tracks)
    ensures r.Ok? && Distinct(tracks) ==> Distinct(r.value)
  {
    var k := Min(|tracks|, maxTracks);
    if k < 0 then Err(ValueError("Sample larger than population or is negative"))
    else
      assert Distinct(tracks) ==> Distinct(Sample(tracks, k, rng)) by {
        if Distinct(tracks) {
          SampleDistinct(tracks, k, rng);
        }
      }
      Ok(Sample(tracks, k, rng))
  }

  /** The `limit` sent for the user's top tracks. */
  function TopTracksLimit(limit: int): (n: int)
    ensures n <= HistoryLimit
    ensures n == limit <==> limit <= HistoryLimit
  {
    if limit > HistoryLimit then HistoryLimit else limit
  }

  /** `get_top_tracks`: the service's answer (`topTracks`, keyed by time range
      and limit) for a limit clamped to `HistoryLimit`. */
  function GetTopTracks(topTracks: (string, int) -> seq<Track>, timeRange: string, limit: int): (r: seq<Track>)
    ensures r == topTracks(timeRange, Min(limit, HistoryLimit))
  {
    topTracks(timeRange, TopTracksLimit(limit))
  }

  // ---------------------------------------------------------------------
  // Write requests

  /** A write request sent to the service. */
  datatype Request =
    | AddItems(playlistId: string, ids: seq<string>)
    | RemoveItems(playlistId: string, ids: seq<string>)
    | SaveTracks(uris: seq<string>)
    | CreatePlaylist(userId: string, name: string, description: string)

  function AddRequests(playlistId: string, pages: seq<seq<string>>): (r: seq<Request>)
    ensures |r| == |pages|
    ensures forall i :: 0 <= i < |pages| ==> r[i] == AddItems(playlistId, pages[i])
  {
    seq(|pages|, i requires 0 <= i < |pages| => AddItems(playlistId, pages[i]))
  }

  function RemoveRequests(playlistId: string, pages: seq<seq<string>>): (r: seq<Request>)
    ensures |r| == |pages|
    ensures forall i :: 0 <= i < |pages| ==> r[i] == RemoveItems(playlistId, pages[i])
  {
    seq(|pages|, i requires 0 <= i < |pages| => RemoveItems(playlistId, pages[i]))
  }

  /** The ids a request carries. */
  function Payload(q: Request): seq<string> {
    match q
    case AddItems(_, ids) => ids
    case RemoveItems(_, ids) => ids
    case SaveTracks(uris) => uris
    case CreatePlaylist(_, _, _) => []
  }

  /** Batching `ids` sends non-empty requests of at most 99 ids, all full but
      the last, whose ids put together are `ids` in order; no ids, no request. */
  lemma BatchesCover(playlistId: string, ids: seq<string>, remove: bool)
    ensures var pages := Pages(ids, MaxItemsPerRequest);
      var reqs := if remove then RemoveRequests(playlistId, pages) else AddRequests(playlistId, pages);
      && (|reqs| == 0 <==> |ids| == 0)
      && (forall i :: 0 <= i < |reqs| ==> reqs[i].playlistId == playlistId && 0 < |Payload(reqs[i])| <= MaxItemsPerRequest)
      && (forall i :: 0 <= i < |reqs| - 1 ==> |Payload(reqs[i])| == MaxItemsPerRequest)
      && Flatten(Map(reqs, Payload)) == ids
  {
    var pages := Pages(ids, MaxItemsPerRequest);
    var reqs := if remove then RemoveRequests(playlistId, pages) else AddRequests(playlistId, pages);
    assert Map(reqs, Payload) == pages;
  }

  /** Does the item hold a track whose id is among `ids`? */
  predicate Holds(item: PlaylistItem, ids: seq<string>) {
    item.track.Some? && item.track.value.id in ids
  }

  function Without(ids: seq<string>): PlaylistItem -> bool {
    (item: PlaylistItem) => !Holds(item, ids)
  }

  /** `playlist_remove_all_occurrences_of_items`: every item holding one of
      the ids goes, whether or not its track validates. */
  function RemoveIds(items: seq<PlaylistItem>, ids: seq<string>): (r: seq<PlaylistItem>)
    ensures |r| <= |items|
    ensures forall x :: x in r <==> x in items && !Holds(x, ids)
  {
    FilterSubset(items, Without(ids));
    Filter(items, Without(ids))
  }

  lemma {:induction false} RemoveIdsAppend(items: seq<PlaylistItem>, a: seq<string>, b: seq<string>)
    ensures RemoveIds(RemoveIds(items, a), b) == RemoveIds(items, a + b)
  {
    if |items| > 0 {
      RemoveIdsAppend(items[1..], a, b);
    }
  }

  lemma RemoveNothing(items: seq<PlaylistItem>)
    ensures RemoveIds(items, []) == items
  {
    FilterAll(items, Without([]));
  }

  /** Removing the validated ids leaves only items that fail validation. */
  lemma RemoveValidLeavesRejected(items: seq<PlaylistItem>)
    ensures forall it :: it in RemoveIds(items, ValidIds(items)) ==> it in items && !Accepted(it)
  {
    AcceptedIdsValidated(items);
    FilterSubset(items, Without(ValidIds(items)));
  }

  /** When every item validates, removing the validated ids empties the list. */
  lemma RemoveValidEmpties(items: seq<PlaylistItem>)
    requires forall i :: 0 <= i < |items| ==> Accepted(items[i])
    ensures RemoveIds(items, ValidIds(items)) == []
  {
    AcceptedIdsValidated(items);
    FilterNone(items, Without(ValidIds(items)));
  }

  // ---------------------------------------------------------------------
  // The remote state

  /** One more page of additions: its items go after those already added,
      and one more request is logged. */
  lemma AddPageStep(playlistId: string, items: seq<PlaylistItem>, pages: seq<seq<string>>, i: nat, catalog: string -> PlaylistItem)
    requires i < |pages|
    ensures items + Map(Flatten(pages[..i + 1]), catalog) == (items + Map(Flatten(pages[..i]), catalog)) + Map(pages[i], catalog)
    ensures AddRequests(playlistId, pages[..i + 1]) == AddRequests(playlistId, pages[..i]) + [AddItems(playlistId, pages[i])]
  {
    assert pages[..i + 1] == pages[..i] + [pages[i]];
    FlattenSnoc(pages[..i], pages[i]);
    MapAppend(Flatten(pages[..i]), pages[i], catalog);
  }

  /** One more page of removals: its ids go after those already removed,
      and one more request is logged. */
  lemma RemovePageStep(playlistId: string, items: seq<PlaylistItem>, pages: seq<seq<string>>, i: nat)
    requires i < |pages|
    ensures RemoveIds(RemoveIds(items, Flatten(pages[..i])), pages[i]) == RemoveIds(items, Flatten(pages[..i + 1]))
    ensures RemoveRequests(playlistId, pages[..i + 1]) == RemoveRequests(playlistId, pages[..i]) + [RemoveItems(playlistId, pages[i])]
  {
    assert pages[..i + 1] == pages[..i] + [pages[i]];
    FlattenSnoc(pages[..i], pages[i]);
    RemoveIdsAppend(items, Flatten(pages[..i]), pages[i]);
  }

  /** The user's side of the service. `catalog` gives the item the service
      appends to a playlist for an added track id. */
  class Account {
    var playlists: seq<RemotePlaylist>
    var contents: map<string, seq<PlaylistItem>>
    var liked: seq<string>
    var requests: seq<Request>
    const catalog: string -> PlaylistItem

    /** Every listed playlist has contents. */
    predicate Valid()
      reads this
    {
      forall i :: 0 <= i < |playlists| ==> playlists[i].id in contents
    }

    constructor (listed: seq<RemotePlaylist>, held: map<string, seq<PlaylistItem>>, items: string -> PlaylistItem)
      requires forall i :: 0 <= i < |listed| ==> listed[i].id in held
      ensures Valid()
      ensures playlists == listed && contents == held && catalog == items
      ensures liked == [] && requests == []
    {
      playlists := listed;
      contents := held;
      catalog := items;
      liked := [];
      requests := [];
    }

    /** The contents after the tracks of `old` are replaced by `ids`. */
    function Replaced(items: seq<PlaylistItem>, ids: seq<string>): seq<PlaylistItem> {
      RemoveIds(items, ValidIds(items)) + Map(ids, catalog)
    }

    /** `add_tracks_to_playlist`: the ids in batches of 99, each appended in
        turn. A playlist the service does not hold fails the first request. */
    method AddTracksToPlaylist(playlistId: string, trackIds: seq<string>) returns (r: Result<()>)
      modifies this
      ensures r.Err? <==> playlistId !in old(contents) && |trackIds| > 0
      ensures r.Err? ==> contents == old(contents) && requests == old(requests)
      ensures r.Ok? ==> requests == old(requests) + AddRequests(playlistId, Pages(trackIds, MaxItemsPerRequest))
      ensures r.Ok? && |trackIds| == 0 ==> contents == old(contents)
      ensures r.Ok? && |trackIds| > 0 ==>
                contents == old(contents)[playlistId := old(contents)[playlistId] + Map(trackIds, catalog)]
      ensures playlists == old(playlists) && liked == old(liked)
      ensures old(Valid()) ==> Valid()
    {
      var pages := Pages(trackIds, MaxItemsPerRequest);
      if |pages| == 0 {
        return Ok(());
      }
      if playlistId !in contents {
        return Err(TransportError("http status: 404, Invalid playlist Id"));
      }
      AppendPages(playlistId, pages);
      return Ok(());
    }

    /** The loop of `add_tracks_to_playlist` over the batches of a playlist
        the service holds: each batch is one request appending its items. */
    method AppendPages(playlistId: string, pages: seq<seq<string>>)
      requires playlistId in contents
      modifies this
      ensures contents == old(contents)[playlistId := old(contents)[playlistId] + Map(Flatten(pages), catalog)]
      ensures requests == old(requests) + AddRequests(playlistId, pages)
      ensures playlists == old(playlists) && liked == old(liked)
    {
      ghost var items := contents[playlistId];
      assert pages[..0] == [];
      assert items + Map(Flatten(pages[..0]), catalog) == items;
      assert contents == old(contents)[playlistId := items];
      for i := 0 to |pages|
        invariant playlistId in contents
        invariant contents == old(contents)[playlistId := items + Map(Flatten(pages[..i]), catalog)]
        invariant requests == old(requests) + AddRequests(playlistId, pages[..i])
        invariant playlists == old(playlists) && liked == old(liked)
      {
        AddPageStep(playlistId, items, pages, i, catalog);
        requests := requests + [AddItems(playlistId, pages[i])];
        contents := contents[playlistId := contents[playlistId] + Map(pages[i], catalog)];
      }
      assert pages[..|pages|] == pages;
    }

    /** The removal half of `replace_tracks_in_playlist`: every occurrence
        of the ids goes, in batches of 99. */
    method RemoveTracks(playlistId: string, trackIds: seq<string>)
      requires playlistId in contents
      modifies this
      ensures contents == old(contents)[playlistId := RemoveIds(old(contents)[playlistId], trackIds)]
      ensures requests == old(requests) + RemoveRequests(playlistId, Pages(trackIds, MaxItemsPerRequest))
      ensures playlists == old(playlists) && liked == old(liked)
    {
      ghost var items := contents[playlistId];
      var pages := Pages(trackIds, MaxItemsPerRequest);
      RemoveNothing(items);
      assert pages[..0] == [];
      assert contents == old(contents)[playlistId := RemoveIds(items, Flatten(pages[..0]))];
      for i := 0 to |pages|
        invariant playlistId in contents
        invariant contents == old(contents)[playlistId := RemoveIds(items, Flatten(pages[..i]))]
        invariant requests == old(requests) + RemoveRequests(playlistId, pages[..i])
        invariant playlists == old(playlists) && liked == old(liked)
      {
        RemovePageStep(playlistId, items, pages, i);
        requests := requests + [RemoveItems(playlistId, pages[i])];
        contents := contents[playlistId := RemoveIds(contents[playlistId], pages[i])];
      }
      assert pages[..|pages|] == pages;
    }

    /** `replace_tracks_in_playlist`: fetch the playlist, remove the ids of
        its valid tracks in batches of 99, then add the new ids. Items whose
        track fails validation, and which share no id with a valid one, stay. */
    method ReplaceTracksInPlaylist(playlistId: string, trackIds: seq<string>) returns (r: Result<()>)
      modifies this
      ensures r.Err? <==> playlistId !in old(contents)
      ensures r.Err? ==> contents == old(contents) && requests == old(requests)
      ensures r.Ok? ==> contents == old(contents)[playlistId := Replaced(old(contents)[playlistId], trackIds)]
      ensures r.Ok? ==> requests == old(requests)
                          + RemoveRequests(playlistId, Pages(ValidIds(old(contents)[playlistId]), MaxItemsPerRequest))
                          + AddRequests(playlistId, Pages(trackIds, MaxItemsPerRequest))
      ensures playlists == old(playlists) && liked == old(liked)
      ensures old(Valid()) ==> Valid()
    {
      var current, offsets := GetPlaylistTracks(contents, playlistId, None);
      if current.Err? {
        return Err(current.error);
      }
      ghost var items := contents[playlistId];
      var removeIds := Map(current.value, TrackId);
      assert removeIds == ValidIds(items);
      RemoveTracks(playlistId, removeIds);
      ghost var kept := RemoveIds(items, ValidIds(items));
      ghost var mid := contents;
      var added := AddTracksToPlaylist(playlistId, trackIds);
      if |trackIds| == 0 {
        assert kept + Map(trackIds, catalog) == kept;
      } else {
        assert contents == mid[playlistId := kept + Map(trackIds, catalog)];
      }
      return Ok(());
    }

    /** `create_user_playlist`: the service registers an empty playlist under
        the id and uri it assigns (`newId`, `newUri`); the record returned
        carries no description. */
    method CreateUserPlaylist(userId: string, name: string, description: string, newId: string, newUri: string)
      returns (p: PlaylistData)
      modifies this
      ensures p == NewPlaylistData(name, newUri, newId)
      ensures playlists == old(playlists) + [RemotePlaylist(name, newUri, newId)]
      ensures contents == old(contents)[newId := []]
      ensures requests == old(requests) + [CreatePlaylist(userId, name, description)]
      ensures liked == old(liked)
      ensures old(Valid()) ==> Valid()
    {
      playlists := playlists + [RemotePlaylist(name, newUri, newId)];
      contents := contents[newId := []];
      requests := requests + [CreatePlaylist(userId, name, description)];
      p := NewPlaylistData(name, newUri, newId);
    }

    /** `like_tracks`: one request saving all the uris. */
    method LikeTracks(uris: seq<string>)
      modifies this
      ensures liked == old(liked) + uris
      ensures requests == old(requests) + [SaveTracks(uris)]
      ensures playlists == old(playlists) && contents == old(contents)
    {
      liked := liked + uris;
      requests := requests + [SaveTracks(uris)];
    }
  }

  /** Replacing the tracks of a playlist whose items all validate leaves
      exactly the new tracks; in general only items that fail validation
      survive besides them. */
  lemma ReplacedContents(account: Account, items: seq<PlaylistItem>, ids: seq<string>)
    ensures forall it :: it in account.Replaced(items, ids)[..|account.Replaced(items, ids)| - |ids|]
              ==> it in items && !Accepted(it)
    ensures (forall i :: 0 <= i < |items| ==> Accepted(items[i])) ==> account.Replaced(items, ids) == Map(ids, account.catalog)
  {
    var kept := RemoveIds(items, ValidIds(items));
    assert account.Replaced(items, ids)[..|account.Replaced(items, ids)| - |ids|] == kept;
    RemoveValidLeavesRejected(items);
    if forall i :: 0 <= i < |items| ==> Accepted(items[i]) {
      RemoveValidEmpties(items);
    }
  }
}
