/** `chopin/managers/playlist.py`: creating, filling and shuffling playlists
    on the service, and the per-source resolvers the composition calls. The
    service side is an `Endpoints.Account`; lookups the service performs
    (the "This Is" playlist of an artist, the mix of a genre, related
    artists, top tracks, the artist search) are parameters. */
module PlaylistManager {
  import opened Common
  import opened Seqs
  import opened Dates
  import Strings
  import opened Tracks
  import opened Selection
  import opened PlaylistSchema
  import opened Endpoints
  import opened Radio
  import opened TrackManager

  // ---------------------------------------------------------------------
  // create

  /** The playlist `create` targets: the first user playlist whose stored
      name equals the simplified requested name. */
  function CreateTarget(lib: Strings.TextLib, playlists: seq<PlaylistData>, name: string): (r: Option<PlaylistData>)
    ensures r.None? <==> forall i :: 0 <= i < |playlists| ==> playlists[i].name != Strings.SimplifyString(lib, name)
    ensures r.Some? ==> exists i :: 0 <= i < |playlists| && playlists[i] == r.value
                                    && playlists[i].name == Strings.SimplifyString(lib, name)
                                    && forall j :: 0 <= j < i ==> playlists[j].name != Strings.SimplifyString(lib, name)
  {
    match FirstWhere(playlists, (p: PlaylistData) => p.name == Strings.SimplifyString(lib, name))
    case None => None
    case Some(i) => Some(playlists[i])
  }

  /** A playlist found among the user playlists is held by the service. */
  lemma ListedIsHeld(account: Account, lib: Strings.TextLib, p: PlaylistData)
    requires account.Valid()
    requires p in UserPlaylists(lib, account.playlists)
    ensures p.id in account.contents
  {
    var ps := UserPlaylists(lib, account.playlists);
    var i :| 0 <= i < |ps| && ps[i] == p;
    assert p.id == account.playlists[i].id;
  }

  /** `create`: an existing playlist of that name is emptied and returned
      when `overwrite` is set and refused with `ValueError` otherwise; with no
      such playlist a new one is created under the name as given. */
  method Create(account: Account, lib: Strings.TextLib, userId: string, name: string, description: string,
                overwrite: bool, newId: string, newUri: string)
    returns (r: Result<PlaylistData>)
    requires account.Valid()
    modifies account
    ensures var target := CreateTarget(lib, UserPlaylists(lib, old(account.playlists)), name);
      && (target.Some? ==> target.value.id in old(account.contents))
      && (target.Some? && overwrite ==>
            && r == Ok(target.value)
            && account.contents == old(account.contents)[target.value.id := RemoveIds(old(account.contents)[target.value.id], ValidIds(old(account.contents)[target.value.id]))]
            && account.requests == old(account.requests)
                 + RemoveRequests(target.value.id, Pages(ValidIds(old(account.contents)[target.value.id]), MaxItemsPerRequest))
            && account.playlists == old(account.playlists))
      && (target.Some? && !overwrite ==>
            && r.Err? && r.error.ValueError?
            && account.contents == old(account.contents) && account.requests == old(account.requests)
            && account.playlists == old(account.playlists))
      && (target.None? ==>
            && r == Ok(NewPlaylistData(name, newUri, newId))
            && account.playlists == old(account.playlists) + [RemotePlaylist(name, newUri, newId)]
            && account.contents == old(account.contents)[newId := []]
            && account.requests == old(account.requests) + [CreatePlaylist(userId, name, description)])
    ensures account.liked == old(account.liked)
    ensures account.Valid()
  {
    var target := CreateTarget(lib, UserPlaylists(lib, account.playlists), name);
    if target.Some? {
      ListedIsHeld(account, lib, target.value);
      if overwrite {
        EmptyPlaylist(account, target.value.id);
        return Ok(target.value);
      }
      return Err(ValueError("Trying to create a playlist " + name + " but there is already such a playlist."
                            + "Use `overwrite=True` if you want to erase the playlist."));
    }
    var created := account.CreateUserPlaylist(userId, name, description, newId, newUri);
    return Ok(created);
  }

  /** `replace_tracks_in_playlist(playlist_id, [])`: every track of the
      playlist is removed and nothing is added, so a playlist whose items all
      validate ends up empty. */
  method EmptyPlaylist(account: Account, playlistId: string)
    requires playlistId in account.contents
    modifies account
    ensures account.contents == old(account.contents)[playlistId := RemoveIds(old(account.contents)[playlistId], ValidIds(old(account.contents)[playlistId]))]
    ensures (forall i :: 0 <= i < |old(account.contents)[playlistId]| ==> Accepted(old(account.contents)[playlistId][i]))
            ==> account.contents[playlistId] == []
    ensures account.requests == old(account.requests)
              + RemoveRequests(playlistId, Pages(ValidIds(old(account.contents)[playlistId]), MaxItemsPerRequest))
    ensures account.playlists == old(account.playlists) && account.liked == old(account.liked)
    ensures old(account.Valid()) ==> account.Valid()
  {
    var items := account.contents[playlistId];
    if forall i :: 0 <= i < |items| ==> Accepted(items[i]) {
      RemoveValidEmpties(items);
    }
    var replaced := account.ReplaceTracksInPlaylist(playlistId, []);
    assert account.Replaced(items, []) == RemoveIds(items, ValidIds(items));
    assert Pages<string>([], MaxItemsPerRequest) == [];
    assert AddRequests(playlistId, []) == [];
  }

  // ---------------------------------------------------------------------
  // fill

  /** `list(set(track.id for track in tracks))`: each id once, in an order
      the oracle `order` picks. */
  function FillIds(tracks: seq<Track>, order: seq<nat>): (ids: seq<string>)
    ensures Distinct(ids)
    ensures forall x :: x in ids <==> x in Map(tracks, TrackId)
  {
    var d := Dedup(Map(tracks, TrackId));
    var ids := Shuffle(d, order);
    SampleDistinct(d, |d|, order);
    assert forall x :: x in ids <==> x in multiset(d);
    ids
  }

  /** `fill`: the deduplicated ids are added to the playlist. */
  method Fill(account: Account, playlistId: string, tracks: seq<Track>, order: seq<nat>) returns (r: Result<()>)
    modifies account
    ensures var ids := FillIds(tracks, order);
      && (r.Err? <==> playlistId !in old(account.contents) && |tracks| > 0)
      && (r.Err? ==> account.contents == old(account.contents) && account.requests == old(account.requests))
      && (r.Ok? ==> account.requests == old(account.requests) + AddRequests(playlistId, Pages(ids, MaxItemsPerRequest)))
      && (r.Ok? && |tracks| > 0 ==>
            account.contents == old(account.contents)[playlistId := old(account.contents)[playlistId] + Map(ids, account.catalog)])
      && (|tracks| == 0 ==> account.contents == old(account.contents))
    ensures account.playlists == old(account.playlists) && account.liked == old(account.liked)
    ensures old(account.Valid()) ==> account.Valid()
  {
    var ids := FillIds(tracks, order);
    assert |tracks| > 0 ==> Map(tracks, TrackId)[0] in ids;
    assert |ids| > 0 ==> ids[0] in ids;
    r := account.AddTracksToPlaylist(playlistId, ids);
  }

  /** The requests `fill` sends carry every distinct track id exactly once. */
  lemma {:induction false} FillSubmitsEachIdOnce(playlistId: string, tracks: seq<Track>, order: seq<nat>)
    ensures var sent := Flatten(Map(AddRequests(playlistId, Pages(FillIds(tracks, order), MaxItemsPerRequest)), Payload));
      forall x :: multiset(sent)[x] == if x in Map(tracks, TrackId) then 1 else 0
  {
    var ids := FillIds(tracks, order);
    BatchesCover(playlistId, ids, false);
    forall x ensures multiset(ids)[x] == if x in ids then 1 else 0 {
      DistinctCount(ids, x);
    }
  }

  // ---------------------------------------------------------------------
  // shuffle_playlist

  /** The ids `shuffle_playlist` writes back for a playlist holding `items`. */
  function ShuffledIds(items: seq<PlaylistItem>, rng: seq<nat>): (ids: seq<string>)
    ensures multiset(ids) == multiset(ValidIds(items))
  {
    var tracks := ValidateTracks(items);
    MapMultiset(ShuffleTracks(tracks, rng), tracks, TrackId);
    Map(ShuffleTracks(tracks, rng), TrackId)
  }

  /** `shuffle_playlist`: the playlist found by name has its tracks replaced
      by a shuffle of themselves; an unknown name raises `ValueError`. */
  method ShufflePlaylist(account: Account, lib: Strings.TextLib, name: string, rng: seq<nat>)
    returns (r: Result<PlaylistData>)
    requires account.Valid()
    modifies account
    ensures r == GetNamedPlaylist(lib, UserPlaylists(lib, old(account.playlists)), name)
    ensures r.Err? ==> account.contents == old(account.contents) && account.requests == old(account.requests)
    ensures r.Ok? ==> r.value.id in old(account.contents)
    ensures r.Ok? ==> var items := old(account.contents)[r.value.id];
      && account.contents == old(account.contents)[r.value.id := account.Replaced(items, ShuffledIds(items, rng))]
      && account.requests == old(account.requests)
           + RemoveRequests(r.value.id, Pages(ValidIds(items), MaxItemsPerRequest))
           + AddRequests(r.value.id, Pages(ShuffledIds(items, rng), MaxItemsPerRequest))
    ensures account.playlists == old(account.playlists) && account.liked == old(account.liked)
    ensures account.Valid()
  {
    r := GetNamedPlaylist(lib, UserPlaylists(lib, account.playlists), name);
    if r.Err? {
      return;
    }
    ListedIsHeld(account, lib, r.value);
    var tracks, _ := GetPlaylistTracks(account.contents, r.value.id, None);
    var shuffled := ShuffleTracks(tracks.value, rng);
    var replaced := account.ReplaceTracksInPlaylist(r.value.id, Map(shuffled, TrackId));
  }

  /** A shuffled playlist whose items all validate holds exactly its own
      tracks again, each as often as before. */
  lemma {:induction false} ShuffleKeepsTracks(account: Account, items: seq<PlaylistItem>, rng: seq<nat>)
    requires forall i :: 0 <= i < |items| ==> Accepted(items[i])
    ensures account.Replaced(items, ShuffledIds(items, rng)) == Map(ShuffledIds(items, rng), account.catalog)
    ensures multiset(ShuffledIds(items, rng)) == multiset(ValidIds(items))
    ensures |ShuffledIds(items, rng)| == |items|
  {
    ReplacedContents(account, items, ShuffledIds(items, rng));
    ValidateTracksSpec(items);
    FilterAll(items, Accepted);
    assert |multiset(ShuffledIds(items, rng))| == |multiset(ValidIds(items))|;
  }

  // ---------------------------------------------------------------------
  // Resolvers over a fetched playlist

  /** Fetch a playlist and select from its tracks; a failed fetch fails. */
  function SelectFrom(contents: map<string, seq<PlaylistItem>>, playlistId: string, nbTracks: int,
                      range: Option<ReleaseRange>, m: Option<SelectionMethod>, rng: seq<nat>): (r: Result<seq<Track>>)
    ensures playlistId !in contents ==> r.Err? && r.error.TransportError?
    ensures playlistId in contents ==> r == SelectTracks(PlaylistTracks(contents[playlistId], range), nbTracks, m, rng)
  {
    match FetchPlaylist(contents, playlistId, range)
    case Err(e) => Err(e)
    case Ok(tracks) => SelectTracks(tracks, nbTracks, m, rng)
  }

  /** What a selection from a held playlist gives for a non-negative count:
      at most `nb_tracks` of its tracks, all released in the range. */
  lemma SelectFromHeld(contents: map<string, seq<PlaylistItem>>, playlistId: string, nbTracks: int,
                       range: Option<ReleaseRange>, m: Option<SelectionMethod>, rng: seq<nat>)
    requires playlistId in contents && nbTracks >= 0
    requires m == Some(Popularity) ==> PopularityComparable(PlaylistTracks(contents[playlistId], range))
    ensures var r := SelectFrom(contents, playlistId, nbTracks, range, m, rng);
      && r.Ok?
      && |r.value| == Min(nbTracks, |PlaylistTracks(contents[playlistId], range)|)
      && multiset(r.value) <= multiset(PlaylistTracks(contents[playlistId], range))
      && (range.Some? ==> forall t :: t in r.value ==> InRange(t.album.releaseDate, range.value))
  {
    var tracks := PlaylistTracks(contents[playlistId], range);
    SelectLengthAndSource(tracks, nbTracks, m, rng);
    var r := SelectFrom(contents, playlistId, nbTracks, range, m, rng);
    if range.Some? {
      PlaylistTracksInRange(contents[playlistId], range.value);
      forall t | t in r.value ensures t in tracks {
        assert t in multiset(r.value);
      }
    }
  }

  /** `tracks_from_artist_name`: no "This Is" playlist gives `[]`. */
  function TracksFromArtistName(contents: map<string, seq<PlaylistItem>>, thisIs: Option<PlaylistData>, nbTracks: int,
                                range: Option<ReleaseRange>, m: Option<SelectionMethod>, rng: seq<nat>): (r: Result<seq<Track>>)
    ensures thisIs.None? ==> r == Ok([])
    ensures thisIs.Some? ==> r == SelectFrom(contents, thisIs.value.id, nbTracks, range, m, rng)
  {
    if thisIs.None? then Ok([]) else SelectFrom(contents, thisIs.value.id, nbTracks, range, m, rng)
  }

  /** `tracks_from_mix`, without its debugger breakpoint: no mix playlist for
      the genre gives `[]`. */
  function TracksFromMix(contents: map<string, seq<PlaylistItem>>, mixPlaylist: Option<PlaylistData>, nbTracks: int,
                         range: Option<ReleaseRange>, m: Option<SelectionMethod>, rng: seq<nat>): (r: Result<seq<Track>>)
    ensures mixPlaylist.None? ==> r == Ok([])
    ensures mixPlaylist.Some? ==> r == SelectFrom(contents, mixPlaylist.value.id, nbTracks, range, m, rng)
  {
    if mixPlaylist.None? then Ok([]) else SelectFrom(contents, mixPlaylist.value.id, nbTracks, range, m, rng)
  }

  /** `tracks_from_playlist_uri`: any failure of the fetch is caught and
      gives `[]`, so only the selection can fail. */
  function TracksFromPlaylistUri(contents: map<string, seq<PlaylistItem>>, playlistUri: string, nbTracks: int,
                                 range: Option<ReleaseRange>, m: Option<SelectionMethod>, rng: seq<nat>): (r: Result<seq<Track>>)
    ensures playlistUri !in contents ==> r == Ok([])
    ensures playlistUri in contents ==> r == SelectFrom(contents, playlistUri, nbTracks, range, m, rng)
    ensures r.Err? ==> (m.GetOr(Random) == Random && nbTracks < 0) || m == Some(Popularity)
  {
    match FetchPlaylist(contents, playlistUri, range)
    case Err(_) => Ok([])
    case Ok(tracks) => SelectTracks(tracks, nbTracks, m, rng)
  }

  /** `tracks_from_playlist_name`: the first user playlist whose simplified
      name equals the simplified query, or `[]` when there is none. */
  function TracksFromPlaylistName(contents: map<string, seq<PlaylistItem>>, lib: Strings.TextLib, playlistName: string,
                                  nbTracks: int, userPlaylists: seq<PlaylistData>,
                                  range: Option<ReleaseRange>, m: Option<SelectionMethod>, rng: seq<nat>): (r: Result<seq<Track>>)
    ensures (forall i :: 0 <= i < |userPlaylists| ==> !NameMatches(lib, userPlaylists[i], playlistName)) ==> r == Ok([])
  {
    match GetNamedPlaylist(lib, userPlaylists, playlistName)
    case Err(_) => Ok([])
    case Ok(p) => SelectFrom(contents, p.id, nbTracks, range, m, rng)
  }

  /** The selection is made from the first user playlist whose name matches. */
  lemma TracksFromFirstNamed(contents: map<string, seq<PlaylistItem>>, lib: Strings.TextLib, playlistName: string,
                             nbTracks: int, userPlaylists: seq<PlaylistData>,
                             range: Option<ReleaseRange>, m: Option<SelectionMethod>, rng: seq<nat>, i: nat)
    requires i < |userPlaylists| && NameMatches(lib, userPlaylists[i], playlistName)
    requires forall j :: 0 <= j < i ==> !NameMatches(lib, userPlaylists[j], playlistName)
    ensures TracksFromPlaylistName(contents, lib, playlistName, nbTracks, userPlaylists, range, m, rng)
         == SelectFrom(contents, userPlaylists[i].id, nbTracks, range, m, rng)
  {
    GetNamedPlaylistFirst(lib, userPlaylists, playlistName, i);
  }

  // ---------------------------------------------------------------------
  // tracks_from_radio

  /** `tracks_from_radio`: an artist the search does not find gives `[]`;
      otherwise the top tracks of the artist and of its related artists are
      gathered in a loop and selected from. */
  method TracksFromRadio(lib: Strings.TextLib, found: seq<Artist>, artistName: string,
                         relatedOf: (Artist, int) -> seq<Artist>, topTracksOf: Artist -> seq<Track>,
                         nbTracks: int, m: Option<SelectionMethod>, rngs: nat -> seq<nat>, rng: seq<nat>)
    returns (r: Result<seq<Track>>)
    ensures var artist := SearchArtist(lib, found, artistName);
      && (artist.None? ==> r == Ok([]))
      && (artist.Some? ==>
            r == SelectTracks(RadioPool([artist.value] + relatedOf(artist.value, MaxRelatedArtists), topTracksOf, rngs), nbTracks, m, rng))
  {
    var artist := SearchArtist(lib, found, artistName);
    if artist.None? {
      return Ok([]);
    }
    var artists := [artist.value] + relatedOf(artist.value, MaxRelatedArtists);
    var tracks := GatherRadio(artists, topTracksOf, rngs);
    return SelectTracks(tracks, nbTracks, m, rng);
  }

  /** The loop of `tracks_from_radio`: each artist's top tracks are appended
      in turn. */
  method GatherRadio(artists: seq<Artist>, topTracksOf: Artist -> seq<Track>, rngs: nat -> seq<nat>) returns (tracks: seq<Track>)
    ensures tracks == RadioPool(artists, topTracksOf, rngs)
  {
    tracks := [];
    var i := 0;
    assert RadioPool(artists[..0], topTracksOf, rngs) == [] by {
      assert Samples(artists[..0], topTracksOf, rngs) == [];
    }
    while i < |artists|
      invariant 0 <= i <= |artists|
      invariant tracks == RadioPool(artists[..i], topTracksOf, rngs)
    {
      var top := TopOf(topTracksOf(artists[i]), rngs(i));
      RadioPoolSnoc(artists, topTracksOf, rngs, i);
      tracks := tracks + top;
      i := i + 1;
    }
    assert artists[..i] == artists;
  }
}
