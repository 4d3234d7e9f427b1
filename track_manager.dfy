/** `chopin/managers/track.py`: shuffling a list of tracks and saving tracks
    to the user's library. */
module TrackManager {
  import opened Seqs
  import opened Tracks
  import opened Endpoints

  /** `shuffle_tracks`: `random.sample(tracks, len(tracks))`, a new list;
      `compose_playlist` ends with the same call, `Seqs.Shuffle`. */
  function ShuffleTracks(tracks: seq<Track>, rng: seq<nat>): (r: seq<Track>)
    ensures |r| == |tracks|
    ensures multiset(r) == multiset(tracks)
  {
    Shuffle(tracks, rng)
  }

  /** Conversely, every reordering of the tracks is the shuffle of some
      oracle, so the model excludes no outcome `random.sample` can give. */
  lemma ShuffleTracksReachesEveryOrder(tracks: seq<Track>, order: seq<Track>)
    requires multiset(order) == multiset(tracks)
    ensures exists rng :: ShuffleTracks(tracks, rng) == order
  {
    var rng := SampleReaches(tracks, order);
    assert ShuffleTracks(tracks, rng) == order;
  }

  function TrackUri(t: Track): string {
    t.uri
  }

  /** `save_tracks`: like the uris of the tracks, in order, in one request. */
  method SaveTracks(account: Account, tracks: seq<Track>)
    modifies account
    ensures |account.liked| == |old(account.liked)| + |tracks|
    ensures account.liked[..|old(account.liked)|] == old(account.liked)
    ensures forall i :: 0 <= i < |tracks| ==> account.liked[|old(account.liked)| + i] == tracks[i].uri
    ensures account.requests == old(account.requests) + [Request.SaveTracks(Map(tracks, TrackUri))]
    ensures account.playlists == old(account.playlists) && account.contents == old(account.contents)
  {
    account.LikeTracks(Map(tracks, TrackUri));
  }
}
