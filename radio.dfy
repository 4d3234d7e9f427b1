/** The track pool of an artist radio (`tracks_from_radio` in
    `chopin/managers/playlist.py`): the sampled top tracks of the artist and
    of its related artists, one after the other. */
module Radio {
  import opened Seqs
  import opened Tracks
  import opened Endpoints

  /** Related artists requested for a radio, and top tracks kept per artist. */
  const MaxRelatedArtists := 10
  const MaxTopTracksArtists := 10

  /** `get_artist_top_tracks(artist, 10)` for one artist of the radio. */
  function TopOf(tracks: seq<Track>, rng: seq<nat>): (r: seq<Track>)
    ensures |r| <= MaxTopTracksArtists
  {
    ArtistTopTracks(tracks, MaxTopTracksArtists, rng).value
  }

  /** Each sampled track is one of the artist's top tracks. */
  lemma TopOfFromTracks(tracks: seq<Track>, rng: seq<nat>, t: Track)
    requires t in TopOf(tracks, rng)
    ensures t in tracks
  {
    var r := TopOf(tracks, rng);
    assert t in multiset(r);
  }

  /** The sample taken for each artist, the `i`-th with randomness `rngs(i)`. */
  function Samples(artists: seq<Artist>, topTracksOf: Artist -> seq<Track>, rngs: nat -> seq<nat>): (r: seq<seq<Track>>)
    ensures |r| == |artists|
    ensures forall i :: 0 <= i < |artists| ==> r[i] == TopOf(topTracksOf(artists[i]), rngs(i))
  {
    seq(|artists|, i requires 0 <= i < |artists| => TopOf(topTracksOf(artists[i]), rngs(i)))
  }

  /** The radio pool: the samples of the artists, one after the other. */
  function RadioPool(artists: seq<Artist>, topTracksOf: Artist -> seq<Track>, rngs: nat -> seq<nat>): seq<Track> {
    Flatten(Samples(artists, topTracksOf, rngs))
  }

  /** Gathering one more artist appends that artist's sample to the pool. */
  lemma RadioPoolSnoc(artists: seq<Artist>, topTracksOf: Artist -> seq<Track>, rngs: nat -> seq<nat>, i: nat)
    requires i < |artists|
    ensures RadioPool(artists[..i + 1], topTracksOf, rngs)
         == RadioPool(artists[..i], topTracksOf, rngs) + TopOf(topTracksOf(artists[i]), rngs(i))
  {
    var ss := Samples(artists[..i + 1], topTracksOf, rngs);
    assert ss[..i] == Samples(artists[..i], topTracksOf, rngs);
    assert ss[i] == TopOf(topTracksOf(artists[i]), rngs(i));
    FlattenPrefixSnoc(ss, i);
    assert ss[..i + 1] == ss;
  }

  /** The pool holds at most ten tracks per artist, each one a top track of
      one of the artists. */
  lemma RadioPoolBounds(artists: seq<Artist>, topTracksOf: Artist -> seq<Track>, rngs: nat -> seq<nat>)
    ensures |RadioPool(artists, topTracksOf, rngs)| <= MaxTopTracksArtists * |artists|
    ensures forall t :: t in RadioPool(artists, topTracksOf, rngs) ==>
              exists k :: 0 <= k < |artists| && t in topTracksOf(artists[k])
  {
    var ss := Samples(artists, topTracksOf, rngs);
    FlattenBound(ss, MaxTopTracksArtists);
    forall t | t in RadioPool(artists, topTracksOf, rngs)
      ensures exists k :: 0 <= k < |artists| && t in topTracksOf(artists[k])
    {
      FlattenMember(ss, t);
      var k :| 0 <= k < |ss| && t in ss[k];
      TopOfFromTracks(topTracksOf(artists[k]), rngs(k), t);
    }
  }

  /** The first artist's own sample comes first in the pool: the searched
      artist's top tracks lead the radio. */
  lemma RadioPoolStartsWithArtist(artists: seq<Artist>, topTracksOf: Artist -> seq<Track>, rngs: nat -> seq<nat>)
    requires |artists| > 0
    ensures var first := TopOf(topTracksOf(artists[0]), rngs(0));
      |first| <= |RadioPool(artists, topTracksOf, rngs)| && RadioPool(artists, topTracksOf, rngs)[..|first|] == first
  {
    FlattenStartsWith(Samples(artists, topTracksOf, rngs));
  }
}
