/** `chopin/schemas/playlist.py`: the playlist record, the summary whose
    statistics are filled in when it is built, and its versioned dictionary
    form. The package version string is a parameter. */
module PlaylistSchema {
  import opened Common
  import opened Seqs
  import opened Dictionaries
  import opened Tracks
  import opened Dates

  datatype PlaylistData = PlaylistData(name: string, uri: string, id: string, description: string)

  /** A record built without a description gets the empty one. */
  function NewPlaylistData(name: string, uri: string, id: string): PlaylistData {
    PlaylistData(name, uri, id, "")
  }

  // ---------------------------------------------------------------------
  // Statistics of a track list

  predicate AllHaveArtists(tracks: seq<Track>) {
    forall i :: 0 <= i < |tracks| ==> |tracks[i].artists| > 0
  }

  predicate AllHavePopularity(tracks: seq<Track>) {
    forall i :: 0 <= i < |tracks| ==> tracks[i].popularity.Some?
  }

  function FirstArtistNames(tracks: seq<Track>): (r: seq<string>)
    requires AllHaveArtists(tracks)
    ensures |r| == |tracks|
    ensures forall i :: 0 <= i < |tracks| ==> r[i] == tracks[i].artists[0].name
  {
    seq(|tracks|, i requires 0 <= i < |tracks| => tracks[i].artists[0].name)
  }

  /** `len(set(track.artists[0].name for track in tracks))`. */
  function NbArtists(tracks: seq<Track>): (n: nat)
    requires AllHaveArtists(tracks)
    ensures n == |set x | x in FirstArtistNames(tracks)|
    ensures n <= |tracks|
    ensures |tracks| > 0 ==> n > 0
  {
    var names := FirstArtistNames(tracks);
    DedupCard(names);
    assert |tracks| > 0 ==> names[0] in Dedup(names);
    |Dedup(names)|
  }

  /** `sum(track.duration_ms for track in tracks)`. */
  function TotalDuration(tracks: seq<Track>): int {
    if |tracks| == 0 then 0 else tracks[0].durationMs + TotalDuration(tracks[1..])
  }

  /** With non-negative durations the total is non-negative and no track
      lasts longer than the whole playlist. */
  lemma {:induction false} TotalDurationBounds(tracks: seq<Track>)
    requires forall i :: 0 <= i < |tracks| ==> tracks[i].durationMs >= 0
    ensures TotalDuration(tracks) >= 0
    ensures forall i :: 0 <= i < |tracks| ==> tracks[i].durationMs <= TotalDuration(tracks)
  {
    if |tracks| > 0 {
      var rest := tracks[1..];
      forall i | 0 <= i < |rest| ensures rest[i] == tracks[i + 1] { }
      TotalDurationBounds(rest);
      forall i | 1 <= i < |tracks| ensures tracks[i].durationMs <= TotalDuration(tracks) {
        assert tracks[i] == rest[i - 1];
      }
    }
  }

  function PopularitySum(tracks: seq<Track>): int
    requires AllHavePopularity(tracks)
  {
    if |tracks| == 0 then 0 else tracks[0].popularity.value + PopularitySum(tracks[1..])
  }

  /** `sum(popularities) / len(popularities) if popularities else 0`. */
  function AvgPopularity(tracks: seq<Track>): (avg: real)
    requires AllHavePopularity(tracks)
    ensures |tracks| == 0 ==> avg == 0.0
    ensures |tracks| > 0 ==> avg * |tracks| as real == PopularitySum(tracks) as real
  {
    if |tracks| == 0 then 0.0 else PopularitySum(tracks) as real / |tracks| as real
  }

  lemma {:induction false} TotalDurationAppend(a: seq<Track>, b: seq<Track>)
    ensures TotalDuration(a + b) == TotalDuration(a) + TotalDuration(b)
  {
    if |a| == 0 {
      assert a + b == b;
    } else {
      assert (a + b)[1..] == a[1..] + b;
      TotalDurationAppend(a[1..], b);
    }
  }

  /** Tracks of equal duration `d` last `n * d` in all; tracks of equal
      popularity `p` average `p`. */
  lemma UniformTracks(tracks: seq<Track>, d: int, p: int)
    requires forall i :: 0 <= i < |tracks| ==> tracks[i].durationMs == d && tracks[i].popularity == Some(p)
    ensures TotalDuration(tracks) == |tracks| * d
    ensures PopularitySum(tracks) == |tracks| * p
    ensures |tracks| > 0 ==> AvgPopularity(tracks) == p as real
  {
    UniformDuration(tracks, d);
    UniformPopularity(tracks, p);
    if |tracks| > 0 {
      QuotientOfMultiple(PopularitySum(tracks), |tracks|, p);
    }
  }

  lemma {:induction false} UniformDuration(tracks: seq<Track>, d: int)
    requires forall i :: 0 <= i < |tracks| ==> tracks[i].durationMs == d
    ensures TotalDuration(tracks) == |tracks| * d
  {
    if |tracks| > 0 {
      var rest := tracks[1..];
      assert forall i :: 0 <= i < |rest| ==> rest[i].durationMs == d by {
        forall i | 0 <= i < |rest| ensures rest[i] == tracks[i + 1] { }
      }
      UniformDuration(rest, d);
      assert |tracks| * d == d + |rest| * d;
    }
  }

  lemma {:induction false} UniformPopularity(tracks: seq<Track>, p: int)
    requires forall i :: 0 <= i < |tracks| ==> tracks[i].popularity == Some(p)
    ensures PopularitySum(tracks) == |tracks| * p
  {
    if |tracks| > 0 {
      var rest := tracks[1..];
      assert forall i :: 0 <= i < |rest| ==> rest[i].popularity == Some(p) by {
        forall i | 0 <= i < |rest| ensures rest[i] == tracks[i + 1] { }
      }
      UniformPopularity(rest, p);
      assert |tracks| * p == p + |rest| * p;
    }
  }

  /** `n * p / n == p` over the reals. */
  lemma QuotientOfMultiple(sum: int, n: int, p: int)
    requires n > 0 && sum == n * p
    ensures sum as real / n as real == p as real
  {
    assert sum as real == n as real * p as real;
  }

  /** The popularity sum lies between count times the lowest and count times
      the highest popularity. */
  lemma {:induction false} PopularitySumBounds(tracks: seq<Track>, lo: int, hi: int)
    requires AllHavePopularity(tracks)
    requires forall i :: 0 <= i < |tracks| ==> lo <= tracks[i].popularity.value <= hi
    ensures |tracks| * lo <= PopularitySum(tracks) <= |tracks| * hi
  {
    if |tracks| > 0 {
      var n := |tracks| - 1;
      PopularitySumBounds(tracks[1..], lo, hi);
      assert |tracks| * lo == lo + n * lo;
      assert |tracks| * hi == hi + n * hi;
    }
  }

  /** A quotient of integers lies between the bounds its numerator does
      once divided. */
  lemma QuotientBetween(sum: int, n: int, lo: int, hi: int)
    requires n > 0 && n * lo <= sum <= n * hi
    ensures lo as real <= sum as real / n as real <= hi as real
  {
    var q := sum as real / n as real;
    assert q * n as real == sum as real;
    assert (n * lo) as real == n as real * lo as real;
    assert (n * hi) as real == n as real * hi as real;
  }

  /** The average lies between the lowest and the highest popularity. */
  lemma AvgPopularityBounds(tracks: seq<Track>, lo: int, hi: int)
    requires AllHavePopularity(tracks)
    requires forall i :: 0 <= i < |tracks| ==> lo <= tracks[i].popularity.value <= hi
    ensures |tracks| > 0 ==> lo as real <= AvgPopularity(tracks) <= hi as real
  {
    if |tracks| > 0 {
      PopularitySumBounds(tracks, lo, hi);
      QuotientBetween(PopularitySum(tracks), |tracks|, lo, hi);
    }
  }

  /** The summary of a playlist. The statistics start unset and are filled
      by the model validator. */
  class PlaylistSummary {
    const playlist: PlaylistData
    const tracks: seq<Track>
    var nbTracks: Option<int>
    var totalDuration: Option<int>
    var nbArtists: Option<int>
    var avgPopularity: Option<real>

    constructor (p: PlaylistData, ts: seq<Track>)
      ensures playlist == p && tracks == ts
      ensures nbTracks == None && totalDuration == None && nbArtists == None && avgPopularity == None
    {
      playlist := p;
      tracks := ts;
      nbTracks := None;
      totalDuration := None;
      nbArtists := None;
      avgPopularity := None;
    }

    /** `fill_fields`. A track without artists stops it with `IndexError`
        after the track count is set; a `None` popularity stops it with
        `TypeError` in the final sum. */
    method FillFields() returns (r: Result<()>)
      modifies this
      ensures nbTracks == Some(|tracks|)
      ensures r.Ok? <==> AllHaveArtists(tracks) && AllHavePopularity(tracks)
      ensures !AllHaveArtists(tracks) ==> r.error.IndexError? && nbArtists == old(nbArtists)
      ensures !AllHaveArtists(tracks) ==> totalDuration == old(totalDuration) && avgPopularity == old(avgPopularity)
      ensures AllHaveArtists(tracks) ==> nbArtists == Some(NbArtists(tracks)) && totalDuration == Some(TotalDuration(tracks))
      ensures AllHaveArtists(tracks) && !AllHavePopularity(tracks) ==> r.error.TypeError? && avgPopularity == old(avgPopularity)
      ensures r.Ok? ==> avgPopularity == Some(AvgPopularity(tracks))
    {
      nbTracks := Some(|tracks|);
      if !AllHaveArtists(tracks) {
        return Err(IndexError("list index out of range"));
      }
      nbArtists := Some(NbArtists(tracks));
      totalDuration := Some(TotalDuration(tracks));
      if !AllHavePopularity(tracks) {
        return Err(TypeError("unsupported operand type(s) for +: 'int' and 'NoneType'"));
      }
      avgPopularity := Some(AvgPopularity(tracks));
      return Ok(());
    }
  }

  /** `PlaylistSummary(playlist=..., tracks=...)`: construction runs the
      model validator. */
  method NewPlaylistSummary(p: PlaylistData, ts: seq<Track>) returns (r: Result<PlaylistSummary>)
    ensures r.Ok? <==> AllHaveArtists(ts) && AllHavePopularity(ts)
    ensures r.Ok? ==> fresh(r.value) && r.value.playlist == p && r.value.tracks == ts
                      && r.value.nbTracks == Some(|ts|) && r.value.nbArtists == Some(NbArtists(ts))
                      && r.value.totalDuration == Some(TotalDuration(ts))
                      && r.value.avgPopularity == Some(AvgPopularity(ts))
  {
    var s := new PlaylistSummary(p, ts);
    var filled := s.FillFields();
    if filled.Err? {
      return Err(filled.error);
    }
    return Ok(s);
  }

  /** An empty playlist has no tracks, no artists, and average popularity 0. */
  lemma EmptySummary()
    ensures NbArtists([]) == 0 && TotalDuration([]) == 0 && AvgPopularity([]) == 0.0
  {
    assert (set x | x in FirstArtistNames([])) == {};
  }

  // ---------------------------------------------------------------------
  // serialize_model and validation of the serialized form

  function DumpPlaylist(p: PlaylistData): Value {
    Dict([("name", Str(p.name)), ("uri", Str(p.uri)), ("id", Str(p.id)), ("description", Str(p.description))])
  }

  function LoadPlaylist(v: Value): Option<PlaylistData> {
    match v
    case Dict(d) =>
      (match (GetStr(d, "name"), GetStr(d, "uri"), GetStr(d, "id"), Lookup(d, "description"))
       case (Some(n), Some(u), Some(i), None) => Some(PlaylistData(n, u, i, ""))
       case (Some(n), Some(u), Some(i), Some(Str(desc))) => Some(PlaylistData(n, u, i, desc))
       case _ => None)
    case _ => None
  }

  /** `serialize_model`: the playlist, the dumped tracks and the version. */
  function SerializeSummary(p: PlaylistData, tracks: seq<Track>, version: string): (v: Value)
    ensures v.Dict? && Keys(v.entries) == ["playlist", "tracks", "version"]
    ensures Lookup(v.entries, "version") == Some(Str(version))
  {
    var entries := [("playlist", DumpPlaylist(p)), ("tracks", List(Map(tracks, DumpTrack))), ("version", Str(version))];
    KeysIndex(entries);
    LookupAt(entries, "version", 2);
    Dict(entries)
  }

  /** Reading the fields of a serialized summary back, the albums' release
      dates read with `read`: the `version` key is ignored. */
  function LoadSummary(v: Value, read: DateReader): (r: Option<(PlaylistData, seq<Track>)>)
    ensures r.Some? ==> v.Dict? && Lookup(v.entries, "playlist").Some?
                        && LoadPlaylist(Lookup(v.entries, "playlist").value) == Some(r.value.0)
    ensures r.Some? ==> Lookup(v.entries, "tracks").Some? && Lookup(v.entries, "tracks").value.List?
                        && LoadTracks(Lookup(v.entries, "tracks").value.items, read) == Some(r.value.1)
  {
    match v
    case Dict(d) =>
      (match (Lookup(d, "playlist"), Lookup(d, "tracks"))
       case (Some(pv), Some(List(tv))) =>
         (match (LoadPlaylist(pv), LoadTracks(tv, read))
          case (Some(p), Some(ts)) => Some((p, ts))
          case _ => None)
       case _ => None)
    case _ => None
  }

  lemma LoadDumpPlaylist(p: PlaylistData)
    ensures LoadPlaylist(DumpPlaylist(p)) == Some(p)
  {
    var d := DumpPlaylist(p).entries;
    LookupAt(d, "name", 0);
    LookupAt(d, "uri", 1);
    LookupAt(d, "id", 2);
    LookupAt(d, "description", 3);
  }

  /** The backup round trip with the intended album validator: reading the
      serialized form gives back the playlist and its tracks. */
  lemma SerializeRoundTrip(p: PlaylistData, tracks: seq<Track>, version: string, parse: string -> Option<Date>)
    ensures LoadSummary(SerializeSummary(p, tracks, version), ReleaseDate(parse)) == Some((p, tracks))
  {
    var d := SerializeSummary(p, tracks, version).entries;
    LookupAt(d, "playlist", 0);
    LookupAt(d, "tracks", 1);
    LoadDumpPlaylist(p);
    LoadDumpTracks(tracks, parse);
  }

  /** As written, the album validator refuses every dumped release date, so
      the serialized form of a summary with a track cannot be read back. */
  lemma SerializeAsWrittenFails(p: PlaylistData, tracks: seq<Track>, version: string, parse: string -> Option<Date>)
    requires |tracks| > 0
    ensures LoadSummary(SerializeSummary(p, tracks, version), ReleaseDateAsWritten(parse)) == None
  {
    var d := SerializeSummary(p, tracks, version).entries;
    LookupAt(d, "tracks", 1);
    var dumped := Map(tracks, DumpTrack);
    assert dumped[0] == DumpTrack(tracks[0]);
    DumpedTrackRejected(tracks[0], parse);
    assert LoadTracks(dumped, ReleaseDateAsWritten(parse)) == None;
  }

  /** `PlaylistSummary.model_validate(v)`: the fields are read, then the
      model validator fills the statistics and raises as `fill_fields` does. */
  method ValidateSummary(v: Value, read: DateReader) returns (r: Result<PlaylistSummary>)
    ensures r.Ok? <==> LoadSummary(v, read).Some?
                       && AllHaveArtists(LoadSummary(v, read).value.1)
                       && AllHavePopularity(LoadSummary(v, read).value.1)
    ensures r.Ok? ==> fresh(r.value)
                      && (r.value.playlist, r.value.tracks) == LoadSummary(v, read).value
                      && r.value.nbTracks == Some(|r.value.tracks|)
                      && r.value.nbArtists == Some(NbArtists(r.value.tracks))
                      && r.value.totalDuration == Some(TotalDuration(r.value.tracks))
                      && r.value.avgPopularity == Some(AvgPopularity(r.value.tracks))
  {
    var fields := LoadSummary(v, read);
    if fields.None? {
      return Err(ValidationError("1 validation error for PlaylistSummary"));
    }
    r := NewPlaylistSummary(fields.value.0, fields.value.1);
  }
}
