/** `managers/recommendation.py`: recommendations seeded by artists or by
    tracks, steered by target audio features. The recommendation service is
    a parameter: it maps the query it receives to the raw tracks it answers. */
module Recommendation {
  import opened Common
  import opened Seqs
  import opened Tracks

  /** The service accepts at most five seeds in all. */
  const SeedLimit := 5

  // ---------------------------------------------------------------------
  // Target features

  datatype FeatureValue = Num(x: real) | Whole(n: int) | Text(s: string)

  /** `TrackFeaturesData`: every audio feature is optional. */
  datatype TrackFeatures = TrackFeatures(
    acousticness: Option<real>, danceability: Option<real>, energy: Option<real>,
    instrumentalness: Option<real>, liveness: Option<real>, loudness: Option<real>,
    speechiness: Option<real>, valence: Option<real>, tempo: Option<real>,
    mode: Option<int>, key: Option<int>, analysisUrl: Option<string>)

  /** A keyword argument sent along with the seeds. */
  type Kwarg = (string, FeatureValue)

  function RealValue(o: Option<real>): Option<FeatureValue> {
    if o.None? then None else Some(Num(o.value))
  }

  function IntValue(o: Option<int>): Option<FeatureValue> {
    if o.None? then None else Some(Whole(o.value))
  }

  function TextValue(o: Option<string>): Option<FeatureValue> {
    if o.None? then None else Some(Text(o.value))
  }

  /** `features.dict().items()`: the fields in declaration order. */
  function Fields(f: TrackFeatures): (r: seq<(string, Option<FeatureValue>)>)
    ensures |r| == 12
  {
    [("acousticness", RealValue(f.acousticness)), ("danceability", RealValue(f.danceability)),
     ("energy", RealValue(f.energy)), ("instrumentalness", RealValue(f.instrumentalness)),
     ("liveness", RealValue(f.liveness)), ("loudness", RealValue(f.loudness)),
     ("speechiness", RealValue(f.speechiness)), ("valence", RealValue(f.valence)),
     ("tempo", RealValue(f.tempo)), ("mode", IntValue(f.mode)), ("key", IntValue(f.key)),
     ("analysis_url", TextValue(f.analysisUrl))]
  }

  /** `target_<name>` for every entry that has a value, in order. */
  function TargetEntries(entries: seq<(string, Option<FeatureValue>)>): (r: seq<Kwarg>)
    ensures |r| <= |entries|
  {
    if |entries| == 0 then []
    else
      (if entries[0].1.None? then [] else [("target_" + entries[0].0, entries[0].1.value)])
      + TargetEntries(entries[1..])
  }

  /** Exactly the entries with a value give a keyword, named `target_` and
      the feature's name, with that value; entries without one are left out. */
  lemma {:induction false} TargetEntriesSpec(entries: seq<(string, Option<FeatureValue>)>)
    ensures forall kw :: kw in TargetEntries(entries) <==>
              exists i :: 0 <= i < |entries| && entries[i].1 == Some(kw.1) && kw.0 == "target_" + entries[i].0
    ensures (forall i :: 0 <= i < |entries| ==> entries[i].1.None?) ==> TargetEntries(entries) == []
    ensures (forall i :: 0 <= i < |entries| ==> entries[i].1.Some?) ==> |TargetEntries(entries)| == |entries|
  {
    if |entries| > 0 {
      TargetEntriesSpec(entries[1..]);
      var head := if entries[0].1.None? then [] else [("target_" + entries[0].0, entries[0].1.value)];
      assert TargetEntries(entries) == head + TargetEntries(entries[1..]);
      forall kw ensures kw in TargetEntries(entries) <==>
          exists i :: 0 <= i < |entries| && entries[i].1 == Some(kw.1) && kw.0 == "target_" + entries[i].0
      {
        if kw in TargetEntries(entries[1..]) {
          var i :| 0 <= i < |entries[1..]| && entries[1..][i].1 == Some(kw.1) && kw.0 == "target_" + entries[1..][i].0;
          assert entries[i + 1] == entries[1..][i];
        }
        if exists i :: 0 <= i < |entries| && entries[i].1 == Some(kw.1) && kw.0 == "target_" + entries[i].0 {
          var i :| 0 <= i < |entries| && entries[i].1 == Some(kw.1) && kw.0 == "target_" + entries[i].0;
          if i > 0 {
            assert entries[1..][i - 1] == entries[i];
          }
        }
      }
    }
  }

  /** `_generate_target_features`. */
  function GenerateTargetFeatures(f: TrackFeatures): (r: seq<Kwarg>)
    ensures |r| <= 12
    ensures forall kw :: kw in r <==>
              exists i :: 0 <= i < 12 && Fields(f)[i].1 == Some(kw.1) && kw.0 == "target_" + Fields(f)[i].0
  {
    TargetEntriesSpec(Fields(f));
    TargetEntries(Fields(f))
  }

  lemma TargetEntriesStep(entries: seq<(string, Option<FeatureValue>)>, i: nat)
    requires i < |entries|
    ensures TargetEntries(entries[i..])
         == (if entries[i].1.None? then [] else [("target_" + entries[i].0, entries[i].1.value)]) + TargetEntries(entries[i + 1..])
  {
    assert entries[i..][1..] == entries[i + 1..];
  }

  /** The features with only acousticness and loudness set. */
  function TwoSet(ac: real, loud: real): TrackFeatures {
    TrackFeatures(Some(ac), None, None, None, None, Some(loud), None, None, None, None, None, None)
  }

  /** The unset fields after `loudness` give no keyword. */
  lemma UnsetAfterLoudness(ac: real, loud: real)
    ensures TargetEntries(Fields(TwoSet(ac, loud))[6..]) == []
  {
    var fs := Fields(TwoSet(ac, loud));
    assert fs[12..] == [];
    TargetEntriesStep(fs, 11);
    TargetEntriesStep(fs, 10);
    TargetEntriesStep(fs, 9);
    TargetEntriesStep(fs, 8);
    TargetEntriesStep(fs, 7);
    TargetEntriesStep(fs, 6);
  }

  /** The unset fields between `acousticness` and `loudness` give no
      keyword. */
  lemma UnsetBeforeLoudness(ac: real, loud: real)
    ensures TargetEntries(Fields(TwoSet(ac, loud))[1..]) == TargetEntries(Fields(TwoSet(ac, loud))[5..])
  {
    var fs := Fields(TwoSet(ac, loud));
    TargetEntriesStep(fs, 4);
    TargetEntriesStep(fs, 3);
    TargetEntriesStep(fs, 2);
    TargetEntriesStep(fs, 1);
  }

  lemma LoudnessKeyword(ac: real, loud: real)
    ensures TargetEntries(Fields(TwoSet(ac, loud))[5..]) == [("target_loudness", Num(loud))]
  {
    var fs := Fields(TwoSet(ac, loud));
    UnsetAfterLoudness(ac, loud);
    TargetEntriesStep(fs, 5);
    assert "target_" + "loudness" == "target_loudness";
  }

  lemma AcousticnessKeyword(ac: real, loud: real)
    ensures TargetEntries(Fields(TwoSet(ac, loud)))
         == [("target_acousticness", Num(ac))] + TargetEntries(Fields(TwoSet(ac, loud))[1..])
  {
    var fs := Fields(TwoSet(ac, loud));
    assert fs[0] == ("acousticness", Some(Num(ac)));
    assert "target_" + "acousticness" == "target_acousticness";
  }

  /** Acousticness and loudness alone give exactly their two keywords, in
      field order. */
  lemma TwoFeatures(ac: real, loud: real)
    ensures GenerateTargetFeatures(TwoSet(ac, loud)) == [("target_acousticness", Num(ac)), ("target_loudness", Num(loud))]
  {
    LoudnessKeyword(ac, loud);
    UnsetBeforeLoudness(ac, loud);
    AcousticnessKeyword(ac, loud);
  }

  /** `_generate_target_features(f) if f else {}`. */
  function KwargsOf(f: Option<TrackFeatures>): (r: seq<Kwarg>)
    ensures f.None? ==> r == []
    ensures f.Some? ==> r == GenerateTargetFeatures(f.value)
  {
    if f.None? then [] else GenerateTargetFeatures(f.value)
  }

  // ---------------------------------------------------------------------
  // Seeds

  /** The ids used as seeds: five drawn at random without replacement when
      there are more than five, otherwise all of them in order. The draw
      picks positions, so drawing the ids is drawing the items. */
  function SeedIds<T>(items: seq<T>, id: T -> string, rng: seq<nat>): (seed: seq<string>)
    ensures |items| > SeedLimit ==> |seed| == SeedLimit
    ensures |items| <= SeedLimit ==> seed == Map(items, id)
    ensures multiset(seed) <= multiset(Map(items, id))
    ensures Distinct(Map(items, id)) ==> Distinct(seed)
  {
    var ids := Map(items, id);
    if |items| <= SeedLimit then ids
    else
      assert Distinct(ids) ==> Distinct(Sample(ids, SeedLimit, rng)) by {
        if Distinct(ids) {
          SampleDistinct(ids, SeedLimit, rng);
        }
      }
      Sample(ids, SeedLimit, rng)
  }

  /** A recommendation request as the service receives it. */
  datatype Query = Query(seedArtists: Option<seq<string>>, seedTracks: Option<seq<string>>,
                         seedGenres: Option<seq<string>>, limit: int, targets: seq<Kwarg>)

  function Given(o: Option<seq<string>>): seq<string> {
    if o.None? then [] else o.value
  }

  /** The seed list the code counts: the artists if any are given, else the
      tracks, else the genres. */
  function CountedSeeds(q: Query): (r: seq<string>)
    ensures |Given(q.seedArtists)| > 0 ==> r == Given(q.seedArtists)
    ensures |Given(q.seedArtists)| == 0 && |Given(q.seedTracks)| > 0 ==> r == Given(q.seedTracks)
    ensures |Given(q.seedArtists)| == 0 && |Given(q.seedTracks)| == 0 ==> r == Given(q.seedGenres)
  {
    if |Given(q.seedArtists)| > 0 then Given(q.seedArtists)
    else if |Given(q.seedTracks)| > 0 then Given(q.seedTracks)
    else if |Given(q.seedGenres)| > 0 then Given(q.seedGenres)
    else []
  }

  /** All the seeds the request carries. */
  function AllSeeds(q: Query): seq<string> {
    Given(q.seedArtists) + Given(q.seedTracks) + Given(q.seedGenres)
  }

  /** The track record of `schemas/base.py`, into which the recommendations
      are validated: unlike the record of `chopin/schemas/track.py`,
      `popularity` is a required integer and there is no `added_at`. */
  datatype RecommendedTrack = RecommendedTrack(
    name: string,
    id: string,
    uri: string,
    durationMs: int,
    popularity: int,
    album: Album,
    artists: seq<Artist>)

  /** `TrackData(**track)` with the record of `schemas/base.py`: a missing
      or `None` popularity is refused. */
  function ValidateRecommended(raw: RawTrack): (r: Option<RecommendedTrack>)
    ensures r.Some? <==> raw.conforms && raw.popularity.Given? && raw.popularity.p.Some?
    ensures r.Some? ==> r.value.popularity == raw.popularity.p.value
    ensures r.Some? ==> r.value.name == raw.name && r.value.id == raw.id && r.value.uri == raw.uri
                        && r.value.durationMs == raw.durationMs
                        && r.value.album == raw.album && r.value.artists == raw.artists
  {
    match raw.popularity
    case Given(Some(p)) =>
      if raw.conforms
      then Some(RecommendedTrack(raw.name, raw.id, raw.uri, raw.durationMs, p, raw.album, raw.artists))
      else None
    case _ => None
  }

  /** A recommended track also validates as the playlist record, with the
      same popularity; a conforming answer without a popularity validates
      only as the playlist record, where it defaults to 0. */
  lemma RecommendedIsStricter(raw: RawTrack)
    ensures ValidateRecommended(raw).Some?
            ==> ValidateTrack(raw, None).Some?
                && ValidateTrack(raw, None).value.popularity == Some(ValidateRecommended(raw).value.popularity)
    ensures raw.conforms && raw.popularity.Missing?
            ==> ValidateRecommended(raw).None? && ValidateTrack(raw, None).Some?
  {
  }

  /** `[TrackData(**track) for track in recommendations]`: one answer that
      does not validate fails the whole call. */
  function ValidateAll(raws: seq<RawTrack>): (r: Result<seq<RecommendedTrack>>)
    ensures r.Ok? <==> forall i :: 0 <= i < |raws| ==> ValidateRecommended(raws[i]).Some?
    ensures r.Err? ==> r.error.ValidationError?
    ensures r.Ok? ==> |r.value| == |raws| && forall i :: 0 <= i < |raws| ==> ValidateRecommended(raws[i]) == Some(r.value[i])
  {
    if |raws| == 0 then Ok([])
    else
      match (ValidateRecommended(raws[0]), ValidateAll(raws[1..]))
      case (Some(t), Ok(rest)) =>
        assert forall i :: 1 <= i < |raws| ==> raws[i] == raws[1..][i - 1];
        Ok([t] + rest)
      case (None, _) => Err(ValidationError("track does not validate"))
      case (_, Err(e)) =>
        assert exists i :: 0 <= i < |raws[1..]| && ValidateRecommended(raws[1..][i]).None?;
        Err(e)
  }

  /** `get_recommendations` as written: only the counted seed list is checked
      against the limit before the service is called. */
  function GetRecommendationsAsWritten(recommend: Query -> seq<RawTrack>, q: Query): (r: Result<seq<RecommendedTrack>>)
    ensures |CountedSeeds(q)| > SeedLimit <==> r.Err? && r.error.ValueError?
    ensures |CountedSeeds(q)| <= SeedLimit ==> r == ValidateAll(recommend(q))
  {
    if |CountedSeeds(q)| > SeedLimit then Err(ValueError("too many seeds for the recommendation"))
    else ValidateAll(recommend(q))
  }

  /** `get_recommendations` with the limit applied to all the seeds. */
  function GetRecommendations(recommend: Query -> seq<RawTrack>, q: Query): (r: Result<seq<RecommendedTrack>>)
    ensures |AllSeeds(q)| > SeedLimit <==> r.Err? && r.error.ValueError?
    ensures |AllSeeds(q)| <= SeedLimit ==> r == ValidateAll(recommend(q))
  {
    if |AllSeeds(q)| > SeedLimit then Err(ValueError("too many seeds for the recommendation"))
    else ValidateAll(recommend(q))
  }

  /** Three artists and three tracks: the code as written asks the service
      with six seeds, the corrected check refuses them. */
  lemma SixSeedsSlipThrough(recommend: Query -> seq<RawTrack>)
    ensures var q := Query(Some(["a1", "a2", "a3"]), Some(["t1", "t2", "t3"]), None, 10, []);
      && |AllSeeds(q)| == 6
      && GetRecommendationsAsWritten(recommend, q) == ValidateAll(recommend(q))
      && GetRecommendations(recommend, q).Err?
  {
  }

  /** Whenever only one kind of seed is given, both checks agree. */
  lemma OneSeedKindAgrees(recommend: Query -> seq<RawTrack>, q: Query)
    requires (|Given(q.seedArtists)| > 0 ==> |Given(q.seedTracks)| == 0 && |Given(q.seedGenres)| == 0)
    requires |Given(q.seedTracks)| > 0 ==> |Given(q.seedGenres)| == 0
    ensures GetRecommendations(recommend, q) == GetRecommendationsAsWritten(recommend, q)
  {
    assert AllSeeds(q) == CountedSeeds(q);
  }

  /** `get_recommendations_from_artists`. */
  function RecommendFromArtists(recommend: Query -> seq<RawTrack>, maxRecommendations: int, artists: seq<Artist>,
                                targetFeatures: Option<TrackFeatures>, rng: seq<nat>): (r: Result<seq<RecommendedTrack>>)
    ensures r.Err? ==> r.error.ValidationError?
    ensures var q := Query(Some(SeedIds(artists, (a: Artist) => a.id, rng)), None, None, maxRecommendations, KwargsOf(targetFeatures));
      r == ValidateAll(recommend(q))
  {
    var q := Query(Some(SeedIds(artists, (a: Artist) => a.id, rng)), None, None, maxRecommendations, KwargsOf(targetFeatures));
    assert AllSeeds(q) == SeedIds(artists, (a: Artist) => a.id, rng);
    GetRecommendations(recommend, q)
  }

  /** `get_recommendations_from_tracks`. */
  function RecommendFromTracks(recommend: Query -> seq<RawTrack>, maxRecommendations: int, tracks: seq<Track>,
                               targetFeatures: Option<TrackFeatures>, rng: seq<nat>): (r: Result<seq<RecommendedTrack>>)
    ensures r.Err? ==> r.error.ValidationError?
    ensures var q := Query(None, Some(SeedIds(tracks, (t: Track) => t.id, rng)), None, maxRecommendations, KwargsOf(targetFeatures));
      r == ValidateAll(recommend(q))
  {
    var q := Query(None, Some(SeedIds(tracks, (t: Track) => t.id, rng)), None, maxRecommendations, KwargsOf(targetFeatures));
    assert AllSeeds(q) == SeedIds(tracks, (t: Track) => t.id, rng);
    GetRecommendations(recommend, q)
  }
}
