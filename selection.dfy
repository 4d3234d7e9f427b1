/** `chopin/managers/selection.py`: picking `min(nb_tracks, len(tracks))`
    tracks out of a list, at random, by popularity, by release date or in the
    original order. Random draws come from an oracle `rng`. */
module Selection {
  import opened Common
  import opened Seqs
  import opened Dates
  import opened Tracks

  datatype SelectionMethod = Random | Popularity | Latest | Original

  /** The string value of each enum member. */
  function MethodName(m: SelectionMethod): string {
    match m
    case Random => "random"
    case Popularity => "popularity"
    case Latest => "latest"
    case Original => "original"
  }

  /** `SelectionMethod(s)`: the member whose value is `s`, if any. */
  function ParseMethod(s: string): (r: Option<SelectionMethod>)
    ensures r.Some? ==> MethodName(r.value) == s
  {
    if s == "random" then Some(Random)
    else if s == "popularity" then Some(Popularity)
    else if s == "latest" then Some(Latest)
    else if s == "original" then Some(Original)
    else None
  }

  /** Every member is found back from its value. */
  lemma ParseMethodName(m: SelectionMethod)
    ensures ParseMethod(MethodName(m)) == Some(m)
  {
  }

  /** Python's `s[:n]`; a negative `n` counts from the end. */
  function PyPrefix<T>(s: seq<T>, n: int): (r: seq<T>)
    ensures |r| == if n >= 0 then Min(n, |s|) else Max(|s| + n, 0)
    ensures r == s[..|r|]
  {
    if n >= 0 then s[..Min(n, |s|)] else s[..Max(|s| + n, 0)]
  }

  // ---------------------------------------------------------------------
  // The four selection rules

  /** `np.random.choice(tracks, min(nb_tracks, len(tracks)), replace=False)`;
      a negative size raises `ValueError`. */
  function SelectRandom(tracks: seq<Track>, nbTracks: int, rng: seq<nat>): (r: Result<seq<Track>>)
    ensures r.Err? <==> nbTracks < 0
    ensures r.Ok? ==> |r.value| == Min(nbTracks, |tracks|)
    ensures r.Ok? ==> multiset(r.value) <= multiset(tracks)
  {
    var n := Min(nbTracks, |tracks|);
    if n < 0 then Err(ValueError("negative dimensions are not allowed"))
    else Ok(Sample(tracks, n, rng))
  }

  /** `tracks[:min(nb_tracks, len(tracks))]`. */
  function SelectOriginal(tracks: seq<Track>, nbTracks: int): (r: seq<Track>)
    ensures |r| == if nbTracks >= 0 then Min(nbTracks, |tracks|) else Max(|tracks| + nbTracks, 0)
    ensures r == tracks[..|r|]
  {
    PyPrefix(tracks, Min(nbTracks, |tracks|))
  }

  function PopularityKey(t: Track): int {
    t.popularity.GetOr(0)
  }

  function ReleaseKey(t: Track): int {
    Ordinal(t.album.releaseDate)
  }

  /** Sorting two or more tracks compares every one of them; a `None`
      popularity cannot be compared and raises `TypeError`. */
  predicate PopularityComparable(tracks: seq<Track>) {
    |tracks| < 2 || forall i :: 0 <= i < |tracks| ==> tracks[i].popularity.Some?
  }

  /** `sorted(tracks, key=popularity, reverse=True)[:min(nb_tracks, len(tracks))]`. */
  function SelectPopular(tracks: seq<Track>, nbTracks: int): (r: Result<seq<Track>>)
    ensures r.Ok? <==> PopularityComparable(tracks)
  {
    if !PopularityComparable(tracks) then Err(TypeError("'<' not supported between instances of 'NoneType' and 'int'"))
    else Ok(PyPrefix(SortDesc(tracks, PopularityKey), Min(nbTracks, |tracks|)))
  }

  /** `sorted(tracks, key=album.release_date, reverse=True)[:min(nb_tracks, len(tracks))]`. */
  function SelectLatest(tracks: seq<Track>, nbTracks: int): (r: seq<Track>)
    ensures |r| == if nbTracks >= 0 then Min(nbTracks, |tracks|) else Max(|tracks| + nbTracks, 0)
    ensures multiset(r) <= multiset(tracks)
    ensures SortedDesc(r, ReleaseKey)
  {
    var s := SortDesc(tracks, ReleaseKey);
    SortDescProps(tracks, ReleaseKey);
    var r := PyPrefix(s, Min(nbTracks, |tracks|));
    assert s == r + s[|r|..];
    r
  }

  /** `SELECTION_MAPPER[m](tracks, nb_tracks)`: every member has an entry. */
  function ApplyMethod(m: SelectionMethod, tracks: seq<Track>, nbTracks: int, rng: seq<nat>): Result<seq<Track>> {
    match m
    case Random => SelectRandom(tracks, nbTracks, rng)
    case Popularity => SelectPopular(tracks, nbTracks)
    case Latest => Ok(SelectLatest(tracks, nbTracks))
    case Original => Ok(SelectOriginal(tracks, nbTracks))
  }

  /** `select_tracks`: a missing method means RANDOM. */
  function SelectTracks(tracks: seq<Track>, nbTracks: int, m: Option<SelectionMethod>, rng: seq<nat>): (r: Result<seq<Track>>)
    ensures m.None? ==> r == SelectRandom(tracks, nbTracks, rng)
    ensures r.Err? ==> (m.GetOr(Random) == Random && nbTracks < 0) || (m == Some(Popularity) && !PopularityComparable(tracks))
  {
    ApplyMethod(m.GetOr(Random), tracks, nbTracks, rng)
  }

  // ---------------------------------------------------------------------
  // Properties

  /** For a non-negative count every rule succeeds (popularity needs
      comparable keys) with exactly `min(nb_tracks, len(tracks))` tracks, all
      taken from the input without replacement. */
  lemma SelectLengthAndSource(tracks: seq<Track>, nbTracks: int, m: Option<SelectionMethod>, rng: seq<nat>)
    requires nbTracks >= 0
    requires m == Some(Popularity) ==> PopularityComparable(tracks)
    ensures SelectTracks(tracks, nbTracks, m, rng).Ok?
    ensures |SelectTracks(tracks, nbTracks, m, rng).value| == Min(nbTracks, |tracks|)
    ensures multiset(SelectTracks(tracks, nbTracks, m, rng).value) <= multiset(tracks)
  {
    var n := Min(nbTracks, |tracks|);
    match m.GetOr(Random)
    case Random =>
    case Original =>
      assert tracks == tracks[..n] + tracks[n..];
    case Popularity =>
      SortedPrefixFromInput(tracks, PopularityKey, n);
    case Latest =>
      SortedPrefixFromInput(tracks, ReleaseKey, n);
  }

  lemma SortedPrefixFromInput(tracks: seq<Track>, key: Track -> int, n: nat)
    requires n <= |tracks|
    ensures |SortDesc(tracks, key)| == |tracks|
    ensures multiset(SortDesc(tracks, key)[..n]) <= multiset(tracks)
  {
    var s := SortDesc(tracks, key);
    SortDescProps(tracks, key);
    assert s == s[..n] + s[n..];
  }

  /** An empty input or a zero count gives an empty selection, whatever the rule. */
  lemma SelectNothing(tracks: seq<Track>, nbTracks: int, m: Option<SelectionMethod>, rng: seq<nat>)
    requires |tracks| == 0 || nbTracks == 0
    requires nbTracks >= 0
    requires m == Some(Popularity) ==> PopularityComparable(tracks)
    ensures SelectTracks(tracks, nbTracks, m, rng) == Ok([])
  {
    SelectLengthAndSource(tracks, nbTracks, m, rng);
  }

  /** ORIGINAL keeps the input's first tracks, in order. */
  lemma SelectOriginalPrefix(tracks: seq<Track>, nbTracks: int)
    requires nbTracks >= 0
    ensures SelectOriginal(tracks, nbTracks) == tracks[..Min(nbTracks, |tracks|)]
  {
  }

  /** A negative count is a Python slice from the end: `[a, b, c][:-1]`. */
  lemma SelectOriginalNegative(a: Track, b: Track, c: Track)
    ensures SelectOriginal([a, b, c], -1) == [a, b]
    ensures SelectRandom([a, b, c], -1, []).Err?
  {
  }

  /** A sorted selection is the top of the input: it is itself sorted, and no
      track left out ranks above the last one taken. */
  lemma SortedSelectionIsTop(tracks: seq<Track>, key: Track -> int, nbTracks: int)
    requires nbTracks > 0 && |tracks| > 0
    ensures var r := PyPrefix(SortDesc(tracks, key), Min(nbTracks, |tracks|));
      && SortedDesc(r, key)
      && forall x :: x in multiset(tracks) - multiset(r) ==> key(x) <= key(r[|r| - 1])
  {
    var s := SortDesc(tracks, key);
    var k := Min(nbTracks, |tracks|);
    SortDescProps(tracks, key);
    var r := PyPrefix(s, k);
    assert r == s[..k];
    assert SortedDesc(r, key) by {
      forall i, j | 0 <= i < j < |r| ensures key(r[i]) >= key(r[j]) {
        assert r[i] == s[i] && r[j] == s[j];
      }
    }
    TopK(s, key, k);
    assert multiset(tracks) - multiset(r) == multiset(s) - multiset(s[..k]);
  }

  /** POPULARITY: most popular first, and no unselected track is more popular
      than the last selected one. */
  lemma SelectPopularTop(tracks: seq<Track>, nbTracks: int)
    requires PopularityComparable(tracks) && nbTracks > 0 && |tracks| > 0
    ensures var r := SelectPopular(tracks, nbTracks).value;
      && SortedDesc(r, PopularityKey)
      && forall x :: x in multiset(tracks) - multiset(r) ==> PopularityKey(x) <= PopularityKey(r[|r| - 1])
  {
    SortedSelectionIsTop(tracks, PopularityKey, nbTracks);
  }

  /** LATEST: most recent release first, and no unselected track was released
      after the last selected one. */
  lemma SelectLatestTop(tracks: seq<Track>, nbTracks: int)
    requires nbTracks > 0 && |tracks| > 0
    ensures var r := SelectLatest(tracks, nbTracks);
      && SortedDesc(r, ReleaseKey)
      && forall x :: x in multiset(tracks) - multiset(r) ==> ReleaseKey(x) <= ReleaseKey(r[|r| - 1])
  {
    SortedSelectionIsTop(tracks, ReleaseKey, nbTracks);
  }

  /** On real calendar dates the release key orders chronologically, so the
      LATEST order is the order of the dates themselves. */
  lemma ReleaseKeyChronological(a: Track, b: Track)
    requires ValidDate(a.album.releaseDate) && ValidDate(b.album.releaseDate)
    ensures ReleaseKey(a) <= ReleaseKey(b) <==> DateLe(a.album.releaseDate, b.album.releaseDate)
  {
    OrdinalMonotone(a.album.releaseDate, b.album.releaseDate);
  }

  /** Sorting is stable: the tracks sharing one key keep their input order. */
  lemma SelectStable(tracks: seq<Track>, key: Track -> int, k: int)
    ensures WithKey(SortDesc(tracks, key), key, k) == WithKey(tracks, key, k)
  {
    SortDescStable(tracks, key, k);
  }

  /** An already ranked input is cut, not reordered. */
  lemma SelectPopularOfRanked(tracks: seq<Track>, nbTracks: int)
    requires PopularityComparable(tracks) && SortedDesc(tracks, PopularityKey) && nbTracks >= 0
    ensures SelectPopular(tracks, nbTracks) == Ok(SelectOriginal(tracks, nbTracks))
  {
    SortDescOfSorted(tracks, PopularityKey);
  }

  /** Selecting from a selection with the same rule and count changes nothing
      for the deterministic rules. */
  lemma SelectLatestIdempotent(tracks: seq<Track>, nbTracks: int)
    requires nbTracks >= 0
    ensures SelectLatest(SelectLatest(tracks, nbTracks), nbTracks) == SelectLatest(tracks, nbTracks)
  {
    var r := SelectLatest(tracks, nbTracks);
    var s := SortDesc(tracks, ReleaseKey);
    SortDescProps(tracks, ReleaseKey);
    assert SortedDesc(r, ReleaseKey) by {
      forall i, j | 0 <= i < j < |r| ensures ReleaseKey(r[i]) >= ReleaseKey(r[j]) {
        assert r[i] == s[i] && r[j] == s[j];
      }
    }
    SortDescOfSorted(r, ReleaseKey);
  }
}
