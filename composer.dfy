/** `chopin/schemas/composer.py`: the composer configuration, the validation
    of its fields, and the model validator `fill_nb_songs` that shares the
    requested number of songs among the sources in proportion to their
    weights. Weights are exact reals here. */
module Composer {
  import opened Common
  import opened Seqs
  import opened Dates
  import Strings
  import opened Selection

  datatype TimeRange = ShortTerm | MediumTerm | LongTerm

  function TimeRangeName(t: TimeRange): string {
    match t
    case ShortTerm => "short_term"
    case MediumTerm => "medium_term"
    case LongTerm => "long_term"
  }

  /** The `Literal["short_term", "medium_term", "long_term"]` check. */
  function ParseTimeRange(s: string): (r: Option<TimeRange>)
    ensures r.Some? ==> TimeRangeName(r.value) == s
  {
    if s == "short_term" then Some(ShortTerm)
    else if s == "medium_term" then Some(MediumTerm)
    else if s == "long_term" then Some(LongTerm)
    else None
  }

  lemma ParseTimeRangeName(t: TimeRange)
    ensures ParseTimeRange(TimeRangeName(t)) == Some(t)
  {
  }

  /** The keys of the dispatcher; only the first, third and fourth are
      configuration fields (`SOURCES`). */
  datatype SourceKind = Playlists | Artists | History | Uris | Radios | Mixes

  const Sources: seq<SourceKind> := [Playlists, History, Uris]

  /** A configured source: a named item (playlist name or id, with its
      selection rule) or a listening-history item. */
  datatype Item =
    | SourceItem(name: string, weight: real, nbSongs: int, selectionMethod: Option<SelectionMethod>)
    | HistoryItem(timeRange: TimeRange, weight: real, nbSongs: int)

  // ---------------------------------------------------------------------
  // Field validators of an item

  const SpotifyHost: string := "https://open.spotify.com"

  /** `extract_uri_from_link`: a Spotify link is replaced by the playlist id
      found in it, any other name is kept. */
  function ExtractUriFromLink(v: string): (r: string)
    ensures Strings.StartsWith(v, SpotifyHost) ==> forall c :: c in r ==> Strings.IsAlnum(c)
    ensures !Strings.StartsWith(v, SpotifyHost) ==> r == v
  {
    if Strings.StartsWith(v, SpotifyHost) then Strings.ExtractUriFromPlaylistLink(v) else v
  }

  /** A share link becomes the id it holds. */
  lemma ShareLinkBecomesId(id: string, query: string)
    requires |id| >= 1 && forall c :: c in id ==> Strings.IsAlnum(c)
    ensures ExtractUriFromLink(Strings.SharePrefix + id + "?" + query) == id
  {
    var link := Strings.SharePrefix + id + "?" + query;
    assert link[..|SpotifyHost|] == SpotifyHost;
    Strings.ExtractFromShareLink(id, query);
  }

  /** A link with no `?` after the id yields an empty name. */
  lemma LinkWithoutQueryIsEmpty(v: string)
    requires Strings.StartsWith(v, SpotifyHost) && '?' !in v
    ensures ExtractUriFromLink(v) == ""
  {
    Strings.NoQuestionMarkNoUri(v);
  }

  /** How `selection_method` appears in the input: absent, or given (possibly
      as `None`). */
  datatype MethodField = DefaultMethod | GivenMethod(raw: Option<string>)

  /** `lower_case_selection_method` followed by the enum check; the default
      RANDOM is not validated. */
  function ValidateMethod(lib: Strings.TextLib, f: MethodField): (r: Result<Option<SelectionMethod>>)
    ensures r.Err? ==> r.error.ValidationError?
    ensures f.DefaultMethod? ==> r == Ok(Some(Random))
    ensures f.GivenMethod? && (f.raw.None? || f.raw.value == "") ==> r == Ok(None)
    ensures f.GivenMethod? && f.raw.Some? && f.raw.value != "" ==>
              (r.Ok? <==> ParseMethod(Strings.Lower(lib, f.raw.value)).Some?)
              && (r.Ok? ==> r.value.Some? && MethodName(r.value.value) == Strings.Lower(lib, f.raw.value))
  {
    match f
    case DefaultMethod => Ok(Some(Random))
    case GivenMethod(None) => Ok(None)
    case GivenMethod(Some(s)) =>
      if s == "" then Ok(None)
      else
        match ParseMethod(Strings.Lower(lib, s))
        case Some(m) => Ok(Some(m))
        case None => Err(ValidationError("Input should be 'random', 'popularity', 'latest' or 'original'"))
  }

  lemma ValidateMethodExample()
    ensures ValidateMethod(Strings.AsciiLib, GivenMethod(Some("LATEST"))) == Ok(Some(Latest))
    ensures ValidateMethod(Strings.AsciiLib, GivenMethod(Some("newest"))).Err?
  {
    assert Strings.Lower(Strings.AsciiLib, "LATEST") == "latest";
    var l := Strings.Lower(Strings.AsciiLib, "newest");
    assert l[0] == 'n';
  }

  /** An item of `playlists` or `uris` as given; a missing weight is 1.0. */
  datatype RawItem = RawItem(name: string, weight: Option<real>, selection: MethodField)

  function ValidateItem(lib: Strings.TextLib, raw: RawItem): (r: Result<Item>)
    ensures r.Err? ==> r.error.ValidationError?
    ensures r.Ok? <==> raw.weight.GetOr(1.0) >= 0.0 && ValidateMethod(lib, raw.selection).Ok?
    ensures r.Ok? ==> r.value == SourceItem(ExtractUriFromLink(raw.name), raw.weight.GetOr(1.0), 0,
                                            ValidateMethod(lib, raw.selection).value)
  {
    var w := raw.weight.GetOr(1.0);
    if w < 0.0 then Err(ValidationError("Input should be greater than or equal to 0"))
    else
      match ValidateMethod(lib, raw.selection)
      case Err(e) => Err(e)
      case Ok(m) => Ok(SourceItem(ExtractUriFromLink(raw.name), w, 0, m))
  }

  /** An item of `history` as given; missing fields take their defaults. */
  datatype RawHistory = RawHistory(timeRange: Option<string>, weight: Option<real>)

  function ValidateHistoryItem(raw: RawHistory): (r: Result<Item>)
    ensures r.Err? ==> r.error.ValidationError?
    ensures r.Ok? <==> raw.weight.GetOr(1.0) >= 0.0
                       && (raw.timeRange.None? || ParseTimeRange(raw.timeRange.value).Some?)
    ensures r.Ok? ==> r.value.HistoryItem? && r.value.weight == raw.weight.GetOr(1.0) && r.value.nbSongs == 0
    ensures r.Ok? ==> TimeRangeName(r.value.timeRange) == raw.timeRange.GetOr("short_term")
  {
    var w := raw.weight.GetOr(1.0);
    var t := match raw.timeRange case None => Some(ShortTerm) case Some(s) => ParseTimeRange(s);
    if w < 0.0 then Err(ValidationError("Input should be greater than or equal to 0"))
    else if t.None? then Err(ValidationError("Input should be 'short_term', 'medium_term' or 'long_term'"))
    else Ok(HistoryItem(t.value, w, 0))
  }

  /** Validates each element in turn; the first failure is reported. */
  function ValidateItems(lib: Strings.TextLib, raws: seq<RawItem>): (r: Result<seq<Item>>)
    ensures r.Err? ==> r.error.ValidationError?
    ensures r.Ok? <==> forall i :: 0 <= i < |raws| ==> ValidateItem(lib, raws[i]).Ok?
    ensures r.Ok? ==> |r.value| == |raws|
                      && forall i :: 0 <= i < |raws| ==> r.value[i] == ValidateItem(lib, raws[i]).value
  {
    if |raws| == 0 then Ok([])
    else
      match (ValidateItem(lib, raws[0]), ValidateItems(lib, raws[1..]))
      case (Err(e), _) => Err(e)
      case (_, Err(e)) => Err(e)
      case (Ok(x), Ok(rest)) => Ok([x] + rest)
  }

  function ValidateHistoryItems(raws: seq<RawHistory>): (r: Result<seq<Item>>)
    ensures r.Err? ==> r.error.ValidationError?
    ensures r.Ok? <==> forall i :: 0 <= i < |raws| ==> ValidateHistoryItem(raws[i]).Ok?
    ensures r.Ok? ==> |r.value| == |raws|
                      && forall i :: 0 <= i < |raws| ==> r.value[i] == ValidateHistoryItem(raws[i]).value
  {
    if |raws| == 0 then Ok([])
    else
      match (ValidateHistoryItem(raws[0]), ValidateHistoryItems(raws[1..]))
      case (Err(e), _) => Err(e)
      case (_, Err(e)) => Err(e)
      case (Ok(x), Ok(rest)) => Ok([x] + rest)
  }

  // ---------------------------------------------------------------------
  // Field validators of the configuration

  /** `history_field_ranges_must_be_unique`: no two history items share a
      time range. */
  predicate UniqueRanges(history: seq<Item>) {
    forall i, j :: 0 <= i < j < |history| && history[i].HistoryItem? && history[j].HistoryItem?
                   ==> history[i].timeRange != history[j].timeRange
  }

  /** With three time ranges, unique ranges already allow at most three
      history items, so `max_length=3` never rejects a list the uniqueness
      check accepts. */
  lemma UniqueRangesAtMostThree(history: seq<Item>)
    requires forall i :: 0 <= i < |history| ==> history[i].HistoryItem?
    requires UniqueRanges(history)
    ensures |history| <= 3
  {
    if |history| > 3 {
      FourRangesCollide(history[0].timeRange, history[1].timeRange, history[2].timeRange, history[3].timeRange);
      assert false;
    }
  }

  lemma FourRangesCollide(t0: TimeRange, t1: TimeRange, t2: TimeRange, t3: TimeRange)
    ensures t0 == t1 || t0 == t2 || t0 == t3 || t1 == t2 || t1 == t3 || t2 == t3
  {
  }

  /** The configuration as given. A list key that is absent defaults to
      `[]`; one given as null (an empty key in the YAML file) is `None`, which
      the declared `list[...] | None` accepts. */
  datatype RawConfig = RawConfig(
    name: Option<string>,
    description: Option<string>,
    nbSongs: int,
    releaseRange: Option<RawRange>,
    playlists: Option<seq<RawItem>>,
    history: Option<seq<RawHistory>>,
    uris: Option<seq<RawItem>>)

  /** The configuration once every field validator has passed. A `None`
      history never gets this far: its validator iterates over it. */
  datatype Fields = Fields(
    name: string,
    description: string,
    nbSongs: int,
    releaseRange: Option<ReleaseRange>,
    playlists: Option<seq<Item>>,
    history: seq<Item>,
    uris: Option<seq<Item>>)

  const DefaultName: string := "\U{1F916} Robot Mix"
  const DefaultDescription: string := "Randomly generated mix"

  /** A list field declared `list[ComposerConfigItem] | None`: `None` is
      kept, a list is validated item by item. */
  function ValidateOptItems(lib: Strings.TextLib, raws: Option<seq<RawItem>>): (r: Result<Option<seq<Item>>>)
    ensures r.Err? ==> r.error.ValidationError?
    ensures raws.None? ==> r == Ok(None)
    ensures raws.Some? ==> (r.Ok? <==> ValidateItems(lib, raws.value).Ok?)
    ensures raws.Some? && r.Ok? ==> r.value == Some(ValidateItems(lib, raws.value).value)
  {
    match raws
    case None => Ok(None)
    case Some(rs) =>
      (match ValidateItems(lib, rs)
       case Ok(items) => Ok(Some(items))
       case Err(e) => Err(e))
  }

  const NotIterable: string := "'NoneType' object is not iterable"

  /** The field checks, in declaration order: `nb_songs > 0`, the release
      range, the items, at most three history items with unique ranges. The
      history validator iterates over the list, so a `None` history raises
      `TypeError` there; pydantic collects only `ValueError`s into its
      `ValidationError`, so that `TypeError` escapes whatever the other fields
      hold. The `ValueError` of the range's after-validator is collected. */
  function ValidateFields(lib: Strings.TextLib, raw: RawConfig, now: DateTime): (r: Result<Fields>)
    ensures raw.nbSongs <= 0 ==> r.Err?
    ensures raw.history.None? ==> r == Err(TypeError(NotIterable))
    ensures raw.history.Some? && r.Err? ==> r.error.ValidationError?
    ensures raw.history.Some? && |raw.history.value| > 3 ==> r.Err?
    ensures ReadDate(raw.releaseRange, now).Err? ==> r.Err?
    ensures r.Ok? <==> raw.nbSongs > 0 && ReadDate(raw.releaseRange, now).Ok?
                       && ValidateOptItems(lib, raw.playlists).Ok? && ValidateOptItems(lib, raw.uris).Ok?
                       && raw.history.Some?
                       && ValidateHistoryItems(raw.history.value).Ok? && |raw.history.value| <= 3
                       && UniqueRanges(ValidateHistoryItems(raw.history.value).value)
    ensures r.Ok? ==> r.value == Fields(raw.name.GetOr(DefaultName), raw.description.GetOr(DefaultDescription),
                                        raw.nbSongs, ReadDate(raw.releaseRange, now).value,
                                        ValidateOptItems(lib, raw.playlists).value,
                                        ValidateHistoryItems(raw.history.value).value,
                                        ValidateOptItems(lib, raw.uris).value)
  {
    var range := ReadDate(raw.releaseRange, now);
    var playlists := ValidateOptItems(lib, raw.playlists);
    var uris := ValidateOptItems(lib, raw.uris);
    if raw.history.None? then Err(TypeError(NotIterable))
    else if raw.nbSongs <= 0 then Err(ValidationError("Input should be greater than 0"))
    else if range.Err? then Err(ValidationError("Value error, " + range.error.reason))
    else if playlists.Err? then Err(playlists.error)
    else
      var history := ValidateHistoryItems(raw.history.value);
      if history.Err? then Err(history.error)
      else if |raw.history.value| > 3 then Err(ValidationError("List should have at most 3 items"))
      else if !UniqueRanges(history.value) then Err(ValidationError("time_range items for history must be unique"))
      else if uris.Err? then Err(uris.error)
      else Ok(Fields(raw.name.GetOr(DefaultName), raw.description.GetOr(DefaultDescription),
                     raw.nbSongs, range.value, playlists.value, history.value, uris.value))
  }

  /** A validated configuration has a positive song count, non-negative
      weights, and history ranges that are unique. */
  lemma ValidatedFields(lib: Strings.TextLib, raw: RawConfig, now: DateTime)
    requires ValidateFields(lib, raw, now).Ok?
    ensures var f := ValidateFields(lib, raw, now).value;
      && f.nbSongs > 0
      && (f.playlists.Some? ==> forall i :: 0 <= i < |f.playlists.value| ==> f.playlists.value[i].weight >= 0.0)
      && (forall i :: 0 <= i < |f.history| ==> f.history[i].weight >= 0.0)
      && (f.uris.Some? ==> forall i :: 0 <= i < |f.uris.value| ==> f.uris.value[i].weight >= 0.0)
      && UniqueRanges(f.history)
  {
  }

  /** Two history items with the same range are rejected. */
  lemma DuplicateRangeRejected(lib: Strings.TextLib, raw: RawConfig, now: DateTime)
    requires raw.history.Some? && |raw.history.value| == 2 && raw.history.value[0] == raw.history.value[1]
    ensures ValidateFields(lib, raw, now).Err?
  {
    var h := ValidateHistoryItems(raw.history.value);
    if h.Ok? {
      assert h.value[0] == h.value[1];
      assert !UniqueRanges(h.value);
    }
  }

  // ---------------------------------------------------------------------
  // fill_nb_songs

  /** `math.ceil`. */
  function Ceil(x: real): (n: int)
    ensures x <= n as real < x + 1.0
  {
    -((-x).Floor)
  }

  function TotalWeight(items: seq<Item>): real {
    if |items| == 0 then 0.0 else items[0].weight + TotalWeight(items[1..])
  }

  function SumNbSongs(items: seq<Item>): int {
    if |items| == 0 then 0 else items[0].nbSongs + SumNbSongs(items[1..])
  }

  /** The exact share `weight / W * N` of an item. */
  function Share(weight: real, total: real, nbSongs: int): real
    requires total != 0.0
  {
    weight / total * nbSongs as real
  }

  /** `ceil(weight / W * N)`: the smallest whole number of songs not below
      the item's share. */
  function Quota(weight: real, total: real, nbSongs: int): (q: int)
    requires total != 0.0
    ensures Share(weight, total, nbSongs) <= q as real < Share(weight, total, nbSongs) + 1.0
  {
    Ceil(Share(weight, total, nbSongs))
  }

  /** Every item with its `nb_songs` replaced by its quota. */
  function Allocate(items: seq<Item>, total: real, nbSongs: int): (r: seq<Item>)
    requires total != 0.0
    ensures |r| == |items|
    ensures forall i :: 0 <= i < |items| ==> r[i] == items[i].(nbSongs := Quota(items[i].weight, total, nbSongs))
  {
    seq(|items|, i requires 0 <= i < |items| => items[i].(nbSongs := Quota(items[i].weight, total, nbSongs)))
  }

  lemma AllocateAppend(a: seq<Item>, b: seq<Item>, total: real, nbSongs: int)
    requires total != 0.0
    ensures Allocate(a + b, total, nbSongs) == Allocate(a, total, nbSongs) + Allocate(b, total, nbSongs)
  {
  }

  lemma {:induction false} SumNbSongsAppend(a: seq<Item>, b: seq<Item>)
    ensures SumNbSongs(a + b) == SumNbSongs(a) + SumNbSongs(b)
  {
    if |a| == 0 {
      assert a + b == b;
    } else {
      assert (a + b)[1..] == a[1..] + b;
      SumNbSongsAppend(a[1..], b);
    }
  }

  lemma {:induction false} TotalWeightAppend(a: seq<Item>, b: seq<Item>)
    ensures TotalWeight(a + b) == TotalWeight(a) + TotalWeight(b)
  {
    if |a| == 0 {
      assert a + b == b;
    } else {
      assert (a + b)[1..] == a[1..] + b;
      TotalWeightAppend(a[1..], b);
    }
  }

  lemma ShareAdd(a: real, b: real, total: real, nbSongs: int)
    requires total != 0.0
    ensures Share(a + b, total, nbSongs) == Share(a, total, nbSongs) + Share(b, total, nbSongs)
  {
    calc {
      Share(a + b, total, nbSongs);
      (a + b) / total * nbSongs as real;
      { assert (a + b) / total == a / total + b / total; }
      (a / total + b / total) * nbSongs as real;
      a / total * nbSongs as real + b / total * nbSongs as real;
    }
  }

  /** The allocated songs are at least the items' total share and less than
      that share plus one song per item. */
  lemma {:induction false} AllocateBounds(items: seq<Item>, total: real, nbSongs: int)
    requires total != 0.0
    ensures Share(TotalWeight(items), total, nbSongs) <= SumNbSongs(Allocate(items, total, nbSongs)) as real
    ensures |items| > 0 ==>
      SumNbSongs(Allocate(items, total, nbSongs)) as real < Share(TotalWeight(items), total, nbSongs) + |items| as real
    ensures |items| == 0 ==> SumNbSongs(Allocate(items, total, nbSongs)) == 0
  {
    if |items| > 0 {
      var r := Allocate(items, total, nbSongs);
      AllocateBounds(items[1..], total, nbSongs);
      assert r[1..] == Allocate(items[1..], total, nbSongs);
      ShareAdd(items[0].weight, TotalWeight(items[1..]), total, nbSongs);
      if |items| == 1 {
        assert SumNbSongs(r[1..]) == 0;
      }
    }
  }

  /** With `W` the sum of the weights, the quotas add up to at least
      `nb_songs` and overshoot it by at most one song per item beyond the
      first. */
  lemma Overshoot(items: seq<Item>, nbSongs: int)
    requires TotalWeight(items) > 0.0
    ensures var given := SumNbSongs(Allocate(items, TotalWeight(items), nbSongs));
      nbSongs <= given <= nbSongs + |items| - 1
  {
    var w := TotalWeight(items);
    AllocateBounds(items, w, nbSongs);
    assert Share(w, w, nbSongs) == nbSongs as real;
    assert |items| > 0;
  }

  /** An item of weight zero gets no songs; a heavier item never gets fewer
      songs than a lighter one. */
  lemma QuotaProperties(a: real, b: real, total: real, nbSongs: int)
    requires total > 0.0 && nbSongs >= 0
    ensures Quota(0.0, total, nbSongs) == 0
    ensures a <= b ==> Quota(a, total, nbSongs) <= Quota(b, total, nbSongs)
  {
    if a <= b {
      assert a / total <= b / total;
      assert Share(a, total, nbSongs) <= Share(b, total, nbSongs);
    }
  }

  /** Weights 1 and 1 over 20 songs give 10 and 10; weights 1 and 0.2 give
      17 and 4, which is 21 songs in all. */
  lemma QuotaExamples()
    ensures Quota(1.0, 2.0, 20) == 10 && Quota(1.0, 2.0, 20) == 10
    ensures Quota(1.0, 1.2, 20) == 17 && Quota(0.2, 1.2, 20) == 4
  {
    assert Share(1.0, 2.0, 20) == 10.0;
    assert 16.0 < Share(1.0, 1.2, 20) < 17.0;
    assert 3.0 < Share(0.2, 1.2, 20) < 4.0;
  }

  /** A validated configuration whose items are filled in place. */
  class ComposerConfig {
    const name: string
    const description: string
    const nbSongs: int
    const releaseRange: Option<ReleaseRange>
    var playlists: seq<Item>
    var history: seq<Item>
    var uris: seq<Item>

    constructor (f: Fields)
      requires f.playlists.Some? && f.uris.Some?
      ensures name == f.name && description == f.description && nbSongs == f.nbSongs
      ensures releaseRange == f.releaseRange
      ensures playlists == f.playlists.value && history == f.history && uris == f.uris.value
    {
      name := f.name;
      description := f.description;
      nbSongs := f.nbSongs;
      releaseRange := f.releaseRange;
      playlists := f.playlists.value;
      history := f.history;
      uris := f.uris.value;
    }

    /** The items of every source, in the order of `SOURCES`. */
    function AllItems(): seq<Item>
      reads this
    {
      playlists + history + uris
    }

    /** `items`: each source of `SOURCES` with its list, in that order; the
        artists, radios and mixes sources of the dispatcher never appear. */
    function Items(): (r: seq<(SourceKind, seq<Item>)>)
      reads this
      ensures |r| == |Sources|
      ensures forall i :: 0 <= i < |r| ==> r[i].0 == Sources[i]
      ensures forall i :: 0 <= i < |r| ==> r[i].0 !in {Artists, Radios, Mixes}
      ensures Flatten(seq(|r|, i requires 0 <= i < |r| => r[i].1)) == AllItems()
    {
      var r := [(Playlists, playlists), (History, history), (Uris, uris)];
      assert seq(|r|, i requires 0 <= i < |r| => r[i].1) == [playlists, history, uris];
      FlattenThree(playlists, history, uris);
      r
    }

    /** `fill_nb_songs`: every item's `nb_songs` becomes its quota, and the
        total is returned (the source logs it). */
    method FillNbSongs() returns (total: int)
      requires AllItems() == [] || TotalWeight(AllItems()) > 0.0
      modifies this
      ensures var w := if old(AllItems()) == [] then 1.0 else TotalWeight(old(AllItems()));
        && playlists == Allocate(old(playlists), w, nbSongs)
        && history == Allocate(old(history), w, nbSongs)
        && uris == Allocate(old(uris), w, nbSongs)
      ensures total == SumNbSongs(AllItems())
    {
      var w := if AllItems() == [] then 1.0 else TotalWeight(AllItems());
      var ps, s1 := FillCategory(playlists, w, nbSongs);
      var hs, s2 := FillCategory(history, w, nbSongs);
      var us, s3 := FillCategory(uris, w, nbSongs);
      playlists, history, uris := ps, hs, us;
      total := s1 + s2 + s3;
      SumNbSongsAppend(ps + hs, us);
      SumNbSongsAppend(ps, hs);
    }
  }

  lemma FlattenThree<T>(a: seq<T>, b: seq<T>, c: seq<T>)
    ensures Flatten([a, b, c]) == a + b + c
  {
    assert [a, b, c][1..] == [b, c];
    assert [b, c][1..] == [c];
    assert [c][1..] == [];
    assert Flatten([c]) == c + [] == c;
  }

  /** The inner loop of `fill_nb_songs` over one source's items. */
  method FillCategory(items: seq<Item>, total: real, nbSongs: int) returns (filled: seq<Item>, subtotal: int)
    requires total != 0.0
    ensures filled == Allocate(items, total, nbSongs)
    ensures subtotal == SumNbSongs(filled)
  {
    filled := items;
    subtotal := 0;
    for i := 0 to |items|
      invariant |filled| == |items|
      invariant filled[..i] == Allocate(items[..i], total, nbSongs)
      invariant filled[i..] == items[i..]
      invariant subtotal == SumNbSongs(filled[..i])
    {
      var q := Quota(items[i].weight, total, nbSongs);
      filled := filled[i := filled[i].(nbSongs := q)];
      subtotal := subtotal + q;
      assert filled[..i + 1] == filled[..i] + [filled[i]];
      SumNbSongsAppend(filled[..i], [filled[i]]);
      assert items[..i + 1] == items[..i] + [items[i]];
      AllocateAppend(items[..i], [items[i]], total, nbSongs);
    }
    assert filled == filled[..|items|];
    assert items == items[..|items|];
  }

  /** Building the model: the field validators, then `fill_nb_songs`, which
      iterates over every source list, so a `None` playlists or uris list
      raises `TypeError` there. Items whose weights are all zero make every
      share `0 / 0`, a NaN whose ceiling raises. */
  method NewComposerConfig(lib: Strings.TextLib, raw: RawConfig, now: DateTime) returns (r: Result<ComposerConfig>)
    ensures ValidateFields(lib, raw, now).Err? ==> r.Err?
    ensures ValidateFields(lib, raw, now).Ok? ==>
      var f := ValidateFields(lib, raw, now).value;
      (f.playlists.None? || f.uris.None? ==> r == Err(TypeError(NotIterable)))
    ensures r.Ok? ==> fresh(r.value)
    ensures r.Ok? ==> var f := ValidateFields(lib, raw, now).value;
      && f.playlists.Some? && f.uris.Some?
      && var all := f.playlists.value + f.history + f.uris.value;
      && r.value.nbSongs == f.nbSongs && r.value.releaseRange == f.releaseRange
      && (all == [] || TotalWeight(all) > 0.0)
      && r.value.AllItems() == Allocate(all, if all == [] then 1.0 else TotalWeight(all), f.nbSongs)
    ensures ValidateFields(lib, raw, now).Ok? ==>
      var f := ValidateFields(lib, raw, now).value;
      f.playlists.Some? && f.uris.Some? ==>
      var all := f.playlists.value + f.history + f.uris.value;
      (r.Err? <==> all != [] && TotalWeight(all) <= 0.0)
  {
    var fields := ValidateFields(lib, raw, now);
    if fields.Err? {
      return Err(fields.error);
    }
    var f := fields.value;
    if f.playlists.None? || f.uris.None? {
      return Err(TypeError(NotIterable));
    }
    var all := f.playlists.value + f.history + f.uris.value;
    if all != [] && TotalWeight(all) <= 0.0 {
      return Err(ValidationError("cannot convert float NaN to integer"));
    }
    var config := new ComposerConfig(f);
    var _ := config.FillNbSongs();
    var w := if all == [] then 1.0 else TotalWeight(all);
    AllocateAppend(f.playlists.value + f.history, f.uris.value, w, f.nbSongs);
    AllocateAppend(f.playlists.value, f.history, w, f.nbSongs);
    return Ok(config);
  }
}
