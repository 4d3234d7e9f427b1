/** `chopin/managers/composition.py`: turning a filled configuration into the
    list of tracks of the new playlist. Each source's items are sent to that
    source's resolver, the outputs are concatenated in order, and the whole
    pool is shuffled. The resolvers are abstract functions; an exception a
    resolver raises is an `Err` and stops the composition. */
module Composition {
  import opened Common
  import opened Seqs
  import opened Dates
  import opened Tracks
  import opened Selection
  import opened Composer

  /** The resolver behind each dispatcher entry. A call sees the item's name,
      its `nb_songs` and its selection rule, and, where the source takes one,
      the configuration's release range. History items give their time range
      and their `nb_songs` as the limit. */
  datatype Resolvers = Resolvers(
    fromPlaylistName: (string, int, Option<ReleaseRange>, Option<SelectionMethod>) -> Result<seq<Track>>,
    fromArtistName: (string, int, Option<ReleaseRange>, Option<SelectionMethod>) -> Result<seq<Track>>,
    fromPlaylistUri: (string, int, Option<ReleaseRange>, Option<SelectionMethod>) -> Result<seq<Track>>,
    fromRadio: (string, int, Option<SelectionMethod>) -> Result<seq<Track>>,
    fromMix: (string, int, Option<ReleaseRange>, Option<SelectionMethod>) -> Result<seq<Track>>,
    topTracks: (string, int) -> Result<seq<Track>>)

  /** The resolver call one `_add_from_*` helper makes for one item. Items
      of the other shape never reach a helper from a validated configuration;
      the attribute access would fail on them. */
  function Call(kind: SourceKind, res: Resolvers, range: Option<ReleaseRange>, item: Item): Result<seq<Track>> {
    match (kind, item)
    case (Playlists, SourceItem(name, _, n, m)) => res.fromPlaylistName(name, n, range, m)
    case (Artists, SourceItem(name, _, n, m)) => res.fromArtistName(name, n, range, m)
    case (Uris, SourceItem(name, _, n, m)) => res.fromPlaylistUri(name, n, range, m)
    case (Radios, SourceItem(name, _, n, m)) => res.fromRadio(name, n, m)
    case (Mixes, SourceItem(name, _, n, m)) => res.fromMix(name, n, range, m)
    case (History, HistoryItem(t, _, n)) => res.topTracks(TimeRangeName(t), n)
    case _ => Err(TypeError("object has no attribute for this source"))
  }

  /** The output of a call that succeeded, nothing otherwise. */
  function Output(o: Result<seq<Track>>): seq<Track> {
    if o.Ok? then o.value else []
  }

  /** `list(itertools.chain(*outputs))` over outputs computed in order: the
      first exception propagates, otherwise the outputs are concatenated. */
  function Chain(outs: seq<Result<seq<Track>>>): (r: Result<seq<Track>>)
    ensures r.Ok? <==> forall i :: 0 <= i < |outs| ==> outs[i].Ok?
    ensures r.Ok? ==> r.value == Flatten(Map(outs, Output))
    ensures r.Err? ==> exists i :: 0 <= i < |outs| && outs[i] == r && forall j :: 0 <= j < i ==> outs[j].Ok?
  {
    if |outs| == 0 then Ok([])
    else if outs[0].Err? then outs[0]
    else
      var rest := Chain(outs[1..]);
      assert Map(outs, Output) == [outs[0].value] + Map(outs[1..], Output);
      assert forall i :: 1 <= i < |outs| ==> outs[1..][i - 1] == outs[i];
      if rest.Err? then rest else Ok(outs[0].value + rest.value)
  }

  lemma {:induction false} ChainAppend(a: seq<Result<seq<Track>>>, b: seq<Result<seq<Track>>>)
    ensures Chain(a + b) == match Chain(a)
                            case Err(e) => Err(e)
                            case Ok(u) => (match Chain(b) case Err(e) => Err(e) case Ok(v) => Ok(u + v))
  {
    if |a| == 0 {
      assert a + b == b;
      if Chain(b).Ok? {
        assert [] + Chain(b).value == Chain(b).value;
      }
    } else if a[0].Ok? {
      assert (a + b)[1..] == a[1..] + b;
      ChainAppend(a[1..], b);
      if Chain(a[1..]).Ok? && Chain(b).Ok? {
        assert a[0].value + (Chain(a[1..]).value + Chain(b).value) == (a[0].value + Chain(a[1..]).value) + Chain(b).value;
      }
    }
  }

  /** The calls a helper makes for a list of items, one per item, in order. */
  function ItemCalls(kind: SourceKind, res: Resolvers, range: Option<ReleaseRange>, items: seq<Item>): seq<Result<seq<Track>>> {
    Map(items, (it: Item) => Call(kind, res, range, it))
  }

  /** `DISPATCHER[kind](items, release_range=...)`: the `_add_from_*` helper
      of the source. */
  function AddFrom(kind: SourceKind, res: Resolvers, range: Option<ReleaseRange>, items: seq<Item>): (r: Result<seq<Track>>)
    ensures r.Ok? <==> forall i :: 0 <= i < |items| ==> Call(kind, res, range, items[i]).Ok?
    ensures r.Ok? ==> r.value == Flatten(Map(ItemCalls(kind, res, range, items), Output))
    ensures r.Ok? ==> |r.value| == SumLengths(Map(ItemCalls(kind, res, range, items), Output))
  {
    FlattenLength(Map(ItemCalls(kind, res, range, items), Output));
    Chain(ItemCalls(kind, res, range, items))
  }

  /** Radio and history items are resolved without the release range. */
  lemma RangeNotForwarded(res: Resolvers, r1: Option<ReleaseRange>, r2: Option<ReleaseRange>, item: Item)
    ensures Call(Radios, res, r1, item) == Call(Radios, res, r2, item)
    ensures Call(History, res, r1, item) == Call(History, res, r2, item)
    ensures item.HistoryItem? ==> Call(History, res, r1, item) == res.topTracks(TimeRangeName(item.timeRange), item.nbSongs)
  {
  }

  // ---------------------------------------------------------------------
  // compose_playlist

  /** What the loop of `compose_playlist` gathers from `sources`: each source
      with a non-empty list adds its helper's output, in order; the first
      failure stops it. */
  function Pool(sources: seq<(SourceKind, seq<Item>)>, res: Resolvers, range: Option<ReleaseRange>): (r: Result<seq<Track>>)
    ensures r.Ok? ==> forall i :: 0 <= i < |sources| && |sources[i].1| > 0
                        ==> AddFrom(sources[i].0, res, range, sources[i].1).Ok?
    ensures (forall i :: 0 <= i < |sources| ==> |sources[i].1| == 0) ==> r == Ok([])
  {
    if |sources| == 0 then Ok([])
    else
      var init := sources[..|sources| - 1];
      assert forall i :: 0 <= i < |init| ==> init[i] == sources[i];
      match Pool(init, res, range)
      case Err(e) => Err(e)
      case Ok(acc) =>
        assert forall i :: 0 <= i < |init| && |sources[i].1| > 0
                 ==> AddFrom(sources[i].0, res, range, sources[i].1).Ok?;
        var (kind, items) := sources[|sources| - 1];
        if |items| == 0 then Ok(acc)
        else
          match AddFrom(kind, res, range, items)
          case Err(e) => Err(e)
          case Ok(ts) => Ok(acc + ts)
  }

  /** Every resolver call the composition makes, in order. */
  function Calls(sources: seq<(SourceKind, seq<Item>)>, res: Resolvers, range: Option<ReleaseRange>): seq<Result<seq<Track>>> {
    if |sources| == 0 then []
    else
      var (kind, items) := sources[|sources| - 1];
      Calls(sources[..|sources| - 1], res, range) + ItemCalls(kind, res, range, items)
  }

  /** The pool is the chain of all resolver calls across the sources: it
      fails exactly when some call fails (with the first failure), and is
      otherwise every output in order. A source with no items makes no call. */
  lemma {:induction false} PoolIsChainOfCalls(sources: seq<(SourceKind, seq<Item>)>, res: Resolvers, range: Option<ReleaseRange>)
    ensures Pool(sources, res, range) == Chain(Calls(sources, res, range))
  {
    if |sources| > 0 {
      var init := sources[..|sources| - 1];
      var (kind, items) := sources[|sources| - 1];
      PoolIsChainOfCalls(init, res, range);
      ChainAppend(Calls(init, res, range), ItemCalls(kind, res, range, items));
      if |items| == 0 {
        assert ItemCalls(kind, res, range, items) == [];
        assert Calls(sources, res, range) == Calls(init, res, range);
      }
    }
  }

  /** Once the gathering has failed, later sources change nothing. */
  lemma {:induction false} PoolErrorSticks(sources: seq<(SourceKind, seq<Item>)>, i: nat, res: Resolvers, range: Option<ReleaseRange>)
    requires i <= |sources| && Pool(sources[..i], res, range).Err?
    ensures Pool(sources, res, range) == Pool(sources[..i], res, range)
    decreases |sources|
  {
    if i < |sources| {
      var init := sources[..|sources| - 1];
      assert init[..i] == sources[..i];
      PoolErrorSticks(init, i, res, range);
    } else {
      assert sources[..i] == sources;
    }
  }

  /** One more source: an empty item list adds nothing, otherwise its
      output is appended, or its error ends the pool. */
  lemma PoolStep(sources: seq<(SourceKind, seq<Item>)>, i: nat, res: Resolvers, range: Option<ReleaseRange>, acc: seq<Track>)
    requires i < |sources| && Pool(sources[..i], res, range) == Ok(acc)
    ensures var (kind, items) := sources[i];
      Pool(sources[..i + 1], res, range)
      == if |items| == 0 then Ok(acc)
         else match AddFrom(kind, res, range, items)
              case Err(e) => Err(e)
              case Ok(ts) => Ok(acc + ts)
  {
    assert sources[..i + 1][..i] == sources[..i];
  }

  /** `compose_playlist`: gather the outputs of the sources of `items` in
      order, skipping empty lists, then return `random.sample(tracks,
      len(tracks))`. */
  method ComposePlaylist(config: ComposerConfig, res: Resolvers, rng: seq<nat>) returns (r: Result<seq<Track>>)
    ensures r == match Pool(config.Items(), res, config.releaseRange)
                 case Err(e) => Err(e)
                 case Ok(pool) => Ok(Shuffle(pool, rng))
  {
    var sources := config.Items();
    var tracks: seq<Track> := [];
    for i := 0 to |sources|
      invariant Pool(sources[..i], res, config.releaseRange) == Ok(tracks)
    {
      PoolStep(sources, i, res, config.releaseRange, tracks);
      var (kind, items) := sources[i];
      if |items| == 0 {
        continue;
      }
      var out := AddFrom(kind, res, config.releaseRange, items);
      if out.Err? {
        PoolErrorSticks(sources, i + 1, res, config.releaseRange);
        return Err(out.error);
      }
      tracks := tracks + out.value;
    }
    assert sources[..|sources|] == sources;
    return Ok(Shuffle(tracks, rng));
  }

  /** The composed playlist is a permutation of the concatenated outputs of
      every resolver call, and so has their total length. */
  lemma ComposedIsPermutationOfOutputs(config: ComposerConfig, res: Resolvers, rng: seq<nat>)
    requires Pool(config.Items(), res, config.releaseRange).Ok?
    ensures var calls := Calls(config.Items(), res, config.releaseRange);
      var composed := Shuffle(Pool(config.Items(), res, config.releaseRange).value, rng);
      && multiset(composed) == multiset(Flatten(Map(calls, Output)))
      && |composed| == SumLengths(Map(calls, Output))
  {
    var calls := Calls(config.Items(), res, config.releaseRange);
    PoolIsChainOfCalls(config.Items(), res, config.releaseRange);
    FlattenLength(Map(calls, Output));
  }

  /** With no items anywhere no resolver is called, and the composition is
      empty whatever the resolvers are. */
  lemma {:induction false} NoItemsNoCalls(sources: seq<(SourceKind, seq<Item>)>, res: Resolvers, range: Option<ReleaseRange>)
    requires forall i :: 0 <= i < |sources| ==> sources[i].1 == []
    ensures Calls(sources, res, range) == []
    ensures Pool(sources, res, range) == Ok([])
  {
    if |sources| > 0 {
      NoItemsNoCalls(sources[..|sources| - 1], res, range);
      assert ItemCalls(sources[|sources| - 1].0, res, range, []) == [];
    }
  }

  lemma EmptyConfigComposesNothing(config: ComposerConfig, res: Resolvers, rng: seq<nat>)
    requires config.AllItems() == []
    ensures Calls(config.Items(), res, config.releaseRange) == []
    ensures Pool(config.Items(), res, config.releaseRange) == Ok([])
    ensures Shuffle(Pool(config.Items(), res, config.releaseRange).value, rng) == []
  {
    NoItemsNoCalls(config.Items(), res, config.releaseRange);
  }

  // ---------------------------------------------------------------------
  // `_add_from_uris` as written

  const UriKeywordError: string := "tracks_from_playlist_uri() got an unexpected keyword argument 'playlist_id'"

  /** The resolvers as `_add_from_uris` reaches them: it passes the keyword
      `playlist_id`, which `tracks_from_playlist_uri` does not take, so every
      call raises `TypeError` before the resolver runs. */
  function AsWritten(res: Resolvers): Resolvers {
    res.(fromPlaylistUri := (name: string, n: int, range: Option<ReleaseRange>, m: Option<SelectionMethod>) =>
      Err(TypeError(UriKeywordError)))
  }

  /** As written, any non-empty list of uris fails. */
  lemma UrisAsWrittenFail(res: Resolvers, range: Option<ReleaseRange>, items: seq<Item>)
    requires |items| > 0
    ensures AddFrom(Uris, AsWritten(res), range, items).Err?
    ensures forall i :: 0 <= i < |items| && items[i].SourceItem? ==> Call(Uris, AsWritten(res), range, items[i]) == Err(TypeError(UriKeywordError))
  {
    var calls := ItemCalls(Uris, AsWritten(res), range, items);
    assert calls[0].Err? by {
      match items[0]
      case SourceItem(_, _, _, _) =>
      case HistoryItem(_, _, _) =>
    }
  }

  /** So a configuration with uris cannot be composed as written, while the
      corrected call composes it whenever the resolvers succeed. */
  lemma ComposeWithUris(config: ComposerConfig, res: Resolvers)
    requires config.uris != []
    ensures Pool(config.Items(), AsWritten(res), config.releaseRange).Err?
    ensures (forall c :: c in Calls(config.Items(), res, config.releaseRange) ==> c.Ok?)
            ==> Pool(config.Items(), res, config.releaseRange).Ok?
  {
    var sources := config.Items();
    var range := config.releaseRange;
    assert sources[..|sources| - 1][..|sources| - 2] == sources[..|sources| - 2];
    UrisAsWrittenFail(res, range, config.uris);
    PoolIsChainOfCalls(sources, res, range);
  }
}
