/** `chopin/schemas/track.py` together with the artist and album records it
    holds: the track record, the truncation of `added_at` to a date, the
    dictionary form given by `model_dump` and read back by `model_validate`,
    and `to_flatten_dict`. */
module Tracks {
  import opened Common
  import Seqs
  import opened Dates
  import opened Dictionaries

  datatype Artist = Artist(name: string, id: string, uri: string, genres: Option<seq<string>>)

  /** The release date has already gone through the album's date parser
      (`parse_release_date`), which is not part of this model. */
  datatype Album = Album(name: string, id: string, uri: string, releaseDate: Date)

  /** `popularity` is declared twice in the record; the second declaration
      wins, so it is optional with default 0. */
  datatype Track = Track(
    name: string,
    id: string,
    uri: string,
    durationMs: int,
    popularity: Option<int>,
    addedAt: Option<Date>,
    album: Album,
    artists: seq<Artist>)

  // ---------------------------------------------------------------------
  // datetime_to_date

  /** A `date` or a `datetime` value. */
  datatype Temporal = OfDate(d: Date) | OfDateTime(dt: DateTime)

  function DatetimeToDate(t: Option<Temporal>): (r: Option<Temporal>)
    ensures r.Some? <==> t.Some?
    ensures r.Some? ==> r.value.OfDate?
  {
    match t
    case Some(OfDateTime(dt)) => Some(OfDate(dt.date))
    case _ => t
  }

  /** A datetime is cut to its date, a date and `None` pass through, and
      truncating twice is truncating once. */
  lemma DatetimeToDateSpec(t: Option<Temporal>)
    ensures t.Some? && t.value.OfDateTime? ==> DatetimeToDate(t) == Some(OfDate(t.value.dt.date))
    ensures t.Some? && t.value.OfDate? ==> DatetimeToDate(t) == t
    ensures t.None? ==> DatetimeToDate(t).None?
    ensures DatetimeToDate(DatetimeToDate(t)) == DatetimeToDate(t)
  {
  }

  lemma DatetimeToDateExamples()
    ensures DatetimeToDate(Some(OfDateTime(DateTime(Date(2024, 12, 12), 12, 0, 0, 0))))
         == Some(OfDate(Date(2024, 12, 12)))
    ensures DatetimeToDate(Some(OfDate(Date(2022, 10, 8)))) == Some(OfDate(Date(2022, 10, 8)))
  {
  }

  // ---------------------------------------------------------------------
  // Validation of a raw track

  /** How the `popularity` key of a raw track looks. */
  datatype PopularityField = Missing | Given(p: Option<int>)

  /** A track as the Spotify API sends it. `conforms` stands for every type
      check on the remaining fields, which this model does not spell out. */
  datatype RawTrack = RawTrack(
    name: string,
    id: string,
    uri: string,
    durationMs: int,
    popularity: PopularityField,
    album: Album,
    artists: seq<Artist>,
    conforms: bool)

  function AsDate(t: Option<Temporal>): Option<Date> {
    match DatetimeToDate(t)
    case Some(OfDate(d)) => Some(d)
    case _ => None
  }

  /** `TrackData.model_validate(dict(added_at=..., **raw))`. */
  function ValidateTrack(raw: RawTrack, addedAt: Option<Temporal>): (r: Option<Track>)
    ensures r.Some? <==> raw.conforms
    ensures r.Some? ==> r.value.name == raw.name && r.value.id == raw.id && r.value.uri == raw.uri
                        && r.value.durationMs == raw.durationMs
                        && r.value.album == raw.album && r.value.artists == raw.artists
    ensures r.Some? ==> r.value.popularity == (if raw.popularity.Missing? then Some(0) else raw.popularity.p)
    ensures r.Some? ==> r.value.addedAt == (match addedAt
                                            case None => None
                                            case Some(OfDate(d)) => Some(d)
                                            case Some(OfDateTime(dt)) => Some(dt.date))
  {
    if !raw.conforms then None
    else
      var popularity := if raw.popularity.Missing? then Some(0) else raw.popularity.p;
      Some(Track(raw.name, raw.id, raw.uri, raw.durationMs, popularity, AsDate(addedAt), raw.album, raw.artists))
  }

  // ---------------------------------------------------------------------
  // model_dump and model_validate of the dictionary form

  function StrList(ss: seq<string>): seq<Value> {
    Seqs.Map(ss, s => Str(s))
  }

  function LoadStrings(vs: seq<Value>): Option<seq<string>> {
    if |vs| == 0 then Some([])
    else
      match (vs[0], LoadStrings(vs[1..]))
      case (Str(s), Some(rest)) => Some([s] + rest)
      case _ => None
  }

  lemma {:induction false} LoadStrList(ss: seq<string>)
    ensures LoadStrings(StrList(ss)) == Some(ss)
  {
    if |ss| > 0 {
      LoadStrList(ss[1..]);
      assert StrList(ss)[1..] == StrList(ss[1..]);
      assert ss == [ss[0]] + ss[1..];
    }
  }

  function DumpArtist(a: Artist): Value {
    Dict([("name", Str(a.name)), ("id", Str(a.id)), ("uri", Str(a.uri)),
          ("genres", match a.genres case None => Null case Some(gs) => List(StrList(gs)))])
  }

  /** The first entry with key `k` decides the lookup. */
  lemma {:induction false} LookupAt(d: seq<Entry>, k: string, i: nat)
    requires i < |d| && d[i].0 == k
    requires forall j :: 0 <= j < i ==> d[j].0 != k
    ensures Lookup(d, k) == Some(d[i].1)
  {
    if i > 0 {
      LookupAt(d[1..], k, i - 1);
    }
  }

  function GetStr(d: seq<Entry>, k: string): Option<string> {
    match Lookup(d, k)
    case Some(Str(s)) => Some(s)
    case _ => None
  }

  function LoadArtist(v: Value): Option<Artist> {
    match v
    case Dict(d) =>
      (match (GetStr(d, "name"), GetStr(d, "id"), GetStr(d, "uri"), Lookup(d, "genres"))
       case (Some(n), Some(i), Some(u), Some(Null)) => Some(Artist(n, i, u, None))
       case (Some(n), Some(i), Some(u), Some(List(gs))) =>
         (match LoadStrings(gs)
          case Some(g) => Some(Artist(n, i, u, Some(g)))
          case None => None)
       case _ => None)
    case _ => None
  }

  lemma LoadDumpArtist(a: Artist)
    ensures LoadArtist(DumpArtist(a)) == Some(a)
  {
    var d := DumpArtist(a).entries;
    LookupAt(d, "name", 0);
    LookupAt(d, "id", 1);
    LookupAt(d, "uri", 2);
    LookupAt(d, "genres", 3);
    if a.genres.Some? {
      LoadStrList(a.genres.value);
    }
  }

  function DumpArtists(as_: seq<Artist>): seq<Value> {
    Seqs.Map(as_, DumpArtist)
  }

  function LoadArtists(vs: seq<Value>): Option<seq<Artist>> {
    if |vs| == 0 then Some([])
    else
      match (LoadArtist(vs[0]), LoadArtists(vs[1..]))
      case (Some(a), Some(rest)) => Some([a] + rest)
      case _ => None
  }

  lemma {:induction false} LoadDumpArtists(as_: seq<Artist>)
    ensures LoadArtists(DumpArtists(as_)) == Some(as_)
  {
    if |as_| > 0 {
      LoadDumpArtist(as_[0]);
      LoadDumpArtists(as_[1..]);
      assert DumpArtists(as_)[1..] == DumpArtists(as_[1..]);
      assert as_ == [as_[0]] + as_[1..];
    }
  }

  function DumpAlbum(a: Album): Value {
    Dict([("name", Str(a.name)), ("id", Str(a.id)), ("uri", Str(a.uri)), ("release_date", Day(a.releaseDate))])
  }

  /** How the album's `release_date` validator reads a value: it is given
      the release-date parser `parse`, which is not part of this model. */
  type DateReader = Value -> Option<Date>

  /** `release_date_validate` as written: a string goes to the parser, and
      any other value falls off the end of the validator, which leaves
      `None` in a field declared `date | str`, so validation fails. */
  function ReleaseDateAsWritten(parse: string -> Option<Date>): (read: DateReader)
    ensures forall s :: read(Str(s)) == parse(s)
    ensures forall d :: read(Day(d)) == None
  {
    (v: Value) => match v case Str(s) => parse(s) case _ => None
  }

  /** The validator as intended: a string goes to the parser and a date that
      is already parsed passes through. */
  function ReleaseDate(parse: string -> Option<Date>): (read: DateReader)
    ensures forall s :: read(Str(s)) == parse(s)
    ensures forall d :: read(Day(d)) == Some(d)
  {
    (v: Value) => match v case Str(s) => parse(s) case Day(d) => Some(d) case _ => None
  }

  /** `AlbumData.model_validate(...)`, reading the release date with `read`. */
  function LoadAlbum(v: Value, read: DateReader): (r: Option<Album>)
    ensures r.Some? ==> v.Dict? && Lookup(v.entries, "release_date").Some?
                        && read(Lookup(v.entries, "release_date").value) == Some(r.value.releaseDate)
    ensures r.Some? ==> GetStr(v.entries, "name") == Some(r.value.name)
                        && GetStr(v.entries, "id") == Some(r.value.id)
                        && GetStr(v.entries, "uri") == Some(r.value.uri)
  {
    match v
    case Dict(d) =>
      (match (GetStr(d, "name"), GetStr(d, "id"), GetStr(d, "uri"), Lookup(d, "release_date"))
       case (Some(n), Some(i), Some(u), Some(rd)) =>
         (match read(rd)
          case Some(r) => Some(Album(n, i, u, r))
          case None => None)
       case _ => None)
    case _ => None
  }

  /** What the dump holds under `artists`: the list, or after
      `to_flatten_dict` the single first artist. */
  datatype ArtistsField = ArtistList(list: seq<Artist>) | FirstArtist(artist: Artist)

  function DumpEntries(t: Track, artists: ArtistsField): seq<Entry> {
    [("name", Str(t.name)),
     ("id", Str(t.id)),
     ("uri", Str(t.uri)),
     ("duration_ms", Int(t.durationMs)),
     ("popularity", match t.popularity case None => Null case Some(p) => Int(p)),
     ("added_at", match t.addedAt case None => Null case Some(d) => Day(d)),
     ("album", DumpAlbum(t.album)),
     ("artists", match artists case ArtistList(l) => List(DumpArtists(l)) case FirstArtist(a) => DumpArtist(a))]
  }

  /** `track.model_dump()`: one entry per field, in declaration order. */
  function DumpTrack(t: Track): (v: Value)
    ensures v.Dict? && DistinctKeys(v.entries)
    ensures Keys(v.entries) == ["name", "id", "uri", "duration_ms", "popularity", "added_at", "album", "artists"]
  {
    var d := DumpEntries(t, ArtistList(t.artists));
    DumpKeysDistinct(t, ArtistList(t.artists));
    KeysIndex(d);
    Dict(d)
  }

  /** `TrackData.model_validate(...)` of a dictionary form, the album's
      release date read with `read`. A missing `popularity` is 0. */
  function LoadTrack(v: Value, read: DateReader): (r: Option<Track>)
    ensures r.Some? ==> v.Dict? && Lookup(v.entries, "album").Some?
                        && LoadAlbum(Lookup(v.entries, "album").value, read) == Some(r.value.album)
    ensures r.Some? ==> GetStr(v.entries, "name") == Some(r.value.name)
                        && GetStr(v.entries, "id") == Some(r.value.id)
                        && GetStr(v.entries, "uri") == Some(r.value.uri)
                        && Lookup(v.entries, "duration_ms") == Some(Int(r.value.durationMs))
    ensures r.Some? && Lookup(v.entries, "popularity").None? ==> r.value.popularity == Some(0)
  {
    match v
    case Dict(d) =>
      var popularity := match Lookup(d, "popularity")
        case None => Some(Some(0))
        case Some(Null) => Some(None)
        case Some(Int(p)) => Some(Some(p))
        case _ => None;
      var addedAt := match Lookup(d, "added_at")
        case None => Some(None)
        case Some(Null) => Some(None)
        case Some(Day(a)) => Some(Some(a))
        case _ => None;
      var album := match Lookup(d, "album") case Some(a) => LoadAlbum(a, read) case None => None;
      var artists := match Lookup(d, "artists") case Some(List(l)) => LoadArtists(l) case _ => None;
      (match (GetStr(d, "name"), GetStr(d, "id"), GetStr(d, "uri"), Lookup(d, "duration_ms"))
       case (Some(n), Some(i), Some(u), Some(Int(ms))) =>
         if popularity.Some? && addedAt.Some? && album.Some? && artists.Some?
         then Some(Track(n, i, u, ms, popularity.value, addedAt.value, album.value, artists.value))
         else None
       case _ => None)
    case _ => None
  }

  /** With the intended validator, reading back a dumped album gives the
      same album. */
  lemma LoadDumpAlbum(a: Album, parse: string -> Option<Date>)
    ensures LoadAlbum(DumpAlbum(a), ReleaseDate(parse)) == Some(a)
  {
    var d := DumpAlbum(a).entries;
    LookupAt(d, "name", 0);
    LookupAt(d, "id", 1);
    LookupAt(d, "uri", 2);
    LookupAt(d, "release_date", 3);
  }

  /** As written, the validator refuses the `date` that `model_dump` leaves
      in a dumped album, whatever the parser. */
  lemma DumpedAlbumRejected(a: Album, parse: string -> Option<Date>)
    ensures LoadAlbum(DumpAlbum(a), ReleaseDateAsWritten(parse)) == None
  {
    LookupAt(DumpAlbum(a).entries, "release_date", 3);
  }

  /** The eight keys of a dumped track differ (they all differ in length). */
  lemma DumpKeysDistinct(t: Track, artists: ArtistsField)
    ensures DistinctKeys(DumpEntries(t, artists))
  {
    var d := DumpEntries(t, artists);
    forall i, j | 0 <= i < j < |d| ensures d[i].0 != d[j].0 {
      assert |d[i].0| != |d[j].0|;
    }
  }

  /** With distinct keys, each entry is found under its own key. */
  lemma LookupDistinct(d: seq<Entry>, i: nat)
    requires DistinctKeys(d) && i < |d|
    ensures Lookup(d, d[i].0) == Some(d[i].1)
  {
    LookupAt(d, d[i].0, i);
  }

  lemma DumpTrackLookups(t: Track)
    ensures var d := DumpTrack(t).entries;
      && GetStr(d, "name") == Some(t.name)
      && GetStr(d, "id") == Some(t.id)
      && GetStr(d, "uri") == Some(t.uri)
      && Lookup(d, "duration_ms") == Some(Int(t.durationMs))
      && Lookup(d, "popularity") == Some(match t.popularity case None => Null case Some(p) => Int(p))
      && Lookup(d, "added_at") == Some(match t.addedAt case None => Null case Some(a) => Day(a))
      && Lookup(d, "album") == Some(DumpAlbum(t.album))
      && Lookup(d, "artists") == Some(List(DumpArtists(t.artists)))
  {
    var d := DumpTrack(t).entries;
    DumpKeysDistinct(t, ArtistList(t.artists));
    LookupDistinct(d, 0);
    LookupDistinct(d, 1);
    LookupDistinct(d, 2);
    LookupDistinct(d, 3);
    LookupDistinct(d, 4);
    LookupDistinct(d, 5);
    LookupDistinct(d, 6);
    LookupDistinct(d, 7);
  }

  /** With the intended album validator, reading back a dumped track gives
      the same track. */
  lemma LoadDumpTrack(t: Track, parse: string -> Option<Date>)
    ensures LoadTrack(DumpTrack(t), ReleaseDate(parse)) == Some(t)
  {
    DumpTrackLookups(t);
    LoadDumpAlbum(t.album, parse);
    LoadDumpArtists(t.artists);
    LoadTrackFrom(DumpTrack(t).entries, ReleaseDate(parse), t);
  }

  /** A dictionary holding each field of `t` in its dumped form reads back as `t`. */
  lemma LoadTrackFrom(d: seq<Entry>, read: DateReader, t: Track)
    requires GetStr(d, "name") == Some(t.name) && GetStr(d, "id") == Some(t.id) && GetStr(d, "uri") == Some(t.uri)
    requires Lookup(d, "duration_ms") == Some(Int(t.durationMs))
    requires Lookup(d, "popularity") == Some(match t.popularity case None => Null case Some(p) => Int(p))
    requires Lookup(d, "added_at") == Some(match t.addedAt case None => Null case Some(a) => Day(a))
    requires Lookup(d, "album").Some? && LoadAlbum(Lookup(d, "album").value, read) == Some(t.album)
    requires Lookup(d, "artists").Some? && Lookup(d, "artists").value.List?
    requires LoadArtists(Lookup(d, "artists").value.items) == Some(t.artists)
    ensures LoadTrack(Dict(d), read) == Some(t)
  {
    var album := LoadAlbum(Lookup(d, "album").value, read);
    var artists := LoadArtists(Lookup(d, "artists").value.items);
    assert album == Some(t.album) && artists == Some(t.artists);
  }

  /** As written, no dumped track can be read back: its album is refused. */
  lemma DumpedTrackRejected(t: Track, parse: string -> Option<Date>)
    ensures LoadTrack(DumpTrack(t), ReleaseDateAsWritten(parse)) == None
  {
    DumpTrackLookups(t);
    DumpedAlbumRejected(t.album, parse);
  }

  /** The dictionary form of every track of a list, read back. */
  function LoadTracks(vs: seq<Value>, read: DateReader): Option<seq<Track>> {
    if |vs| == 0 then Some([])
    else
      match (LoadTrack(vs[0], read), LoadTracks(vs[1..], read))
      case (Some(t), Some(rest)) => Some([t] + rest)
      case _ => None
  }

  lemma {:induction false} LoadDumpTracks(ts: seq<Track>, parse: string -> Option<Date>)
    ensures LoadTracks(Seqs.Map(ts, DumpTrack), ReleaseDate(parse)) == Some(ts)
  {
    if |ts| > 0 {
      LoadDumpTrack(ts[0], parse);
      LoadDumpTracks(ts[1..], parse);
      assert Seqs.Map(ts, DumpTrack)[1..] == Seqs.Map(ts[1..], DumpTrack);
      assert ts == [ts[0]] + ts[1..];
    }
  }

  // ---------------------------------------------------------------------
  // to_flatten_dict

  predicate DistinctKeys(ws: seq<Entry>) {
    forall i, j :: 0 <= i < j < |ws| ==> ws[i].0 != ws[j].0
  }

  lemma {:induction false} KeysIndex(d: seq<Entry>)
    ensures forall i :: 0 <= i < |d| ==> Keys(d)[i] == d[i].0
  {
    if |d| > 0 {
      KeysIndex(d[..|d| - 1]);
    }
  }

  /** Assignments with pairwise different keys leave exactly themselves. */
  lemma {:induction false} PutAllDistinct(ws: seq<Entry>)
    requires DistinctKeys(ws)
    ensures PutAll([], ws) == ws
  {
    if |ws| > 0 {
      var init := ws[..|ws| - 1];
      var last := ws[|ws| - 1];
      PutAllDistinct(init);
      KeysIndex(init);
      assert last.0 !in Keys(init) by {
        forall i | 0 <= i < |Keys(init)| ensures Keys(init)[i] != last.0 {
          assert Keys(init)[i] == ws[i].0;
        }
      }
      PutAppendsNew(init, last.0, last.1);
      assert init + [last] == ws;
    }
  }

  lemma {:induction false} PutAppendsNew(d: seq<Entry>, k: string, v: Value)
    requires k !in Keys(d)
    ensures Put(d, k, v) == d + [(k, v)]
  {
    if |d| > 0 {
      KeysHead(d);
      PutAppendsNew(d[1..], k, v);
      assert d == [d[0]] + d[1..];
    }
  }

  /** A track whose `artists` field is a list, or a single artist after the
      first call to `to_flatten_dict`, which replaces the list by its first
      element on the record itself. */
  class TrackRecord {
    const track: Track
    var artists: ArtistsField

    constructor (t: Track)
      ensures track == t && artists == ArtistList(t.artists)
    {
      track := t;
      artists := ArtistList(t.artists);
    }

    /** The dictionary form of the record in its current state. */
    function Dump(): seq<Entry>
      reads this
    {
      DumpEntries(track, artists)
    }

    /** `to_flatten_dict`; an empty artist list raises `IndexError`. */
    method ToFlattenDict() returns (r: Result<seq<Entry>>)
      modifies this
      ensures r.Ok? <==> !(old(artists).ArtistList? && |old(artists).list| == 0)
      ensures old(artists).ArtistList? && |old(artists).list| == 0 ==> r.Err? && artists == old(artists)
      ensures old(artists).ArtistList? && |old(artists).list| > 0 ==> artists == FirstArtist(old(artists).list[0])
      ensures old(artists).FirstArtist? ==> artists == old(artists)
      ensures r.Ok? ==> r.value == FlattenSpec(Dump())
      ensures r.Ok? ==> r.value == FlatTrack(track, artists.artist)
    {
      if artists.ArtistList? {
        if |artists.list| == 0 {
          return Err(IndexError("list index out of range"));
        }
        artists := FirstArtist(artists.list[0]);
      }
      FlattenSingleArtistDump(track, artists.artist);
      var flat := FlattenDict(Dump());
      return Ok(flat);
    }
  }

  function FlatGenres(g: Option<seq<string>>): Value {
    match g case None => Null case Some(gs) => List(StrList(gs))
  }

  /** The flattened form of a track whose artists field holds one artist:
      the scalar fields, then the album fields and the artist fields under
      "album." and "artists.". */
  function FlatTrack(t: Track, a: Artist): seq<Entry> {
    [("name", Str(t.name)),
     ("id", Str(t.id)),
     ("uri", Str(t.uri)),
     ("duration_ms", Int(t.durationMs)),
     ("popularity", match t.popularity case None => Null case Some(p) => Int(p)),
     ("added_at", match t.addedAt case None => Null case Some(d) => Day(d)),
     ("album.name", Str(t.album.name)),
     ("album.id", Str(t.album.id)),
     ("album.uri", Str(t.album.uri)),
     ("album.release_date", Day(t.album.releaseDate)),
     ("artists.name", Str(a.name)),
     ("artists.id", Str(a.id)),
     ("artists.uri", Str(a.uri)),
     ("artists.genres", FlatGenres(a.genres))]
  }

  lemma FlatTrackKeysDistinct(t: Track, a: Artist)
    ensures DistinctKeys(FlatTrack(t, a))
  {
    var ws := FlatTrack(t, a);
    forall i, j | 0 <= i < j < |ws| ensures ws[i].0 != ws[j].0 {
      var x, y := ws[i].0, ws[j].0;
      if |x| == |y| {
        assert x[|x| - 2] != y[|y| - 2] || x[0] != y[0];
      }
    }
  }

  /** Writes of entries none of which is a dict are the entries themselves. */
  lemma {:induction false} WritesFlat(d: seq<Entry>)
    requires forall i :: 0 <= i < |d| ==> !d[i].1.Dict?
    ensures Writes(d) == d
  {
    if |d| > 0 {
      WritesFlat(d[..|d| - 1]);
    }
  }

  lemma AlbumWrites(al: Album)
    ensures NestedWrites("album", DumpAlbum(al).entries)
         == [("album.name", Str(al.name)), ("album.id", Str(al.id)), ("album.uri", Str(al.uri)),
             ("album.release_date", Day(al.releaseDate))]
  {
    assert "album" + "." + "name" == "album.name";
    assert "album" + "." + "id" == "album.id";
    assert "album" + "." + "uri" == "album.uri";
    assert "album" + "." + "release_date" == "album.release_date";
  }

  lemma ArtistWrites(a: Artist)
    ensures NestedWrites("artists", DumpArtist(a).entries)
         == [("artists.name", Str(a.name)), ("artists.id", Str(a.id)), ("artists.uri", Str(a.uri)),
             ("artists.genres", FlatGenres(a.genres))]
  {
    assert "artists" + "." + "name" == "artists.name";
    assert "artists" + "." + "id" == "artists.id";
    assert "artists" + "." + "uri" == "artists.uri";
    assert "artists" + "." + "genres" == "artists.genres";
  }

  /** Flattening the dump of a record after the replacement gives the album
      and artist fields one level up, and no "album" or "artists" key. */
  lemma FlattenSingleArtistDump(t: Track, a: Artist)
    ensures FlattenSpec(DumpEntries(t, FirstArtist(a))) == FlatTrack(t, a)
  {
    SingleArtistWrites(t, a);
    FlatTrackKeysDistinct(t, a);
    PutAllDistinct(FlatTrack(t, a));
  }

  lemma SingleEntryWrites(e: Entry)
    ensures Writes([e]) == EntryWrites(e)
  {
    assert [e][..0] == [];
  }

  /** The six scalar fields of the dump are written as they are. */
  lemma ScalarFieldWrites(t: Track, a: Artist)
    ensures Writes(DumpEntries(t, FirstArtist(a))[..6]) == FlatTrack(t, a)[..6]
  {
    var head := DumpEntries(t, FirstArtist(a))[..6];
    WritesFlat(head);
  }

  /** The album dict is written as the four "album." fields. */
  lemma AlbumFieldWrites(t: Track, a: Artist)
    ensures Writes([DumpEntries(t, FirstArtist(a))[6]]) == FlatTrack(t, a)[6..10]
  {
    SingleEntryWrites(DumpEntries(t, FirstArtist(a))[6]);
    AlbumWrites(t.album);
  }

  /** The single artist dict is written as the four "artists." fields. */
  lemma ArtistFieldWrites(t: Track, a: Artist)
    ensures Writes([DumpEntries(t, FirstArtist(a))[7]]) == FlatTrack(t, a)[10..]
  {
    SingleEntryWrites(DumpEntries(t, FirstArtist(a))[7]);
    ArtistWrites(a);
  }

  lemma SingleArtistWrites(t: Track, a: Artist)
    ensures Writes(DumpEntries(t, FirstArtist(a))) == FlatTrack(t, a)
  {
    var d := DumpEntries(t, FirstArtist(a));
    var f := FlatTrack(t, a);
    assert d == d[..6] + [d[6]] + [d[7]];
    WritesAppend(d[..6] + [d[6]], [d[7]]);
    WritesAppend(d[..6], [d[6]]);
    ScalarFieldWrites(t, a);
    AlbumFieldWrites(t, a);
    ArtistFieldWrites(t, a);
    assert f == f[..6] + f[6..10] + f[10..];
  }
}
