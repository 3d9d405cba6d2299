/** `scripts/update_test_song.py`: the search query, the record built from the
    first search hit, the merge into the existing sample-song JSON and the
    example playback offsets.

    The Spotify search is a parameter (a function from the query to the tracks
    it finds); reading and writing the JSON file are left out, the existing
    file's object being an input of the merge. */
module UpdateTestSong {
  import opened Wrappers
  import opened Text
  import GuessCli

  /** JSON values as `json.loads` returns them and `json.dumps` writes them. */
  datatype Json =
    | Null
    | Bool(b: bool)
    | Int(i: int)
    | Str(s: seq<char>)
    | Arr(items: seq<Json>)
    | Obj(fields: map<seq<char>, Json>)

  type JsonObject = map<seq<char>, Json>

  // ---------------------------------------------------------------------------
  // The search query
  // ---------------------------------------------------------------------------

  /** `if artist:` — an artist filter is used only when one is given and non-empty. */
  predicate Given(artist: Option<seq<char>>) {
    artist.Some? && artist.value != []
  }

  /** The query of `fetch_track`: `track:{title}`, followed by ` artist:{artist}`
      when an artist is given. */
  function Query(title: seq<char>, artist: Option<seq<char>>): (q: seq<char>)
    ensures |q| == 6 + |title| + (if Given(artist) then 8 + |artist.value| else 0)
    ensures q[..6 + |title|] == "track:" + title
    ensures Given(artist) ==> q[6 + |title|..] == " artist:" + artist.value
  {
    "track:" + title + (if Given(artist) then " artist:" + artist.value else "")
  }

  /** The query names the artist exactly when one is given: a missing or empty
      artist gives the plain title query, and a given one a different query. */
  lemma QueryFiltersArtistIffGiven(title: seq<char>, artist: Option<seq<char>>)
    ensures Query(title, artist) == Query(title, None) <==> !Given(artist)
  {
    if Given(artist) {
      assert |Query(title, artist)| > |Query(title, None)|;
    }
  }

  // ---------------------------------------------------------------------------
  // Record shaping (`fetch_track`)
  // ---------------------------------------------------------------------------

  /** An artist of a search hit; `None` stands for a missing key. */
  datatype Artist = Artist(id: Option<seq<char>>, name: Option<seq<char>>)

  /** The `album` object of a search hit. */
  datatype Album = Album(name: Option<seq<char>>, releaseDate: Option<seq<char>>)

  /** A search hit; `None` stands for a missing key, a missing `artists` list
      for `[]`, and a missing `external_ids` or `external_urls` object for a
      missing `isrc` or `spotify` entry. A JSON `null` is not a value of this
      type: the source treats it differently from a missing key. */
  datatype SearchTrack = SearchTrack(
    name: Option<seq<char>>, artists: seq<Artist>, album: Option<Album>, uri: Option<seq<char>>,
    durationMs: Option<int>, trackNumber: Option<int>, discNumber: Option<int>,
    explicit: Option<bool>, popularity: Option<int>, previewUrl: Option<seq<char>>,
    isrc: Option<seq<char>>, spotifyUrl: Option<seq<char>>)

  /** An entry of the record's `artists` list: the id (null when missing) and the name. */
  datatype ArtistEntry = ArtistEntry(id: Option<seq<char>>, name: seq<char>)

  /** The record `fetch_track` returns. */
  datatype TrackRecord = TrackRecord(
    title: seq<char>, artist: seq<char>, canonicalTitle: seq<char>, uri: seq<char>,
    durationMs: int, album: seq<char>, releaseDate: seq<char>,
    trackNumber: int, discNumber: int, explicit: bool, popularity: int,
    previewUrl: seq<char>, isrc: seq<char>, spotifyUrl: seq<char>, artists: seq<ArtistEntry>)

  /** `d.get(key, "")`. */
  function OrEmpty(v: Option<seq<char>>): (s: seq<char>)
    ensures v.Some? ==> s == v.value
    ensures v.None? ==> s == []
  {
    if v.Some? then v.value else []
  }

  /** `int(x or 0)`: a missing value counts as 0. */
  function OrZero(v: Option<int>): (n: int)
    ensures v.Some? ==> n == v.value
    ensures v.None? ==> n == 0
  {
    if v.Some? then v.value else 0
  }

  function Entry(a: Artist): (e: ArtistEntry)
    ensures e.id == a.id && e.name == OrEmpty(a.name)
  {
    ArtistEntry(a.id, OrEmpty(a.name))
  }

  function Entries(artists: seq<Artist>): (es: seq<ArtistEntry>)
    ensures |es| == |artists|
    ensures forall k | 0 <= k < |es| :: es[k] == Entry(artists[k])
  {
    seq(|artists|, k requires 0 <= k < |artists| => Entry(artists[k]))
  }

  /** The names the `artist` field joins: the non-empty ones, in order. */
  function NamedArtists(es: seq<ArtistEntry>): (names: seq<seq<char>>)
    ensures |names| <= |es|
    ensures forall k | 0 <= k < |names| :: names[k] != []
  {
    if es == [] then []
    else (if es[0].name != [] then [es[0].name] else []) + NamedArtists(es[1..])
  }

  /** Filtering distributes over concatenation; with the one-element cases of
      `NamedArtists` this pins it down as the order-keeping filter of non-empty names. */
  lemma {:induction false} NamedArtistsAppend(a: seq<ArtistEntry>, b: seq<ArtistEntry>)
    ensures NamedArtists(a + b) == NamedArtists(a) + NamedArtists(b)
  {
    if a == [] {
      assert a + b == b;
    } else {
      assert (a + b)[0] == a[0] && (a + b)[1..] == a[1..] + b;
      NamedArtistsAppend(a[1..], b);
    }
  }

  /** An artist without a name adds nothing to the `artist` field; one with a
      name adds it after the others, separated by ", ". */
  lemma ArtistFieldGrows(es: seq<ArtistEntry>, e: ArtistEntry)
    ensures e.name == [] ==> Join(NamedArtists(es + [e]), ", ") == Join(NamedArtists(es), ", ")
    ensures e.name != [] && NamedArtists(es) != [] ==>
      Join(NamedArtists(es + [e]), ", ") == Join(NamedArtists(es), ", ") + ", " + e.name
  {
    NamedArtistsAppend(es, [e]);
    assert [e][1..] == [];
    assert NamedArtists([e]) == (if e.name != [] then [e.name] else []);
    if e.name == [] {
      assert NamedArtists(es + [e]) == NamedArtists(es) + [];
      assert NamedArtists(es) + [] == NamedArtists(es);
    } else if NamedArtists(es) != [] {
      JoinSnoc(NamedArtists(es), e.name, ", ");
    }
  }

  /** Joining one more part adds the separator and the part. */
  lemma {:induction false} JoinSnoc(parts: seq<seq<char>>, last: seq<char>, sep: seq<char>)
    requires parts != []
    ensures Join(parts + [last], sep) == Join(parts, sep) + sep + last
    decreases |parts|
  {
    if |parts| == 1 {
      assert (parts + [last])[1..] == [last];
    } else {
      assert (parts + [last])[1..] == parts[1..] + [last];
      JoinSnoc(parts[1..], last, sep);
    }
  }

  /** The record `fetch_track` builds from a search hit. */
  function Shape(t: SearchTrack): (r: TrackRecord)
    ensures r.title == OrEmpty(t.name)
    ensures r.canonicalTitle == GuessCli.Canonicalize(r.title)
    ensures Trimmed(r.canonicalTitle) && NoDoubleSpace(r.canonicalTitle)
    ensures r.artists == Entries(t.artists)
    ensures r.artist == Join(NamedArtists(r.artists), ", ")
    ensures r.durationMs == OrZero(t.durationMs)
    ensures r.trackNumber == OrZero(t.trackNumber) && r.discNumber == OrZero(t.discNumber)
    ensures r.popularity == OrZero(t.popularity)
    ensures r.explicit <==> t.explicit == Some(true)
    ensures r.album == (if t.album.Some? then OrEmpty(t.album.value.name) else [])
    ensures r.releaseDate == (if t.album.Some? then OrEmpty(t.album.value.releaseDate) else [])
    ensures r.uri == OrEmpty(t.uri) && r.previewUrl == OrEmpty(t.previewUrl)
    ensures r.isrc == OrEmpty(t.isrc) && r.spotifyUrl == OrEmpty(t.spotifyUrl)
  {
    var title := OrEmpty(t.name);
    var es := Entries(t.artists);
    var album := if t.album.Some? then t.album.value else Album(None, None);
    TrackRecord(
      title, Join(NamedArtists(es), ", "), GuessCli.Canonicalize(title), OrEmpty(t.uri),
      OrZero(t.durationMs), OrEmpty(album.name), OrEmpty(album.releaseDate),
      OrZero(t.trackNumber), OrZero(t.discNumber), t.explicit == Some(true), OrZero(t.popularity),
      OrEmpty(t.previewUrl), OrEmpty(t.isrc), OrEmpty(t.spotifyUrl), es)
  }

  /** `fetch_track`: the record of the first hit of the query, or `None` for
      "No matching track found". */
  function FetchTrack(search: seq<char> -> seq<SearchTrack>, title: seq<char>, artist: Option<seq<char>>)
    : (r: Option<TrackRecord>)
    ensures r.None? <==> search(Query(title, artist)) == []
    ensures r.Some? ==> r.value == Shape(search(Query(title, artist))[0])
  {
    var items := search(Query(title, artist));
    if items == [] then None else Some(Shape(items[0]))
  }

  // ---------------------------------------------------------------------------
  // JSON form of the record
  // ---------------------------------------------------------------------------

  function OptionalStr(v: Option<seq<char>>): Json {
    if v.Some? then Str(v.value) else Null
  }

  function ArtistJson(e: ArtistEntry): Json {
    Obj(map["id" := OptionalStr(e.id), "name" := Str(e.name)])
  }

  /** The keys of the record's JSON object. */
  const TrackKeys: set<seq<char>> := {
    "title", "artist", "canonical_title", "uri", "duration_ms", "album", "release_date",
    "track_number", "disc_number", "explicit", "popularity", "preview_url", "isrc",
    "external_urls", "artists"}

  /** The key `main` regenerates. */
  const OffsetsKey: seq<char> := "offsets_ms_examples"

  /** The record as the dictionary `fetch_track` returns. */
  function TrackJson(r: TrackRecord): (m: JsonObject)
    ensures "duration_ms" in m && "canonical_title" in m && "artist" in m
    ensures m["duration_ms"] == Int(r.durationMs)
    ensures m["canonical_title"] == Str(r.canonicalTitle) && m["artist"] == Str(r.artist)
  {
    map[
      "title" := Str(r.title),
      "artist" := Str(r.artist),
      "canonical_title" := Str(r.canonicalTitle),
      "uri" := Str(r.uri),
      "duration_ms" := Int(r.durationMs),
      "album" := Str(r.album),
      "release_date" := Str(r.releaseDate),
      "track_number" := Int(r.trackNumber),
      "disc_number" := Int(r.discNumber),
      "explicit" := Bool(r.explicit),
      "popularity" := Int(r.popularity),
      "preview_url" := Str(r.previewUrl),
      "isrc" := Str(r.isrc),
      "external_urls" := Obj(map["spotify" := Str(r.spotifyUrl)]),
      "artists" := Arr(seq(|r.artists|, k requires 0 <= k < |r.artists| => ArtistJson(r.artists[k])))
    ]
  }

  /** Every record has the same fifteen keys. */
  lemma TrackJsonKeys(r: TrackRecord)
    ensures TrackJson(r).Keys == TrackKeys
  {
  }

  // ---------------------------------------------------------------------------
  // Example offsets (`main`)
  // ---------------------------------------------------------------------------

  /** `max(15000, dur // 12)`; for `dur > 0` floor division is Dafny's `/`. */
  function OffsetStep(dur: int): (step: int)
    requires dur > 0
    ensures step >= 15000
    ensures step >= dur / 12 && (step == 15000 || step == dur / 12)
  {
    if dur / 12 > 15000 then dur / 12 else 15000
  }

  /** `max(1, dur - 10000)`: the end of the offset range. */
  function OffsetsEnd(dur: int): (end: int)
    ensures end >= 1 && end >= dur - 10000
  {
    if dur - 10000 > 1 then dur - 10000 else 1
  }

  /** `range(start, stop, step)` for a positive step. */
  function Range(start: int, stop: int, step: int): (r: seq<int>)
    requires step > 0
    ensures forall k | 0 <= k < |r| :: start <= r[k] < stop
    decreases stop - start
  {
    if start >= stop then [] else [start] + Range(start + step, stop, step)
  }

  /** `range` yields `start + k * step` for each `k` while that is below `stop`,
      and stops at the first value that is not. */
  lemma {:induction false} RangeShape(start: int, stop: int, step: int)
    requires step > 0
    ensures var r := Range(start, stop, step);
      (forall k | 0 <= k < |r| :: r[k] == start + k * step && r[k] < stop) &&
      start + |r| * step >= stop &&
      (r == [] <==> start >= stop)
    decreases stop - start
  {
    if start < stop {
      var rest := Range(start + step, stop, step);
      RangeShape(start + step, stop, step);
      var r := Range(start, stop, step);
      assert r == [start] + rest;
      forall k | 0 < k < |r|
        ensures r[k] == start + k * step
      {
        assert r[k] == rest[k - 1] == start + step + (k - 1) * step;
        assert (k - 1) * step + step == k * step;
      }
      assert start + step + |rest| * step == start + |r| * step by {
        assert |r| * step == (|rest| + 1) * step == |rest| * step + step;
      }
    }
  }

  /** The `offsets_ms_examples` list for a positive duration: the range from 0
      to `OffsetsEnd(dur)` by `OffsetStep(dur)`, cut to its first six values. */
  function Offsets(dur: int): (o: seq<int>)
    requires dur > 0
    ensures 1 <= |o| <= 6
    ensures forall k | 0 <= k < |o| :: 0 <= o[k] < OffsetsEnd(dur)
  {
    var r := Range(0, OffsetsEnd(dur), OffsetStep(dur));
    if |r| > 6 then
      assert forall k | 0 <= k < 6 :: r[..6][k] == r[k];
      r[..6]
    else r
  }

  /** The offsets start at 0, are spaced by the step (at least 15 s), stay below
      the end of the range, are at most six, and none is missing: either there
      are six or the next would reach the end. */
  lemma OffsetsShape(dur: int)
    requires dur > 0
    ensures var o := Offsets(dur);
      var step := OffsetStep(dur);
      1 <= |o| <= 6 && o[0] == 0 &&
      (forall k | 0 <= k < |o| :: o[k] == k * step && o[k] < OffsetsEnd(dur)) &&
      (|o| == 6 || |o| * step >= OffsetsEnd(dur))
  {
    RangeShape(0, OffsetsEnd(dur), OffsetStep(dur));
  }

  /** A three-and-a-half-minute track: offsets every 17.5 s, six of them. */
  lemma OffsetsOfLongTrack()
    ensures Offsets(210000) == [0, 17500, 35000, 52500, 70000, 87500]
  {
    var step := OffsetStep(210000);
    assert step == 17500;
    OffsetsShape(210000);
    RangeShape(0, OffsetsEnd(210000), step);
    var r := Range(0, 200000, step);
    assert |r| * step >= 200000;
    assert |r| > 6;
  }

  /** A track of at most ten seconds still gets the single offset 0. */
  lemma OffsetsOfShortTrack(dur: int)
    requires 0 < dur <= 10000
    ensures Offsets(dur) == [0]
  {
    assert OffsetsEnd(dur) == 1;
    assert Range(0, 1, OffsetStep(dur)) == [0] + Range(OffsetStep(dur), 1, OffsetStep(dur));
  }

  function OffsetsJson(offsets: seq<int>): (j: Json)
    ensures j.Arr? && |j.items| == |offsets|
    ensures forall k | 0 <= k < |offsets| :: j.items[k] == Int(offsets[k])
  {
    Arr(seq(|offsets|, k requires 0 <= k < |offsets| => Int(offsets[k])))
  }

  // ---------------------------------------------------------------------------
  // The merge (`main`)
  // ---------------------------------------------------------------------------

  /** `int(merged.get("duration_ms") or 0)`. The merged object always holds the
      fetched track's `duration_ms`, which `TrackJson` writes as an integer, so
      only that case and a missing key are modelled; Python's `int()` of a
      string, a boolean or a list does not arise. */
  function DurationOf(m: JsonObject): (dur: int)
    ensures "duration_ms" !in m ==> dur == 0
    ensures "duration_ms" in m && m["duration_ms"].Int? ==> dur == m["duration_ms"].i
  {
    if "duration_ms" in m && m["duration_ms"].Int? then m["duration_ms"].i else 0
  }

  /** The existing file's object; `{}` when the file is missing or does not parse. */
  function ExistingOrEmpty(existing: Option<JsonObject>): (m: JsonObject)
    ensures existing.None? ==> m == map[]
  {
    if existing.Some? then existing.value else map[]
  }

  /** The object `main` writes: `{**existing, **track}`, and, when the merged
      duration is positive, fresh example offsets. */
  method MergeSampleSong(existing: Option<JsonObject>, track: JsonObject) returns (merged: JsonObject)
    ensures var combined := ExistingOrEmpty(existing) + track;
      var dur := DurationOf(combined);
      merged.Keys == combined.Keys + (if dur > 0 then {OffsetsKey} else {}) &&
      (forall k | k in track && k != OffsetsKey :: merged[k] == track[k]) &&
      (forall k | k in ExistingOrEmpty(existing) && k !in track && k != OffsetsKey ::
         merged[k] == ExistingOrEmpty(existing)[k]) &&
      (dur > 0 ==> merged[OffsetsKey] == OffsetsJson(Offsets(dur))) &&
      (dur <= 0 && OffsetsKey in combined ==> merged[OffsetsKey] == combined[OffsetsKey])
  {
    var base: JsonObject := map[];
    if existing.Some? {
      base := existing.value;
    }
    merged := base + track;
    var dur := DurationOf(merged);
    if dur > 0 {
      merged := merged[OffsetsKey := OffsetsJson(Offsets(dur))];
    }
  }

  /** For a fetched record, the merged duration is the record's: every record
      field overrides the file's, the offsets are regenerated exactly when the
      record's duration is positive, and otherwise the file's offsets stay. */
  lemma MergeOfRecord(existing: Option<JsonObject>, r: TrackRecord)
    ensures var combined := ExistingOrEmpty(existing) + TrackJson(r);
      DurationOf(combined) == r.durationMs &&
      combined.Keys == ExistingOrEmpty(existing).Keys + TrackKeys &&
      OffsetsKey !in TrackKeys &&
      (OffsetsKey in combined <==> OffsetsKey in ExistingOrEmpty(existing))
  {
    TrackJsonKeys(r);
  }
}
