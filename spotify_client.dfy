/** Credentials, authorisation choice and saved-track paging of `SpotifyClient`.

    The file system, the environment and the Spotify Web API are parameters:
    `Host` holds the files that exist (parsed as INI sections) and the
    environment variables; the saved-tracks endpoint is a function from a
    request's `(limit, offset)` to the page of items it answers. */
module SpotifyClient {
  import opened Wrappers
  import opened Text

  const DefaultScopes: seq<char> :=
    "user-library-read playlist-read-private user-read-playback-state user-modify-playback-state"
  const DefaultClientId: seq<char> := "d173d609d4cf489d97e80c2d1d7232e3"
  const DefaultRedirectUri: seq<char> := "http://127.0.0.1:8888/callback"

  /** A parsed INI file: section name to its options. `configparser` stores option
      names in lower case, so the maps here are keyed by lower-case names. */
  type Ini = map<seq<char>, map<seq<char>, seq<char>>>

  /** The environment the client runs in: the two default locations of
      `.Creds.ini` (`cwd/.Creds.ini` and next to the module), the readable files
      by path, and the environment variables. */
  datatype Host = Host(cwdCreds: seq<char>, moduleCreds: seq<char>,
                       files: map<seq<char>, Ini>, env: map<seq<char>, seq<char>>)

  // ---------------------------------------------------------------------------
  // `_find_creds_file`
  // ---------------------------------------------------------------------------

  /** The places `_find_creds_file` looks, in order; an empty explicit path is skipped. */
  function CredsCandidates(explicit: Option<seq<char>>, host: Host): (c: seq<seq<char>>)
    ensures |c| == (if explicit.Some? && explicit.value != [] then 3 else 2)
    ensures c[|c| - 2] == host.cwdCreds && c[|c| - 1] == host.moduleCreds
  {
    (if explicit.Some? && explicit.value != [] then [explicit.value] else [])
    + [host.cwdCreds, host.moduleCreds]
  }

  /** The first path of `paths` that exists. */
  function FirstExisting(paths: seq<seq<char>>, existing: set<seq<char>>): (r: Option<seq<char>>)
    ensures r.None? <==> forall j | 0 <= j < |paths| :: paths[j] !in existing
    ensures r.Some? ==> r.value in existing && r.value in paths
    ensures paths != [] && paths[0] in existing ==> r == Some(paths[0])
    ensures paths != [] && paths[0] !in existing ==> r == FirstExisting(paths[1..], existing)
  {
    if paths == [] then None
    else if paths[0] in existing then Some(paths[0])
    else FirstExisting(paths[1..], existing)
  }

  /** `_find_creds_file`. */
  method FindCredsFile(explicit: Option<seq<char>>, host: Host) returns (found: Option<seq<char>>)
    ensures found == FirstExisting(CredsCandidates(explicit, host), host.files.Keys)
  {
    var candidates: seq<seq<char>> := [];
    if explicit.Some? && explicit.value != [] {
      candidates := candidates + [explicit.value];
    }
    candidates := candidates + [host.cwdCreds];
    candidates := candidates + [host.moduleCreds];
    assert candidates == CredsCandidates(explicit, host);
    var i := 0;
    while i < |candidates|
      invariant 0 <= i <= |candidates|
      invariant FirstExisting(candidates[i..], host.files.Keys) == FirstExisting(candidates, host.files.Keys)
    {
      if candidates[i] in host.files {
        return Some(candidates[i]);
      }
      assert candidates[i..][1..] == candidates[i + 1..];
      i := i + 1;
    }
    return None;
  }

  /** The search order: the explicit path, then the working directory, then the
      module's directory; nothing when none of them exists. */
  lemma CredsFileOrder(explicit: Option<seq<char>>, host: Host)
    ensures var found := FirstExisting(CredsCandidates(explicit, host), host.files.Keys);
      var given := explicit.Some? && explicit.value != [];
      (given && explicit.value in host.files ==> found == explicit) &&
      (!(given && explicit.value in host.files) && host.cwdCreds in host.files ==>
         found == Some(host.cwdCreds)) &&
      ((!(given && explicit.value in host.files) && host.cwdCreds !in host.files &&
        host.moduleCreds in host.files) ==> found == Some(host.moduleCreds)) &&
      ((!(given && explicit.value in host.files) && host.cwdCreds !in host.files &&
        host.moduleCreds !in host.files) ==> found.None?)
  {
    var c := CredsCandidates(explicit, host);
    var tail := [host.cwdCreds, host.moduleCreds];
    if explicit.Some? && explicit.value != [] {
      assert c == [explicit.value] + tail && c[1..] == tail;
    } else {
      assert c == tail;
    }
    assert tail[1..] == [host.moduleCreds];
    assert [host.moduleCreds][1..] == [];
  }

  // ---------------------------------------------------------------------------
  // `load_spotify_creds`
  // ---------------------------------------------------------------------------

  /** `section.get(option, "").strip()` in the `[Spotify]` section of `ini`, or ""
      when the file has no such section. */
  function SectionValue(ini: Ini, option: seq<char>): (v: seq<char>)
    ensures Trimmed(v)
    ensures "Spotify" !in ini ==> v == []
  {
    if "Spotify" in ini && Lower(option) in ini["Spotify"] then Strip(ini["Spotify"][Lower(option)]) else Strip([])
  }

  /** The value an option has in the credentials file that is found, "" without one. */
  function FileSetting(host: Host, configPath: Option<seq<char>>, option: seq<char>): (v: seq<char>)
    ensures Trimmed(v)
  {
    match FirstExisting(CredsCandidates(configPath, host), host.files.Keys)
    case None => Strip([])
    case Some(p) => SectionValue(host.files[p], option)
  }

  /** `os.getenv(name, "")`: an unset variable reads like one set to "". */
  function Getenv(env: map<seq<char>, seq<char>>, name: seq<char>): (v: seq<char>)
    ensures v == [] <==> name !in env || env[name] == []
  {
    if name in env then env[name] else []
  }

  /** The precedence of one credential: a non-empty file value, else a non-empty
      environment value, else the fallback. */
  function Pick(fromFile: seq<char>, fromEnv: seq<char>, fallback: seq<char>): (v: seq<char>)
    ensures fromFile != [] ==> v == fromFile
    ensures fromFile == [] && fromEnv != [] ==> v == fromEnv
    ensures fromFile == [] && fromEnv == [] ==> v == fallback
    ensures v == [] <==> fromFile == [] && fromEnv == [] && fallback == []
  {
    if fromFile != [] then fromFile else if fromEnv != [] then fromEnv else fallback
  }

  /** The client id: the file's, else the environment's, else the built-in one; never empty. */
  function ClientId(host: Host, configPath: Option<seq<char>>): (v: seq<char>)
    ensures v != []
    ensures FileSetting(host, configPath, "ClientID") != [] ==> v == FileSetting(host, configPath, "ClientID")
  {
    Pick(FileSetting(host, configPath, "ClientID"), Getenv(host.env, "SPOTIPY_CLIENT_ID"), DefaultClientId)
  }

  /** The client secret: the file's, else the environment's; there is no default. */
  function ClientSecret(host: Host, configPath: Option<seq<char>>): (v: seq<char>)
    ensures v == [] <==> FileSetting(host, configPath, "ClientSecret") == [] &&
                         Getenv(host.env, "SPOTIPY_CLIENT_SECRET") == []
  {
    Pick(FileSetting(host, configPath, "ClientSecret"), Getenv(host.env, "SPOTIPY_CLIENT_SECRET"), [])
  }

  /** The redirect URI: the file's, else the environment's, else the built-in one; never empty. */
  function RedirectUri(host: Host, configPath: Option<seq<char>>): (v: seq<char>)
    ensures v != []
    ensures FileSetting(host, configPath, "RedirectURI") != [] ==> v == FileSetting(host, configPath, "RedirectURI")
  {
    Pick(FileSetting(host, configPath, "RedirectURI"), Getenv(host.env, "SPOTIPY_REDIRECT_URI"), DefaultRedirectUri)
  }

  /** The `creds` dictionary; its three keys are fixed, so it is a record. */
  datatype Creds = Creds(clientId: seq<char>, clientSecret: seq<char>, redirectUri: seq<char>)

  /** `load_spotify_creds`: the file's values, overwritten where empty by the
      environment's, then by the built-in defaults (none for the secret). */
  method LoadSpotifyCreds(configPath: Option<seq<char>>, host: Host) returns (creds: Creds)
    ensures creds == Creds(ClientId(host, configPath), ClientSecret(host, configPath), RedirectUri(host, configPath))
    ensures creds.clientId != [] && creds.redirectUri != []
  {
    creds := Creds([], [], []);
    var credsFile := FindCredsFile(configPath, host);
    if credsFile.Some? {
      var ini := host.files[credsFile.value];
      if "Spotify" in ini {
        creds := creds.(clientId := SectionValue(ini, "ClientID"));
        creds := creds.(clientSecret := SectionValue(ini, "ClientSecret"));
        creds := creds.(redirectUri := SectionValue(ini, "RedirectURI"));
      }
    }
    assert Strip([]) == [];
    assert creds == Creds(FileSetting(host, configPath, "ClientID"), FileSetting(host, configPath, "ClientSecret"),
                          FileSetting(host, configPath, "RedirectURI"));

    creds := creds.(clientId := if creds.clientId != [] then creds.clientId
                                else Getenv(host.env, "SPOTIPY_CLIENT_ID"));
    creds := creds.(clientSecret := if creds.clientSecret != [] then creds.clientSecret
                                    else Getenv(host.env, "SPOTIPY_CLIENT_SECRET"));
    creds := creds.(redirectUri := if creds.redirectUri != [] then creds.redirectUri
                                   else Getenv(host.env, "SPOTIPY_REDIRECT_URI"));

    if creds.clientId == [] && DefaultClientId != [] {
      creds := creds.(clientId := DefaultClientId);
    }
    if creds.redirectUri == [] && DefaultRedirectUri != [] {
      creds := creds.(redirectUri := DefaultRedirectUri);
    }
  }

  // ---------------------------------------------------------------------------
  // Authorisation flow (`SpotifyClient.__init__`)
  // ---------------------------------------------------------------------------

  /** The authorisation manager: PKCE, OAuth with explicit credentials, or OAuth
      configured from the environment. */
  datatype Auth =
    | Pkce(clientId: seq<char>, redirectUri: seq<char>, scope: seq<char>)
    | ExplicitOAuth(clientId: seq<char>, clientSecret: seq<char>, redirectUri: seq<char>, scope: seq<char>)
    | EnvOAuth(scope: seq<char>)

  function ChooseAuth(id: seq<char>, secret: seq<char>, redirect: seq<char>, scope: seq<char>): (a: Auth)
    ensures a.Pkce? <==> id != [] && redirect != [] && secret == []
    ensures a.ExplicitOAuth? <==> id != [] && secret != [] && redirect != []
    ensures a.EnvOAuth? <==> id == [] || redirect == []
    ensures a.scope == scope
    ensures !a.EnvOAuth? ==> a.clientId == id && a.redirectUri == redirect
  {
    if id != [] && redirect != [] && secret == [] then Pkce(id, redirect, scope)
    else if id != [] && secret != [] && redirect != [] then ExplicitOAuth(id, secret, redirect, scope)
    else EnvOAuth(scope)
  }

  /** Since the defaults fill in a missing client id and redirect URI, loaded
      credentials never select the environment-configured flow: PKCE when no
      secret is found, explicit OAuth otherwise. */
  lemma LoadedCredsNeverFallBack(host: Host, configPath: Option<seq<char>>, scope: seq<char>)
    ensures var a := ChooseAuth(ClientId(host, configPath), ClientSecret(host, configPath),
                                RedirectUri(host, configPath), scope);
      (a.Pkce? <==> ClientSecret(host, configPath) == []) &&
      (a.ExplicitOAuth? <==> ClientSecret(host, configPath) != [])
  {
    assert DefaultClientId != [] && DefaultRedirectUri != [];
  }

  // ---------------------------------------------------------------------------
  // `get_liked_tracks`
  // ---------------------------------------------------------------------------

  /** A saved track as the API describes it. An absent name or uri reads as "",
      an absent artist name as "". A JSON `null` in these fields is not a value
      of this type. */
  datatype Track = Track(name: seq<char>, artists: seq<seq<char>>, uri: seq<char>,
                         previewUrl: Option<seq<char>>, durationMs: Option<int>)

  /** One entry of a page; `None` when its `track` is missing, null or empty. */
  datatype Item = Item(track: Option<Track>)

  /** The record `get_liked_tracks` collects. */
  datatype LikedTrack = LikedTrack(title: seq<char>, artist: seq<char>, uri: seq<char>,
                                   previewUrl: seq<char>, durationMs: int)

  datatype Request = Request(limit: nat, offset: nat)

  /** The record for one track: artists joined with ", ", no preview as "", no
      duration as 0. */
  function Record(t: Track): (r: LikedTrack)
    ensures r.title == t.name && r.uri == t.uri
    ensures r.artist == Join(t.artists, ", ")
    ensures t.previewUrl.None? ==> r.previewUrl == []
    ensures t.previewUrl.Some? ==> r.previewUrl == t.previewUrl.value
    ensures t.durationMs.None? ==> r.durationMs == 0
    ensures t.durationMs.Some? ==> r.durationMs == t.durationMs.value
  {
    LikedTrack(t.name, Join(t.artists, ", "), t.uri,
               if t.previewUrl.Some? then t.previewUrl.value else [],
               if t.durationMs.Some? then t.durationMs.value else 0)
  }

  /** The records of a page: one per item that has a track, in order. */
  function Shape(items: seq<Item>): (r: seq<LikedTrack>)
    ensures |r| <= |items|
  {
    if items == [] then []
    else
      var last := items[|items| - 1];
      Shape(items[..|items| - 1]) + (if last.track.Some? then [Record(last.track.value)] else [])
  }

  /** A page whose items all have tracks gives one record per item, the `i`-th
      from the `i`-th item. */
  lemma {:induction false} ShapeKeepsAll(items: seq<Item>)
    requires forall i | 0 <= i < |items| :: items[i].track.Some?
    ensures |Shape(items)| == |items|
    ensures forall i | 0 <= i < |items| :: Shape(items)[i] == Record(items[i].track.value)
  {
    if items != [] {
      var init := items[..|items| - 1];
      assert forall i | 0 <= i < |init| :: init[i] == items[i];
      ShapeKeepsAll(init);
      var last := Record(items[|items| - 1].track.value);
      assert Shape(items) == Shape(init) + [last];
      forall i | 0 <= i < |items|
        ensures Shape(items)[i] == Record(items[i].track.value)
      {
        if i < |init| {
          assert Shape(items)[i] == Shape(init)[i];
        }
      }
    }
  }

  /** Shaping two runs of items one after the other is shaping each in turn. */
  lemma {:induction false} ShapeAppend(a: seq<Item>, b: seq<Item>)
    ensures Shape(a + b) == Shape(a) + Shape(b)
    decreases |b|
  {
    if b != [] {
      var init := b[..|b| - 1];
      assert (a + b)[..|a + b| - 1] == a + init;
      ShapeAppend(a, init);
    } else {
      assert a + b == a;
    }
  }

  /** A page without any track gives no records. */
  lemma {:induction false} ShapeDropsMissing(items: seq<Item>)
    requires forall i | 0 <= i < |items| :: items[i].track.None?
    ensures Shape(items) == []
  {
    if items != [] {
      var init := items[..|items| - 1];
      assert forall i | 0 <= i < |init| :: init[i] == items[i];
      ShapeDropsMissing(init);
    }
  }

  /** The page size requested when `got` of `maxItems` are collected. */
  function PageLimit(maxItems: int, got: nat): (limit: nat)
    requires got < maxItems
    ensures 1 <= limit <= 50 && got + limit <= maxItems
    ensures limit == 50 || got + limit == maxItems
  {
    if maxItems - got > 50 then 50 else maxItems - got
  }

  /** A library of at most `size` saved tracks: requests at or past `size` get nothing. */
  ghost predicate Finite(answer: (nat, nat) -> seq<Item>, size: nat) {
    forall limit, offset | offset >= size :: answer(limit, offset) == []
  }

  /** Pages that never hold more items than requested. */
  ghost predicate HonoursLimit(answer: (nat, nat) -> seq<Item>) {
    forall limit, offset :: |answer(limit, offset)| <= limit
  }

  datatype Harvested = Harvested(records: seq<LikedTrack>, requests: seq<Request>)

  /** The paging of `get_liked_tracks` from `collected` at `offset`, after the
      requests `sent`: the records it ends with and all requests made. Records
      and requests only accumulate. */
  ghost function Harvest(answer: (nat, nat) -> seq<Item>, maxItems: int, size: nat,
                         collected: seq<LikedTrack>, sent: seq<Request>, offset: nat): (h: Harvested)
    requires Finite(answer, size)
    ensures |collected| <= |h.records| && |sent| <= |h.requests|
    decreases if offset <= size then size - offset + 1 else 0
  {
    if |collected| >= maxItems then Harvested(collected, sent)
    else
      var limit := PageLimit(maxItems, |collected|);
      var items := answer(limit, offset);
      var sent' := sent + [Request(limit, offset)];
      if items == [] then Harvested(collected, sent')
      else if |items| < limit then Harvested(collected + Shape(items), sent')
      else Harvest(answer, maxItems, size, collected + Shape(items), sent', offset + limit)
  }

  /** With pages that honour the limit, at most `maxItems` records are collected. */
  lemma {:induction false} HarvestBound(answer: (nat, nat) -> seq<Item>, maxItems: int, size: nat,
                                        collected: seq<LikedTrack>, sent: seq<Request>, offset: nat)
    requires Finite(answer, size) && HonoursLimit(answer)
    requires |collected| <= maxItems
    ensures |Harvest(answer, maxItems, size, collected, sent, offset).records| <= maxItems
    decreases if offset <= size then size - offset + 1 else 0
  {
    if |collected| < maxItems {
      var limit := PageLimit(maxItems, |collected|);
      var items := answer(limit, offset);
      if items != [] && |items| >= limit {
        HarvestBound(answer, maxItems, size, collected + Shape(items), sent + [Request(limit, offset)], offset + limit);
      }
    }
  }

  /** Paging makes a request exactly when fewer than `maxItems` records are
      collected, and never takes requests back. */
  lemma {:induction false} HarvestCount(answer: (nat, nat) -> seq<Item>, maxItems: int, size: nat,
                                        collected: seq<LikedTrack>, sent: seq<Request>, offset: nat)
    requires Finite(answer, size)
    ensures AddsRequests(Harvest(answer, maxItems, size, collected, sent, offset).requests, |sent|, |collected| < maxItems)
    decreases if offset <= size then size - offset + 1 else 0
  {
    var h := Harvest(answer, maxItems, size, collected, sent, offset);
    if |collected| >= maxItems {
      assert h.requests == sent;
    } else {
      var limit := PageLimit(maxItems, |collected|);
      var items := answer(limit, offset);
      var sent' := sent + [Request(limit, offset)];
      if items == [] || |items| < limit {
        assert h.requests == sent';
      } else {
        var got := collected + Shape(items);
        assert h == Harvest(answer, maxItems, size, got, sent', offset + limit);
        HarvestCount(answer, maxItems, size, got, sent', offset + limit);
      }
    }
    assert AddsRequests(h.requests, |sent|, |collected| < maxItems);
  }

  /** `rs` keeps the first `from` requests and adds some exactly when `more`. */
  ghost predicate AddsRequests(rs: seq<Request>, from: nat, more: bool) {
    from <= |rs| && (|rs| > from <==> more)
  }

  /** The requests already `sent` stay, in order, at the head of all requests. */
  lemma {:induction false} HarvestKeepsSent(answer: (nat, nat) -> seq<Item>, maxItems: int, size: nat,
                                            collected: seq<LikedTrack>, sent: seq<Request>, offset: nat)
    requires Finite(answer, size)
    ensures Prefix(sent, Harvest(answer, maxItems, size, collected, sent, offset).requests)
    decreases if offset <= size then size - offset + 1 else 0
  {
    var h := Harvest(answer, maxItems, size, collected, sent, offset);
    if |collected| >= maxItems {
      assert h.requests == sent;
    } else {
      var limit := PageLimit(maxItems, |collected|);
      var items := answer(limit, offset);
      var sent' := sent + [Request(limit, offset)];
      if items == [] || |items| < limit {
        assert h.requests == sent';
      } else {
        var got := collected + Shape(items);
        assert h == Harvest(answer, maxItems, size, got, sent', offset + limit);
        HarvestKeepsSent(answer, maxItems, size, got, sent', offset + limit);
        var rs := h.requests;
        assert rs[..|sent'|] == sent';
        assert rs[..|sent|] == sent'[..|sent|] == sent;
      }
    }
    assert Prefix(sent, h.requests);
  }

  ghost predicate Prefix(s: seq<Request>, t: seq<Request>) {
    |s| <= |t| && t[..|s|] == s
  }

  /** Every request after the first `from` asks for between 1 and 50 items and
      no more than `room`. */
  ghost predicate LimitsWithin(rs: seq<Request>, from: nat, room: int) {
    forall i | from <= i < |rs| :: 1 <= rs[i].limit <= 50 && rs[i].limit <= room
  }

  /** Every request after the first `from` starts where the one before it ended. */
  ghost predicate Contiguous(rs: seq<Request>, from: nat) {
    forall i | from <= i < |rs| - 1 :: rs[i + 1].offset == rs[i].offset + rs[i].limit
  }

  /** The first request after `sent` asks for the page limit at `offset`. */
  lemma HarvestFirstRequest(answer: (nat, nat) -> seq<Item>, maxItems: int, size: nat,
                            collected: seq<LikedTrack>, sent: seq<Request>, offset: nat)
    requires Finite(answer, size)
    ensures var rs := Harvest(answer, maxItems, size, collected, sent, offset).requests;
      |rs| > |sent| ==> |collected| < maxItems && rs[|sent|] == Request(PageLimit(maxItems, |collected|), offset)
  {
    var h := Harvest(answer, maxItems, size, collected, sent, offset);
    HarvestCount(answer, maxItems, size, collected, sent, offset);
    if |collected| < maxItems {
      var limit := PageLimit(maxItems, |collected|);
      var items := answer(limit, offset);
      var sent' := sent + [Request(limit, offset)];
      if items == [] || |items| < limit {
        assert h.requests == sent';
      } else {
        var got := collected + Shape(items);
        assert h == Harvest(answer, maxItems, size, got, sent', offset + limit);
        HarvestKeepsSent(answer, maxItems, size, got, sent', offset + limit);
        assert h.requests[|sent|] == h.requests[..|sent'|][|sent|] == sent'[|sent|];
      }
    }
  }

  /** The requests made after `sent` each ask for between 1 and 50 items, and
      for no more than are still wanted. */
  lemma {:induction false} HarvestLimits(answer: (nat, nat) -> seq<Item>, maxItems: int, size: nat,
                                         collected: seq<LikedTrack>, sent: seq<Request>, offset: nat)
    requires Finite(answer, size)
    ensures LimitsWithin(Harvest(answer, maxItems, size, collected, sent, offset).requests, |sent|, maxItems - |collected|)
    decreases if offset <= size then size - offset + 1 else 0
  {
    var h := Harvest(answer, maxItems, size, collected, sent, offset);
    if |collected| >= maxItems {
      assert h.requests == sent;
    } else {
      var limit := PageLimit(maxItems, |collected|);
      var items := answer(limit, offset);
      var sent' := sent + [Request(limit, offset)];
      if items == [] || |items| < limit {
        assert h.requests == sent';
      } else {
        var got := collected + Shape(items);
        assert h == Harvest(answer, maxItems, size, got, sent', offset + limit);
        HarvestLimits(answer, maxItems, size, got, sent', offset + limit);
        HarvestFirstRequest(answer, maxItems, size, collected, sent, offset);
        assert LimitsWithin(h.requests, |sent'|, maxItems - |got|);
      }
    }
    assert LimitsWithin(h.requests, |sent|, maxItems - |collected|);
  }

  /** The requests made after `sent` are contiguous: each later one starts where
      the previous one's page ended. */
  lemma {:induction false} HarvestContiguous(answer: (nat, nat) -> seq<Item>, maxItems: int, size: nat,
                                             collected: seq<LikedTrack>, sent: seq<Request>, offset: nat)
    requires Finite(answer, size)
    ensures Contiguous(Harvest(answer, maxItems, size, collected, sent, offset).requests, |sent|)
    decreases if offset <= size then size - offset + 1 else 0
  {
    var h := Harvest(answer, maxItems, size, collected, sent, offset);
    if |collected| >= maxItems {
      assert h.requests == sent;
    } else {
      var limit := PageLimit(maxItems, |collected|);
      var items := answer(limit, offset);
      var sent' := sent + [Request(limit, offset)];
      if items == [] || |items| < limit {
        assert h.requests == sent';
      } else {
        var got := collected + Shape(items);
        assert h == Harvest(answer, maxItems, size, got, sent', offset + limit);
        HarvestContiguous(answer, maxItems, size, got, sent', offset + limit);
        HarvestFirstRequest(answer, maxItems, size, collected, sent, offset);
        HarvestFirstRequest(answer, maxItems, size, got, sent', offset + limit);
        var rs := h.requests;
        assert Contiguous(rs, |sent'|);
        forall i | |sent| <= i < |rs| - 1
          ensures rs[i + 1].offset == rs[i].offset + rs[i].limit
        {
          if i == |sent| {
            assert rs[i] == Request(limit, offset);
            assert rs[i + 1].offset == offset + limit;
          }
        }
      }
    }
    assert Contiguous(h.requests, |sent|);
  }

  /** When any request follows the first `from`, the last one got an empty or
      short page, or `maxItems` records were collected. */
  ghost predicate EndsAtShortPage(answer: (nat, nat) -> seq<Item>, maxItems: int, h: Harvested, from: nat) {
    |h.requests| > from ==>
      var last := h.requests[|h.requests| - 1];
      |answer(last.limit, last.offset)| < last.limit || |h.records| >= maxItems
  }

  /** Paging stops only at an empty or short page, or once `maxItems` records
      are collected. */
  lemma {:induction false} HarvestStops(answer: (nat, nat) -> seq<Item>, maxItems: int, size: nat,
                                        collected: seq<LikedTrack>, sent: seq<Request>, offset: nat)
    requires Finite(answer, size)
    ensures EndsAtShortPage(answer, maxItems, Harvest(answer, maxItems, size, collected, sent, offset), |sent|)
    decreases if offset <= size then size - offset + 1 else 0
  {
    var h := Harvest(answer, maxItems, size, collected, sent, offset);
    if |collected| >= maxItems {
      assert h.requests == sent;
    } else {
      var limit := PageLimit(maxItems, |collected|);
      var items := answer(limit, offset);
      var sent' := sent + [Request(limit, offset)];
      if items == [] || |items| < limit {
        assert h.requests == sent';
        assert h.requests[|h.requests| - 1] == Request(limit, offset);
      } else {
        var got := collected + Shape(items);
        assert h == Harvest(answer, maxItems, size, got, sent', offset + limit);
        HarvestStops(answer, maxItems, size, got, sent', offset + limit);
        HarvestCount(answer, maxItems, size, got, sent', offset + limit);
        assert EndsAtShortPage(answer, maxItems, h, |sent'|);
        if |got| >= maxItems {
          assert h == Harvested(got, sent');
        } else {
          assert |h.requests| > |sent'|;
        }
      }
    }
    assert EndsAtShortPage(answer, maxItems, h, |sent|);
  }

  class SpotifyClient {
    var scopes: seq<char>
    var auth: Auth

    /** `SpotifyClient.__init__`: scopes, credentials and the authorisation flow. */
    constructor (scopes: seq<char>, credsFile: Option<seq<char>>, host: Host)
      ensures this.scopes == if scopes != [] then scopes else DefaultScopes
      ensures auth == ChooseAuth(ClientId(host, credsFile), ClientSecret(host, credsFile),
                                 RedirectUri(host, credsFile), this.scopes)
      ensures !auth.EnvOAuth?
    {
      this.scopes := if scopes != [] then scopes else DefaultScopes;
      var creds := LoadSpotifyCreds(credsFile, host);
      auth := ChooseAuth(creds.clientId, creds.clientSecret, creds.redirectUri,
                         if scopes != [] then scopes else DefaultScopes);
    }

    /** The inner loop of `get_liked_tracks`: one record per item with a track. */
    static method AppendRecords(collected: seq<LikedTrack>, items: seq<Item>) returns (r: seq<LikedTrack>)
      ensures r == collected + Shape(items)
    {
      r := collected;
      var i := 0;
      while i < |items|
        invariant 0 <= i <= |items|
        invariant r == collected + Shape(items[..i])
      {
        assert items[..i + 1][..i] == items[..i];
        if items[i].track.Some? {
          r := r + [Record(items[i].track.value)];
        }
        i := i + 1;
      }
      assert items[..i] == items;
    }

    /** `get_liked_tracks`: pages through the saved tracks, `size` bounding the
        library; `sent` are the page requests made, in order. */
    method GetLikedTracks(maxItems: int, answer: (nat, nat) -> seq<Item>, ghost size: nat)
      returns (collected: seq<LikedTrack>, sent: seq<Request>)
      requires Finite(answer, size)
      ensures Harvested(collected, sent) == Harvest(answer, maxItems, size, [], [], 0)
    {
      ghost var total := Harvest(answer, maxItems, size, [], [], 0);
      collected, sent := [], [];
      var limit := 50;
      var offset: nat := 0;
      while |collected| < maxItems
        invariant Harvest(answer, maxItems, size, collected, sent, offset) == total
        decreases if offset <= size then size - offset + 1 else 0
      {
        var remaining := maxItems - |collected|;
        var pageLimit: nat := if remaining > limit then limit else remaining;
        assert pageLimit == PageLimit(maxItems, |collected|);
        var items := answer(pageLimit, offset);
        sent := sent + [Request(pageLimit, offset)];
        if items == [] {
          break;
        }
        collected := AppendRecords(collected, items);
        if |items| < pageLimit {
          break;
        }
        offset := offset + pageLimit;
      }
    }
  }
}
