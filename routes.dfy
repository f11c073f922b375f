/** The server's page routes that carry logic: the game page (routes/main_routes.py),
    which reads the players from the query string, records them, and finds the logo
    and music to show; and the admin settings endpoints (routes/admin_routes.py).
    Templates and JSON encoding are left out: a page is the values handed to its
    template, a response its body and status code. */
module Routes {
  import opened Util
  import opened Wire
  import opened Helpers
  import opened Uploads
  import Config

  /** The longest player name the game page shows. */
  const MAX_NAME_LENGTH: nat := 20

  /** request.args.get(key) or fallback: an absent or empty argument gives the fallback. */
  function ArgOr(args: seq<(string, string)>, key: string, fallback: string): (r: string)
    ensures QueryGet(args, key).Some? && QueryGet(args, key).value != "" ==> r == QueryGet(args, key).value
    ensures QueryGet(args, key).None? || QueryGet(args, key).value == "" ==> r == fallback
  {
    match QueryGet(args, key)
    case Some(v) => if v != "" then v else fallback
    case None => fallback
  }

  /** request.args.get(key, fallback): only an absent argument gives the fallback. */
  function ArgDefault(args: seq<(string, string)>, key: string, fallback: string): (r: string)
    ensures QueryGet(args, key).Some? ==> r == QueryGet(args, key).value
    ensures QueryGet(args, key).None? ==> r == fallback
  {
    match QueryGet(args, key)
    case Some(v) => v
    case None => fallback
  }

  /** if len(name) > 20: name = name[:20]. */
  function TruncateName(name: string): (r: string)
    ensures |r| <= MAX_NAME_LENGTH
    ensures |name| <= MAX_NAME_LENGTH ==> r == name
    ensures |name| > MAX_NAME_LENGTH ==> |r| == MAX_NAME_LENGTH && StartsWith(name, r)
  {
    if |name| > MAX_NAME_LENGTH then name[..MAX_NAME_LENGTH] else name
  }

  /** Truncating twice is truncating once. */
  lemma TruncateIdempotent(name: string)
    ensures TruncateName(TruncateName(name)) == TruncateName(name)
  {
  }

  /** args.get('skip', 'false').lower() == 'true'. */
  function ParseSkip(args: seq<(string, string)>): (skip: bool)
    ensures skip <==> QueryGet(args, "skip").Some? && LowerAscii(QueryGet(args, "skip").value) == "true"
  {
    LowerAscii(ArgDefault(args, "skip", "false")) == "true"
  }

  /** Every spelling of true, in any letter case, switches skip on; a missing argument does not. */
  lemma SkipSpellings(args: seq<(string, string)>)
    ensures ParseSkip([("skip", "TRUE")] + args) && ParseSkip([("skip", "True")] + args)
    ensures ParseSkip([("skip", "true")] + args)
    ensures !ParseSkip([])
  {
    assert LowerAscii("TRUE") == "true";
    assert LowerAscii("True") == "true";
    assert LowerAscii("true") == "true";
    assert LowerAscii("false") == "false";
  }

  /** The players the game page reads from its query string. */
  datatype GamePlayers = GamePlayers(player1Name: string, player2Name: string, player1Phone: string,
                                     player2Phone: string, skip: bool)

  function ReadPlayers(args: seq<(string, string)>): (p: GamePlayers)
    ensures p.player1Name == TruncateName(ArgOr(args, "player1_name", "Player 1"))
    ensures p.player2Name == TruncateName(ArgOr(args, "player2_name", "Player 2"))
    ensures p.player1Phone == ArgDefault(args, "player1_phone", "")
    ensures p.player2Phone == ArgDefault(args, "player2_phone", "")
    ensures p.skip == ParseSkip(args)
    ensures p.player1Name != "" && p.player2Name != ""
  {
    GamePlayers(TruncateName(ArgOr(args, "player1_name", "Player 1")), TruncateName(ArgOr(args, "player2_name", "Player 2")),
                ArgDefault(args, "player1_phone", ""), ArgDefault(args, "player2_phone", ""), ParseSkip(args))
  }

  /** The record the game route saves. */
  function PlayerRecord(p: GamePlayers, timestamp: string): (r: Payload)
    ensures PlayerRow(r) == [p.player1Name, p.player1Phone, p.player2Name, p.player2Phone]
  {
    map["player1_name" := Str(p.player1Name), "player1_phone" := Str(p.player1Phone),
        "player2_name" := Str(p.player2Name), "player2_phone" := Str(p.player2Phone),
        "skip" := Bool(p.skip), "timestamp" := Str(timestamp)]
  }

  /** The record is saved when something in it differs from the defaults of an empty query. */
  predicate WorthSaving(p: GamePlayers)
  {
    p.player1Name != "Player 1" || p.player1Phone != "" || p.player2Name != "Player 2" || p.player2Phone != "" || p.skip
  }

  /** A request without player arguments saves nothing, and one that names a player saves. */
  lemma SaveOnlyRealPlayers(args: seq<(string, string)>, name: string)
    ensures !WorthSaving(ReadPlayers([]))
    ensures name != "" && name != "Player 1" && |name| <= MAX_NAME_LENGTH ==>
      WorthSaving(ReadPlayers([("player1_name", name)] + args))
  {
    assert LowerAscii("false") == "false";
  }

  /** url_for('static', filename=path). */
  function StaticUrl(path: string): string
  {
    "/static/" + path
  }

  /** The template values of the game page. */
  datatype GamePage = GamePage(player1Name: string, player2Name: string, logoUrl: string, musicUrl: string)

  /** The files the game page shows: the current ones, with the latest uploads filling a
      kind that has no current file. */
  function ChooseFile(current: Option<string>, latest: Option<string>): (r: Option<string>)
    ensures current.Some? ==> r == current
    ensures current.None? && latest != Some("") ==> r == latest
    ensures current.None? && latest == Some("") ==> r.None?
  {
    if current.None? && latest.Some? && latest.value != "" then latest else current
  }

  /** An existing file is shown by its URL under /static/; a missing one by the empty URL. */
  function DisplayUrl(existing: set<string>, path: Option<string>): (url: string)
    ensures url == "" <==> FileIfExists(existing, path).None?
    ensures FileIfExists(existing, path).Some? ==> url == StaticUrl(path.value)
  {
    match FileIfExists(existing, path)
    case Some(p) => StaticUrl(p)
    case None => ""
  }

  /** game(): the files to show come from the globals and the session, then from the latest
      uploads for a kind that still has none, and are shown only if they exist; the players
      come from the query string, and are saved when they are not all defaults. */
  method Game(store: UploadStore, csv: DataFile, args: seq<(string, string)>,
              listing: Option<seq<(string, int)>>, existing: set<string>, timestamp: string)
    returns (page: GamePage)
    requires csv.Valid()
    modifies store, csv
    ensures csv.Valid()
    ensures store.InSync() && store.session == old(store.session) && store.written == old(store.written)
    ensures store.currentLogo == (if SESSION_LOGO in store.session then Some(store.session[SESSION_LOGO]) else old(store.currentLogo))
    ensures store.currentMusic == (if SESSION_MUSIC in store.session then Some(store.session[SESSION_MUSIC]) else old(store.currentMusic))
    ensures var players := ReadPlayers(args);
      page.player1Name == players.player1Name && page.player2Name == players.player2Name &&
      csv.rows == old(csv.rows) +
        (if WorthSaving(players) then (if old(csv.present) then [] else [PLAYER_HEADER]) + [PlayerRow(PlayerRecord(players, timestamp))] else [])
    ensures var latestLogo := if listing.Some? then LatestPath(LogoEntries(listing.value)) else None;
      page.logoUrl == DisplayUrl(existing, ChooseFile(store.currentLogo, latestLogo))
    ensures var latestMusic := if listing.Some? then LatestPath(MusicEntries(listing.value)) else None;
      page.musicUrl == DisplayUrl(existing, ChooseFile(store.currentMusic, latestMusic))
  {
    var logoPath, musicPath := FilesToShow(store, listing);
    var players := ReadPlayers(args);
    RecordPlayers(csv, players, timestamp);
    page := GamePage(players.player1Name, players.player2Name, DisplayUrl(existing, logoPath), DisplayUrl(existing, musicPath));
  }

  /** The first half of game(): the current files after the session is read, with the latest
      uploads filling a kind that has none. */
  method FilesToShow(store: UploadStore, listing: Option<seq<(string, int)>>) returns (logoPath: Option<string>, musicPath: Option<string>)
    modifies store
    ensures store.InSync() && store.session == old(store.session) && store.written == old(store.written)
    ensures store.currentLogo == (if SESSION_LOGO in store.session then Some(store.session[SESSION_LOGO]) else old(store.currentLogo))
    ensures store.currentMusic == (if SESSION_MUSIC in store.session then Some(store.session[SESSION_MUSIC]) else old(store.currentMusic))
    ensures logoPath == ChooseFile(store.currentLogo, if listing.Some? then LatestPath(LogoEntries(listing.value)) else None)
    ensures musicPath == ChooseFile(store.currentMusic, if listing.Some? then LatestPath(MusicEntries(listing.value)) else None)
  {
    logoPath, musicPath := store.InitializeThenGet();
    if logoPath.None? || musicPath.None? {
      var latestLogo, latestMusic := LatestUploadedFiles(listing);
      if logoPath.None? && latestLogo.Some? && latestLogo.value != "" {
        logoPath := latestLogo;
      }
      if musicPath.None? && latestMusic.Some? && latestMusic.value != "" {
        musicPath := latestMusic;
      }
    }
  }

  /** The players are saved only when the record is worth saving. */
  method RecordPlayers(csv: DataFile, players: GamePlayers, timestamp: string)
    requires csv.Valid()
    modifies csv
    ensures csv.Valid()
    ensures csv.rows == old(csv.rows) +
      (if WorthSaving(players) then (if old(csv.present) then [] else [PLAYER_HEADER]) + [PlayerRow(PlayerRecord(players, timestamp))] else [])
  {
    if WorthSaving(players) {
      csv.SavePlayerData(PlayerRecord(players, timestamp));
    }
  }

  /** A JSON response: its body and its status code. */
  datatype Response = Response(body: Payload, status: nat)

  /** The response of an upload that raised: success false, the error's text, status 500. */
  function ErrorResponse(message: string): (r: Response)
    ensures r.status == 500 && Get(r.body, "success") == Bool(false) && Get(r.body, "error") == Str(message)
  {
    Response(map["success" := Bool(false), "error" := Str(message)], 500)
  }

  /** The request carries a file under this name, and the file has a name. */
  predicate Named(files: map<string, Upload>, slot: string)
  {
    slot in files && files[slot].filename != ""
  }

  /** The request's file under this name, if any, would not be rejected. */
  predicate Acceptable(files: map<string, Upload>, slot: string)
  {
    !Named(files, slot) || AllowedFile(files[slot].filename)
  }

  /** The path save_uploaded_file reports for the request's file under this name. */
  function SlotPath(secureFilename: string -> string, files: map<string, Upload>, slot: string): string
    requires slot in files
  {
    RelativePath(slot, secureFilename(files[slot].filename))
  }

  /** The file save_uploaded_file writes for the request's file under this name. */
  function SlotFile(secureFilename: string -> string, files: map<string, Upload>, slot: string): string
    requires slot in files
  {
    Join(Config.UPLOAD_FOLDER, slot + "_" + secureFilename(files[slot].filename))
  }

  /** What get_current_files returns for one global: the global, or when it is None the
      session's copy. */
  function Fallback(current: Option<string>, session: map<string, string>, key: string): (r: Option<string>)
    ensures current.Some? ==> r == current
    ensures current.None? ==> (r.Some? <==> key in session) && (key in session ==> r == Some(session[key]))
  {
    if current.None? && key in session then Some(session[key]) else current
  }

  lemma SessionKeysDistinct()
    ensures SESSION_LOGO != SESSION_MUSIC
  {
    assert SESSION_LOGO[8] != SESSION_MUSIC[8];
  }

  /** The part of save_settings that handles one upload slot: a present, named file is saved,
      and the body gains the slot's uploaded flag and path; a rejected one ends the request
      with the store as it was. */
  method SaveSlot(store: UploadStore, files: map<string, Upload>, fileType: string,
                  uploadedKey: string, pathKey: string, body: Payload)
    returns (r: Payload, error: Option<string>)
    modifies store
    ensures !(Named(files, fileType) && Acceptable(files, fileType)) ==>
      store.written == old(store.written) && store.session == old(store.session) &&
      store.currentLogo == old(store.currentLogo) && store.currentMusic == old(store.currentMusic)
    ensures !Named(files, fileType) ==> r == body && error.None?
    ensures Named(files, fileType) && !Acceptable(files, fileType) ==> r == body && error == Some(RejectMessage(fileType))
    ensures Named(files, fileType) && Acceptable(files, fileType) ==>
      var path := SlotPath(store.secureFilename, files, fileType);
      error.None? && r == body[uploadedKey := Bool(true)][pathKey := Str(path)] &&
      store.written == old(store.written) + [SlotFile(store.secureFilename, files, fileType)] &&
      (fileType == "logo" ==>
        store.currentLogo == Some(path) && store.currentMusic == old(store.currentMusic) &&
        store.session == old(store.session)[SESSION_LOGO := path]) &&
      (fileType == "music" ==>
        store.currentMusic == Some(path) && store.currentLogo == old(store.currentLogo) &&
        store.session == old(store.session)[SESSION_MUSIC := path]) &&
      (fileType !in {"logo", "music"} ==>
        store.currentLogo == old(store.currentLogo) && store.currentMusic == old(store.currentMusic) &&
        store.session == old(store.session))
  {
    r := body;
    error := None;
    if fileType in files {
      var file := files[fileType];
      if file.filename != "" {
        var outcome := store.SaveUploadedFile(Some(file), fileType);
        match outcome {
          case Rejected(message) =>
            error := Some(message);
          case Saved(path) =>
            r := r[uploadedKey := Bool(true)][pathKey := Str(path)];
          case NoFile =>
        }
      }
    }
  }

  /** save_settings: the logo, then the music; a rejected upload answers with the error and
      status 500, after any earlier upload of the request was saved; otherwise success, with
      a flag and a path for each file saved, and the globals refreshed from the session. */
  method SaveSettings(store: UploadStore, files: map<string, Upload>) returns (response: Response)
    modifies store
    ensures !Acceptable(files, "logo") ==>
      response == ErrorResponse(RejectMessage("logo")) &&
      store.written == old(store.written) && store.session == old(store.session) &&
      store.currentLogo == old(store.currentLogo) && store.currentMusic == old(store.currentMusic)
    ensures Acceptable(files, "logo") && !Acceptable(files, "music") ==>
      response == ErrorResponse(RejectMessage("music")) && store.currentMusic == old(store.currentMusic) &&
      (Named(files, "logo") ==>
        var path := SlotPath(store.secureFilename, files, "logo");
        store.written == old(store.written) + [SlotFile(store.secureFilename, files, "logo")] &&
        store.currentLogo == Some(path) && store.session == old(store.session)[SESSION_LOGO := path]) &&
      (!Named(files, "logo") ==>
        store.written == old(store.written) && store.currentLogo == old(store.currentLogo) && store.session == old(store.session))
    ensures Acceptable(files, "logo") && Acceptable(files, "music") ==>
      response.status == 200 && Get(response.body, "success") == Bool(true) &&
      (Get(response.body, "logo_uploaded") == Bool(true) <==> Named(files, "logo")) &&
      (Get(response.body, "music_uploaded") == Bool(true) <==> Named(files, "music")) &&
      Get(response.body, "logo_path") ==
        (if Named(files, "logo") then Str(SlotPath(store.secureFilename, files, "logo")) else Null) &&
      Get(response.body, "music_path") ==
        (if Named(files, "music") then Str(SlotPath(store.secureFilename, files, "music")) else Null)
    ensures Acceptable(files, "logo") && Acceptable(files, "music") ==>
      var session1 := if Named(files, "logo") then old(store.session)[SESSION_LOGO := SlotPath(store.secureFilename, files, "logo")]
                      else old(store.session);
      store.written == old(store.written) +
        (if Named(files, "logo") then [SlotFile(store.secureFilename, files, "logo")] else []) +
        (if Named(files, "music") then [SlotFile(store.secureFilename, files, "music")] else []) &&
      store.session == (if Named(files, "music") then session1[SESSION_MUSIC := SlotPath(store.secureFilename, files, "music")]
                        else session1) &&
      store.currentLogo == (if Named(files, "logo") then Some(SlotPath(store.secureFilename, files, "logo"))
                            else Fallback(old(store.currentLogo), old(store.session), SESSION_LOGO)) &&
      store.currentMusic == (if Named(files, "music") then Some(SlotPath(store.secureFilename, files, "music"))
                             else Fallback(old(store.currentMusic), old(store.session), SESSION_MUSIC))
    ensures !Named(files, "logo") && !Named(files, "music") ==>
      store.written == old(store.written) && response == Response(map["success" := Bool(true)], 200)
  {
    SessionKeysDistinct();
    var body: Payload := map[];
    var error;
    body, error := SaveSlot(store, files, "logo", "logo_uploaded", "logo_path", body);
    if error.Some? {
      return ErrorResponse(error.value);
    }
    body, error := SaveSlot(store, files, "music", "music_uploaded", "music_path", body);
    if error.Some? {
      return ErrorResponse(error.value);
    }
    var logoAfter, musicAfter := store.GetCurrentFiles();
    response := Response(body["success" := Bool(true)], 200);
  }

  /** normalize: None for a missing or empty path, otherwise the path under /static/ with its
      leading slashes removed. */
  function Normalize(path: Option<string>): (r: Value)
    ensures path.None? || path == Some("") ==> r == Null
    ensures path.Some? && path.value != "" ==> r == Str("/static/" + StripSlashes(path.value))
  {
    if path.Some? && path.value != "" then Str("/static/" + StripSlashes(path.value)) else Null
  }

  /** path.lstrip("/"). */
  function StripSlashes(s: string): (r: string)
    ensures |r| <= |s| && r == s[|s| - |r|..]
    ensures r == "" || r[0] != '/'
    ensures forall i :: 0 <= i < |s| - |r| ==> s[i] == '/'
  {
    if s != [] && s[0] == '/' then StripSlashes(s[1..]) else s
  }

  /** A normalized URL begins with exactly one slash before static/, whatever the stored path. */
  lemma NormalizeOneSlash(path: string, slashes: nat)
    requires path != "" && path[0] != '/'
    ensures Normalize(Some(seq(slashes, _ => '/') + path)) == Str("/static/" + path)
  {
    var p := seq(slashes, _ => '/') + path;
    var r := StripSlashes(p);
    assert p[slashes] == path[0];
    assert |r| == |path|;
    assert r == p[slashes..];
    assert p[slashes..] == path;
  }

  /** get_settings: both URLs, normalised, under logoUrl and musicUrl. The request only reads:
      the session and the written files stay as they were, and the globals take their
      session fallbacks. */
  method GetSettings(store: UploadStore) returns (response: Response)
    modifies store
    ensures response.body.Keys == {"logoUrl", "musicUrl"} && response.status == 200
    ensures response.body["logoUrl"] == Normalize(store.currentLogo)
    ensures response.body["musicUrl"] == Normalize(store.currentMusic)
    ensures store.currentLogo == (if old(store.currentLogo).None? && SESSION_LOGO in store.session
                                  then Some(store.session[SESSION_LOGO]) else old(store.currentLogo))
    ensures store.currentMusic == (if old(store.currentMusic).None? && SESSION_MUSIC in store.session
                                   then Some(store.session[SESSION_MUSIC]) else old(store.currentMusic))
    ensures store.session == old(store.session) && store.written == old(store.written)
  {
    var logoPath, musicPath := store.GetCurrentFiles();
    response := Response(map["logoUrl" := Normalize(logoPath), "musicUrl" := Normalize(musicPath)], 200);
  }
}
