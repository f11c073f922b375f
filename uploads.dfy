/** The server's record of the uploaded logo and music (utils/file_manager.py):
    the two module globals, their copies in the Flask session, the saving of an
    upload under a typed name, the existence check of a stored path, and the
    scan of the upload folder for the latest files. The filesystem enters as
    parameters: the set of paths that exist, and the listing of the upload
    folder with each name's modification time. */
module Uploads {
  import opened Util
  import opened Config
  import opened Helpers

  /** An uploaded file as the request carries it; its contents are left out. */
  datatype Upload = Upload(filename: string)

  /** What save_uploaded_file does: nothing to save (None), saved under a path, or the
      ValueError it raises for a name whose extension is not allowed. */
  datatype SaveOutcome = NoFile | Saved(path: string) | Rejected(message: string)

  const SESSION_LOGO: string := "current_logo"
  const SESSION_MUSIC: string := "current_music"

  /** os.path.join(a, b): b alone when it is absolute, otherwise b after a and a separator. */
  function Join(a: string, b: string): (r: string)
    ensures StartsWith(b, "/") ==> r == b
    ensures |b| <= |r| && (!StartsWith(b, "/") ==> r[|r| - |b|..] == b)
  {
    if StartsWith(b, "/") then b
    else if a == "" || a[|a| - 1] == '/' then a + b
    else a + "/" + b
  }

  /** The path save_uploaded_file returns for a saved upload. */
  function RelativePath(fileType: string, secureName: string): (p: string)
    ensures StartsWith(p, "uploads/")
  {
    "uploads/" + fileType + "_" + secureName
  }

  /** The error message of a rejected upload. */
  function RejectMessage(fileType: string): string
  {
    "Invalid " + fileType + " file type"
  }

  /** get_file_if_exists: a missing or empty path gives None; a path under uploads/ is looked
      for in the static folder and any other in its uploads folder; an existing file gives
      the path back unchanged. */
  function FileIfExists(existing: set<string>, path: Option<string>): (r: Option<string>)
    ensures r.Some? ==> path == r && r.value != ""
    ensures path.None? || path == Some("") ==> r.None?
    ensures forall p :: path == Some(p) && p != "" && StartsWith(p, "uploads/") ==>
      (r.Some? <==> Join(STATIC_FOLDER, p) in existing)
    ensures forall p :: path == Some(p) && p != "" && !StartsWith(p, "uploads/") ==>
      (r.Some? <==> Join(Join(STATIC_FOLDER, "uploads"), p) in existing)
  {
    match path
    case None => None
    case Some(p) =>
      if p == "" then None
      else
        var full := if StartsWith(p, "uploads/") then Join(STATIC_FOLDER, p) else Join(Join(STATIC_FOLDER, "uploads"), p);
        if full in existing then Some(p) else None
  }

  /** A stored path under uploads/ is found under static/ exactly when it was saved there. */
  lemma SavedPathFound(existing: set<string>, fileType: string, secureName: string)
    ensures FileIfExists(existing, Some(RelativePath(fileType, secureName))).Some? <==>
      STATIC_FOLDER + "/" + RelativePath(fileType, secureName) in existing
  {
    var p := RelativePath(fileType, secureName);
    assert p[..|"uploads/"|] == "uploads/";
    assert !StartsWith(p, "/") by { assert p[0] == 'u'; }
  }

  /** The entries of a listing whose names begin with "logo_", in listing order. */
  function LogoEntries(listing: seq<(string, int)>): seq<(string, int)>
  {
    if listing == [] then []
    else (if StartsWith(listing[0].0, "logo_") then [listing[0]] else []) + LogoEntries(listing[1..])
  }

  /** The entries of a listing whose names begin with "music_" and not with "logo_". */
  function MusicEntries(listing: seq<(string, int)>): seq<(string, int)>
  {
    if listing == [] then []
    else (if StartsWith(listing[0].0, "music_") && !StartsWith(listing[0].0, "logo_") then [listing[0]] else [])
         + MusicEntries(listing[1..])
  }

  /** The logo selection holds exactly the listing's logo_ names. */
  lemma {:induction false} LogoEntriesExact(listing: seq<(string, int)>)
    ensures forall e :: e in LogoEntries(listing) <==> e in listing && StartsWith(e.0, "logo_")
  {
    if listing != [] {
      LogoEntriesExact(listing[1..]);
      assert forall e :: e in listing <==> e == listing[0] || e in listing[1..];
    }
  }

  /** The music selection holds exactly the listing's music_ names that are not logo_ names. */
  lemma {:induction false} MusicEntriesExact(listing: seq<(string, int)>)
    ensures forall e :: e in MusicEntries(listing) <==>
      e in listing && StartsWith(e.0, "music_") && !StartsWith(e.0, "logo_")
  {
    if listing != [] {
      MusicEntriesExact(listing[1..]);
      assert forall e :: e in listing <==> e == listing[0] || e in listing[1..];
    }
  }

  /** No name is both a logo and a music file: the two prefixes differ in their first letter. */
  lemma PrefixesExclusive(name: string)
    ensures !(StartsWith(name, "logo_") && StartsWith(name, "music_"))
  {
    if StartsWith(name, "logo_") {
      assert name[0] == 'l';
    }
  }

  /** max(entries, key=mtime): the entry with the largest modification time that comes
      first in the listing. */
  function Latest(entries: seq<(string, int)>): (e: (string, int))
    requires entries != []
    ensures forall x :: x in entries ==> x.1 <= e.1
    ensures exists k :: 0 <= k < |entries| && entries[k] == e && forall j :: 0 <= j < k ==> entries[j].1 < e.1
  {
    if |entries| == 1 then entries[0]
    else
      var rest := Latest(entries[1..]);
      if rest.1 > entries[0].1 then
        var k :| 0 <= k < |entries| - 1 && entries[1..][k] == rest && forall j :: 0 <= j < k ==> entries[1..][j].1 < rest.1;
        assert entries[k + 1] == rest;
        assert forall j :: 1 <= j < k + 1 ==> entries[j] == entries[1..][j - 1];
        assert forall x :: x in entries[1..] ==> x.1 <= rest.1;
        assert forall x :: x in entries ==> x == entries[0] || x in entries[1..];
        rest
      else entries[0]
  }

  /** The path get_latest_uploaded_files reports for a non-empty selection. */
  function LatestPath(entries: seq<(string, int)>): (r: Option<string>)
    ensures r.None? <==> entries == []
    ensures entries != [] ==> r == Some("uploads/" + Latest(entries).0)
  {
    if entries == [] then None else Some("uploads/" + Latest(entries).0)
  }

  /** The selections of a listing's suffix from position i: entry i, then the rest. */
  lemma SelectionStep(names: seq<(string, int)>, i: nat)
    requires i < |names|
    ensures LogoEntries(names[i..]) ==
      (if StartsWith(names[i].0, "logo_") then [names[i]] else []) + LogoEntries(names[i + 1..])
    ensures MusicEntries(names[i..]) ==
      (if StartsWith(names[i].0, "music_") && !StartsWith(names[i].0, "logo_") then [names[i]] else []) +
      MusicEntries(names[i + 1..])
  {
    assert names[i..][1..] == names[i + 1..];
  }

  lemma AppendOne<T>(front: seq<T>, x: T, rest: seq<T>)
    ensures front + [x] + rest == front + ([x] + rest)
  {
  }

  /** get_latest_uploaded_files: with no upload folder, nothing; otherwise the listing is split,
      in its order, into logo and music names, and each non-empty kind reports its file with
      the latest modification time. */
  method LatestUploadedFiles(listing: Option<seq<(string, int)>>) returns (logo: Option<string>, music: Option<string>)
    ensures listing.None? ==> logo.None? && music.None?
    ensures listing.Some? ==> logo == LatestPath(LogoEntries(listing.value)) && music == LatestPath(MusicEntries(listing.value))
  {
    if listing.None? {
      return None, None;
    }
    var names := listing.value;
    var logoFiles: seq<(string, int)> := [];
    var musicFiles: seq<(string, int)> := [];
    var i := 0;
    while i < |names|
      invariant 0 <= i <= |names|
      invariant LogoEntries(names) == logoFiles + LogoEntries(names[i..])
      invariant MusicEntries(names) == musicFiles + MusicEntries(names[i..])
    {
      var name := names[i].0;
      SelectionStep(names, i);
      if StartsWith(name, "logo_") {
        AppendOne(logoFiles, names[i], LogoEntries(names[i + 1..]));
        logoFiles := logoFiles + [names[i]];
      } else if StartsWith(name, "music_") {
        AppendOne(musicFiles, names[i], MusicEntries(names[i + 1..]));
        musicFiles := musicFiles + [names[i]];
      }
      i := i + 1;
    }
    assert names[i..] == [];
    assert LogoEntries(names) == logoFiles && MusicEntries(names) == musicFiles;
    logo := LatestPath(logoFiles);
    music := LatestPath(musicFiles);
  }

  /** The module globals current_logo and current_music, the Flask session, and the
      uploads written to disk. */
  class UploadStore {
    /** werkzeug's secure_filename. */
    const secureFilename: string -> string
    var currentLogo: Option<string>
    var currentMusic: Option<string>
    var session: map<string, string>
    /** The files written by file.save, in order. */
    var written: seq<string>

    constructor(secureFilename: string -> string, session: map<string, string>)
      ensures this.secureFilename == secureFilename && this.session == session
      ensures currentLogo.None? && currentMusic.None? && written == []
    {
      this.secureFilename := secureFilename;
      currentLogo := None;
      currentMusic := None;
      this.session := session;
      written := [];
    }

    /** save_uploaded_file: an upload with an allowed name is written to the upload folder as
        <type>_<secure name>, and its relative path is returned; a logo or music upload also
        becomes the current one, in the globals and the session. */
    method SaveUploadedFile(file: Option<Upload>, fileType: string) returns (r: SaveOutcome)
      modifies this
      ensures file.None? || file.value.filename == "" ==>
        r == NoFile && written == old(written)
      ensures file.Some? && file.value.filename != "" && !AllowedFile(file.value.filename) ==>
        r == Rejected(RejectMessage(fileType)) && written == old(written)
      ensures file.Some? && file.value.filename != "" && AllowedFile(file.value.filename) ==>
        var name := secureFilename(file.value.filename);
        r == Saved(RelativePath(fileType, name)) &&
        written == old(written) + [Join(UPLOAD_FOLDER, fileType + "_" + name)]
      ensures r.Saved? && fileType == "logo" ==>
        currentLogo == Some(r.path) && currentMusic == old(currentMusic) && session == old(session)[SESSION_LOGO := r.path]
      ensures r.Saved? && fileType == "music" ==>
        currentMusic == Some(r.path) && currentLogo == old(currentLogo) && session == old(session)[SESSION_MUSIC := r.path]
      ensures !(r.Saved? && fileType in {"logo", "music"}) ==>
        currentLogo == old(currentLogo) && currentMusic == old(currentMusic) && session == old(session)
    {
      if file.Some? && file.value.filename != "" {
        if AllowedFile(file.value.filename) {
          var filename := secureFilename(file.value.filename);
          var filePath := Join(UPLOAD_FOLDER, fileType + "_" + filename);
          written := written + [filePath];
          var relativePath := RelativePath(fileType, filename);
          if fileType == "logo" {
            currentLogo := Some(relativePath);
            session := session[SESSION_LOGO := relativePath];
          } else if fileType == "music" {
            currentMusic := Some(relativePath);
            session := session[SESSION_MUSIC := relativePath];
          }
          return Saved(relativePath);
        } else {
          return Rejected(RejectMessage(fileType));
        }
      }
      return NoFile;
    }

    /** get_current_files: each global, or when it is None the session's copy, which is then
        put back into the global. */
    method GetCurrentFiles() returns (logo: Option<string>, music: Option<string>)
      modifies this
      ensures logo == (if old(currentLogo).None? && SESSION_LOGO in session then Some(session[SESSION_LOGO]) else old(currentLogo))
      ensures music == (if old(currentMusic).None? && SESSION_MUSIC in session then Some(session[SESSION_MUSIC]) else old(currentMusic))
      ensures currentLogo == logo && currentMusic == music
      ensures session == old(session) && written == old(written)
    {
      logo := currentLogo;
      music := currentMusic;
      if logo.None? && SESSION_LOGO in session {
        logo := Some(session[SESSION_LOGO]);
        currentLogo := logo;
      }
      if music.None? && SESSION_MUSIC in session {
        music := Some(session[SESSION_MUSIC]);
        currentMusic := music;
      }
    }

    /** clear_current_files. */
    method ClearCurrentFiles()
      modifies this
      ensures currentLogo.None? && currentMusic.None?
      ensures SESSION_LOGO !in session && SESSION_MUSIC !in session
      ensures session == old(session) - {SESSION_LOGO, SESSION_MUSIC}
      ensures written == old(written)
    {
      currentLogo := None;
      currentMusic := None;
      session := session - {SESSION_LOGO};
      session := session - {SESSION_MUSIC};
    }

    /** initialize_from_session: each session copy that exists overwrites its global. */
    method InitializeFromSession()
      modifies this
      ensures currentLogo == (if SESSION_LOGO in session then Some(session[SESSION_LOGO]) else old(currentLogo))
      ensures currentMusic == (if SESSION_MUSIC in session then Some(session[SESSION_MUSIC]) else old(currentMusic))
      ensures session == old(session) && written == old(written)
    {
      if SESSION_LOGO in session {
        currentLogo := Some(session[SESSION_LOGO]);
      }
      if SESSION_MUSIC in session {
        currentMusic := Some(session[SESSION_MUSIC]);
      }
    }

    /** The globals agree with the session wherever the session holds a copy. */
    ghost predicate InSync()
      reads this
    {
      (SESSION_LOGO in session ==> currentLogo == Some(session[SESSION_LOGO])) &&
      (SESSION_MUSIC in session ==> currentMusic == Some(session[SESSION_MUSIC]))
    }

    /** A global that is still None after initialize_from_session has no session copy, so
        get_current_files right after it returns the globals and changes nothing. */
    method InitializeThenGet() returns (logo: Option<string>, music: Option<string>)
      modifies this
      ensures InSync()
      ensures logo == currentLogo && music == currentMusic
      ensures currentLogo == (if SESSION_LOGO in session then Some(session[SESSION_LOGO]) else old(currentLogo))
      ensures currentMusic == (if SESSION_MUSIC in session then Some(session[SESSION_MUSIC]) else old(currentMusic))
      ensures session == old(session) && written == old(written)
    {
      InitializeFromSession();
      logo, music := GetCurrentFiles();
    }
  }
}
