/** The admin page (static/javaScript/admin.js): the logo and music slots, their size checks,
    the form posted to /save-settings and the handling of the server's answer. Alerts are the
    messages shown, in order; the reading of a chosen file for its preview is taken to finish
    at once. */
module Admin {
  import opened Util
  import opened Wire

  /** A chosen file: its name and its size in bytes. */
  datatype File = File(name: string, size: nat)

  /** The multipart form of a save: named file parts, in the order they were appended. */
  type Form = seq<(string, File)>

  const LOGO_LIMIT: nat := 5 * 1024 * 1024
  const MUSIC_LIMIT: nat := 10 * 1024 * 1024

  const LOGO_TOO_BIG: string := "Logo must be under 5MB."
  const MUSIC_TOO_BIG: string := "Music file must be under 10MB."
  const NOTHING_TO_SAVE: string := "Please upload at least a logo or music before saving."
  const SAVING_STATUS: string := "Saving settings..."
  const SAVED_STATUS: string := "Settings saved successfully!"
  const FAILED_STATUS: string := "Failed to save settings."
  const UPLOAD_FAILED: string := "Upload failed."

  /** Whether a chosen file fits a slot of the given limit: a file must be chosen at all. */
  predicate Fits(file: Option<File>, limit: nat)
  {
    file.Some? && file.value.size <= limit
  }

  /** The form of a save: the logo part first, then the music part, each only when its slot is
      filled. */
  function FormOf(logo: Option<File>, music: Option<File>): (form: Form)
    ensures |form| <= 2
  {
    (if logo.Some? then [("logo", logo.value)] else []) + (if music.Some? then [("music", music.value)] else [])
  }

  /** FormData.getAll: the files of every part with that name, in order. */
  function PartsNamed(form: Form, name: string): seq<File>
  {
    if form == [] then []
    else (if form[0].0 == name then [form[0].1] else []) + PartsNamed(form[1..], name)
  }

  function AsSeq(file: Option<File>): (s: seq<File>)
    ensures |s| <= 1 && (s != [] <==> file.Some?)
  {
    if file.Some? then [file.value] else []
  }

  /** The form holds a logo part exactly when a logo is uploaded, and a music part exactly when
      music is; each appears once and is the uploaded file. */
  lemma FormCarriesSlots(logo: Option<File>, music: Option<File>)
    ensures PartsNamed(FormOf(logo, music), "logo") == AsSeq(logo)
    ensures PartsNamed(FormOf(logo, music), "music") == AsSeq(music)
  {
    assert "logo" != "music" by {
      assert |"logo"| != |"music"|;
    }
    var tail: Form := if music.Some? then [("music", music.value)] else [];
    assert PartsNamed(tail, "logo") == [] && PartsNamed(tail, "music") == AsSeq(music) by {
      if music.Some? {
        assert tail[1..] == [];
      }
    }
    if logo.Some? {
      var form := FormOf(logo, music);
      assert form == [("logo", logo.value)] + tail && form[1..] == tail;
    } else {
      assert FormOf(logo, music) == tail;
    }
  }

  class AdminPage {
    var uploadedLogo: Option<File>
    var uploadedMusic: Option<File>
    /** Every alert shown, in order. */
    var alerts: seq<string>
    /** Every form posted to /save-settings, in order. */
    var requests: seq<Form>
    /** The status message's text. */
    var status: string
    var progressShown: bool
    var progressFull: bool
    /** Whether the redirect to the home page after a save is scheduled. */
    var redirectPending: bool
    /** The last URL assigned to window.location.href. */
    var navigation: Option<string>

    constructor()
      ensures uploadedLogo.None? && uploadedMusic.None? && alerts == [] && requests == [] && status == ""
      ensures !progressShown && !progressFull && !redirectPending && navigation.None?
    {
      uploadedLogo := None;
      uploadedMusic := None;
      alerts := [];
      requests := [];
      status := "";
      progressShown := false;
      progressFull := false;
      redirectPending := false;
      navigation := None;
    }

    /** The logo input changed: a chosen file of at most 5 MiB fills the slot; otherwise the
        slot keeps what it had and an alert says why. */
    method LogoChosen(file: Option<File>)
      modifies this
      ensures Fits(file, LOGO_LIMIT) ==> uploadedLogo == file && alerts == old(alerts)
      ensures !Fits(file, LOGO_LIMIT) ==> uploadedLogo == old(uploadedLogo) && alerts == old(alerts) + [LOGO_TOO_BIG]
      ensures uploadedMusic == old(uploadedMusic) && requests == old(requests) && status == old(status)
      ensures progressShown == old(progressShown) && progressFull == old(progressFull)
      ensures redirectPending == old(redirectPending) && navigation == old(navigation)
    {
      if file.Some? && file.value.size <= LOGO_LIMIT {
        uploadedLogo := file;
      } else {
        alerts := alerts + [LOGO_TOO_BIG];
      }
    }

    /** The music input changed: the same rule with a 10 MiB limit. */
    method MusicChosen(file: Option<File>)
      modifies this
      ensures Fits(file, MUSIC_LIMIT) ==> uploadedMusic == file && alerts == old(alerts)
      ensures !Fits(file, MUSIC_LIMIT) ==> uploadedMusic == old(uploadedMusic) && alerts == old(alerts) + [MUSIC_TOO_BIG]
      ensures uploadedLogo == old(uploadedLogo) && requests == old(requests) && status == old(status)
      ensures progressShown == old(progressShown) && progressFull == old(progressFull)
      ensures redirectPending == old(redirectPending) && navigation == old(navigation)
    {
      if file.Some? && file.value.size <= MUSIC_LIMIT {
        uploadedMusic := file;
      } else {
        alerts := alerts + [MUSIC_TOO_BIG];
      }
    }

    method RemoveLogo()
      modifies this
      ensures uploadedLogo.None?
      ensures uploadedMusic == old(uploadedMusic) && alerts == old(alerts) && requests == old(requests) && status == old(status)
      ensures progressShown == old(progressShown) && progressFull == old(progressFull)
      ensures redirectPending == old(redirectPending) && navigation == old(navigation)
    {
      uploadedLogo := None;
    }

    method RemoveMusic()
      modifies this
      ensures uploadedMusic.None?
      ensures uploadedLogo == old(uploadedLogo) && alerts == old(alerts) && requests == old(requests) && status == old(status)
      ensures progressShown == old(progressShown) && progressFull == old(progressFull)
      ensures redirectPending == old(redirectPending) && navigation == old(navigation)
    {
      uploadedMusic := None;
    }

    /** resetAll: both slots are emptied and the status is cleared. */
    method ResetAll()
      modifies this
      ensures uploadedLogo.None? && uploadedMusic.None? && status == ""
      ensures alerts == old(alerts) && requests == old(requests)
      ensures progressShown == old(progressShown) && progressFull == old(progressFull)
      ensures redirectPending == old(redirectPending) && navigation == old(navigation)
    {
      RemoveLogo();
      RemoveMusic();
      status := "";
    }

    /** saveSettings: with both slots empty only an alert shows; otherwise the form of the
        filled slots is posted and the progress bar and status say so. */
    method SaveSettings()
      modifies this
      ensures old(uploadedLogo).None? && old(uploadedMusic).None? ==>
        alerts == old(alerts) + [NOTHING_TO_SAVE] && requests == old(requests) && status == old(status) &&
        progressShown == old(progressShown)
      ensures old(uploadedLogo).Some? || old(uploadedMusic).Some? ==>
        requests == old(requests) + [FormOf(old(uploadedLogo), old(uploadedMusic))] && alerts == old(alerts) &&
        status == SAVING_STATUS && progressShown
      ensures uploadedLogo == old(uploadedLogo) && uploadedMusic == old(uploadedMusic)
      ensures progressFull == old(progressFull) && redirectPending == old(redirectPending) && navigation == old(navigation)
    {
      if uploadedLogo.None? && uploadedMusic.None? {
        alerts := alerts + [NOTHING_TO_SAVE];
        return;
      }
      var form: Form := [];
      if uploadedLogo.Some? {
        form := form + [("logo", uploadedLogo.value)];
      }
      if uploadedMusic.Some? {
        form := form + [("music", uploadedMusic.value)];
      }
      assert form == FormOf(uploadedLogo, uploadedMusic);
      progressShown := true;
      status := SAVING_STATUS;
      requests := requests + [form];
    }

    /** The answer to a save arrives: the parsed JSON body, or None when the request or the
        parsing failed. A success fills the bar and schedules the redirect; a failure shows the
        server's message, or a fixed one; either way the bar is hidden at the end. */
    method SaveAnswered(body: Option<Payload>)
      modifies this
      ensures !progressShown
      ensures body.Some? && Truthy(Get(body.value, "success")) ==>
        status == SAVED_STATUS && progressFull && redirectPending && alerts == old(alerts)
      ensures body.Some? && !Truthy(Get(body.value, "success")) ==>
        status == FAILED_STATUS && alerts == old(alerts) + [JsString(Or(Get(body.value, "message"), Str(FAILED_STATUS)))] &&
        progressFull == old(progressFull) && redirectPending == old(redirectPending)
      ensures body.None? ==>
        status == UPLOAD_FAILED && alerts == old(alerts) + [UPLOAD_FAILED] &&
        progressFull == old(progressFull) && redirectPending == old(redirectPending)
      ensures uploadedLogo == old(uploadedLogo) && uploadedMusic == old(uploadedMusic) && requests == old(requests)
      ensures navigation == old(navigation)
    {
      if body.None? {
        status := UPLOAD_FAILED;
        alerts := alerts + [UPLOAD_FAILED];
      } else if Truthy(Get(body.value, "success")) {
        status := SAVED_STATUS;
        progressFull := true;
        redirectPending := true;
      } else {
        status := FAILED_STATUS;
        alerts := alerts + [JsString(Or(Get(body.value, "message"), Str(FAILED_STATUS)))];
      }
      progressShown := false;
    }

    /** The redirect timer of a successful save fires: the page goes home. */
    method RedirectFires()
      requires redirectPending
      modifies this
      ensures !redirectPending && navigation == Some("/")
      ensures uploadedLogo == old(uploadedLogo) && uploadedMusic == old(uploadedMusic) && alerts == old(alerts)
      ensures requests == old(requests) && status == old(status)
      ensures progressShown == old(progressShown) && progressFull == old(progressFull)
    {
      redirectPending := false;
      navigation := Some("/");
    }
  }
}
