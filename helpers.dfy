/** The server's small helpers (utils/helpers.py): the upload-name whitelists and
    the CSV file of player records. The CSV file is its existence flag and its rows
    of cells; the text quoting of the csv writer is left out. */
module Helpers {
  import opened Util
  import opened Config
  import opened Wire

  /** Whether c occurs in s. */
  predicate Contains(s: string, c: char)
  {
    exists i :: 0 <= i < |s| && s[i] == c
  }

  /** filename.rsplit('.', 1)[1] when the name holds a dot: the text after its last dot. */
  function AfterLastDot(s: string): (e: string)
    ensures |e| <= |s| && e == s[|s| - |e|..]
    ensures !Contains(e, '.')
    ensures Contains(s, '.') ==> |e| < |s| && s[|s| - |e| - 1] == '.'
    ensures !Contains(s, '.') ==> e == s
  {
    if s == [] then []
    else if s[|s| - 1] == '.' then []
    else
      var e := AfterLastDot(s[..|s| - 1]);
      assert Contains(s[..|s| - 1], '.') ==> Contains(s, '.');
      e + [s[|s| - 1]]
  }

  /** The lower-cased extension of a name, when it has one. */
  function Extension(filename: string): (r: Option<string>)
    ensures r.None? <==> !Contains(filename, '.')
  {
    if Contains(filename, '.') then Some(LowerAscii(AfterLastDot(filename))) else None
  }

  /** allowed_file: the name has a dot, and the text after its last dot, lower-cased, is one
      of the allowed extensions. */
  predicate AllowedFile(filename: string)
  {
    Extension(filename).Some? && Extension(filename).value in ALLOWED_EXTENSIONS
  }

  /** allowed_image: the same test against the image extensions. */
  predicate AllowedImage(filename: string)
  {
    Extension(filename).Some? && Extension(filename).value in ALLOWED_IMAGE_EXTENSIONS
  }

  /** Every allowed image is an allowed file, because the image extensions are among the
      allowed ones. */
  lemma ImageIsFile(filename: string)
    requires AllowedImage(filename)
    ensures AllowedFile(filename)
  {
  }

  /** A music extension is allowed as a file but not as an image. */
  lemma MusicIsNotImage(stem: string)
    ensures AllowedFile(stem + ".mp3") && !AllowedImage(stem + ".mp3")
  {
    assert stem + ".mp3" == stem + "." + "mp3";
    assert LowerAscii("mp3") == "mp3";
    ExtensionOfSuffix(stem, "mp3");
  }

  /** The extension of stem + "." + ext is ext lower-cased, whatever the stem, when ext holds
      no dot. */
  lemma ExtensionOfSuffix(stem: string, ext: string)
    requires !Contains(ext, '.')
    ensures Extension(stem + "." + ext) == Some(LowerAscii(ext))
  {
    var f := stem + "." + ext;
    assert f[|stem|] == '.';
    assert Contains(f, '.');
    var e := AfterLastDot(f);
    assert e == f[|f| - |e|..];
    assert e == ext;
  }

  /** The extension test ignores the case of the name's ASCII letters. */
  lemma {:induction false} AfterLastDotLower(s: string)
    ensures AfterLastDot(LowerAscii(s)) == LowerAscii(AfterLastDot(s))
  {
    if s != [] && s[|s| - 1] != '.' {
      assert LowerAscii(s)[..|s| - 1] == LowerAscii(s[..|s| - 1]);
      AfterLastDotLower(s[..|s| - 1]);
    }
  }

  lemma AllowedIgnoresCase(filename: string)
    ensures AllowedFile(LowerAscii(filename)) == AllowedFile(filename)
    ensures AllowedImage(LowerAscii(filename)) == AllowedImage(filename)
  {
    var l := LowerAscii(filename);
    assert Contains(l, '.') == Contains(filename, '.') by {
      if Contains(filename, '.') {
        var i :| 0 <= i < |filename| && filename[i] == '.';
        assert l[i] == '.';
      }
      if Contains(l, '.') {
        var i :| 0 <= i < |l| && l[i] == '.';
        assert filename[i] == '.';
      }
    }
    AfterLastDotLower(filename);
    LowerAsciiIdempotent(AfterLastDot(filename));
  }

  /** The text the csv writer puts in a cell: strings as they are, a missing key and None
      as the empty string, booleans as Python prints them. */
  function CellText(v: Value): string
  {
    match v
    case Str(s) => s
    case Bool(b) => if b then "True" else "False"
    case Null => ""
  }

  /** The header save_player_data writes into a new file. */
  const PLAYER_HEADER: seq<string> := ["Player1_Name", "Player1_Phone", "Player2_Name", "Player2_Phone"]

  /** The header save_data writes into a new file. */
  const LEGACY_HEADER: seq<string> := ["Player1_Name", "Player1_Phone", "Player2_Name", "Player2_Phone", "Skip", "Timestamp"]

  /** The row save_player_data writes for a record. */
  function PlayerRow(p: Payload): (row: seq<string>)
    ensures |row| == |PLAYER_HEADER|
    ensures row[0] == CellText(Get(p, "player1_name")) && row[1] == CellText(Get(p, "player1_phone"))
    ensures row[2] == CellText(Get(p, "player2_name")) && row[3] == CellText(Get(p, "player2_phone"))
  {
    [CellText(Get(p, "player1_name")), CellText(Get(p, "player1_phone")),
     CellText(Get(p, "player2_name")), CellText(Get(p, "player2_phone"))]
  }

  /** The row only depends on the four player fields: the skip flag, the timestamps and any
      other key of the record are not written. */
  lemma PlayerRowOnlyPlayers(p: Payload, key: string, v: Value)
    requires key !in {"player1_name", "player1_phone", "player2_name", "player2_phone"}
    ensures PlayerRow(p[key := v]) == PlayerRow(p)
  {
  }

  /** The row save_data writes: eight cells under the six-column header. */
  function LegacyRow(username: string, phone: string, timestamp: string): (row: seq<string>)
    ensures |row| == 8 && |row| == |LEGACY_HEADER| + 2
    ensures row[0] == username && row[1] == phone && row[7] == timestamp
    ensures forall i :: 2 <= i < 6 ==> row[i] == ""
    ensures row[6] == CellText(Bool(false))
  {
    [username, phone, "", "", "", "", "False", timestamp]
  }

  /** The CSV data file: whether it is on disk, and the rows it holds. */
  class DataFile {
    var present: bool
    var rows: seq<seq<string>>

    /** A file that does not exist has no rows. */
    ghost predicate Valid()
      reads this
    {
      !present ==> rows == []
    }

    constructor(present: bool, rows: seq<seq<string>>)
      requires !present ==> rows == []
      ensures Valid()
      ensures this.present == present && this.rows == rows
    {
      this.present := present;
      this.rows := rows;
    }

    /** Appends one row, headed by the header when the file did not exist before the call. */
    method Append(header: seq<string>, row: seq<string>)
      requires Valid()
      modifies this
      ensures Valid() && present
      ensures rows == old(rows) + (if old(present) then [] else [header]) + [row]
    {
      if !present {
        rows := rows + [header];
      }
      rows := rows + [row];
      present := true;
    }

    /** save_player_data: one four-cell row per call; the header goes first into a new file. */
    method SavePlayerData(p: Payload)
      requires Valid()
      modifies this
      ensures Valid() && present
      ensures rows == old(rows) + (if old(present) then [] else [PLAYER_HEADER]) + [PlayerRow(p)]
    {
      Append(PLAYER_HEADER, PlayerRow(p));
    }

    /** save_data, the legacy single-player record. */
    method SaveData(username: string, phone: string, timestamp: string)
      requires Valid()
      modifies this
      ensures Valid() && present
      ensures rows == old(rows) + (if old(present) then [] else [LEGACY_HEADER]) + [LegacyRow(username, phone, timestamp)]
    {
      Append(LEGACY_HEADER, LegacyRow(username, phone, timestamp));
    }
  }
}
