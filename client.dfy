/** The laptop's browser side of the relay (static/javaScript/socketClient.js and
    static/javaScript/intro.js): the game_start handler that turns the phone's payload into
    the game page's query string, the game_restart handler that flushes the stored record,
    and the intro page's name defaults and fallback redirect. A page is its pathname, the
    sessionStorage entry 'playerData', the events it emitted, the last URL it was sent to,
    window.playerNames and the fallback timers it scheduled. */
module Client {
  import opened Util
  import opened Wire
  import opened Login

  /** data.key.trim() throws when the field is truthy but not a string: true has no trim. */
  predicate TrimThrows(v: Value)
  {
    v == Bool(true)
  }

  /** Whether one of the four text fields makes the game_start handler throw. */
  predicate QueryThrows(data: Payload)
  {
    TrimThrows(Get(data, "player1_name")) || TrimThrows(Get(data, "player2_name")) ||
    TrimThrows(Get(data, "player1_phone")) || TrimThrows(Get(data, "player2_phone"))
  }

  /** The text a field contributes: its trimmed text, when that is not empty. This is also
      what URLSearchParams.get reads back for it from the game query. */
  function ReadBack(v: Value): (t: Option<string>)
    ensures t.Some? <==> v.Str? && Trim(v.s) != ""
    ensures t.Some? ==> t.value == Trim(v.s)
  {
    if v.Str? && Trim(v.s) != "" then Some(Trim(v.s)) else None
  }

  /** The parameter an optional text makes: none, or one under key. */
  function Param(key: string, t: Option<string>): (q: seq<(string, string)>)
    ensures |q| <= 1 && (q != [] <==> t.Some?)
  {
    if t.Some? then [(key, t.value)] else []
  }

  /** The parameter one text field contributes. */
  function FieldParam(key: string, v: Value): seq<(string, string)>
  {
    Param(key, ReadBack(v))
  }

  /** skip=true when the payload's skip flag is truthy. */
  function SkipParam(data: Payload): (q: seq<(string, string)>)
    ensures q == [] || q == [("skip", "true")]
    ensures q != [] <==> Truthy(Get(data, "skip"))
  {
    Param("skip", if Truthy(Get(data, "skip")) then Some("true") else None)
  }

  /** The query of the game page the game_start handler sends the laptop to. */
  function GameQuery(data: Payload): seq<(string, string)>
  {
    FieldParam("player1_name", Get(data, "player1_name")) + FieldParam("player2_name", Get(data, "player2_name")) +
    FieldParam("player1_phone", Get(data, "player1_phone")) + FieldParam("player2_phone", Get(data, "player2_phone")) +
    SkipParam(data)
  }

  /** The five parameter names differ from each other. */
  lemma KeysDistinct()
    ensures "player1_name" != "player2_name" && "player1_phone" != "player2_phone"
    ensures "player1_name" != "player1_phone" && "player1_name" != "player2_phone" && "player1_name" != "skip"
    ensures "player2_name" != "player1_phone" && "player2_name" != "player2_phone" && "player2_name" != "skip"
    ensures "player1_phone" != "skip" && "player2_phone" != "skip"
  {
    assert "player1_name"[6] != "player2_name"[6];
    assert "player1_phone"[6] != "player2_phone"[6];
    assert |"player1_name"| == |"player2_name"| == 12 && |"player1_phone"| == |"player2_phone"| == 13 && |"skip"| == 4;
  }

  /** Looking a name up in a query that starts with an optional parameter: the parameter's own
      name finds it when it is there; any other name, or an absent parameter, passes on to the
      rest. */
  lemma ParamThenRest(key: string, t: Option<string>, rest: seq<(string, string)>, other: string)
    ensures t.Some? ==> QueryGet(Param(key, t) + rest, key) == t
    ensures other != key || t.None? ==> QueryGet(Param(key, t) + rest, other) == QueryGet(rest, other)
  {
    if t.Some? {
      QueryGetFirstWins(Param(key, t), rest, key);
    }
    if other != key || t.None? {
      QueryGetSkipsAbsent(Param(key, t), rest, other);
    }
  }

  /** The query of a list of optional parameters, appended in order. */
  function Params(fields: seq<(string, Option<string>)>): seq<(string, string)>
  {
    if fields == [] then [] else Params(fields[..|fields| - 1]) + Param(fields[|fields| - 1].0, fields[|fields| - 1].1)
  }

  /** A name none of the fields carries is absent from their query. */
  lemma {:induction false} ParamsAbsent(fields: seq<(string, Option<string>)>, key: string)
    requires forall j :: 0 <= j < |fields| ==> fields[j].0 != key
    ensures QueryGet(Params(fields), key).None?
  {
    if fields != [] {
      var front, last := fields[..|fields| - 1], fields[|fields| - 1];
      ParamsAbsent(front, key);
      QueryGetSkipsAbsent(Params(front), Param(last.0, last.1), key);
    }
  }

  /** In a query of fields under different names, every field reads back as it was given. */
  lemma {:induction false} ParamsGet(fields: seq<(string, Option<string>)>, i: nat)
    requires i < |fields|
    requires forall j :: 0 <= j < |fields| && j != i ==> fields[j].0 != fields[i].0
    ensures QueryGet(Params(fields), fields[i].0) == fields[i].1
  {
    var front, last := fields[..|fields| - 1], fields[|fields| - 1];
    var key := fields[i].0;
    if i == |fields| - 1 {
      ParamsAbsent(front, key);
      QueryGetSkipsAbsent(Params(front), Param(last.0, last.1), key);
    } else {
      ParamsGet(front, i);
      if fields[i].1.Some? {
        QueryGetFirstWins(Params(front), Param(last.0, last.1), key);
      } else {
        QueryGetSkipsAbsent(Params(front), Param(last.0, last.1), key);
      }
    }
  }

  /** The query of five fields is their five parameters appended in order. */
  lemma ParamsOfFive(k1: string, t1: Option<string>, k2: string, t2: Option<string>, k3: string, t3: Option<string>,
                     k4: string, t4: Option<string>, k5: string, t5: Option<string>)
    ensures Params([(k1, t1), (k2, t2), (k3, t3), (k4, t4), (k5, t5)]) ==
      Param(k1, t1) + Param(k2, t2) + Param(k3, t3) + Param(k4, t4) + Param(k5, t5)
  {
    var fields := [(k1, t1), (k2, t2), (k3, t3), (k4, t4), (k5, t5)];
    assert Params(fields[..1]) == Param(k1, t1) by {
      assert fields[..1][..0] == [];
      assert [] + Param(k1, t1) == Param(k1, t1);
    }
    assert Params(fields[..2]) == Param(k1, t1) + Param(k2, t2) by {
      assert fields[..2][..1] == fields[..1];
    }
    assert Params(fields[..3]) == Param(k1, t1) + Param(k2, t2) + Param(k3, t3) by {
      assert fields[..3][..2] == fields[..2];
    }
    assert Params(fields[..4]) == Param(k1, t1) + Param(k2, t2) + Param(k3, t3) + Param(k4, t4) by {
      assert fields[..4][..3] == fields[..3];
    }
    assert fields[..4] == fields[..|fields| - 1];
  }

  /** Five fields under five different names each read back from their query. */
  lemma FiveFieldsGet(k1: string, t1: Option<string>, k2: string, t2: Option<string>, k3: string, t3: Option<string>,
                      k4: string, t4: Option<string>, k5: string, t5: Option<string>)
    requires k1 != k2 && k1 != k3 && k1 != k4 && k1 != k5 && k2 != k3 && k2 != k4 && k2 != k5
    requires k3 != k4 && k3 != k5 && k4 != k5
    ensures var q := Params([(k1, t1), (k2, t2), (k3, t3), (k4, t4), (k5, t5)]);
      QueryGet(q, k1) == t1 && QueryGet(q, k2) == t2 && QueryGet(q, k3) == t3 &&
      QueryGet(q, k4) == t4 && QueryGet(q, k5) == t5
  {
    var fields := [(k1, t1), (k2, t2), (k3, t3), (k4, t4), (k5, t5)];
    assert fields[0].0 == k1 && fields[1].0 == k2 && fields[2].0 == k3 && fields[3].0 == k4 && fields[4].0 == k5;
    ParamsGet(fields, 0);
    ParamsGet(fields, 1);
    ParamsGet(fields, 2);
    ParamsGet(fields, 3);
    ParamsGet(fields, 4);
  }

  /** A query of five optional parameters under five different names gives each of them back. */
  lemma ParamsReadBack(k1: string, t1: Option<string>, k2: string, t2: Option<string>, k3: string, t3: Option<string>,
                       k4: string, t4: Option<string>, k5: string, t5: Option<string>)
    requires k1 != k2 && k1 != k3 && k1 != k4 && k1 != k5 && k2 != k3 && k2 != k4 && k2 != k5
    requires k3 != k4 && k3 != k5 && k4 != k5
    ensures var q := Param(k1, t1) + Param(k2, t2) + Param(k3, t3) + Param(k4, t4) + Param(k5, t5);
      QueryGet(q, k1) == t1 && QueryGet(q, k2) == t2 && QueryGet(q, k3) == t3 &&
      QueryGet(q, k4) == t4 && QueryGet(q, k5) == t5
  {
    ParamsOfFive(k1, t1, k2, t2, k3, t3, k4, t4, k5, t5);
    FiveFieldsGet(k1, t1, k2, t2, k3, t3, k4, t4, k5, t5);
  }

  /** Each text field of the payload reads back from the game query as its trimmed text when
      that is not empty and is absent otherwise; skip reads back as "true" exactly when the
      payload's flag is truthy. */
  lemma GameQueryReadsBack(data: Payload)
    ensures var q := GameQuery(data);
      QueryGet(q, "player1_name") == ReadBack(Get(data, "player1_name")) &&
      QueryGet(q, "player2_name") == ReadBack(Get(data, "player2_name")) &&
      QueryGet(q, "player1_phone") == ReadBack(Get(data, "player1_phone")) &&
      QueryGet(q, "player2_phone") == ReadBack(Get(data, "player2_phone")) &&
      QueryGet(q, "skip") == if Truthy(Get(data, "skip")) then Some("true") else None
  {
    KeysDistinct();
    ParamsReadBack("player1_name", ReadBack(Get(data, "player1_name")), "player2_name", ReadBack(Get(data, "player2_name")),
                   "player1_phone", ReadBack(Get(data, "player1_phone")), "player2_phone", ReadBack(Get(data, "player2_phone")),
                   "skip", if Truthy(Get(data, "skip")) then Some("true") else None);
  }

  /** The payload the phone's registration page sends never makes the handler throw. */
  lemma LoginNeverThrows(form: LoginForm)
    ensures !QueryThrows(PlayerData(form))
  {
    var n1, p1 := TrimOr(form.player1.name, "Player 1"), TrimOr(form.player1.phone, "");
    var n2, p2 := TrimOr(form.player2.name, "Player 2"), TrimOr(form.player2.phone, "");
    StartPayloadFields(n1, p1, n2, p2, form.skip);
  }

  /** Both names of the registration page always reach the game page, with the skip flag as
      it was ticked. */
  lemma LoginNamesQuery(form: LoginForm)
    ensures var q := GameQuery(PlayerData(form));
      QueryGet(q, "player1_name") == Some(TrimOr(form.player1.name, "Player 1")) &&
      QueryGet(q, "player2_name") == Some(TrimOr(form.player2.name, "Player 2")) &&
      QueryGet(q, "skip") == (if form.skip then Some("true") else None)
  {
    var n1, p1 := TrimOr(form.player1.name, "Player 1"), TrimOr(form.player1.phone, "");
    var n2, p2 := TrimOr(form.player2.name, "Player 2"), TrimOr(form.player2.phone, "");
    StartPayloadFields(n1, p1, n2, p2, form.skip);
    NameReadsBack(form.player1.name, "Player 1");
    NameReadsBack(form.player2.name, "Player 2");
    GameQueryReadsBack(PlayerData(form));
  }

  /** A phone reaches the game page, trimmed, exactly when it was given. */
  lemma LoginPhonesQuery(form: LoginForm)
    ensures var q := GameQuery(PlayerData(form));
      QueryGet(q, "player1_phone") == (if Trim(form.player1.phone) != "" then Some(Trim(form.player1.phone)) else None) &&
      QueryGet(q, "player2_phone") == (if Trim(form.player2.phone) != "" then Some(Trim(form.player2.phone)) else None)
  {
    var n1, p1 := TrimOr(form.player1.name, "Player 1"), TrimOr(form.player1.phone, "");
    var n2, p2 := TrimOr(form.player2.name, "Player 2"), TrimOr(form.player2.phone, "");
    StartPayloadFields(n1, p1, n2, p2, form.skip);
    PhoneReadsBack(form.player1.phone);
    PhoneReadsBack(form.player2.phone);
    GameQueryReadsBack(PlayerData(form));
  }

  /** A name of the registration page reaches the game page as it was sent. */
  lemma NameReadsBack(name: string, fallback: string)
    requires fallback == "Player 1" || fallback == "Player 2"
    ensures ReadBack(Str(TrimOr(name, fallback))) == Some(TrimOr(name, fallback))
  {
    TrimOfTrimmed(fallback);
    TrimOrTrimmed(name, fallback);
  }

  /** A phone of the registration page reaches the game page when it was given. */
  lemma PhoneReadsBack(phone: string)
    ensures ReadBack(Str(TrimOr(phone, ""))) == if Trim(phone) != "" then Some(Trim(phone)) else None
  {
    TrimOfTrimmed("");
    TrimOrTrimmed(phone, "");
  }

  /** The names startGameWithPlayers puts in window.playerNames. */
  function IntroNames(data: Payload): (names: seq<Value>)
    ensures |names| == 2 && Truthy(names[0]) && Truthy(names[1])
    ensures Truthy(Get(data, "player1_name")) ==> names[0] == Get(data, "player1_name")
    ensures !Truthy(Get(data, "player1_name")) ==> names[0] == Str("Player 1")
    ensures Truthy(Get(data, "player2_name")) ==> names[1] == Get(data, "player2_name")
    ensures !Truthy(Get(data, "player2_name")) ==> names[1] == Str("Player 2")
  {
    [Or(Get(data, "player1_name"), Str("Player 1")), Or(Get(data, "player2_name"), Str("Player 2"))]
  }

  /** The query of the fallback redirect: both names with their defaults, as text, and skip
      when it is truthy; never the phones. */
  function FallbackQuery(data: Payload): (q: seq<(string, string)>)
    ensures |q| >= 2 && q[0].0 == "player1_name" && q[1].0 == "player2_name"
  {
    var names := IntroNames(data);
    [("player1_name", JsString(names[0])), ("player2_name", JsString(names[1]))] + SkipParam(data)
  }

  /** The fallback always names both players and never carries a phone. */
  lemma FallbackQueryReadsBack(data: Payload)
    ensures var q := FallbackQuery(data);
      QueryGet(q, "player1_name") == Some(JsString(IntroNames(data)[0])) &&
      QueryGet(q, "player2_name") == Some(JsString(IntroNames(data)[1])) &&
      QueryGet(q, "player1_phone").None? && QueryGet(q, "player2_phone").None? &&
      QueryGet(q, "skip") == if Truthy(Get(data, "skip")) then Some("true") else None
  {
    var names := IntroNames(data);
    var t1, t2 := Some(JsString(names[0])), Some(JsString(names[1]));
    var sk: Option<string> := if Truthy(Get(data, "skip")) then Some("true") else None;
    assert FallbackQuery(data) ==
      Param("player1_name", t1) + Param("player2_name", t2) + Param("player1_phone", None) +
      Param("player2_phone", None) + Param("skip", sk);
    KeysDistinct();
    ParamsReadBack("player1_name", t1, "player2_name", t2, "player1_phone", None, "player2_phone", None, "skip", sk);
  }

  /** For a payload of the registration page, the fallback sends the same names and the same
      skip flag as the game_start redirect. */
  lemma FallbackAgreesOnLogin(form: LoginForm)
    ensures var d := PlayerData(form);
      QueryGet(FallbackQuery(d), "player1_name") == QueryGet(GameQuery(d), "player1_name") &&
      QueryGet(FallbackQuery(d), "player2_name") == QueryGet(GameQuery(d), "player2_name") &&
      QueryGet(FallbackQuery(d), "skip") == QueryGet(GameQuery(d), "skip")
  {
    var n1, p1 := TrimOr(form.player1.name, "Player 1"), TrimOr(form.player1.phone, "");
    var n2, p2 := TrimOr(form.player2.name, "Player 2"), TrimOr(form.player2.phone, "");
    StartPayloadFields(n1, p1, n2, p2, form.skip);
    FieldsTrimmed(form);
    LoginNamesQuery(form);
    FallbackQueryReadsBack(PlayerData(form));
  }

  const INTRO_PATH: string := "/"
  const GAME_PATH: string := "/game"

  /** One browser page that loaded socketClient.js. */
  class Page {
    /** window.location.pathname. */
    const path: string
    /** sessionStorage 'playerData', parsed; JSON.stringify and JSON.parse are inverse on
        these payloads. */
    var storage: Option<Payload>
    /** Every event the page emitted, in order. */
    var outbox: seq<Event>
    /** The last URL assigned to window.location.href. */
    var navigation: Option<Url>
    /** window.playerNames, empty until intro.js sets it. */
    var playerNames: seq<Value>
    /** The payloads of the fallback timers scheduled and not yet fired, oldest first. */
    var fallbacks: seq<Payload>
    /** Whether intro.js registered its own game_start listener. */
    var introListening: bool

    constructor(path: string, storage: Option<Payload>)
      ensures this.path == path && this.storage == storage
      ensures outbox == [] && navigation.None? && playerNames == [] && fallbacks == [] && !introListening
    {
      this.path := path;
      this.storage := storage;
      outbox := [];
      navigation := None;
      playerNames := [];
      fallbacks := [];
      introListening := false;
    }

    /** socketClient's game_start listener. Only the intro page reacts: the payload is stored
        and the page is sent to the game with the query built from it. A field `true` where
        text is expected throws before anything is written. */
    method GameStartReceived(data: Payload) returns (thrown: bool)
      modifies this
      ensures thrown <==> path == INTRO_PATH && QueryThrows(data)
      ensures path == INTRO_PATH && !thrown ==>
        storage == Some(data) && navigation == Some(Url(GAME_PATH, GameQuery(data)))
      ensures path != INTRO_PATH || thrown ==> storage == old(storage) && navigation == old(navigation)
      ensures outbox == old(outbox) && playerNames == old(playerNames) && fallbacks == old(fallbacks)
      ensures introListening == old(introListening)
    {
      if path != INTRO_PATH {
        return false;
      }
      var v := Get(data, "player1_name");
      if TrimThrows(v) {
        return true;
      }
      var params := FieldParam("player1_name", v);
      v := Get(data, "player2_name");
      if TrimThrows(v) {
        return true;
      }
      params := params + FieldParam("player2_name", v);
      v := Get(data, "player1_phone");
      if TrimThrows(v) {
        return true;
      }
      params := params + FieldParam("player1_phone", v);
      v := Get(data, "player2_phone");
      if TrimThrows(v) {
        return true;
      }
      params := params + FieldParam("player2_phone", v);
      params := params + SkipParam(data);
      storage := Some(data);
      navigation := Some(Url(GAME_PATH, params));
      return false;
    }

    /** socketClient's game_restart listener: a stored record is sent back to be saved with the
        restart time added, the record is dropped, and the game and intro pages go back to the
        intro page. */
    method GameRestartReceived(now: string)
      modifies this
      ensures storage.None?
      ensures old(storage).Some? ==>
        outbox == old(outbox) + [Event("save_player_data", old(storage).value["restart_timestamp" := Str(now)])]
      ensures old(storage).None? ==> outbox == old(outbox)
      ensures navigation == if path == GAME_PATH || path == INTRO_PATH then Some(Url(INTRO_PATH, [])) else old(navigation)
      ensures playerNames == old(playerNames) && fallbacks == old(fallbacks) && introListening == old(introListening)
    {
      if storage.Some? {
        var record := storage.value["restart_timestamp" := Str(now)];
        outbox := outbox + [Event("save_player_data", record)];
      }
      storage := None;
      if path == GAME_PATH || path == INTRO_PATH {
        navigation := Some(Url(INTRO_PATH, []));
      }
    }

    /** startGameWithPlayers: the names with their defaults, and one more fallback timer. */
    method StartGameWithPlayers(data: Payload)
      modifies this
      ensures playerNames == IntroNames(data) && fallbacks == old(fallbacks) + [data]
      ensures storage == old(storage) && outbox == old(outbox) && navigation == old(navigation)
      ensures introListening == old(introListening)
    {
      playerNames := [Or(Get(data, "player1_name"), Str("Player 1")), Or(Get(data, "player2_name"), Str("Player 2"))];
      fallbacks := fallbacks + [data];
    }

    /** The intro page's load listener: a record left in storage starts the game again at
        once, and the page then listens for game_start itself. */
    method IntroLoaded()
      modifies this
      ensures introListening
      ensures old(storage).Some? ==> playerNames == IntroNames(old(storage).value) && fallbacks == old(fallbacks) + [old(storage).value]
      ensures old(storage).None? ==> playerNames == old(playerNames) && fallbacks == old(fallbacks)
      ensures storage == old(storage) && outbox == old(outbox) && navigation == old(navigation)
    {
      if storage.Some? {
        StartGameWithPlayers(storage.value);
      }
      introListening := true;
    }

    /** A game_start event: socketClient's listener runs first; intro's listener, when it is
        installed, runs next unless the first threw. */
    method GameStartEvent(data: Payload)
      modifies this
      ensures var thrown := path == INTRO_PATH && QueryThrows(data);
        (introListening && !thrown ==> playerNames == IntroNames(data) && fallbacks == old(fallbacks) + [data]) &&
        (!introListening || thrown ==> playerNames == old(playerNames) && fallbacks == old(fallbacks))
      ensures path == INTRO_PATH && !QueryThrows(data) ==>
        storage == Some(data) && navigation == Some(Url(GAME_PATH, GameQuery(data)))
      ensures path != INTRO_PATH || QueryThrows(data) ==> storage == old(storage) && navigation == old(navigation)
      ensures outbox == old(outbox) && introListening == old(introListening)
    {
      var thrown := GameStartReceived(data);
      if !thrown && introListening {
        StartGameWithPlayers(data);
      }
    }

    /** The oldest fallback timer fires: a page still on the intro path goes to the game with
        the fallback query. */
    method FallbackFires()
      requires fallbacks != []
      modifies this
      ensures fallbacks == old(fallbacks)[1..]
      ensures navigation == if path == INTRO_PATH then Some(Url(GAME_PATH, FallbackQuery(old(fallbacks)[0]))) else old(navigation)
      ensures storage == old(storage) && outbox == old(outbox) && playerNames == old(playerNames)
      ensures introListening == old(introListening)
    {
      var data := fallbacks[0];
      fallbacks := fallbacks[1..];
      if path == INTRO_PATH {
        var names := IntroNames(data);
        var params := [("player1_name", JsString(names[0])), ("player2_name", JsString(names[1]))];
        params := params + SkipParam(data);
        navigation := Some(Url(GAME_PATH, params));
      }
    }
  }
}
