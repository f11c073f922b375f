/** The phone's registration page (static/javaScript/login.js): the form check, the
    game_start payload built from the form, and the restart button. The form is the
    raw text of its four inputs and the skip box; the custom alert is the message it
    shows, or None while it is hidden. */
module Login {
  import opened Util
  import opened Wire

  /** The raw text of one player's name and phone inputs. */
  datatype Entry = Entry(name: string, phone: string)

  datatype LoginForm = LoginForm(skip: bool, player1: Entry, player2: Entry)

  /** The inputs of player i, 1 or 2. */
  function EntryOf(form: LoginForm, i: nat): Entry
    requires i == 1 || i == 2
  {
    if i == 1 then form.player1 else form.player2
  }

  /** /^\d{10}$/: exactly ten ASCII digits. */
  predicate TenDigits(s: string)
  {
    |s| == 10 && forall i :: 0 <= i < |s| ==> '0' <= s[i] <= '9'
  }

  /** A player with both a name and a phone, once trimmed. */
  predicate Complete(e: Entry)
  {
    Trim(e.name) != "" && Trim(e.phone) != ""
  }

  /** A player whose trimmed phone is given but is not ten digits. */
  predicate BadPhone(e: Entry)
  {
    Trim(e.phone) != "" && !TenDigits(Trim(e.phone))
  }

  const MISSING_PLAYER_ALERT: string :=
    "Please enter at least one player with both name and phone number, or check 'Skip Login' to use default names"

  const PHONE_ALERT_PREFIX: string := "Player "
  const PHONE_ALERT_SUFFIX: string := " phone number must be 10 digits"

  /** The alert for player i's phone: "Player ", the index in decimal, and the ten-digit rule;
      the index reads back from the text. */
  function PhoneAlert(i: nat): (a: string)
    ensures var k := |NatToString(i)|;
      |a| == |PHONE_ALERT_PREFIX| + k + |PHONE_ALERT_SUFFIX| &&
      a[..|PHONE_ALERT_PREFIX|] == PHONE_ALERT_PREFIX &&
      a[|PHONE_ALERT_PREFIX|..|PHONE_ALERT_PREFIX| + k] == NatToString(i) &&
      a[|PHONE_ALERT_PREFIX| + k..] == PHONE_ALERT_SUFFIX
    ensures DigitsValue(a[|PHONE_ALERT_PREFIX|..|PHONE_ALERT_PREFIX| + |NatToString(i)|]) == i
  {
    NatToStringRoundTrip(i);
    var a := PHONE_ALERT_PREFIX + NatToString(i) + PHONE_ALERT_SUFFIX;
    var k := |NatToString(i)|;
    assert a[..|PHONE_ALERT_PREFIX|] == PHONE_ALERT_PREFIX;
    assert a[|PHONE_ALERT_PREFIX|..|PHONE_ALERT_PREFIX| + k] == NatToString(i);
    assert a[|PHONE_ALERT_PREFIX| + k..] == PHONE_ALERT_SUFFIX;
    a
  }

  /** The two players' phone alerts differ: the alert says whose phone is wrong. */
  lemma PhoneAlertInjective(i: nat, j: nat)
    requires PhoneAlert(i) == PhoneAlert(j)
    ensures i == j
  {
    var a := PhoneAlert(i);
    assert |NatToString(i)| == |NatToString(j)|;
  }

  /** The outcome of validateForm, stated without its loop: None when the form may be sent,
      otherwise the alert shown. A skipped login always passes; otherwise player 1's phone is
      checked before player 2's, and then some player must be complete. */
  function Verdict(form: LoginForm): Option<string>
  {
    if form.skip then None
    else if BadPhone(form.player1) then Some(PhoneAlert(1))
    else if BadPhone(form.player2) then Some(PhoneAlert(2))
    else if !Complete(form.player1) && !Complete(form.player2) then Some(MISSING_PLAYER_ALERT)
    else None
  }

  /** The form passes exactly when the login is skipped, or no phone is malformed and at least
      one player is complete. */
  lemma VerdictPasses(form: LoginForm)
    ensures Verdict(form).None? <==>
      form.skip || (!BadPhone(form.player1) && !BadPhone(form.player2) && (Complete(form.player1) || Complete(form.player2)))
  {
  }

  /** A malformed phone of player 1 is reported even when player 2 is complete, and the
      fields do not matter at all when the login is skipped. */
  lemma VerdictPhoneFirst(form: LoginForm)
    ensures !form.skip && BadPhone(form.player1) ==> Verdict(form) == Some(PhoneAlert(1))
    ensures form.skip ==> Verdict(form).None?
    ensures !form.skip && Verdict(form).None? ==> Complete(form.player1) || Complete(form.player2)
  {
  }

  /** A name given only as white space counts as empty. */
  lemma BlankNameIncomplete(e: Entry)
    requires forall i :: 0 <= i < |e.name| ==> IsSpace(e.name[i])
    ensures !Complete(e)
  {
  }

  /** formData.get(key)?.trim() || fallback. */
  function TrimOr(s: string, fallback: string): (r: string)
    ensures Trim(s) != "" ==> r == Trim(s)
    ensures Trim(s) == "" ==> r == fallback
  {
    if Trim(s) != "" then Trim(s) else fallback
  }

  /** The payload of a game start, from its five fields. */
  function StartPayload(name1: string, phone1: string, name2: string, phone2: string, skip: bool): Payload
  {
    map["player1_name" := Str(name1), "player2_name" := Str(name2),
        "player1_phone" := Str(phone1), "player2_phone" := Str(phone2), "skip" := Bool(skip)]
  }

  /** Each field of the payload reads back as given. */
  lemma StartPayloadFields(name1: string, phone1: string, name2: string, phone2: string, skip: bool)
    ensures var d := StartPayload(name1, phone1, name2, phone2, skip);
      Get(d, "player1_name") == Str(name1) && Get(d, "player1_phone") == Str(phone1) &&
      Get(d, "player2_name") == Str(name2) && Get(d, "player2_phone") == Str(phone2) &&
      Get(d, "skip") == Bool(skip)
  {
  }

  /** The game_start payload: trimmed names that default to "Player 1" and "Player 2",
      trimmed phones that default to "", and the skip flag. */
  function PlayerData(form: LoginForm): Payload
  {
    StartPayload(TrimOr(form.player1.name, "Player 1"), TrimOr(form.player1.phone, ""),
                 TrimOr(form.player2.name, "Player 2"), TrimOr(form.player2.phone, ""), form.skip)
  }

  /** The payload's text is already trimmed when its fallback is. */
  lemma TrimOrTrimmed(s: string, fallback: string)
    requires Trim(fallback) == fallback
    ensures Trim(TrimOr(s, fallback)) == TrimOr(s, fallback)
  {
    TrimIdempotent(s);
  }

  /** A name falls back to a non-empty default, and every field is trimmed. */
  lemma FieldsTrimmed(form: LoginForm)
    ensures TrimOr(form.player1.name, "Player 1") != "" && TrimOr(form.player2.name, "Player 2") != ""
    ensures Trim(TrimOr(form.player1.name, "Player 1")) == TrimOr(form.player1.name, "Player 1")
    ensures Trim(TrimOr(form.player2.name, "Player 2")) == TrimOr(form.player2.name, "Player 2")
    ensures Trim(TrimOr(form.player1.phone, "")) == TrimOr(form.player1.phone, "")
    ensures Trim(TrimOr(form.player2.phone, "")) == TrimOr(form.player2.phone, "")
  {
    TrimOfTrimmed("Player 1");
    TrimOfTrimmed("Player 2");
    TrimOfTrimmed("");
    TrimOrTrimmed(form.player1.name, "Player 1");
    TrimOrTrimmed(form.player2.name, "Player 2");
    TrimOrTrimmed(form.player1.phone, "");
    TrimOrTrimmed(form.player2.phone, "");
  }

  /** The names of the payload are never empty, and every text it carries is already trimmed,
      so the pages that trim it again see the same text. */
  lemma PlayerDataTrimmed(form: LoginForm)
    ensures var d := PlayerData(form);
      Get(d, "player1_name").Str? && Get(d, "player1_name").s != "" && Trim(Get(d, "player1_name").s) == Get(d, "player1_name").s &&
      Get(d, "player2_name").Str? && Get(d, "player2_name").s != "" && Trim(Get(d, "player2_name").s) == Get(d, "player2_name").s &&
      Get(d, "player1_phone").Str? && Trim(Get(d, "player1_phone").s) == Get(d, "player1_phone").s &&
      Get(d, "player2_phone").Str? && Trim(Get(d, "player2_phone").s) == Get(d, "player2_phone").s &&
      Get(d, "skip") == Bool(form.skip)
  {
    var n1, p1 := TrimOr(form.player1.name, "Player 1"), TrimOr(form.player1.phone, "");
    var n2, p2 := TrimOr(form.player2.name, "Player 2"), TrimOr(form.player2.phone, "");
    StartPayloadFields(n1, p1, n2, p2, form.skip);
    FieldsTrimmed(form);
  }

  const STARTED_ALERT: string := "Game started on laptop! You can register more players."
  const STARTED_STATUS: string := "Game started! Ready for next players..."
  const NO_SOCKET_ALERT: string := "Connection error. Please refresh the page."
  const RESTARTED_ALERT: string := "Game restarted! Laptop will return to intro page."
  const RESTARTED_STATUS: string := "Game restarted - ready for new players..."
  const READY_STATUS: string := "Ready to start game..."

  /** The game_restart payload of the phone. */
  function RestartPayload(timestamp: string): Payload
  {
    map["timestamp" := Str(timestamp), "source" := Str("mobile_login")]
  }

  class LoginPage {
    /** Whether the socket client defined the global socket. */
    const socketDefined: bool
    /** Whether the page has a status element. */
    const hasStatusElement: bool
    /** Whether the submit listener was installed. */
    var formListening: bool
    var alert: Option<string>
    var status: string
    /** Every event the page sent, in order. */
    var outbox: seq<Event>

    constructor(socketDefined: bool, hasStatusElement: bool)
      ensures this.socketDefined == socketDefined && this.hasStatusElement == hasStatusElement
      ensures !formListening && alert.None? && status == "" && outbox == []
    {
      this.socketDefined := socketDefined;
      this.hasStatusElement := hasStatusElement;
      formListening := false;
      alert := None;
      status := "";
      outbox := [];
    }

    /** The load timer: the submit listener goes in only when the socket exists. */
    method OnLoaded()
      modifies this
      ensures formListening == (old(formListening) || socketDefined)
      ensures alert == old(alert) && status == old(status) && outbox == old(outbox)
    {
      if socketDefined {
        formListening := true;
      }
    }

    method ShowCustomAlert(message: string)
      modifies this
      ensures alert == Some(message)
      ensures formListening == old(formListening) && status == old(status) && outbox == old(outbox)
    {
      alert := Some(message);
    }

    method CloseCustomAlert()
      modifies this
      ensures alert.None?
      ensures formListening == old(formListening) && status == old(status) && outbox == old(outbox)
    {
      alert := None;
    }

    /** updateStatusMessage: written only when the page has the element. */
    method UpdateStatusMessage(message: string)
      modifies this
      ensures status == if hasStatusElement then message else old(status)
      ensures formListening == old(formListening) && alert == old(alert) && outbox == old(outbox)
    {
      if hasStatusElement {
        status := message;
      }
    }

    /** validateForm: the players are looked at in order; a complete player is remembered,
        and a malformed phone stops validation with its alert. */
    method ValidateForm(form: LoginForm) returns (ok: bool)
      modifies this
      ensures ok <==> Verdict(form).None?
      ensures alert == if ok then old(alert) else Verdict(form)
      ensures formListening == old(formListening) && status == old(status) && outbox == old(outbox)
    {
      if form.skip {
        return true;
      }
      var hasValidPlayer := false;
      var i := 1;
      while i <= 2
        invariant 1 <= i <= 3
        invariant hasValidPlayer <==> (i > 1 && Complete(form.player1)) || (i > 2 && Complete(form.player2))
        invariant i > 1 ==> !BadPhone(form.player1)
        invariant i > 2 ==> !BadPhone(form.player2)
        invariant alert == old(alert) && formListening == old(formListening) && status == old(status) && outbox == old(outbox)
      {
        var name := Trim(EntryOf(form, i).name);
        var phone := Trim(EntryOf(form, i).phone);
        if name != "" && phone != "" {
          hasValidPlayer := true;
        }
        if phone != "" && !TenDigits(phone) {
          ShowCustomAlert(PhoneAlert(i));
          return false;
        }
        i := i + 1;
      }
      if !hasValidPlayer {
        ShowCustomAlert(MISSING_PLAYER_ALERT);
        return false;
      }
      return true;
    }

    /** The submit listener: a form that passes validation is sent as game_start, and the page
        says so; a failing form only shows its alert. Without the listener nothing is sent. */
    method Submit(form: LoginForm)
      modifies this
      ensures formListening == old(formListening)
      ensures old(formListening) && Verdict(form).None? ==>
        outbox == old(outbox) + [Event("game_start", PlayerData(form))] && alert == Some(STARTED_ALERT) &&
        status == (if hasStatusElement then STARTED_STATUS else old(status))
      ensures old(formListening) && Verdict(form).Some? ==>
        outbox == old(outbox) && alert == Verdict(form) && status == old(status)
      ensures !old(formListening) ==> outbox == old(outbox) && alert == old(alert) && status == old(status)
    {
      if !formListening {
        return;
      }
      var ok := ValidateForm(form);
      if !ok {
        return;
      }
      outbox := outbox + [Event("game_start", PlayerData(form))];
      ShowCustomAlert(STARTED_ALERT);
      UpdateStatusMessage(STARTED_STATUS);
    }

    /** restartGame: without a socket only the connection alert shows; otherwise game_restart
        goes out from the phone, and the page says so. */
    method RestartGame(timestamp: string)
      modifies this
      ensures formListening == old(formListening)
      ensures !socketDefined ==> outbox == old(outbox) && alert == Some(NO_SOCKET_ALERT) && status == old(status)
      ensures socketDefined ==>
        outbox == old(outbox) + [Event("game_restart", RestartPayload(timestamp))] && alert == Some(RESTARTED_ALERT) &&
        status == (if hasStatusElement then RESTARTED_STATUS else old(status))
    {
      if !socketDefined {
        ShowCustomAlert(NO_SOCKET_ALERT);
        return;
      }
      outbox := outbox + [Event("game_restart", RestartPayload(timestamp))];
      ShowCustomAlert(RESTARTED_ALERT);
      UpdateStatusMessage(RESTARTED_STATUS);
    }

    /** resetForm: the inputs are cleared and the status says the page is ready. */
    method ResetForm()
      modifies this
      ensures status == if hasStatusElement then READY_STATUS else old(status)
      ensures formListening == old(formListening) && alert == old(alert) && outbox == old(outbox)
    {
      UpdateStatusMessage(READY_STATUS);
    }
  }
}
