/** The example chat-bot hook: it reads a dialog turn from the service's
    event, asks in a fixed order for the meeting type, the meeting time and,
    for a room booking, the room, then confirms the booking; any exception
    becomes a failed Close turn. */
module LambdaLexExample {
  import opened Wrappers
  import opened Json
  import Strings
  import opened ClientLex

  const TypeSlot := "ESMLExampleMeetingType"
  const TimeSlot := "ESMLExampleMeetingTime"
  const RoomSlot := "ESMLExampleMeetingRoom"

  const TypeQuestion := "What type of meeting do you want to schedule?"
  const TimeQuestion := "When do you want to schedule your meeting?"
  const RoomQuestion := "Which Room do you want to book?"

  /** `validate_slots`: its only normalisation is commented out, so the
      slots come back unchanged. */
  function ValidateSlots(slots: Value): (r: Value)
    ensures r == slots
  {
    slots
  }

  /** `x is None` for the result of `dict.get`: the key is absent or bound
      to JSON null. */
  predicate IsNone(o: Option<Value>)
  {
    o.None? || o == Some(JNull)
  }

  /** `str(v)` for the scalar values a slot can hold; lists and dicts are
      written as `json.dumps` writes them. */
  function PyStr(v: Value): (t: string)
    ensures v.JStr? ==> t == v.s
    ensures v.JNull? ==> t == "None"
  {
    match v
    case JNull => "None"
    case JBool(b) => if b then "True" else "False"
    case JInt(n) => Strings.IntToString(n)
    case JStr(s) => s
    case _ => Dumps(v)
  }

  /** The first lines of `make_response`: the invocation source, which must
      be "DialogCodeHook", then the session attributes, the bot name, the
      intent name and the slots, read in that order. The first read that
      fails raises its exception; an event that holds all of them is read. */
  function ReadTurn(event: Value): (r: Result<LexResponse, PyError>)
    ensures r.Ok? ==> Index(event, "invocationSource") == Ok(JStr("DialogCodeHook"))
    ensures Index(event, "invocationSource").Ok? && Index(event, "invocationSource") != Ok(JStr("DialogCodeHook")) ==>
      r == Err(AssertionError)
    ensures Index(event, "invocationSource").Err? ==> r == Err(Index(event, "invocationSource").error)
    ensures r.Ok? ==> Ok(r.value.sessionAttribute) == Index(event, "sessionAttributes")
    ensures r.Ok? ==> Path(event, ["currentIntent", "name"]) == Some(r.value.intentName)
    ensures r.Ok? ==> Path(event, ["currentIntent", "slots"]) == Some(r.value.slots)
    ensures r.Ok? ==> Path(event, ["bot", "name"]).Some?
    ensures (&& Index(event, "invocationSource") == Ok(JStr("DialogCodeHook")) && Index(event, "sessionAttributes").Ok?
             && Path(event, ["bot", "name"]).Some? && Path(event, ["currentIntent", "name"]).Some?
             && Path(event, ["currentIntent", "slots"]).Some?) ==> r.Ok?
    ensures var session := Index(event, "sessionAttributes");
      var bot := Index(event, "bot");
      var intent := Index(event, "currentIntent");
      Index(event, "invocationSource") == Ok(JStr("DialogCodeHook")) ==>
        && (session.Err? ==> r == Err(session.error))
        && (session.Ok? && bot.Err? ==> r == Err(bot.error))
        && (session.Ok? && bot.Ok? && Index(bot.value, "name").Err? ==> r == Err(Index(bot.value, "name").error))
        && (session.Ok? && bot.Ok? && Index(bot.value, "name").Ok? && intent.Err? ==> r == Err(intent.error))
        && (session.Ok? && bot.Ok? && Index(bot.value, "name").Ok? && intent.Ok? && Index(intent.value, "name").Err? ==>
              r == Err(Index(intent.value, "name").error))
        && ((session.Ok? && bot.Ok? && Index(bot.value, "name").Ok? && intent.Ok? && Index(intent.value, "name").Ok?
             && Index(intent.value, "slots").Err?) ==> r == Err(Index(intent.value, "slots").error))
  {
    match Index(event, "invocationSource")
    case Err(e) => Err(e)
    case Ok(source) =>
      if source != JStr("DialogCodeHook") then Err(AssertionError)
      else match Index(event, "sessionAttributes")
        case Err(e) => Err(e)
        case Ok(session) =>
          match Index(event, "bot")
          case Err(e) => Err(e)
          case Ok(bot) =>
            match Index(bot, "name")
            case Err(e) => Err(e)
            case Ok(_) =>
              match Index(event, "currentIntent")
              case Err(e) => Err(e)
              case Ok(intent) =>
                match Index(intent, "name")
                case Err(e) => Err(e)
                case Ok(intentName) =>
                  match Index(intent, "slots")
                  case Err(e) => Err(e)
                  case Ok(slots) => Ok(LexResponse(session, intentName, ValidateSlots(slots)))
  }

  const TypeButtons := [CreateButton("WebEx Conference", "WebEx"), CreateButton("Book a Media Hub", "Room")]

  const RoomButtons := [CreateButton("Conference 2A", "2a"), CreateButton("Conference 2B", "2b"),
                        CreateButton("Conference 4A", "4a")]

  /** The guarded returns of `make_response` once the turn is read. */
  function Decide(lex: LexResponse): Result<Reply, PyError>
  {
    match DictGet(lex.slots, TypeSlot)
    case Err(e) => Err(e)
    case Ok(meetingType) =>
      if IsNone(meetingType) then
        ResponseElicitSlot(lex, TypeSlot, TypeQuestion, "PlainText",
                           [CreateGenericAttachment("", "", "", "", TypeButtons)])
      else match DictGet(lex.slots, TimeSlot)
        case Err(e) => Err(e)
        case Ok(time) =>
          if IsNone(time) then ResponseElicitSlot(lex, TimeSlot, TimeQuestion, "PlainText", [])
          // the slots are a dict here, so `get` on them cannot fail
          else if meetingType == Some(JStr("Room")) && IsNone(Lookup(lex.slots.members, RoomSlot)) then
            ResponseElicitSlot(lex, RoomSlot, RoomQuestion, "PlainText",
                               [CreateGenericAttachment("", "", "", "", RoomButtons)])
          else ResponseClose(lex, true, "Your " + PyStr(meetingType.value) + " has been booked on " + PyStr(time.value) + "!",
                             "PlainText", [])
  }

  /** An attachment whose only member is the given list of buttons. */
  predicate ButtonsOnly(a: Value, buttons: seq<Value>)
  {
    a.JObj? && Keys(a.members) == ["buttons"] && Lookup(a.members, "buttons") == Some(JArr(buttons))
  }

  lemma ButtonsAttachment(buttons: seq<Value>)
    requires |buttons| > 0
    ensures ButtonsOnly(CreateGenericAttachment("", "", "", "", buttons), buttons)
  {
    GenericAttachmentKeys("", "", "", "", buttons);
    GenericAttachmentValues("", "", "", "", buttons);
  }

  /** Slots that are not a dict have no `get`. */
  lemma SlotsNotADict(lex: LexResponse)
    requires !lex.slots.JObj?
    ensures Decide(lex) == Err(AttributeError)
  {
  }

  /** A missing meeting type is asked for first, whatever the other slots
      hold, with one attachment of two buttons; a slot map that does not
      declare the type slot fails the assertion in `response_elicit_slot`. */
  lemma AsksForTypeFirst(lex: LexResponse)
    requires lex.slots.JObj? && IsNone(Lookup(lex.slots.members, TypeSlot))
    ensures TypeSlot !in Keys(lex.slots.members) ==> Decide(lex) == Err(AssertionError)
    ensures TypeSlot in Keys(lex.slots.members) ==>
      var r := Decide(lex);
      && r.Ok? && r.value.dialogAction.ElicitSlot?
      && r.value.dialogAction.slotToElicit == TypeSlot
      && r.value.dialogAction.message == Message("PlainText", TypeQuestion)
      && r.value.dialogAction.card.Some? && |r.value.dialogAction.card.value.genericAttachments| == 1
      && ButtonsOnly(r.value.dialogAction.card.value.genericAttachments[0],
                     [CreateButton("WebEx Conference", "WebEx"), CreateButton("Book a Media Hub", "Room")])
  {
    ButtonsAttachment(TypeButtons);
  }

  /** With the type known, a missing time is asked for next, without a
      response card. */
  lemma AsksForTimeSecond(lex: LexResponse)
    requires lex.slots.JObj? && !IsNone(Lookup(lex.slots.members, TypeSlot)) && IsNone(Lookup(lex.slots.members, TimeSlot))
    ensures TimeSlot !in Keys(lex.slots.members) ==> Decide(lex) == Err(AssertionError)
    ensures TimeSlot in Keys(lex.slots.members) ==>
      var r := Decide(lex);
      && r.Ok? && r.value.dialogAction.ElicitSlot?
      && r.value.dialogAction.slotToElicit == TimeSlot
      && r.value.dialogAction.message == Message("PlainText", TimeQuestion)
      && r.value.dialogAction.card.None?
  {
  }

  /** For a room booking with a time, a missing room is asked for, with one
      attachment of three buttons. */
  lemma AsksForRoomLast(lex: LexResponse)
    requires lex.slots.JObj? && Lookup(lex.slots.members, TypeSlot) == Some(JStr("Room"))
    requires !IsNone(Lookup(lex.slots.members, TimeSlot)) && IsNone(Lookup(lex.slots.members, RoomSlot))
    ensures RoomSlot !in Keys(lex.slots.members) ==> Decide(lex) == Err(AssertionError)
    ensures RoomSlot in Keys(lex.slots.members) ==>
      var r := Decide(lex);
      && r.Ok? && r.value.dialogAction.ElicitSlot?
      && r.value.dialogAction.slotToElicit == RoomSlot
      && r.value.dialogAction.message == Message("PlainText", RoomQuestion)
      && r.value.dialogAction.card.Some? && |r.value.dialogAction.card.value.genericAttachments| == 1
      && ButtonsOnly(r.value.dialogAction.card.value.genericAttachments[0],
                     [CreateButton("Conference 2A", "2a"), CreateButton("Conference 2B", "2b"),
                      CreateButton("Conference 4A", "4a")])
  {
    ButtonsAttachment(RoomButtons);
    assert Lookup(lex.slots.members, TypeSlot) != None && Lookup(lex.slots.members, TypeSlot) != Some(JNull);
  }

  /** Otherwise the booking is confirmed: a fulfilled Close turn naming the
      type and the time. In particular the room is never asked for unless
      the type is "Room". */
  lemma BooksOtherwise(lex: LexResponse)
    requires lex.slots.JObj?
    requires !IsNone(Lookup(lex.slots.members, TypeSlot)) && !IsNone(Lookup(lex.slots.members, TimeSlot))
    requires Lookup(lex.slots.members, TypeSlot) != Some(JStr("Room")) || !IsNone(Lookup(lex.slots.members, RoomSlot))
    ensures var r := Decide(lex);
      && r.Ok? && r.value.sessionAttributes == lex.sessionAttribute
      && r.value.dialogAction == Close("Fulfilled", Message("PlainText",
           "Your " + PyStr(Lookup(lex.slots.members, TypeSlot).value) + " has been booked on "
           + PyStr(Lookup(lex.slots.members, TimeSlot).value) + "!"), None)
  {
  }

  /** `make_response`. */
  function MakeResponse(event: Value): (r: Result<Reply, PyError>)
    ensures r.Ok? ==> Index(event, "invocationSource") == Ok(JStr("DialogCodeHook"))
  {
    match ReadTurn(event)
    case Err(e) => Err(e)
    case Ok(lex) => Decide(lex)
  }

  /** `lambda_handler`: the reply of `make_response`, or, for any exception
      it raises, a failed Close turn with default session attributes, no
      response card and the exception's text in the message. */
  function LambdaHandler(event: Value): (r: Reply)
    ensures MakeResponse(event).Ok? ==> r == MakeResponse(event).value
    ensures MakeResponse(event).Err? ==>
      && r.sessionAttributes == JObj([])
      && r.dialogAction == Close("Failed", Message("PlainText", "Sorry! An error occur " + ErrorText(MakeResponse(event).error)), None)
  {
    match MakeResponse(event)
    case Ok(reply) => reply
    case Err(e) => ResponseClose(DefaultLexResponse, false, "Sorry! An error occur " + ErrorText(e), "PlainText", []).value
  }

  /** An invocation source other than "DialogCodeHook" fails the
      assertion, and the handler answers with the bare apology. */
  lemma OnlyDialogCodeHook(event: Value)
    requires Index(event, "invocationSource").Ok? && Index(event, "invocationSource") != Ok(JStr("DialogCodeHook"))
    ensures MakeResponse(event) == Err(AssertionError)
    ensures LambdaHandler(event).dialogAction == Close("Failed", Message("PlainText", "Sorry! An error occur "), None)
  {
  }

  /** An event without an invocation source raises a KeyError, whose text
      is the quoted key. */
  lemma MissingSourceReported(event: Value)
    requires event.JObj? && "invocationSource" !in Keys(event.members)
    ensures MakeResponse(event) == Err(KeyError("invocationSource"))
    ensures LambdaHandler(event).dialogAction ==
      Close("Failed", Message("PlainText", "Sorry! An error occur " + "'invocationSource'"), None)
  {
    assert ErrorText(KeyError("invocationSource")) == "'invocationSource'";
  }
}
