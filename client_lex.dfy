/** The builder of replies to the chat-bot service: buttons, generic
    attachments, and the Close and ElicitSlot dialog actions with their
    response cards. */
module ClientLex {
  import opened Wrappers
  import opened Json

  /** The session attributes, intent name and slots a reply echoes; the
      defaults are an empty dict, the empty name and an empty dict. */
  datatype LexResponse = LexResponse(sessionAttribute: Value, intentName: Value, slots: Value)

  const DefaultLexResponse := LexResponse(JObj([]), JStr(""), JObj([]))

  /** The content types a message may have. */
  const SupportedContentTypes: seq<string> := ["PlainText", "SSML", "CustomPayload"]

  const GenericCardType := "application/vnd.amazonaws.card.generic"

  /** `create_button`. */
  function CreateButton(text: string, value: string): (b: Value)
    ensures b.JObj? && Keys(b.members) == ["text", "value"]
    ensures Lookup(b.members, "text") == Some(JStr(text)) && Lookup(b.members, "value") == Some(JStr(value))
  {
    var b := JObj([("text", JStr(text)), ("value", JStr(value))]);
    LookupDistinct(b.members, 0);
    b
  }

  /** `d[key] = value` when the condition holds, on a dict that lacks `key`. */
  function AddIf(members: seq<(string, Value)>, cond: bool, key: string, value: Value): seq<(string, Value)>
  {
    if cond then members + [(key, value)] else members
  }

  /** The one-key list when the condition holds, else the empty list. */
  function KeyIf(cond: bool, key: string): seq<string>
  {
    if cond then [key] else []
  }

  /** After the conditional insertion the keys gain `key` at the end. */
  lemma AddIfKeys(members: seq<(string, Value)>, cond: bool, key: string, value: Value)
    ensures Keys(AddIf(members, cond, key, value)) == Keys(members) + KeyIf(cond, key)
  {
    if cond {
      assert (members + [(key, value)])[..|members|] == members;
    }
  }

  /** After the conditional insertion the new key reads back its value and
      every other key reads as before. */
  lemma AddIfLookup(members: seq<(string, Value)>, cond: bool, key: string, value: Value, k: string)
    ensures Lookup(AddIf(members, cond, key, value), k) == if cond && k == key then Some(value) else Lookup(members, k)
  {
    if cond {
      assert (members + [(key, value)])[..|members|] == members;
    }
  }

  /** Five conditional insertions in a row, starting from the empty dict. */
  function AddIf5(c1: bool, k1: string, v1: Value, c2: bool, k2: string, v2: Value, c3: bool, k3: string, v3: Value,
                  c4: bool, k4: string, v4: Value, c5: bool, k5: string, v5: Value): seq<(string, Value)>
  {
    AddIf(AddIf(AddIf(AddIf(AddIf([], c1, k1, v1), c2, k2, v2), c3, k3, v3), c4, k4, v4), c5, k5, v5)
  }

  /** The keys of five insertions are the inserted keys, in order. */
  lemma AddIf5Keys(c1: bool, k1: string, v1: Value, c2: bool, k2: string, v2: Value, c3: bool, k3: string, v3: Value,
                   c4: bool, k4: string, v4: Value, c5: bool, k5: string, v5: Value)
    ensures Keys(AddIf5(c1, k1, v1, c2, k2, v2, c3, k3, v3, c4, k4, v4, c5, k5, v5)) ==
      KeyIf(c1, k1) + KeyIf(c2, k2) + KeyIf(c3, k3) + KeyIf(c4, k4) + KeyIf(c5, k5)
  {
    var m1 := AddIf([], c1, k1, v1);
    var m2 := AddIf(m1, c2, k2, v2);
    var m3 := AddIf(m2, c3, k3, v3);
    var m4 := AddIf(m3, c4, k4, v4);
    AddIfKeys([], c1, k1, v1);
    assert Keys([]) + KeyIf(c1, k1) == KeyIf(c1, k1);
    AddIfKeys(m1, c2, k2, v2);
    AddIfKeys(m2, c3, k3, v3);
    AddIfKeys(m3, c4, k4, v4);
    AddIfKeys(m4, c5, k5, v5);
  }

  /** Of five conditional insertions, an inserted key that no later
      insertion repeats reads back its value. */
  lemma AddIf5Lookup(c1: bool, k1: string, v1: Value, c2: bool, k2: string, v2: Value, c3: bool, k3: string, v3: Value,
                     c4: bool, k4: string, v4: Value, c5: bool, k5: string, v5: Value)
    ensures var m := AddIf5(c1, k1, v1, c2, k2, v2, c3, k3, v3, c4, k4, v4, c5, k5, v5);
      && (c1 && k1 != k2 && k1 != k3 && k1 != k4 && k1 != k5 ==> Lookup(m, k1) == Some(v1))
      && (c2 && k2 != k3 && k2 != k4 && k2 != k5 ==> Lookup(m, k2) == Some(v2))
      && (c3 && k3 != k4 && k3 != k5 ==> Lookup(m, k3) == Some(v3))
      && (c4 && k4 != k5 ==> Lookup(m, k4) == Some(v4))
      && (c5 ==> Lookup(m, k5) == Some(v5))
  {
    var m1 := AddIf([], c1, k1, v1);
    var m2 := AddIf(m1, c2, k2, v2);
    var m3 := AddIf(m2, c3, k3, v3);
    var m4 := AddIf(m3, c4, k4, v4);
    AddIfLookup([], c1, k1, v1, k1);
    AddIfLookup(m1, c2, k2, v2, k1);
    AddIfLookup(m2, c3, k3, v3, k1);
    AddIfLookup(m3, c4, k4, v4, k1);
    AddIfLookup(m4, c5, k5, v5, k1);
    AddIfLookup(m1, c2, k2, v2, k2);
    AddIfLookup(m2, c3, k3, v3, k2);
    AddIfLookup(m3, c4, k4, v4, k2);
    AddIfLookup(m4, c5, k5, v5, k2);
    AddIfLookup(m2, c3, k3, v3, k3);
    AddIfLookup(m3, c4, k4, v4, k3);
    AddIfLookup(m4, c5, k5, v5, k3);
    AddIfLookup(m3, c4, k4, v4, k4);
    AddIfLookup(m4, c5, k5, v5, k4);
    AddIfLookup(m4, c5, k5, v5, k5);
  }

  /** `create_generic_attachment`: starting from the empty dict, each field
      is added, in this order, only when its argument is truthy. A missing
      argument (None) and an empty one are both falsy, so both are written
      as the empty string or list. */
  function CreateGenericAttachment(title: string, subTitle: string, imageUrl: string, attachmentLinkUrl: string,
                                   buttons: seq<Value>): (a: Value)
  {
    JObj(AddIf5(title != "", "title", JStr(title), subTitle != "", "subTitle", JStr(subTitle),
                imageUrl != "", "imageUrl", JStr(imageUrl), attachmentLinkUrl != "", "attachmentLinkUrl",
                JStr(attachmentLinkUrl), |buttons| > 0, "buttons", JArr(buttons)))
  }

  /** The attachment has a key exactly for each truthy argument, in the
      order of the arguments. */
  lemma GenericAttachmentKeys(title: string, subTitle: string, imageUrl: string, attachmentLinkUrl: string,
                              buttons: seq<Value>)
    ensures var a := CreateGenericAttachment(title, subTitle, imageUrl, attachmentLinkUrl, buttons);
      && a.JObj?
      && Keys(a.members) ==
           KeyIf(title != "", "title") + KeyIf(subTitle != "", "subTitle") + KeyIf(imageUrl != "", "imageUrl")
           + KeyIf(attachmentLinkUrl != "", "attachmentLinkUrl") + KeyIf(|buttons| > 0, "buttons")
  {
    AddIf5Keys(title != "", "title", JStr(title), subTitle != "", "subTitle", JStr(subTitle),
               imageUrl != "", "imageUrl", JStr(imageUrl), attachmentLinkUrl != "", "attachmentLinkUrl",
               JStr(attachmentLinkUrl), |buttons| > 0, "buttons", JArr(buttons));
  }

  /** Each truthy argument is stored under its key as given. */
  lemma GenericAttachmentValues(title: string, subTitle: string, imageUrl: string, attachmentLinkUrl: string,
                                buttons: seq<Value>)
    ensures var a := CreateGenericAttachment(title, subTitle, imageUrl, attachmentLinkUrl, buttons);
      && a.JObj?
      && (title != "" ==> Lookup(a.members, "title") == Some(JStr(title)))
      && (subTitle != "" ==> Lookup(a.members, "subTitle") == Some(JStr(subTitle)))
      && (imageUrl != "" ==> Lookup(a.members, "imageUrl") == Some(JStr(imageUrl)))
      && (attachmentLinkUrl != "" ==> Lookup(a.members, "attachmentLinkUrl") == Some(JStr(attachmentLinkUrl)))
      && (|buttons| > 0 ==> Lookup(a.members, "buttons") == Some(JArr(buttons)))
  {
    assert && "title" != "subTitle" && "title" != "imageUrl" && "title" != "attachmentLinkUrl" && "title" != "buttons"
           && "subTitle" != "imageUrl" && "subTitle" != "attachmentLinkUrl" && "subTitle" != "buttons"
           && "imageUrl" != "attachmentLinkUrl" && "imageUrl" != "buttons" && "attachmentLinkUrl" != "buttons";
    AddIf5Lookup(title != "", "title", JStr(title), subTitle != "", "subTitle", JStr(subTitle),
                 imageUrl != "", "imageUrl", JStr(imageUrl), attachmentLinkUrl != "", "attachmentLinkUrl",
                 JStr(attachmentLinkUrl), |buttons| > 0, "buttons", JArr(buttons));
  }

  /** With every argument falsy the attachment is the empty dict. */
  lemma GenericAttachmentEmpty()
    ensures CreateGenericAttachment("", "", "", "", []) == JObj([])
  {
  }

  /** `make_options`: an attachment whose only possible key is "buttons",
      present exactly when there are buttons. */
  function MakeOptions(buttons: seq<Value>): (a: Value)
    ensures a.JObj?
    ensures forall k :: k in Keys(a.members) <==> k == "buttons" && |buttons| > 0
    ensures |buttons| > 0 ==> Lookup(a.members, "buttons") == Some(JArr(buttons))
  {
    GenericAttachmentKeys("", "", "", "", buttons);
    GenericAttachmentValues("", "", "", "", buttons);
    CreateGenericAttachment("", "", "", "", buttons)
  }

  datatype Message = Message(contentType: string, content: string)

  datatype ResponseCard = ResponseCard(version: int, contentType: string, genericAttachments: seq<Value>)

  datatype DialogAction =
    | Close(fulfillmentState: string, message: Message, card: Option<ResponseCard>)
    | ElicitSlot(message: Message, intentName: Value, slots: Value, slotToElicit: string, card: Option<ResponseCard>)

  /** A reply: the session attributes and the dialog action. */
  datatype Reply = Reply(sessionAttributes: Value, dialogAction: DialogAction)

  /** The response card added when the attachment list is truthy. */
  function CardFor(genericAttachments: seq<Value>): (c: Option<ResponseCard>)
    ensures c.Some? <==> |genericAttachments| > 0
    ensures c.Some? ==> c.value == ResponseCard(1, GenericCardType, genericAttachments)
  {
    if |genericAttachments| > 0 then Some(ResponseCard(1, GenericCardType, genericAttachments)) else None
  }

  /** `response_close`; a missing attachment list is written as the empty list. */
  function ResponseClose(lex: LexResponse, success: bool, messageContent: string, contentType: string,
                         genericAttachments: seq<Value>): (r: Result<Reply, PyError>)
    ensures r.Err? <==> contentType !in SupportedContentTypes
    ensures r.Err? ==> r.error == AssertionError
    ensures r.Ok? ==> r.value.sessionAttributes == lex.sessionAttribute && r.value.dialogAction.Close?
    ensures r.Ok? ==> r.value.dialogAction.fulfillmentState == (if success then "Fulfilled" else "Failed")
    ensures r.Ok? ==> r.value.dialogAction.message == Message(contentType, messageContent)
    ensures r.Ok? ==> (r.value.dialogAction.card.Some? <==> |genericAttachments| > 0)
    ensures r.Ok? && |genericAttachments| > 0 ==>
      r.value.dialogAction.card == Some(ResponseCard(1, GenericCardType, genericAttachments))
  {
    if contentType !in SupportedContentTypes then Err(AssertionError)
    else Ok(Reply(lex.sessionAttribute,
                  Close(if success then "Fulfilled" else "Failed", Message(contentType, messageContent), CardFor(genericAttachments))))
  }

  /** `response_elicit_slot`: the content type is checked first, then that
      the slot is one of the declared slots; slots that are not a dict have
      no `keys`. */
  function ResponseElicitSlot(lex: LexResponse, slotToElicit: string, messageContent: string, contentType: string,
                              genericAttachments: seq<Value>): (r: Result<Reply, PyError>)
    ensures r.Ok? <==> contentType in SupportedContentTypes && lex.slots.JObj? && slotToElicit in Keys(lex.slots.members)
    ensures contentType !in SupportedContentTypes ==> r == Err(AssertionError)
    ensures contentType in SupportedContentTypes && !lex.slots.JObj? ==> r == Err(AttributeError)
    ensures contentType in SupportedContentTypes && lex.slots.JObj? && slotToElicit !in Keys(lex.slots.members) ==>
      r == Err(AssertionError)
    ensures r.Ok? ==> r.value.sessionAttributes == lex.sessionAttribute && r.value.dialogAction.ElicitSlot?
    ensures r.Ok? ==> r.value.dialogAction.message == Message(contentType, messageContent)
    ensures r.Ok? ==> r.value.dialogAction.intentName == lex.intentName && r.value.dialogAction.slots == lex.slots
    ensures r.Ok? ==> r.value.dialogAction.slotToElicit == slotToElicit
    ensures r.Ok? ==> (r.value.dialogAction.card.Some? <==> |genericAttachments| > 0)
    ensures r.Ok? && |genericAttachments| > 0 ==>
      r.value.dialogAction.card == Some(ResponseCard(1, GenericCardType, genericAttachments))
  {
    if contentType !in SupportedContentTypes then Err(AssertionError)
    else if !lex.slots.JObj? then Err(AttributeError)
    else if slotToElicit !in Keys(lex.slots.members) then Err(AssertionError)
    else Ok(Reply(lex.sessionAttribute,
                  ElicitSlot(Message(contentType, messageContent), lex.intentName, lex.slots, slotToElicit,
                             CardFor(genericAttachments))))
  }

  function MessageJson(m: Message): Value
  {
    JObj([("contentType", JStr(m.contentType)), ("content", JStr(m.content))])
  }

  function CardMembers(card: Option<ResponseCard>): seq<(string, Value)>
  {
    match card
    case None => []
    case Some(c) => [("responseCard", JObj([
      ("version", JInt(c.version)),
      ("contentType", JStr(c.contentType)),
      ("genericAttachments", JArr(c.genericAttachments))]))]
  }

  /** The dialog action as a dict: its fixed members, then the response
      card when there is one. */
  function DialogFixed(a: DialogAction): seq<(string, Value)>
  {
    match a
    case Close(state, message, _) =>
      [("type", JStr("Close")), ("fulfillmentState", JStr(state)), ("message", MessageJson(message))]
    case ElicitSlot(message, intentName, slots, slot, _) =>
      [("type", JStr("ElicitSlot")), ("message", MessageJson(message)), ("intentName", intentName),
       ("slots", slots), ("slotToElicit", JStr(slot))]
  }

  /** The reply as the dict returned to the service, the response card
      inserted last into the dialog action. */
  function ReplyJson(r: Reply): Value
  {
    JObj([
      ("sessionAttributes", r.sessionAttributes),
      ("dialogAction", JObj(DialogFixed(r.dialogAction) + CardMembers(r.dialogAction.card)))])
  }

  /** The card member, when there is one, is read under "responseCard" and
      leaves every other key as it was. */
  lemma CardLookup(fixed: seq<(string, Value)>, card: Option<ResponseCard>, k: string)
    ensures Lookup(fixed + CardMembers(card), k) ==
      if k == "responseCard" && card.Some? then Some(CardMembers(card)[0].1) else Lookup(fixed, k)
  {
    if card.Some? {
      assert fixed + CardMembers(card) == AddIf(fixed, true, "responseCard", CardMembers(card)[0].1);
      AddIfLookup(fixed, true, "responseCard", CardMembers(card)[0].1, k);
    } else {
      assert fixed + CardMembers(card) == fixed;
    }
  }

  /** The fixed members name the action's type and do not hold a card. */
  lemma DialogFixedKeys(a: DialogAction)
    ensures Lookup(DialogFixed(a), "type") == Some(JStr(if a.Close? then "Close" else "ElicitSlot"))
    ensures "responseCard" !in Keys(DialogFixed(a))
  {
    var fixed := DialogFixed(a);
    assert DistinctKeys(fixed);
    LookupDistinct(fixed, 0);
  }

  /** The dict names the dialog action's type, and holds a response card
      exactly when the reply has one. */
  lemma ReplyJsonShape(r: Reply)
    ensures Path(ReplyJson(r), ["sessionAttributes"]) == Some(r.sessionAttributes)
    ensures Path(ReplyJson(r), ["dialogAction", "type"]) == Some(JStr(if r.dialogAction.Close? then "Close" else "ElicitSlot"))
    ensures Path(ReplyJson(r), ["dialogAction", "responseCard"]).Some? <==> r.dialogAction.card.Some?
  {
    var top := ReplyJson(r).members;
    LookupDistinct(top, 0);
    LookupDistinct(top, 1);
    PathOne(ReplyJson(r), "sessionAttributes");
    PathTwo(ReplyJson(r), "dialogAction", "type");
    PathTwo(ReplyJson(r), "dialogAction", "responseCard");
    DialogFixedKeys(r.dialogAction);
    CardLookup(DialogFixed(r.dialogAction), r.dialogAction.card, "type");
    CardLookup(DialogFixed(r.dialogAction), r.dialogAction.card, "responseCard");
  }
}
