/** The Facebook adapter: bot content is a Messenger message whose attachment
    may be a button template or a generic template, optionally followed by a
    data packet. */
module FaceBookChat {
  import opened Wrappers
  import opened JsText
  import opened DataPacket
  import opened Turns

  /** The error thrown for an unknown speaker, and the text of an unhandled attachment. */
  const Unhandled: string := "Unhandled"

  /** One button of `buttonCreate`: a titled or texted link, or a bare title. */
  function ButtonLine(b: FbButton): string
  {
    if Truthy(b.title) && Truthy(b.url) then "\n[[" + b.title.value + "]]" + "\n" + b.url.value + ">>"
    else if Truthy(b.text) && Truthy(b.url) then "\n[[" + b.text.value + "]]" + "\n" + b.url.value + ">>"
    else "\n[[" + Show(b.title) + "]]"
  }

  /** Every button's lines, in order. */
  function ButtonsText(bs: seq<FbButton>): string
  {
    Accumulate(bs, ButtonLine)
  }

  /** `buttonCreate(buttons)`: `.map` on a missing list throws. */
  function ButtonCreateText(buttons: Option<seq<FbButton>>): Result<string>
  {
    if buttons.None? then Err(TypeError) else Ok(ButtonsText(buttons.value))
  }

  /** One element of `genericTemplete`: title, then subtitle and image (or the
      image alone), then its buttons and a newline. */
  function ElementText(e: Element): Result<string>
  {
    Prefixed(ElementHead(e), Concat(ButtonCreateText(e.buttons), Ok("\n")))
  }

  /** The lines of an element before its buttons. */
  function ElementHead(e: Element): string
  {
    if Truthy(e.subtitle) then "\n" + Show(e.title) + "\n" + e.subtitle.value + "\n" + Show(e.imageUrl)
    else if Truthy(e.imageUrl) then "\n" + Show(e.title) + "\n" + e.imageUrl.value
    else "\n" + Show(e.title)
  }

  /** Every element's text, in order; the first one that throws is the outcome. */
  function ElementsText(es: seq<Element>): Result<string>
  {
    if es == [] then Ok("") else Concat(ElementsText(es[..|es| - 1]), ElementText(es[|es| - 1]))
  }

  /** `genericTemplete`: `.map` on missing elements throws. */
  function GenericTempleteText(elements: Option<seq<Element>>): Result<string>
  {
    if elements.None? then Err(TypeError) else ElementsText(elements.value)
  }

  /** `buttonTemplete`: a title (no leading newline) or else a text line, then the
      buttons; neither gives "". */
  function ButtonTempleteText(p: TemplatePayload): Result<string>
  {
    if Truthy(p.title) then Prefixed(p.title.value + "\n", ButtonCreateText(p.buttons))
    else if Truthy(p.text) then Prefixed("\n" + p.text.value, ButtonCreateText(p.buttons))
    else Ok("")
  }

  /** A string result seen as a possibly-undefined value. */
  function Defined(r: Result<string>): Result<Field>
  {
    if r.Err? then Err(r.error) else Ok(Some(r.value))
  }

  /** `handleTemplete`: a switch with no default, so any other template type
      returns `undefined`; a missing payload throws. */
  function HandleTemplete(payload: Option<TemplatePayload>): Result<Field>
  {
    if payload.None? then Err(TypeError)
    else if payload.value.templateType == Some("button") then Defined(ButtonTempleteText(payload.value))
    else if payload.value.templateType == Some("generic") then Defined(GenericTempleteText(payload.value.elements))
    else Ok(None)
  }

  /** `handleTypeAttachment`: templates are rendered (an `undefined` result is
      appended as the text "undefined"); any other type gives "Unhandled". */
  function HandleTypeAttachment(a: Attachment): Result<string>
  {
    if a.kind == Some("template") then
      var t := HandleTemplete(a.payload);
      if t.Err? then Err(t.error) else Ok(Show(t.value))
    else Ok(Unhandled)
  }

  /** The message has an attachment with a truthy `type`. */
  predicate HasTypedAttachment(d: Payload)
  {
    d.Obj? && d.attachment.Some? && Truthy(d.attachment.value.kind)
  }

  /** `handleBotMsg`: the attachment then the data packet; the attachment alone;
      or else the text on its own line. Reading `attachment` of `undefined` or
      `null` throws. */
  function HandleBotMsg(d: Payload): Result<string>
  {
    if !Present(d) then Err(TypeError)
    else if HasTypedAttachment(d) then
      if d.dataPacket.Some? then Concat(HandleTypeAttachment(d.attachment.value), RenderBot(d.dataPacket.value))
      else HandleTypeAttachment(d.attachment.value)
    else Ok("\n" + Show(DataText(d)) + "\n")
  }

  /** `handleMessageObject`; the AGENT header has no space before the
      parenthesis, and a `null` entry has no `from` to read. */
  function HandleMessageObject(t: Turn): Result<string>
  {
    match t
    case NullTurn => Err(TypeError)
    case Turn(from, data, agentDetails) =>
      match from
      case USER => Concat(Prefixed("\nUSER" + Underline, TextLine(data)), Ok("\n"))
      case BOT => Concat(Prefixed("\nBOT" + Underline, HandleBotMsg(data)), Ok("\n"))
      case AGENT =>
        if agentDetails.None? then Err(TypeError)
        else Concat(Prefixed("\nAGENT(" + Show(agentDetails.value) + ")" + Underline, TextLine(data)), Ok("\n"))
      case Null => Err(Unhandled)
      case Unlisted => Err(Unhandled)
  }

  /** The loop of `buttonCreate`. */
  method ButtonCreate(buttonData: Option<seq<FbButton>>) returns (r: Result<string>)
    ensures r == ButtonCreateText(buttonData)
  {
    if buttonData.None? {
      return Err(TypeError);
    }
    var bs := buttonData.value;
    var buttonStr := "";
    var i := 0;
    while i < |bs|
      invariant 0 <= i <= |bs|
      invariant buttonStr == ButtonsText(bs[..i])
    {
      assert bs[..i + 1][..i] == bs[..i];
      var b := bs[i];
      var line: string;
      if Truthy(b.title) && Truthy(b.url) {
        line := "\n[[" + b.title.value + "]]";
        line := line + "\n" + b.url.value + ">>";
      } else if Truthy(b.text) && Truthy(b.url) {
        line := "\n[[" + b.text.value + "]]";
        line := line + "\n" + b.url.value + ">>";
      } else {
        line := "\n[[" + Show(b.title) + "]]";
      }
      assert line == ButtonLine(b);
      buttonStr := buttonStr + line;
      i := i + 1;
    }
    assert bs[..i] == bs;
    r := Ok(buttonStr);
  }

  /** Once a prefix of the elements has thrown, the whole template is that throw. */
  lemma {:induction false} ElementsStopAtErr(es: seq<Element>, i: nat)
    requires i <= |es|
    requires ElementsText(es[..i]).Err?
    ensures ElementsText(es) == ElementsText(es[..i])
    decreases |es|
  {
    if i < |es| {
      var init := es[..|es| - 1];
      assert init[..i] == es[..i];
      ElementsStopAtErr(init, i);
    } else {
      assert es[..i] == es;
    }
  }

  /** The lines `genericTemplete` writes for an element before its buttons. */
  method ElementLines(e: Element) returns (line: string)
    ensures line == ElementHead(e)
  {
    line := "\n" + Show(e.title);
    if Truthy(e.subtitle) {
      line := line + "\n" + e.subtitle.value;
      line := line + "\n" + Show(e.imageUrl);
    } else if Truthy(e.imageUrl) {
      line := line + "\n" + e.imageUrl.value;
    }
  }

  /** The loop of `genericTemplete`. */
  method GenericTemplete(elements: Option<seq<Element>>) returns (r: Result<string>)
    ensures r == GenericTempleteText(elements)
  {
    if elements.None? {
      return Err(TypeError);
    }
    var es := elements.value;
    var genericStr := "";
    var i := 0;
    while i < |es|
      invariant 0 <= i <= |es|
      invariant ElementsText(es[..i]) == Ok(genericStr)
    {
      assert es[..i + 1][..i] == es[..i];
      var e := es[i];
      var line := ElementLines(e);
      var buttons := ButtonCreate(e.buttons);
      if buttons.Err? {
        ElementsStopAtErr(es, i + 1);
        return buttons;
      }
      assert ElementText(e) == Ok(line + (buttons.value + "\n"));
      genericStr := genericStr + (line + (buttons.value + "\n"));
      i := i + 1;
    }
    assert es[..i] == es;
    r := Ok(genericStr);
  }

  // ---------------------------------------------------------------------------
  // Properties
  // ---------------------------------------------------------------------------

  /** Every button contributes a line that opens with "\n[[". */
  lemma ButtonLineOpens(b: FbButton)
    ensures "\n[[" <= ButtonLine(b)
  {
  }

  /** An attachment type other than 'template' prints "Unhandled"; a template of
      another kind prints "undefined"; a template without a payload throws. */
  lemma AttachmentFallbacks(a: Attachment)
    ensures a.kind != Some("template") ==> HandleTypeAttachment(a) == Ok("Unhandled")
    ensures a.kind == Some("template") && a.payload.None? ==> HandleTypeAttachment(a).Err?
    ensures a.kind == Some("template") && a.payload.Some?
            && a.payload.value.templateType != Some("button")
            && a.payload.value.templateType != Some("generic")
            ==> HandleTypeAttachment(a) == Ok("undefined")
  {
  }

  /** A button template with a title starts with that title, without a leading
      newline; with only a text it starts with a newline and the text. */
  lemma ButtonTempleteOpening(p: TemplatePayload)
    requires p.buttons.Some?
    ensures Truthy(p.title) ==> ButtonTempleteText(p) == Ok(p.title.value + "\n" + ButtonsText(p.buttons.value))
    ensures !Truthy(p.title) && Truthy(p.text)
            ==> ButtonTempleteText(p) == Ok("\n" + p.text.value + ButtonsText(p.buttons.value))
    ensures !Truthy(p.title) && !Truthy(p.text) ==> ButtonTempleteText(p) == Ok("")
  {
  }

  /** The attachment's rendering comes first and the data packet's second. */
  lemma AttachmentBeforePacket(d: Payload)
    requires HasTypedAttachment(d) && d.dataPacket.Some?
    requires HandleTypeAttachment(d.attachment.value).Ok? && RenderBot(d.dataPacket.value).Ok?
    ensures HandleBotMsg(d) == Ok(HandleTypeAttachment(d.attachment.value).value + RenderBot(d.dataPacket.value).value)
  {
  }

  /** Without a typed attachment the data packet is ignored: the bot message is
      its text on its own line, whatever packet it carries. */
  lemma PacketIgnoredWithoutAttachment(d: Payload, p: Option<Node>)
    requires d.Obj? && !HasTypedAttachment(d)
    ensures HandleBotMsg(d.(dataPacket := p)) == HandleBotMsg(d) == Ok("\n" + Show(d.text) + "\n")
  {
  }

  /** The first turn with another speaker ends the transcript with "Unhandled". */
  lemma UnknownSpeakerAborts(ts: seq<Turn>, k: nat)
    requires k < |ts| && ts[k].Turn? && (ts[k].from == Null || ts[k].from == Unlisted)
    requires forall i | 0 <= i < k :: HandleMessageObject(ts[i]).Ok?
    ensures Transcript(ts, HandleMessageObject) == Err(Unhandled)
  {
    FirstThrowAborts(ts, k, HandleMessageObject);
  }

  /** A `null` entry throws, and so does every USER, BOT and AGENT turn whose
      `data` is `undefined` or `null`. */
  lemma AbsentDataThrows(d: Payload, agent: Option<Field>)
    requires !Present(d)
    ensures HandleMessageObject(NullTurn) == Err(TypeError)
    ensures HandleMessageObject(Turn(USER, d, agent)) == Err(TypeError)
    ensures HandleMessageObject(Turn(BOT, d, agent)) == Err(TypeError)
    ensures HandleMessageObject(Turn(AGENT, d, agent)) == Err(TypeError)
  {
  }
}
