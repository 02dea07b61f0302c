/** The web-chat adapter: bot content is a data packet, printed by the renderer;
    a turn whose speaker is `null` prints its data as text under a BOT header. */
module WebChat {
  import opened Wrappers
  import opened JsText
  import opened DataPacket
  import opened Turns
  import WhatsAppChat

  /** The error thrown for an unknown speaker. */
  const FromNotDefined: string := "from not defined"

  /** `handleDataPacket.handleBot(data)`: a string has no `type`, so it prints
      on its own line; reading `type` of `undefined` or `null` throws. */
  function BotData(d: Payload): Result<string>
  {
    match d
    case Plain(s) => Ok("\n" + s)
    case Obj(_, packet, _, _, _, _) => RenderBot(packet)
    case _ => Err(TypeError)
  }

  /** `handleMessageObject`: a `null` entry has no `from` to read. */
  function HandleMessageObject(t: Turn): Result<string>
  {
    match t
    case NullTurn => Err(TypeError)
    case Turn(from, data, agentDetails) =>
      match from
      case USER => Concat(Prefixed("\nUSER" + Underline, TextLine(data)), Ok("\n"))
      case BOT => Concat(Prefixed("\nBOT" + Underline, BotData(data)), Ok("\n"))
      case AGENT =>
        if agentDetails.None? then Err(TypeError)
        else Concat(Prefixed("\nAGENT (" + Show(agentDetails.value) + ")" + Underline, TextLine(data)), Ok("\n"))
      case Null => Ok("\nBOT" + Underline + "\n" + DataString(data) + "\n" + "\n")
      case Unlisted => Err(FromNotDefined)
  }

  /** No data packet of any bot turn contains a node that throws. */
  predicate PacketsCrashFree(ts: seq<Turn>)
  {
    forall i | 0 <= i < |ts| :: ts[i].Turn? && ts[i].from == BOT && ts[i].data.Obj? ==> CrashFree(ts[i].data.packet)
  }

  /** A turn the adapter prints once its bot content cannot throw: an entry with
      a known speaker, `data` to read unless the speaker is `null`, and an
      AGENT's details. */
  predicate Printable(t: Turn)
  {
    t.Turn? && t.from != Unlisted
    && (t.from != Null ==> Present(t.data))
    && (t.from == AGENT ==> t.agentDetails.Some?)
  }

  /** When the bot content cannot throw, a web transcript is produced exactly when
      every turn is printable. */
  lemma TranscriptOkExactly(ts: seq<Turn>)
    requires PacketsCrashFree(ts)
    ensures Transcript(ts, HandleMessageObject).Ok? <==> forall i | 0 <= i < |ts| :: Printable(ts[i])
  {
    TranscriptOkIff(ts, HandleMessageObject);
    forall i | 0 <= i < |ts|
      ensures HandleMessageObject(ts[i]).Ok? <==> Printable(ts[i])
    {
      TurnOk(ts[i]);
    }
  }

  /** One turn whose bot content cannot throw prints exactly when it is printable. */
  lemma TurnOk(t: Turn)
    requires t.Turn? && t.from == BOT && t.data.Obj? ==> CrashFree(t.data.packet)
    ensures HandleMessageObject(t).Ok? <==> Printable(t)
  {
    if t.Turn? && t.from == BOT && t.data.Obj? {
      CrashFreeRenders(t.data.packet);
    }
  }

  /** A `null` entry throws, and so do USER, BOT and AGENT turns whose `data` is
      `undefined` or `null`; a `null` speaker prints such data as the text
      "undefined" or "null". */
  lemma AbsentDataRenderings(d: Payload, agent: Option<Field>)
    requires !Present(d)
    ensures HandleMessageObject(NullTurn) == Err(TypeError)
    ensures HandleMessageObject(Turn(USER, d, agent)) == Err(TypeError)
    ensures HandleMessageObject(Turn(BOT, d, agent)) == Err(TypeError)
    ensures HandleMessageObject(Turn(AGENT, d, agent)) == Err(TypeError)
    ensures HandleMessageObject(Turn(Null, d, agent)) == Ok("\nBOT\n============\n" + DataString(d) + "\n\n")
    ensures DataString(d) == if d == UndefinedData then "undefined" else "null"
  {
    FlatBotText(DataString(d));
  }


  /** The first turn with an unknown speaker ends the transcript with 'from not defined'. */
  lemma UnknownSpeakerAborts(ts: seq<Turn>, k: nat)
    requires k < |ts| && ts[k].Turn? && ts[k].from == Unlisted
    requires forall i | 0 <= i < k :: HandleMessageObject(ts[i]).Ok?
    ensures Transcript(ts, HandleMessageObject) == Err(FromNotDefined)
  {
    FirstThrowAborts(ts, k, HandleMessageObject);
  }

  /** A bot turn is the BOT header, the renderer's output and a newline. */
  lemma BotTurnUsesRenderer(d: Payload, agent: Option<Field>)
    requires d.Obj? && BotData(d).Ok?
    ensures HandleMessageObject(Turn(BOT, d, agent)) == Ok("\nBOT\n============" + RenderBot(d.packet).value + "\n")
  {
    assert "\nBOT" + Underline == "\nBOT\n============";
  }

  /** A `null` speaker prints exactly as a WhatsApp bot turn prints the same data. */
  lemma NullSpeakerIsFlatBot(d: Payload, agent: Option<Field>)
    ensures HandleMessageObject(Turn(Null, d, agent)) == WhatsAppChat.HandleMessageObject(Turn(BOT, d, agent))
  {
  }

  /** The web AGENT header has a space before the parenthesis; WhatsApp's has none.
      Both throw when the agent details are missing, and when `data` is
      `undefined` or `null`. */
  lemma AgentHeaders(d: Payload, name: Field)
    ensures Present(d) ==>
              HandleMessageObject(Turn(AGENT, d, Some(name)))
              == Ok("\nAGENT (" + Show(name) + ")\n============\n" + Show(DataText(d)) + "\n\n")
    ensures Present(d) ==>
              WhatsAppChat.HandleMessageObject(Turn(AGENT, d, Some(name)))
              == Ok("\nAGENT(" + Show(name) + ")\n============\n" + Show(DataText(d)) + "\n\n")
    ensures !Present(d) ==> HandleMessageObject(Turn(AGENT, d, Some(name))) == Err(TypeError)
    ensures !Present(d) ==> WhatsAppChat.HandleMessageObject(Turn(AGENT, d, Some(name))) == Err(TypeError)
    ensures HandleMessageObject(Turn(AGENT, d, None)).Err?
    ensures WhatsAppChat.HandleMessageObject(Turn(AGENT, d, None)).Err?
  {
    if Present(d) {
      var text := "\n" + Show(DataText(d)) + "\n";
      assert TextLine(d) == Ok(text);
      HeaderThenText("\nAGENT (", Show(name), Show(DataText(d)));
      HeaderThenText("\nAGENT(", Show(name), Show(DataText(d)));
    }
  }

  /** An AGENT header followed by its text line and the final newline. */
  lemma HeaderThenText(open: string, name: string, x: string)
    ensures open + name + ")" + Underline + ("\n" + x + "\n") + "\n"
         == open + name + ")\n============\n" + x + "\n\n"
  {
    assert ")" + Underline + "\n" == ")\n============\n";
    assert x + "\n" + "\n" == x + "\n\n";
  }
}
