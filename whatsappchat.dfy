/** The WhatsApp adapter: bot content is stored as plain text and printed as it is. */
module WhatsAppChat {
  import opened Wrappers
  import opened JsText
  import opened DataPacket
  import opened Turns

  /** The error thrown for a speaker other than USER, BOT and AGENT. */
  const FromNotDefined: string := "from not defined"

  /** `handleMessageObject`: the speaker header, the speaker's text, and a final
      newline; a `null` entry has no `from` to read. */
  function HandleMessageObject(t: Turn): Result<string>
  {
    match t
    case NullTurn => Err(TypeError)
    case Turn(from, data, agentDetails) =>
      match from
      case USER => Concat(Prefixed("\nUSER" + Underline, TextLine(data)), Ok("\n"))
      case BOT => Ok("\nBOT" + Underline + "\n" + DataString(data) + "\n" + "\n")
      case AGENT =>
        if agentDetails.None? then Err(TypeError)
        else Concat(Prefixed("\nAGENT(" + Show(agentDetails.value) + ")" + Underline, TextLine(data)), Ok("\n"))
      case Null => Err(FromNotDefined)
      case Unlisted => Err(FromNotDefined)
  }

  /** A turn the adapter can print: USER with `data` to read, BOT with any
      `data`, or AGENT with its details and `data` to read. */
  predicate Printable(t: Turn)
  {
    t.Turn? &&
    ((t.from == USER && Present(t.data)) || t.from == BOT
     || (t.from == AGENT && t.agentDetails.Some? && Present(t.data)))
  }

  /** A WhatsApp transcript is produced exactly when every turn is printable;
      bot content can never make it fail. */
  lemma TranscriptOkExactly(ts: seq<Turn>)
    ensures Transcript(ts, HandleMessageObject).Ok? <==> forall i | 0 <= i < |ts| :: Printable(ts[i])
  {
    TranscriptOkIff(ts, HandleMessageObject);
    assert forall i | 0 <= i < |ts| :: HandleMessageObject(ts[i]).Ok? == Printable(ts[i]);
  }

  /** The first turn with another speaker ends the transcript with 'from not defined'. */
  lemma UnknownSpeakerAborts(ts: seq<Turn>, k: nat)
    requires k < |ts| && ts[k].Turn? && (ts[k].from == Null || ts[k].from == Unlisted)
    requires forall i | 0 <= i < k :: Printable(ts[i])
    ensures Transcript(ts, HandleMessageObject) == Err(FromNotDefined)
  {
    assert forall i | 0 <= i < k :: HandleMessageObject(ts[i]).Ok?;
    FirstThrowAborts(ts, k, HandleMessageObject);
  }

  /** A `null` entry throws, and so do USER and AGENT turns whose `data` is
      `undefined` or `null`; a bot turn prints such data as the text
      "undefined" or "null". */
  lemma AbsentDataRenderings(d: Payload, agent: Option<Field>)
    requires !Present(d)
    ensures HandleMessageObject(NullTurn) == Err(TypeError)
    ensures HandleMessageObject(Turn(USER, d, agent)) == Err(TypeError)
    ensures HandleMessageObject(Turn(AGENT, d, agent)) == Err(TypeError)
    ensures HandleMessageObject(Turn(BOT, d, agent)) == Ok("\nBOT\n============\n" + DataString(d) + "\n\n")
    ensures DataString(d) == if d == UndefinedData then "undefined" else "null"
  {
    FlatBotText(DataString(d));
  }


  /** A bot turn prints `data` as text, whatever it holds: a data packet prints
      as "[object Object]". */
  lemma BotTurnIsPlainText(d: Payload, agent: Option<Field>)
    ensures HandleMessageObject(Turn(BOT, d, agent)) == Ok("\nBOT\n============\n" + DataString(d) + "\n\n")
    ensures d.Obj? ==> HandleMessageObject(Turn(BOT, d, agent)) == Ok("\nBOT\n============\n[object Object]\n\n")
  {
    var head := "\nBOT" + Underline + "\n";
    assert head == "\nBOT\n============\n";
    var x := DataString(d);
    assert head + x + "\n" + "\n" == head + x + "\n\n";
    if d.Obj? {
      assert x == "[object Object]";
      assert head + x + "\n\n" == "\nBOT\n============\n[object Object]\n\n";
    }
  }
}
