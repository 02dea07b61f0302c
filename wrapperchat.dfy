/** `WrapperChat.chatHistory`: the channel name, upper-cased, picks the adapter
    that renders the conversation; an unknown channel gives "". */
module WrapperChat {
  import opened Wrappers
  import opened JsText
  import opened DataPacket
  import opened Turns
  import WebChat
  import FaceBookChat
  import GoogleMessagesChat
  import WhatsAppChat

  /** The adapters a channel name can select. */
  datatype Channel = Web | FaceBook | GoogleMessages | WhatsApp | NoChannel

  /** The channel a name selects, compared after `toUpperCase()`, in the order
      of the if-chain. */
  function ChannelOf(name: string): Channel
  {
    var n := Upper(name);
    if n == "WEBCHAT" then Web
    else if n == "FACEBOOK" then FaceBook
    else if n == "GOOGLE_MESSAGES" then GoogleMessages
    else if n == "WHATSAPP" then WhatsApp
    else NoChannel
  }

  /** `chatHistory(messageData, str)`: the chosen adapter's transcript of the
      whole list; an unknown channel consults no adapter and gives "". A
      missing name (`null`, or the `String` default, which has no
      `toUpperCase`) throws before any adapter is chosen. */
  function ChatHistory(ts: seq<Turn>, name: Field): Result<string>
  {
    match name
    case None => Err(TypeError)
    case Some(n) => History(ts, n)
  }

  /** The history once the name is a string. */
  function History(ts: seq<Turn>, name: string): Result<string>
  {
    match ChannelOf(name)
    case Web => Transcript(ts, WebChat.HandleMessageObject)
    case FaceBook => Transcript(ts, FaceBookChat.HandleMessageObject)
    case GoogleMessages => Transcript(ts, GoogleMessagesChat.HandleMessageObject)
    case WhatsApp => Transcript(ts, WhatsAppChat.HandleMessageObject)
    case NoChannel => Ok("")
  }

  /** The channel name is matched without regard to case: a name and its
      upper-cased form select the same adapter and give the same transcript. */
  lemma DispatchIgnoresCase(ts: seq<Turn>, name: string)
    ensures ChannelOf(name) == ChannelOf(Upper(name))
    ensures ChatHistory(ts, Some(name)) == ChatHistory(ts, Some(Upper(name)))
  {
    UpperIdempotent(name);
  }

  /** A name that upper-cases to none of the four gives "" for every list of
      turns, however malformed. */
  lemma UnknownChannelIsEmpty(ts: seq<Turn>, name: string)
    requires Upper(name) !in ["WEBCHAT", "FACEBOOK", "GOOGLE_MESSAGES", "WHATSAPP"]
    ensures ChatHistory(ts, Some(name)) == Ok("")
  {
  }

  /** Without a name the call throws, whatever the turns, even none. */
  lemma MissingNameThrows(ts: seq<Turn>)
    ensures ChatHistory(ts, None) == Err(TypeError)
    ensures ChatHistory([], None) != ChatHistory([], Some(""))
  {
  }

  /** The list reaches the adapter unchanged: the transcript of two lists one
      after the other is the first transcript followed by the second, on every
      channel that has an adapter. */
  lemma HistoryAppend(a: seq<Turn>, b: seq<Turn>, name: string)
    requires ChannelOf(name) != NoChannel
    ensures ChatHistory(a + b, Some(name)) == Concat(ChatHistory(a, Some(name)), ChatHistory(b, Some(name)))
  {
    match ChannelOf(name)
    case Web => TranscriptAppend(a, b, WebChat.HandleMessageObject);
    case FaceBook => TranscriptAppend(a, b, FaceBookChat.HandleMessageObject);
    case GoogleMessages => TranscriptAppend(a, b, GoogleMessagesChat.HandleMessageObject);
    case WhatsApp => TranscriptAppend(a, b, WhatsAppChat.HandleMessageObject);
  }

  /** On the WhatsApp channel a history is produced exactly when every turn is
      printable there. */
  lemma WhatsAppHistoryOkExactly(ts: seq<Turn>, name: string)
    requires ChannelOf(name) == WhatsApp
    ensures ChatHistory(ts, Some(name)).Ok? <==> forall i | 0 <= i < |ts| :: WhatsAppChat.Printable(ts[i])
  {
    WhatsAppChat.TranscriptOkExactly(ts);
  }
}
