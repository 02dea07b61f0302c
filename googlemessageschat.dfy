/** The Google Business Messages adapter: bot content is a text with suggestion
    chips, or a rich card (standalone or carousel), optionally followed by a
    data packet. */
module GoogleMessagesChat {
  import opened Wrappers
  import opened JsText
  import opened DataPacket
  import opened Turns
  import FaceBookChat

  /** The error thrown for an unknown speaker, and the text every rich card ends with. */
  const Unhandled: string := "Unhandled"

  /** A suggestion's label: the reply's text, else the action's text, else "". */
  function Label(s: Suggestion): string
  {
    if s.reply.Some? then Show(s.reply.value)
    else if s.action.Some? then Show(s.action.value)
    else ""
  }

  /** A suggestion's `\n[[label]]` line. */
  function SuggestionLine(s: Suggestion): string
  {
    "\n[[" + Label(s) + "]]"
  }

  /** One `\n[[label]]` line per suggestion, in order. */
  function SuggestionLines(ss: seq<Suggestion>): string
  {
    Accumulate(ss, SuggestionLine)
  }

  /** A card: media URL, title, description and suggestions, each only when
      present; a `media` object without `contentInfo` throws. */
  function CardText(c: CardContent): Result<string>
  {
    if c.media == Some(NoContentInfo) then Err(TypeError) else Ok(CardBody(c))
  }

  /** The lines of a card whose media, if any, has its `contentInfo`. */
  function CardBody(c: CardContent): string
  {
    MediaLine(c) + TitleLine(c) + DescriptionLine(c) + CardSuggestions(c)
  }

  /** The media URL line of a card, when the card has media. */
  function MediaLine(c: CardContent): string
  {
    if c.media.Some? && c.media.value.Media? then "\n" + Show(c.media.value.fileUrl) else ""
  }

  /** The title line of a card, when the title is truthy. */
  function TitleLine(c: CardContent): string
  {
    if Truthy(c.title) then "\n" + c.title.value else ""
  }

  /** The description line of a card, when the description is truthy. */
  function DescriptionLine(c: CardContent): string
  {
    if Truthy(c.description) then "\n" + c.description.value else ""
  }

  /** The suggestion lines of a card, when it has suggestions. */
  function CardSuggestions(c: CardContent): string
  {
    if c.suggestions.Some? then SuggestionLines(c.suggestions.value) else ""
  }

  /** The cards of a carousel, in order; the first card that throws ends it. */
  function CardsText(cs: seq<CardContent>): Result<string>
  {
    if cs == [] then Ok("") else Concat(CardsText(cs[..|cs| - 1]), CardText(cs[|cs| - 1]))
  }

  /** The text of a rich card: reading into `null`, or into a missing
      `cardContent` or `cardContents`, throws. */
  function RichCardText(rc: RichCard): Result<string>
  {
    match rc
    case NullCard => Err(TypeError)
    case Standalone(None) => Err(TypeError)
    case Standalone(Some(c)) => CardText(c)
    case Carousel(None) => Err(TypeError)
    case Carousel(Some(cs)) => CardsText(cs)
    case NeitherCard => Ok("")
  }

  /** `handleGoogleMessage`: a message owning a rich card prints the card(s) and
      then "Unhandled"; any other message prints its text and its suggestions. */
  function GoogleMessageText(d: Payload): Result<string>
  {
    match d
    case Plain(_) => Ok(Show(None))
    case Obj(text, _, _, _, richCard, suggestions) =>
      if richCard.Some? then Concat(RichCardText(richCard.value), Ok(Unhandled))
      else Ok(Show(text) + (if suggestions.Some? then SuggestionLines(suggestions.value) else ""))
    case _ => Err(TypeError)
  }

  /** The message has a truthy rich card (`null` is falsy) or a non-empty list
      of suggestions. */
  predicate HasRichContent(d: Payload)
  {
    d.Obj? && ((d.richCard.Some? && d.richCard.value != NullCard) || (d.suggestions.Some? && |d.suggestions.value| > 0))
  }

  /** `handleBotMsg`: with a data packet, the message and then the packet; with
      rich content, the message; else the text on its own line. Reading
      `dataPacket` of `undefined` or `null` throws. */
  function HandleBotMsg(d: Payload): Result<string>
  {
    if !Present(d) then Err(TypeError)
    else if d.Obj? && d.dataPacket.Some? then Concat(GoogleMessageText(d), RenderBot(d.dataPacket.value))
    else if HasRichContent(d) then GoogleMessageText(d)
    else Ok("\n" + Show(DataText(d)) + "\n")
  }

  /** `handleMessageObject`: a `null` entry has no `from` to read. */
  function HandleMessageObject(t: Turn): Result<string>
  {
    match t
    case NullTurn => Err(TypeError)
    case Turn(from, data, agentDetails) =>
      match from
      case USER => Concat(Prefixed("\nUSER" + Underline, TextLine(data)), Ok("\n"))
      case BOT => Concat(Prefixed("\nBOT" + Underline, HandleBotMsg(data)), Ok("\n"))
      case AGENT =>
        if agentDetails.None? then Err(TypeError)
        else Concat(Prefixed("\nAGENT(" + Show(agentDetails.value) + ")" + Underline, TextLine(data)), Ok("\n"))
      case Null => Err(Unhandled)
      case Unlisted => Err(Unhandled)
  }

  /** The suggestion loop, appending to `acc`. */
  method AppendSuggestions(acc: string, ss: seq<Suggestion>) returns (s: string)
    ensures s == acc + SuggestionLines(ss)
  {
    s := acc;
    var i := 0;
    while i < |ss|
      invariant 0 <= i <= |ss|
      invariant s == acc + SuggestionLines(ss[..i])
    {
      assert ss[..i + 1][..i] == ss[..i];
      var element := ss[i];
      var caption := if element.reply.Some? then Show(element.reply.value)
                   else if element.action.Some? then Show(element.action.value)
                   else "";
      s := s + "\n[[" + caption + "]]";
      i := i + 1;
    }
    assert ss[..i] == ss;
  }

  /** Once a prefix of the carousel has thrown, the whole carousel is that throw. */
  lemma {:induction false} CardsTextStopsAtErr(cs: seq<CardContent>, i: nat)
    requires i <= |cs|
    requires CardsText(cs[..i]).Err?
    ensures CardsText(cs) == CardsText(cs[..i])
    decreases |cs|
  {
    if i < |cs| {
      var init := cs[..|cs| - 1];
      assert init[..i] == cs[..i];
      CardsTextStopsAtErr(init, i);
    } else {
      assert cs[..i] == cs;
    }
  }

  /** One card, appended to `acc`. */
  method AppendCard(acc: string, card: CardContent) returns (r: Result<string>)
    ensures r == Concat(Ok(acc), CardText(card))
  {
    if card.media == Some(NoContentInfo) {
      return Err(TypeError);
    }
    var s := AppendCardBody(acc, card);
    r := Ok(s);
  }

  /** The lines of one card, appended to `acc`. */
  method AppendCardBody(acc: string, card: CardContent) returns (s: string)
    ensures s == acc + CardBody(card)
  {
    var media := "";
    if card.media.Some? && card.media.value.Media? {
      media := "\n" + Show(card.media.value.fileUrl);
    }
    var title := "";
    if Truthy(card.title) {
      title := "\n" + card.title.value;
    }
    var description := "";
    if Truthy(card.description) {
      description := "\n" + card.description.value;
    }
    s := acc + (media + title + description);
    if card.suggestions.Some? {
      s := AppendSuggestions(s, card.suggestions.value);
    } else {
      assert s == s + "";
    }
  }

  /** `handleGoogleMessage`, with its card and suggestion loops. */
  method HandleGoogleMessage(d: Payload) returns (r: Result<string>)
    ensures r == GoogleMessageText(d)
  {
    if d.Plain? {
      return Ok(Show(None));
    } else if !d.Obj? {
      return Err(TypeError);
    }
    var s := "";
    if d.richCard.Some? {
      match d.richCard.value {
        case NullCard =>
          return Err(TypeError);
        case Standalone(None) =>
          return Err(TypeError);
        case Standalone(Some(card)) =>
          r := AppendCard(s, card);
          ConcatEmptyLeft(CardText(card));
          if r.Err? {
            return r;
          }
          s := r.value;
        case Carousel(None) =>
          return Err(TypeError);
        case Carousel(Some(cards)) =>
          var i := 0;
          while i < |cards|
            invariant 0 <= i <= |cards|
            invariant CardsText(cards[..i]).Ok?
            invariant s == CardsText(cards[..i]).value
          {
            assert cards[..i + 1][..i] == cards[..i];
            r := AppendCard(s, cards[i]);
            assert CardsText(cards[..i + 1]) == r;
            if r.Err? {
              CardsTextStopsAtErr(cards, i + 1);
              assert cards[..|cards|] == cards;
              return r;
            }
            s := r.value;
            i := i + 1;
          }
          assert cards[..i] == cards;
        case NeitherCard =>
      }
      r := Ok(s + Unhandled);
    } else {
      s := s + Show(d.text);
      assert s == Show(d.text);
      if d.suggestions.Some? {
        s := AppendSuggestions(s, d.suggestions.value);
      } else {
        assert s == s + "";
      }
      r := Ok(s);
    }
  }

  // ---------------------------------------------------------------------------
  // Properties
  // ---------------------------------------------------------------------------

  /** A message owning a rich card, of whatever kind, ends with "Unhandled"
      when it is printed, and it is printed exactly when its card text is. */
  lemma RichCardEndsUnhandled(d: Payload)
    requires d.Obj? && d.richCard.Some?
    ensures GoogleMessageText(d).Ok? <==> RichCardText(d.richCard.value).Ok?
    ensures GoogleMessageText(d).Ok? ==>
              var t := GoogleMessageText(d).value;
              |t| >= |Unhandled| && t[|t| - |Unhandled|..] == Unhandled
  {
  }

  /** A `null` rich card, a standalone card without `cardContent`, a carousel
      without `cardContents`, and a `media` object without `contentInfo`, on its
      own or after other cards, all throw; a `null` rich card is only reached
      when there are suggestions or a data packet, since `null` is falsy. */
  lemma MalformedCardsThrow(d: Payload, c: CardContent, cs: seq<CardContent>)
    requires d.Obj?
    ensures GoogleMessageText(d.(richCard := Some(NullCard))) == Err(TypeError)
    ensures GoogleMessageText(d.(richCard := Some(Standalone(None)))) == Err(TypeError)
    ensures GoogleMessageText(d.(richCard := Some(Carousel(None)))) == Err(TypeError)
    ensures GoogleMessageText(d.(richCard := Some(Standalone(Some(c.(media := Some(NoContentInfo))))))) == Err(TypeError)
    ensures GoogleMessageText(d.(richCard := Some(Carousel(Some(cs + [c.(media := Some(NoContentInfo))]))))).Err?
    ensures d.suggestions.Some? && |d.suggestions.value| > 0 ==>
              HandleBotMsg(d.(richCard := Some(NullCard))) == Err(TypeError)
  {
    var bad := c.(media := Some(NoContentInfo));
    assert (cs + [bad])[..|cs|] == cs;
  }

  /** A carousel prints card after card: the cards `a + b` print as `a`'s, then
      `b`'s, and the first card that throws decides. */
  lemma {:induction false} CardsTextAppend(a: seq<CardContent>, b: seq<CardContent>)
    ensures CardsText(a + b) == Concat(CardsText(a), CardsText(b))
    decreases |b|
  {
    if b == [] {
      assert a + b == a;
      ConcatEmptyRight(CardsText(a));
    } else {
      var b' := b[..|b| - 1];
      assert (a + b)[..|a + b| - 1] == a + b';
      assert (a + b)[|a + b| - 1] == b[|b| - 1];
      CardsTextAppend(a, b');
      ConcatAssoc(CardsText(a), CardsText(b'), CardText(b[|b| - 1]));
    }
  }

  /** A carousel prints each card by the standalone rules: a carousel of one card
      prints as that card standing alone. */
  lemma CarouselOfOneIsStandalone(d: Payload, c: CardContent)
    requires d.Obj?
    ensures GoogleMessageText(d.(richCard := Some(Carousel(Some([c])))))
         == GoogleMessageText(d.(richCard := Some(Standalone(Some(c)))))
  {
    assert [c][..0] == [];
    assert CardsText([c]) == Concat(CardsText([]), CardText(c));
    ConcatEmptyLeft(CardText(c));
  }

  /** Without a rich card the text comes first, with no leading newline, then
      one line per suggestion. */
  lemma PlainMessageShape(d: Payload)
    requires d.Obj? && d.richCard.None? && d.suggestions.Some?
    ensures GoogleMessageText(d) == Ok(Show(d.text) + SuggestionLines(d.suggestions.value))
  {
  }

  /** A data packet comes after the message, which is still printed. */
  lemma PacketAfterMessage(d: Payload)
    requires d.Obj? && d.dataPacket.Some? && GoogleMessageText(d).Ok? && RenderBot(d.dataPacket.value).Ok?
    ensures HandleBotMsg(d) == Ok(GoogleMessageText(d).value + RenderBot(d.dataPacket.value).value)
  {
  }

  /** Without a packet and without rich content, the bot message is the text on
      its own line; a `null` rich card counts as none. */
  lemma FallbackToText(d: Payload)
    requires d.Obj? && d.dataPacket.None? && (d.richCard.None? || d.richCard == Some(NullCard))
    requires d.suggestions.None? || d.suggestions.value == []
    ensures HandleBotMsg(d) == Ok("\n" + Show(d.text) + "\n")
  {
  }

  /** Only bot content sets the two adapters apart: a conversation without bot
      turns prints, or throws, exactly as the Facebook adapter prints it, so
      `FaceBookChat.UnknownSpeakerAborts` holds here too. */
  lemma {:induction false} NonBotTurnsAsFaceBook(ts: seq<Turn>)
    requires forall i | 0 <= i < |ts| :: ts[i].NullTurn? || ts[i].from != BOT
    ensures Transcript(ts, HandleMessageObject) == Transcript(ts, FaceBookChat.HandleMessageObject)
    decreases |ts|
  {
    if ts != [] {
      var init := ts[..|ts| - 1];
      assert forall i | 0 <= i < |init| :: init[i] == ts[i];
      NonBotTurnsAsFaceBook(init);
    }
  }

  /** A bot turn whose `data` is `undefined` or `null` throws, as the other
      speakers' turns do (see `FaceBookChat.AbsentDataThrows`). */
  lemma AbsentBotDataThrows(d: Payload, agent: Option<Field>)
    requires !Present(d)
    ensures HandleMessageObject(Turn(BOT, d, agent)) == Err(TypeError)
    ensures GoogleMessageText(d) == Err(TypeError)
  {
  }
}
