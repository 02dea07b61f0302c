/** One turn of a stored conversation, as every channel adapter reads it, and
    the transcript loop they share: each adapter renders the turns in list
    order and appends the pieces; the first turn that throws aborts it. */
module Turns {
  import opened Wrappers
  import opened JsText
  import opened DataPacket

  /** The `from` of a turn. `Null` is the JavaScript `null`; `Unlisted` is any
      other value, an absent `from` included. */
  datatype From = USER | BOT | AGENT | Null | Unlisted

  /** A suggestion chip of a Google rich card: `reply` and `action` are the
      `text` of the reply/action object when that object is present. */
  datatype Suggestion = Suggestion(reply: Option<Field>, action: Option<Field>)

  /** A card's `media` object: its `contentInfo.fileUrl`, or no `contentInfo`. */
  datatype Media = Media(fileUrl: Field) | NoContentInfo

  /** `cardContent` of a Google rich card; `media` is absent when it is falsy. */
  datatype CardContent = CardContent(media: Option<Media>, title: Field, description: Field,
                                     suggestions: Option<seq<Suggestion>>)

  /** `richCard`: a `standaloneCard` with its `cardContent` (absent when
      missing), a `carouselCard` with its `cardContents` (likewise), an object
      with neither, or `null`. */
  datatype RichCard =
    | Standalone(card: Option<CardContent>)
    | Carousel(cards: Option<seq<CardContent>>)
    | NeitherCard
    | NullCard

  /** A Facebook button. */
  datatype FbButton = FbButton(title: Field, text: Field, url: Field)

  /** One element of a Facebook generic template. */
  datatype Element = Element(title: Field, subtitle: Field, imageUrl: Field, buttons: Option<seq<FbButton>>)

  /** `attachment.payload` of a Facebook template. */
  datatype TemplatePayload = TemplatePayload(templateType: Field, title: Field, text: Field,
                                             buttons: Option<seq<FbButton>>,
                                             elements: Option<seq<Element>>)

  /** A Facebook `attachment`: its `type` and its `payload`. */
  datatype Attachment = Attachment(kind: Field, payload: Option<TemplatePayload>)

  /** The `data` of a turn: a plain string, an object, or missing (`undefined`)
      or `null`. An object carries every property any adapter reads: `text`;
      the object itself read as a data-packet node (`packet`, used when the web
      adapter hands `data` to `handleBot`); and the Facebook and Google
      properties. */
  datatype Payload =
    | Plain(s: string)
    | Obj(text: Field, packet: Node, attachment: Option<Attachment>, dataPacket: Option<Node>,
          richCard: Option<RichCard>, suggestions: Option<seq<Suggestion>>)
    | UndefinedData
    | NullData

  /** `data` has properties to read: reading one of `undefined` or `null` throws. */
  predicate Present(d: Payload)
  {
    d.Plain? || d.Obj?
  }

  /** An entry of the turn list: who spoke, what was said, and
      `agentDetails.agentName` when `agentDetails` is present; or a `null`
      (or `undefined`) entry, whose `from` cannot be read. */
  datatype Turn = Turn(from: From, data: Payload, agentDetails: Option<Field>) | NullTurn

  /** `data.text` of present data (a string has no `text` property). */
  function DataText(d: Payload): Field
  {
    match d
    case Obj(text, _, _, _, _, _) => text
    case _ => None
  }

  /** `${data}`. */
  function DataString(d: Payload): string
  {
    match d
    case Plain(s) => s
    case Obj(_, _, _, _, _, _) => ObjectString
    case UndefinedData => "undefined"
    case NullData => "null"
  }

  /** The underline every speaker header ends with. */
  const Underline: string := "\n============"

  /** `handleUser` / `handleAgent`: the `text` of the data on its own line;
      `undefined` or `null` data throws. */
  function TextLine(d: Payload): Result<string>
  {
    if Present(d) then Ok("\n" + Show(DataText(d)) + "\n") else Err(TypeError)
  }

  /** The text of a turn printed flat under a BOT header, with the underline
      written out. */
  lemma FlatBotText(x: string)
    ensures "\nBOT" + Underline + "\n" + x + "\n" + "\n" == "\nBOT\n============\n" + x + "\n\n"
  {
    assert "\nBOT" + Underline + "\n" == "\nBOT\n============\n";
    assert x + "\n" + "\n" == x + "\n\n";
  }

  /** `mainDataPacketHandler`: every turn's rendering, in list order; the first
      turn that throws is the outcome. */
  function Transcript(ts: seq<Turn>, render: Turn -> Result<string>): Result<string>
  {
    if ts == [] then Ok("")
    else Concat(Transcript(ts[..|ts| - 1], render), render(ts[|ts| - 1]))
  }

  /** The loop of `mainDataPacketHandler`, with `handleMessageObject` passed in. */
  method MainDataPacketHandler(ts: seq<Turn>, render: Turn -> Result<string>) returns (r: Result<string>)
    ensures r == Transcript(ts, render)
  {
    var mainString := "";
    var i := 0;
    while i < |ts|
      invariant 0 <= i <= |ts|
      invariant Transcript(ts[..i], render) == Ok(mainString)
    {
      assert ts[..i + 1][..i] == ts[..i];
      var part := render(ts[i]);
      if part.Err? {
        TranscriptStopsAtErr(ts, i + 1, render);
        return part;
      }
      mainString := mainString + part.value;
      i := i + 1;
    }
    assert ts[..i] == ts;
    r := Ok(mainString);
  }

  /** Once a prefix of the turns has thrown, the transcript is that throw. */
  lemma {:induction false} TranscriptStopsAtErr(ts: seq<Turn>, i: nat, render: Turn -> Result<string>)
    requires i <= |ts|
    requires Transcript(ts[..i], render).Err?
    ensures Transcript(ts, render) == Transcript(ts[..i], render)
    decreases |ts|
  {
    if i < |ts| {
      var init := ts[..|ts| - 1];
      assert init[..i] == ts[..i];
      TranscriptStopsAtErr(init, i, render);
    } else {
      assert ts[..i] == ts;
    }
  }

  /** The first turn that throws decides the transcript: nothing after it is printed. */
  lemma FirstThrowAborts(ts: seq<Turn>, k: nat, render: Turn -> Result<string>)
    requires k < |ts| && render(ts[k]).Err?
    requires forall i | 0 <= i < k :: render(ts[i]).Ok?
    ensures Transcript(ts, render) == render(ts[k])
  {
    assert ts[..k + 1][..k] == ts[..k];
    TranscriptOkIff(ts[..k], render);
    TranscriptStopsAtErr(ts, k + 1, render);
  }

  /** The transcript of two conversations one after the other is the first
      transcript followed by the second. */
  lemma {:induction false} TranscriptAppend(a: seq<Turn>, b: seq<Turn>, render: Turn -> Result<string>)
    ensures Transcript(a + b, render) == Concat(Transcript(a, render), Transcript(b, render))
    decreases |b|
  {
    if b == [] {
      assert a + b == a;
      var r := Transcript(a, render);
      if r.Ok? { assert r.value + "" == r.value; }
    } else {
      var b' := b[..|b| - 1];
      assert (a + b)[..|a + b| - 1] == a + b';
      assert (a + b)[|a + b| - 1] == b[|b| - 1];
      TranscriptAppend(a, b', render);
      ConcatAssoc(Transcript(a, render), Transcript(b', render), render(b[|b| - 1]));
    }
  }

  /** A transcript is produced exactly when no turn throws. */
  lemma {:induction false} TranscriptOkIff(ts: seq<Turn>, render: Turn -> Result<string>)
    ensures Transcript(ts, render).Ok? <==> forall i | 0 <= i < |ts| :: render(ts[i]).Ok?
    decreases |ts|
  {
    if ts != [] {
      var init := ts[..|ts| - 1];
      TranscriptOkIff(init, render);
      assert forall i | 0 <= i < |init| :: init[i] == ts[i];
    }
  }

  /** When the transcript fails, its error is the error of the first turn that throws. */
  lemma {:induction false} TranscriptErrIsFirstThrow(ts: seq<Turn>, render: Turn -> Result<string>)
    requires Transcript(ts, render).Err?
    ensures exists i | 0 <= i < |ts| ::
              render(ts[i]) == Transcript(ts, render) && forall j | 0 <= j < i :: render(ts[j]).Ok?
    decreases |ts|
  {
    var init := ts[..|ts| - 1];
    if Transcript(init, render).Err? {
      TranscriptErrIsFirstThrow(init, render);
      var i :| 0 <= i < |init| && render(init[i]) == Transcript(init, render)
                && forall j | 0 <= j < i :: render(init[j]).Ok?;
      assert init[i] == ts[i];
      assert forall j | 0 <= j < i :: init[j] == ts[j];
    } else {
      TranscriptOkIff(init, render);
      var i := |ts| - 1;
      assert forall j | 0 <= j < i :: init[j] == ts[j];
      assert render(ts[i]) == Transcript(ts, render);
    }
  }
}
