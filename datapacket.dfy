/** The "data packet": a `{type, data}` tree of rich bot content, and the
    functions that say what the node renderer produces for it.

    Every tag the renderer knows is one constructor, and `Bare` is a node that
    carries its `type` and nothing else. The lists a renderer walks with `.map`
    and the `optionData` of a button are optional, because the renderer reads
    them without a guard. A renderer can throw (a `TypeError` in JavaScript), so
    every rendering is a `Result`. The renderer's tag lists are kept as the
    exact strings of the source, and `Tag` names the string each constructor
    carries, so dispatch reads as it does there: on list membership first,
    then on the switch. */
module DataPacket {
  import opened Wrappers
  import opened JsText

  /** The message of the error JavaScript throws when a property of `undefined` is read. */
  const TypeError: string := "TypeError"

  /** The default of the primitive switch. */
  const UnhandledPrimitive: string := "Unhandled FROM DATAPACKET"

  /** The default of the composite switch. */
  const UnhandledComposite: string := "Unhandled non Datapacket"

  /** The `type` strings the renderer names, spelled as in the source, plus
      `OTHER` for every other value (a missing `type` included). */
  datatype TypeTag =
    | TEXT | HEADER1 | HEADER2 | HEADER3 | HEADER4 | HEADER5 | HEADER6
    | PARA1 | PARA2 | PARA3 | PARA4 | PARA5 | PARA6 | FOOTER1 | FOOTER2 | FOOTER3
    | HSEPERETOR | VSEPERETOR | HSEPARATOR | CALL | L1_AGENT | IMAGE_TYPE1 | HORZ_IMAGES_TYPE1
    | VERT_IMAGES_TYPE1 | POSTAL_ADDRESS | ADDRESS | TABLE | HYPERLINK | SENSE
    | SENSE_SUGGESTION | IMAGE_ARRAY | VIDEO | AUDIO | PIE_CHART | STACKED_BAR_CHART
    | BAR_CHART | LINE_CHART | PHOTO | SINGLE_OPTION | VOICE
    | CARD_TYPE1 | HORZ_CARDS_TYPE1 | VERT_CARDS_TYPE1 | OPTIONS | FORM | FILLED_FORM
    | OTHER

  /** The tags `handleBot` sends to the primitive renderer (note the spelling `HSEPERETOR`). */
  const PrimitiveTypes: seq<TypeTag> :=
    [TEXT, HEADER1, HEADER2, HEADER3, HEADER4, HEADER5, HEADER6,
     PARA1, PARA2, PARA3, PARA4, PARA5, PARA6, FOOTER1, FOOTER2, FOOTER3,
     HSEPERETOR, VSEPERETOR, CALL, L1_AGENT, IMAGE_TYPE1, HORZ_IMAGES_TYPE1,
     VERT_IMAGES_TYPE1, POSTAL_ADDRESS, ADDRESS, TABLE, HYPERLINK, SENSE,
     SENSE_SUGGESTION, IMAGE_ARRAY, VIDEO, AUDIO, PIE_CHART, STACKED_BAR_CHART,
     BAR_CHART, LINE_CHART, PHOTO, SINGLE_OPTION, VOICE]

  /** The tags `handleBot` sends to the composite renderer. */
  const NonPrimitiveTypes: seq<TypeTag> :=
    [CARD_TYPE1, HORZ_CARDS_TYPE1, VERT_CARDS_TYPE1, OPTIONS, FORM, FILLED_FORM]

  /** The case labels of the primitive renderer's switch: `HSEPARATOR` instead of
      `HSEPERETOR`, so neither spelling is handled on both paths. */
  const PrimitiveCases: seq<TypeTag> :=
    [TEXT, HEADER1, HEADER2, HEADER3, HEADER4, HEADER5, HEADER6,
     IMAGE_TYPE1, HSEPARATOR, L1_AGENT,
     PARA1, PARA2, PARA3, PARA4, PARA5, PARA6, FOOTER1, FOOTER2, FOOTER3,
     VSEPERETOR, CALL, HORZ_IMAGES_TYPE1, VERT_IMAGES_TYPE1, POSTAL_ADDRESS, ADDRESS,
     TABLE, HYPERLINK, SENSE, SENSE_SUGGESTION, IMAGE_ARRAY, VIDEO, AUDIO,
     PIE_CHART, STACKED_BAR_CHART, BAR_CHART, LINE_CHART, PHOTO, VOICE, SINGLE_OPTION]

  /** The primitive cases whose renderer reads no property of `data`: TEXT
      prints `data` itself, SINGLE_OPTION reads `LABEL` and `VALUE` beside
      `type`, and the other four print constants. */
  const DataFreeCases: seq<TypeTag> := [TEXT, HSEPARATOR, VSEPERETOR, PHOTO, VOICE, SINGLE_OPTION]

  /** The renderer `handleBot` reaches for this tag reads a property of `data`. */
  predicate ReadsData(t: TypeTag)
  {
    (t in PrimitiveCases && t !in DataFreeCases) || t in NonPrimitiveTypes
  }

  type HeaderLevel = l: int | 1 <= l <= 6 witness 1
  type FooterLevel = l: int | 1 <= l <= 3 witness 1

  datatype ChartKind = Pie | StackedBar | Bar | Line

  /** A button of a card or option list. Only `optionData.label` (here
      `caption`) is rendered; `NoOptionData` is a button without an
      `optionData` object, on which that read throws. */
  datatype OptionButton = OptionButton(caption: Field) | NoOptionData

  /** A list of nodes the renderer maps over without a guard: `Missing` when
      the list, or the `data` object holding it, is absent. */
  datatype NodeList = Missing | Nodes(nodes: seq<Node>)

  /** The rows of a table, `data.ROWS`: `MissingRows` when they, or `data`, are absent. */
  datatype RowList = MissingRows | Rows(rows: seq<Row>)

  /** A table row: `row.data.CELLS`; `NoCells` is a row without `data` or without `CELLS`. */
  datatype Row = Row(cells: seq<Node>) | NoCells

  /** An optional list of buttons or images is `None` when the list, or the
      `data` object holding it, is absent. */
  datatype Node =
    | TextNode(data: Field)                          // TEXT: the payload is the text itself
    | Header(level: HeaderLevel, text: Field)        // HEADER1..6: data.TEXT
    | Para(level: HeaderLevel, text: Field)          // PARA1..6: data.TEXT
    | Footer(footerLevel: FooterLevel, text: Field)  // FOOTER1..3: data.TEXT
    | HSeperetor                                     // listed as primitive, matched by no case
    | VSeperetor
    | HSeparator                                     // matched by a case, listed nowhere
    | Call(text: Field)                              // data.TEXT
    | L1Agent(text: Field)                           // data.text
    | Image(image: Field)                            // IMAGE_TYPE1: data.IMAGE
    | ImageGroup(vertical: bool, images: Option<seq<string>>)  // HORZ/VERT_IMAGES_TYPE1: data.IMAGES
    | Address(postal: bool, doorNo: Field, building: Field, locality: Field,
              city: Field, state: Field, country: Field)
    | Table(rows: RowList)                           // data.ROWS
    | Hyperlink(caption: Field)                      // data.LABEL
    | Sense(suggestion: bool, title: Field)          // SENSE / SENSE_SUGGESTION: data.title
    | ImageArray                                     // its renderer always throws, whatever the payload
    | AudioVideo(video: bool, title: Field, description: Field)
    | Chart(kind: ChartKind, title: Field, description: Field)
    | Photo
    | Voice
    | SingleOption(caption: Field, value: Field)     // LABEL and VALUE sit beside `type`, not in `data`
    | Card(sections: NodeList, buttons: Option<seq<OptionButton>>)   // CARD_TYPE1
    | CardGroup(vertical: bool, title: Field, description: Field, cards: NodeList,
                sections: NodeList, buttons: Option<seq<OptionButton>>)
    | Options(packet: Option<Node>, options: seq<OptionButton>)  // an absent OPTIONS list renders as an empty one
    | Form(body: Option<Field>)                      // data.data.TITLE; None: no `data` or no inner `data`
    | FilledForm(fields: NodeList)                   // data.FIELDS
    | Bare(tag: TypeTag)                             // only `type`: no `data`, no LABEL or VALUE

  /** The `type` a node carries. */
  function Tag(n: Node): TypeTag
  {
    match n
    case TextNode(_) => TEXT
    case Header(l, _) => [HEADER1, HEADER2, HEADER3, HEADER4, HEADER5, HEADER6][l - 1]
    case Para(l, _) => [PARA1, PARA2, PARA3, PARA4, PARA5, PARA6][l - 1]
    case Footer(l, _) => [FOOTER1, FOOTER2, FOOTER3][l - 1]
    case HSeperetor => HSEPERETOR
    case VSeperetor => VSEPERETOR
    case HSeparator => HSEPARATOR
    case Call(_) => CALL
    case L1Agent(_) => L1_AGENT
    case Image(_) => IMAGE_TYPE1
    case ImageGroup(v, _) => if v then VERT_IMAGES_TYPE1 else HORZ_IMAGES_TYPE1
    case Address(postal, _, _, _, _, _, _) => if postal then POSTAL_ADDRESS else ADDRESS
    case Table(_) => TABLE
    case Hyperlink(_) => HYPERLINK
    case Sense(s, _) => if s then SENSE_SUGGESTION else SENSE
    case ImageArray => IMAGE_ARRAY
    case AudioVideo(v, _, _) => if v then VIDEO else AUDIO
    case Chart(k, _, _) =>
      (match k
       case Pie => PIE_CHART
       case StackedBar => STACKED_BAR_CHART
       case Bar => BAR_CHART
       case Line => LINE_CHART)
    case Photo => PHOTO
    case Voice => VOICE
    case SingleOption(_, _) => SINGLE_OPTION
    case Card(_, _) => CARD_TYPE1
    case CardGroup(v, _, _, _, _, _) => if v then VERT_CARDS_TYPE1 else HORZ_CARDS_TYPE1
    case Options(_, _) => OPTIONS
    case Form(_) => FORM
    case FilledForm(_) => FILLED_FORM
    case Bare(t) => t
  }

  /** `a + b` where either side may have thrown; the first throw wins. */
  function Concat(a: Result<string>, b: Result<string>): Result<string>
  {
    if a.Err? then a else if b.Err? then b else Ok(a.value + b.value)
  }

  /** `p + r` for a rendering `r` that may have thrown. */
  function Prefixed(p: string, r: Result<string>): Result<string>
  {
    if r.Err? then r else Ok(p + r.value)
  }

  /** One `\n[[label]]` line per button, in order; a button without
      `optionData` throws. */
  function ButtonLines(bs: seq<OptionButton>): Result<string>
  {
    if bs == [] then Ok("") else Concat(ButtonLines(bs[..|bs| - 1]), OptionLine(bs[|bs| - 1]))
  }

  /** The `\n[[label]]` line of one button: `button.optionData.label`. */
  function OptionLine(b: OptionButton): Result<string>
  {
    match b
    case OptionButton(caption) => Ok("\n[[" + Show(caption) + "]]")
    case NoOptionData => Err(TypeError)
  }

  /** Every button of the list has its `optionData`. */
  predicate Labelled(bs: seq<OptionButton>)
  {
    forall i | 0 <= i < |bs| :: bs[i].OptionButton?
  }

  /** One `\n ` line per image URL, in order. */
  function ImageLines(images: seq<string>): string
  {
    if images == [] then "" else ImageLines(images[..|images| - 1]) + "\n " + images[|images| - 1]
  }

  /** The six labelled address lines. */
  function AddressLines(doorNo: Field, building: Field, locality: Field,
                        city: Field, state: Field, country: Field): string
  {
    "\n Door no " + Show(doorNo) + " \n Building " + Show(building) + " \n Locality " + Show(locality)
    + " \n City " + Show(city) + " \n State " + Show(state) + " \n Country " + Show(country)
  }

  /** `handleBot`: the primitive list is consulted first, then the composite list;
      a node in neither prints as the string form of an object. */
  function RenderBot(n: Node): Result<string>
  {
    if Tag(n) in PrimitiveTypes then RenderPrimitive(n)
    else if Tag(n) in NonPrimitiveTypes then RenderComposite(n)
    else Ok("\n" + ObjectString)
  }

  /** `handlePrimitiveType`. */
  function RenderPrimitive(n: Node): Result<string>
  {
    match n
    case TextNode(d) => Ok("\n" + Show(d))
    case Header(_, t) => Ok("\n" + Show(t))
    case Image(i) => Ok("\n" + Show(i))
    case HSeparator => Ok("")
    case L1Agent(t) => Ok("\n" + Show(t))
    case Para(_, t) => Ok("\n" + Show(t))
    case Footer(_, t) => Ok("\n" + Show(t))
    case VSeperetor => Ok("")
    case Call(t) => Ok("\n" + Show(t) + "Call Now")
    case ImageGroup(_, None) => Err(TypeError)
    case ImageGroup(_, Some(images)) => Ok(ImageLines(images))
    case Address(_, d, b, l, c, s, co) => Ok(AddressLines(d, b, l, c, s, co))
    case Table(MissingRows) => Err(TypeError)
    case Table(Rows(rows)) => TableRows(rows)
    case Hyperlink(l) => Ok("\n " + Show(l))
    case Sense(_, t) => Ok("\n " + Show(t) + "Views")
    case ImageArray => Err(TypeError)
    case AudioVideo(_, t, d) => Ok("\n" + Show(t) + "audio/video not supported" + "\n " + Show(d))
    case Chart(_, t, d) => Ok("\n " + Show(t) + "\n " + Show(d) + "\n<[[Chart]]")
    case Photo => Ok("Photo Uploaded")
    case Voice => Ok("Voice Uploaded")
    case SingleOption(l, v) => Ok("\n " + Show(l) + "\n " + Show(v))
    case Bare(t) => BarePrimitive(t)
    case _ => Ok(UnhandledPrimitive)
  }

  /** The primitive switch on a node that has only its `type`. */
  function BarePrimitive(t: TypeTag): Result<string>
  {
    if t !in PrimitiveCases then Ok(UnhandledPrimitive)
    else if t !in DataFreeCases then Err(TypeError)
    else if t == TEXT then Ok("\n" + Show(None))
    else if t == SINGLE_OPTION then Ok("\n " + Show(None) + "\n " + Show(None))
    else if t == PHOTO then Ok("Photo Uploaded")
    else if t == VOICE then Ok("Voice Uploaded")
    else Ok("")
  }

  /** `handleNonPrimitiveType`. */
  function RenderComposite(n: Node): Result<string>
  {
    match n
    case Card(sections, buttons) =>
      Concat(PrimitiveList(sections, ""), ButtonList(buttons))
    case CardGroup(_, title, description, cards, sections, buttons) =>
      Prefixed("\n" + Show(title) + "\n" + Show(description),
        Concat(Concat(CompositeList(cards, "\n"), PrimitiveList(sections, "\n ")), ButtonList(buttons)))
    case Options(packet, options) =>
      var head := if packet.None? then Ok("") else Prefixed("\n ", RenderPrimitive(packet.value));
      Concat(head, ButtonLines(options))
    case Form(body) =>
      if body.None? then Err(TypeError) else Ok("\n " + Show(body.value) + "\n Fill Form")
    case FilledForm(fields) => PrimitiveList(fields, "\n ")
    case Bare(t) => if t in NonPrimitiveTypes then Err(TypeError) else Ok(UnhandledComposite)
    case _ => Ok(UnhandledComposite)
  }

  /** `prefix` + primitive rendering of each node, in order. */
  function PrimitiveEach(ns: seq<Node>, prefix: string): Result<string>
  {
    if ns == [] then Ok("")
    else Concat(PrimitiveEach(ns[..|ns| - 1], prefix), Prefixed(prefix, RenderPrimitive(ns[|ns| - 1])))
  }

  /** `prefix` + composite rendering of each node, in order. */
  function CompositeEach(ns: seq<Node>, prefix: string): Result<string>
  {
    if ns == [] then Ok("")
    else Concat(CompositeEach(ns[..|ns| - 1], prefix), Prefixed(prefix, RenderComposite(ns[|ns| - 1])))
  }

  /** `list.map(...)` over primitive nodes: an absent list throws. */
  function PrimitiveList(ns: NodeList, prefix: string): Result<string>
  {
    match ns
    case Missing => Err(TypeError)
    case Nodes(l) => PrimitiveEach(l, prefix)
  }

  /** `list.map(...)` over composite nodes: an absent list throws. */
  function CompositeList(ns: NodeList, prefix: string): Result<string>
  {
    match ns
    case Missing => Err(TypeError)
    case Nodes(l) => CompositeEach(l, prefix)
  }

  /** `BUTTONS.map(...)`: an absent list throws. */
  function ButtonList(bs: Option<seq<OptionButton>>): Result<string>
  {
    if bs.None? then Err(TypeError) else ButtonLines(bs.value)
  }

  /** The primitive rendering of every cell of every row, row by row. */
  function TableRows(rows: seq<Row>): Result<string>
  {
    if rows == [] then Ok("")
    else
      var last := match rows[|rows| - 1]
        case NoCells => Err(TypeError)
        case Row(cells) => PrimitiveEach(cells, "");
      Concat(TableRows(rows[..|rows| - 1]), last)
  }

  /** Every row of the table has its cells. */
  predicate HasCells(rows: seq<Row>)
  {
    forall i | 0 <= i < |rows| :: rows[i].Row?
  }

  /** All the cells of a table, row-major (a row without cells contributes none). */
  function Cells(rows: seq<Row>): seq<Node>
  {
    if rows == [] then []
    else Cells(rows[..|rows| - 1]) + (if rows[|rows| - 1].NoCells? then [] else rows[|rows| - 1].cells)
  }

  /** No node of the tree can make the renderer throw: no IMAGE_ARRAY, no
      node without the `data` its renderer reads, no list the renderer maps
      over missing, and no button without `optionData`. */
  predicate CrashFree(n: Node)
  {
    match n
    case ImageArray => false
    case Form(body) => body.Some?
    case Bare(t) => !ReadsData(t)
    case Table(Rows(rows)) => forall i | 0 <= i < |rows| :: RowCrashFree(rows[i])
    case Card(Nodes(sections), Some(buttons)) =>
      Labelled(buttons) && forall i | 0 <= i < |sections| :: CrashFree(sections[i])
    case CardGroup(_, _, _, Nodes(cards), Nodes(sections), Some(buttons)) =>
      && Labelled(buttons)
      && (forall i | 0 <= i < |cards| :: CrashFree(cards[i]))
      && (forall i | 0 <= i < |sections| :: CrashFree(sections[i]))
    case Options(None, options) => Labelled(options)
    case Options(Some(p), options) => CrashFree(p) && Labelled(options)
    case FilledForm(Nodes(fields)) => forall i | 0 <= i < |fields| :: CrashFree(fields[i])
    case ImageGroup(_, images) => images.Some?
    case Table(MissingRows) => false
    case Card(_, _) => false
    case CardGroup(_, _, _, _, _, _) => false
    case FilledForm(Missing) => false
    case _ => true
  }

  /** A table row with its cells, none of which can throw. */
  predicate RowCrashFree(r: Row)
  {
    match r
    case NoCells => false
    case Row(cells) => forall j | 0 <= j < |cells| :: CrashFree(cells[j])
  }

  // ---------------------------------------------------------------------------
  // Properties of the renderer
  // ---------------------------------------------------------------------------

  /** Appending one more rendering, behind `prefix`, to text that stands for
      the renderings so far: a throw is the outcome, otherwise the text grows. */
  lemma ConcatStep(prev: Result<string>, next: Result<string>, prefix: string, acc: string, s: string)
    requires prev.Ok? && s == acc + prev.value
    ensures next.Err? ==> Concat(prev, Prefixed(prefix, next)) == next
    ensures next.Ok? ==> Concat(prev, Prefixed(prefix, next)).Ok?
                         && s + prefix + next.value == acc + Concat(prev, Prefixed(prefix, next)).value
  {
    if next.Ok? {
      assert s + prefix + next.value == acc + (prev.value + (prefix + next.value));
    }
  }

  /** Concatenating renderings is associative. */
  lemma ConcatAssoc(a: Result<string>, b: Result<string>, c: Result<string>)
    ensures Concat(Concat(a, b), c) == Concat(a, Concat(b, c))
  {
    if a.Ok? && b.Ok? && c.Ok? {
      assert (a.value + b.value) + c.value == a.value + (b.value + c.value);
    }
  }

  /** An empty rendering in front changes nothing. */
  lemma ConcatEmptyLeft(b: Result<string>)
    ensures Concat(Ok(""), b) == b
  {
    if b.Ok? {
      assert "" + b.value == b.value;
    }
  }

  /** An empty rendering behind changes nothing. */
  lemma ConcatEmptyRight(a: Result<string>)
    ensures Concat(a, Ok("")) == a
  {
    if a.Ok? {
      assert a.value + "" == a.value;
    }
  }

  /** Rendering a list of sections in order: the rendering of `a + b` is the
      rendering of `a` followed by the rendering of `b`, with nothing between. */
  lemma {:induction false} PrimitiveEachAppend(a: seq<Node>, b: seq<Node>, prefix: string)
    ensures PrimitiveEach(a + b, prefix) == Concat(PrimitiveEach(a, prefix), PrimitiveEach(b, prefix))
    decreases |b|
  {
    if b == [] {
      assert a + b == a;
      ConcatEmptyRight(PrimitiveEach(a, prefix));
    } else {
      var b' := b[..|b| - 1];
      var last := Prefixed(prefix, RenderPrimitive(b[|b| - 1]));
      assert (a + b)[..|a + b| - 1] == a + b';
      assert (a + b)[|a + b| - 1] == b[|b| - 1];
      PrimitiveEachAppend(a, b', prefix);
      ConcatAssoc(PrimitiveEach(a, prefix), PrimitiveEach(b', prefix), last);
    }
  }

  /** Button lines of `a + b` are those of `a` followed by those of `b`. */
  lemma {:induction false} ButtonLinesAppend(a: seq<OptionButton>, b: seq<OptionButton>)
    ensures ButtonLines(a + b) == Concat(ButtonLines(a), ButtonLines(b))
    decreases |b|
  {
    if b == [] {
      assert a + b == a;
      ConcatEmptyRight(ButtonLines(a));
    } else {
      var b' := b[..|b| - 1];
      assert (a + b)[..|a + b| - 1] == a + b';
      assert (a + b)[|a + b| - 1] == b[|b| - 1];
      ButtonLinesAppend(a, b');
      ConcatAssoc(ButtonLines(a), ButtonLines(b'), OptionLine(b[|b| - 1]));
    }
  }

  /** The button lines render exactly when every button has its `optionData`. */
  lemma {:induction false} ButtonLinesOk(bs: seq<OptionButton>)
    ensures ButtonLines(bs).Ok? <==> Labelled(bs)
    decreases |bs|
  {
    if bs != [] {
      var init := bs[..|bs| - 1];
      ButtonLinesOk(init);
      assert Labelled(bs) <==> Labelled(init) && bs[|bs| - 1].OptionButton? by {
        if Labelled(init) && bs[|bs| - 1].OptionButton? {
          forall i | 0 <= i < |bs| ensures bs[i].OptionButton? {
            if i < |bs| - 1 { assert bs[i] == init[i]; }
          }
        }
        if Labelled(bs) {
          forall i | 0 <= i < |init| ensures init[i].OptionButton? {
            assert init[i] == bs[i];
          }
        }
      }
    }
  }

  /** A table renders as the primitive renderings of its cells, row-major, with
      no separator added between cells or rows; a row without cells always
      makes it throw. */
  lemma {:induction false} TableIsRowMajor(rows: seq<Row>)
    ensures HasCells(rows) ==> RenderPrimitive(Table(Rows(rows))) == PrimitiveEach(Cells(rows), "")
    ensures RenderPrimitive(Table(Rows(rows))).Ok? ==> HasCells(rows)
    decreases |rows|
  {
    if rows != [] {
      var init := rows[..|rows| - 1];
      var last := rows[|rows| - 1];
      TableIsRowMajor(init);
      assert HasCells(rows) ==> HasCells(init) by {
        if HasCells(rows) {
          forall i | 0 <= i < |init| ensures init[i].Row? {
            assert init[i] == rows[i];
          }
        }
      }
      if last.Row? {
        PrimitiveEachAppend(Cells(init), last.cells, "");
      }
      if TableRows(rows).Ok? {
        assert TableRows(init).Ok? && last.Row?;
        forall i | 0 <= i < |rows| ensures rows[i].Row? {
          if i < |rows| - 1 { assert rows[i] == init[i]; }
        }
      }
    }
  }

  /** A card renders its sections (in order) and then its buttons (in order):
      splitting either list splits the output at the same place. */
  lemma CardSectionsThenButtons(s1: seq<Node>, s2: seq<Node>, b1: seq<OptionButton>, b2: seq<OptionButton>)
    ensures RenderComposite(Card(Nodes(s1 + s2), Some(b1 + b2)))
         == Concat(Concat(PrimitiveEach(s1, ""), PrimitiveEach(s2, "")), Concat(ButtonLines(b1), ButtonLines(b2)))
  {
    var n := Card(Nodes(s1 + s2), Some(b1 + b2));
    assert RenderComposite(n) == Concat(PrimitiveList(Nodes(s1 + s2), ""), ButtonList(Some(b1 + b2)));
    PrimitiveEachAppend(s1, s2, "");
    ButtonLinesAppend(b1, b2);
  }

  /** Every list a composite renderer maps over without a guard throws when
      it is absent. */
  lemma MissingListsThrow(v: bool, title: Field, description: Field,
                          ns: NodeList, bs: Option<seq<OptionButton>>)
    ensures RenderComposite(Card(Missing, bs)) == Err(TypeError)
    ensures RenderComposite(Card(Nodes([]), None)) == Err(TypeError)
    ensures RenderComposite(CardGroup(v, title, description, Missing, ns, bs)) == Err(TypeError)
    ensures RenderComposite(FilledForm(Missing)) == Err(TypeError)
  {
  }

  /** A button without `optionData` throws, on a card as among options. */
  lemma UnlabelledButtonThrows(caption: Field)
    ensures RenderComposite(Options(None, [NoOptionData])) == Err(TypeError)
    ensures RenderComposite(Card(Nodes([]), Some([OptionButton(caption), NoOptionData]))) == Err(TypeError)
  {
    assert [NoOptionData][..0] == [];
    var bs := [OptionButton(caption), NoOptionData];
    assert bs[..1] == [OptionButton(caption)];
    assert ButtonLines(bs) == Concat(ButtonLines(bs[..1]), OptionLine(NoOptionData));
  }

  /** The same for the lists the primitive renderers map over. */
  lemma MissingRowsThrow(v: bool)
    ensures RenderPrimitive(Table(MissingRows)) == Err(TypeError)
    ensures RenderPrimitive(Table(Rows([NoCells]))) == Err(TypeError)
    ensures RenderPrimitive(ImageGroup(v, None)) == Err(TypeError)
  {
    assert [NoCells][..0] == [];
  }

  /** A node that carries only its `type`: the primitive switch throws on it
      exactly when its case reads a property of `data`, and the composite
      switch throws on it exactly when its tag is a composite one. */
  lemma BareRenderings(n: Node)
    requires n.Bare?
    ensures RenderPrimitive(n).Err? <==> n.tag in PrimitiveCases && n.tag !in DataFreeCases
    ensures RenderComposite(n).Err? <==> n.tag in NonPrimitiveTypes
  {
  }

  /** Without `data`, TEXT prints "undefined". */
  lemma BareTextUndefined(n: Node)
    requires n.Bare? && n.tag == TEXT
    ensures RenderBot(n) == Ok("\n" + Show(None))
  {
    assert Tag(n) in PrimitiveTypes;
    assert RenderBot(n) == RenderPrimitive(n) == BarePrimitive(TEXT);
    assert TEXT in PrimitiveCases && TEXT in DataFreeCases;
  }

  /** Totality of the primitive path: a crash-free tree renders without throwing. */
  lemma {:induction false} CrashFreePrimitive(n: Node)
    requires CrashFree(n)
    ensures RenderPrimitive(n).Ok?
    decreases n, 2
  {
    match n
    case Table(Rows(rows)) => CrashFreeRows(rows);
    case ImageArray => assert false;
    case _ =>
  }

  /** Totality of the composite path, under the same condition. */
  lemma {:induction false} CrashFreeComposite(n: Node)
    requires CrashFree(n)
    ensures RenderComposite(n).Ok?
    decreases n, 2
  {
    match n
    case Card(Nodes(sections), Some(buttons)) =>
      CrashFreeEach(sections, "");
      ButtonLinesOk(buttons);
    case CardGroup(_, _, _, Nodes(cards), Nodes(sections), Some(buttons)) =>
      CrashFreeEach(cards, "\n");
      CrashFreeEach(sections, "\n ");
      ButtonLinesOk(buttons);
    case Options(packet, options) =>
      if packet.Some? { CrashFreePrimitive(packet.value); }
      ButtonLinesOk(options);
    case FilledForm(Nodes(fields)) => CrashFreeEach(fields, "\n ");
    case Form(body) =>
    case _ =>
  }

  /** Totality of `handleBot`, whichever list the tag is in (unknown tags never throw). */
  lemma CrashFreeRenders(n: Node)
    requires CrashFree(n)
    ensures RenderBot(n).Ok?
  {
    CrashFreePrimitive(n);
    CrashFreeComposite(n);
  }

  /** A list of crash-free nodes renders on either path. */
  lemma {:induction false} CrashFreeEach(ns: seq<Node>, prefix: string)
    requires forall i | 0 <= i < |ns| :: CrashFree(ns[i])
    ensures PrimitiveEach(ns, prefix).Ok? && CompositeEach(ns, prefix).Ok?
    decreases ns, 0
  {
    if ns != [] {
      CrashFreeEach(ns[..|ns| - 1], prefix);
      CrashFreePrimitive(ns[|ns| - 1]);
      CrashFreeComposite(ns[|ns| - 1]);
    }
  }

  /** Rows of crash-free cells render. */
  lemma {:induction false} CrashFreeRows(rows: seq<Row>)
    requires forall i | 0 <= i < |rows| :: RowCrashFree(rows[i])
    ensures TableRows(rows).Ok?
    decreases rows
  {
    if rows != [] {
      CrashFreeRows(rows[..|rows| - 1]);
      assert RowCrashFree(rows[|rows| - 1]);
      match rows[|rows| - 1]
      case Row(cells) => CrashFreeEach(cells, "");
    }
  }

  /** IMAGE_ARRAY loops over the node's own keys, meets `type` first, and throws. */
  lemma ImageArrayThrows()
    ensures RenderBot(ImageArray) == Err(TypeError)
  {
  }

  /** Placeholders: any node that is not a case of the primitive switch renders
      as "Unhandled FROM DATAPACKET" there; any node not in the composite list
      renders as "Unhandled non Datapacket" there; neither ever throws. */
  lemma Placeholders(n: Node)
    ensures Tag(n) !in PrimitiveCases ==> RenderPrimitive(n) == Ok(UnhandledPrimitive)
    ensures Tag(n) !in NonPrimitiveTypes ==> RenderComposite(n) == Ok(UnhandledComposite)
  {
  }

  /** A node whose `type` is in neither list prints as "\n[object Object]" on
      the top-level path, whatever else it carries. */
  lemma UnlistedTagRenderings(n: Node)
    ensures Tag(n) !in PrimitiveTypes && Tag(n) !in NonPrimitiveTypes ==> RenderBot(n) == Ok("\n" + ObjectString)
  {
  }

  /** `HSEPERETOR` is listed for the primitive path but matched by no case there. */
  lemma MisspeltSeparatorUnhandled()
    ensures RenderBot(HSeperetor) == Ok(UnhandledPrimitive)
  {
  }

  /** `HSEPARATOR` is a case of the primitive switch but listed nowhere, so
      `handleBot` never reaches that case. */
  lemma SeparatorCaseUnreachable()
    ensures RenderPrimitive(HSeparator) == Ok("")
    ensures RenderBot(HSeparator) == Ok("\n" + ObjectString)
  {
    assert Tag(HSeparator) !in PrimitiveTypes;
  }

  /** `VSEPERETOR` is both listed and matched: it prints nothing. */
  lemma VerticalSeparatorEmpty()
    ensures RenderBot(VSeperetor) == Ok("")
  {
  }

  /** OPTIONS: the packet line comes first and only when a packet is present. */
  lemma OptionsPacketFirst(p: Node, opts: seq<OptionButton>)
    ensures RenderComposite(Options(None, opts)) == ButtonLines(opts)
    ensures RenderComposite(Options(Some(p), opts)) == Concat(Prefixed("\n ", RenderPrimitive(p)), ButtonLines(opts))
  {
    ConcatEmptyLeft(ButtonLines(opts));
  }

  /** FILLED_FORM: each field on its own `\n ` line, in order. */
  lemma FilledFormInOrder(f1: seq<Node>, f2: seq<Node>)
    ensures RenderComposite(FilledForm(Nodes(f1 + f2))) == Concat(PrimitiveEach(f1, "\n "), PrimitiveEach(f2, "\n "))
  {
    PrimitiveEachAppend(f1, f2, "\n ");
  }
}
