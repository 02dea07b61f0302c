/** The renderer object itself: the dispatch methods and the loops that build
    each composite string piece by piece, each proved to produce exactly what
    the specification functions of `DataPacket` describe. A thrown error leaves
    the loop at once and is handed back as `Err`. */
module HandleDataPacket {
  import opened Wrappers
  import opened JsText
  import opened DataPacket

  /** Once a prefix of the list has thrown, the rendering of the whole list is that throw. */
  lemma {:induction false} PrimitiveEachStopsAtErr(ns: seq<Node>, i: nat, prefix: string)
    requires i <= |ns|
    requires PrimitiveEach(ns[..i], prefix).Err?
    ensures PrimitiveEach(ns, prefix) == PrimitiveEach(ns[..i], prefix)
    decreases |ns|
  {
    if i < |ns| {
      var init := ns[..|ns| - 1];
      assert init[..i] == ns[..i];
      PrimitiveEachStopsAtErr(init, i, prefix);
    } else {
      assert ns[..i] == ns;
    }
  }

  /** The same for a list of composite nodes. */
  lemma {:induction false} CompositeEachStopsAtErr(ns: seq<Node>, i: nat, prefix: string)
    requires i <= |ns|
    requires CompositeEach(ns[..i], prefix).Err?
    ensures CompositeEach(ns, prefix) == CompositeEach(ns[..i], prefix)
    decreases |ns|
  {
    if i < |ns| {
      var init := ns[..|ns| - 1];
      assert init[..i] == ns[..i];
      CompositeEachStopsAtErr(init, i, prefix);
    } else {
      assert ns[..i] == ns;
    }
  }

  /** The same for the rows of a table. */
  lemma {:induction false} TableRowsStopsAtErr(rows: seq<Row>, i: nat)
    requires i <= |rows|
    requires TableRows(rows[..i]).Err?
    ensures TableRows(rows) == TableRows(rows[..i])
    decreases |rows|
  {
    if i < |rows| {
      var init := rows[..|rows| - 1];
      assert init[..i] == rows[..i];
      TableRowsStopsAtErr(init, i);
    } else {
      assert rows[..i] == rows;
    }
  }

  /** A card group's rendering, read off its three lists: the first list that
      throws (or is absent) decides, otherwise the parts follow one another. */
  lemma CardGroupParts(v: bool, title: Field, description: Field, cards: NodeList,
                       sections: NodeList, buttons: Option<seq<OptionButton>>)
    ensures var r := RenderComposite(CardGroup(v, title, description, cards, sections, buttons));
            var c := CompositeList(cards, "\n");
            var p := PrimitiveList(sections, "\n ");
            var b := ButtonList(buttons);
            && (c.Err? ==> r == c)
            && (c.Ok? && p.Err? ==> r == p)
            && (c.Ok? && p.Ok? && b.Err? ==> r == b)
            && (c.Ok? && p.Ok? && b.Ok? ==>
                  r == Ok("\n" + Show(title) + "\n" + Show(description) + c.value + p.value + b.value))
  {
    var c := CompositeList(cards, "\n");
    var p := PrimitiveList(sections, "\n ");
    var b := ButtonList(buttons);
    if c.Ok? && p.Ok? && b.Ok? {
      var head := "\n" + Show(title) + "\n" + Show(description);
      assert head + ((c.value + p.value) + b.value)
          == head + c.value + p.value + b.value;
    }
  }

  /** The renderer, with the two tag lists its constructor sets up. */
  class Renderer {
    const primitiveTypes: seq<TypeTag> := PrimitiveTypes
    const nonPrimitiveTypes: seq<TypeTag> := NonPrimitiveTypes

    /** `handleBot`: try the primitive list, then the composite list. */
    method HandleBot(n: Node) returns (r: Result<string>)
      ensures r == RenderBot(n)
      decreases n, 3
    {
      if Tag(n) in primitiveTypes {
        r := HandlePrimitiveType(n);
      } else if Tag(n) in nonPrimitiveTypes {
        r := HandleNonPrimitiveType(n);
      } else {
        r := Ok("\n" + ObjectString);
      }
    }

    /** `handlePrimitiveType`: the looping renderers run here; every other case
        is a single template expression, given by `RenderPrimitive`. */
    method HandlePrimitiveType(n: Node) returns (r: Result<string>)
      ensures r == RenderPrimitive(n)
      decreases n, 2
    {
      match n
      case Table(rows) =>
        r := TableType(rows);
      case ImageGroup(vertical, images) =>
        r := HorzVertzImageType(vertical, images);
      case _ =>
        r := RenderPrimitive(n);
    }

    /** `handleNonPrimitiveType`: cards, card groups, options and filled forms loop;
        FORM and the default are single expressions, given by `RenderComposite`. */
    method HandleNonPrimitiveType(n: Node) returns (r: Result<string>)
      ensures r == RenderComposite(n)
      decreases n, 2
    {
      match n
      case Card(sections, buttons) =>
        r := CardType1(sections, buttons);
      case CardGroup(_, title, description, cards, sections, buttons) =>
        r := HorzCardsType1(n.vertical, title, description, cards, sections, buttons);
      case Options(packet, options) =>
        r := OptionsType(packet, options);
      case FilledForm(fields) =>
        r := FilledFormType(fields);
      case _ =>
        r := RenderComposite(n);
    }

    /** Appends the primitive rendering of each node, each after `prefix`, to `acc`. */
    method AppendPrimitives(acc: string, ns: seq<Node>, prefix: string) returns (r: Result<string>)
      ensures r == Concat(Ok(acc), PrimitiveEach(ns, prefix))
      decreases ns, 1
    {
      var s := acc;
      var i := 0;
      while i < |ns|
        invariant 0 <= i <= |ns|
        invariant PrimitiveEach(ns[..i], prefix).Ok?
        invariant s == acc + PrimitiveEach(ns[..i], prefix).value
      {
        assert ns[..i + 1][..i] == ns[..i];
        var part := HandlePrimitiveType(ns[i]);
        assert PrimitiveEach(ns[..i + 1], prefix) == Concat(PrimitiveEach(ns[..i], prefix), Prefixed(prefix, part));
        ConcatStep(PrimitiveEach(ns[..i], prefix), part, prefix, acc, s);
        if part.Err? {
          PrimitiveEachStopsAtErr(ns, i + 1, prefix);
          return part;
        }
        s := s + prefix + part.value;
        i := i + 1;
      }
      assert ns[..i] == ns;
      r := Ok(s);
    }

    /** Appends one `\n[[label]]` line per button to `acc`; a button without
        `optionData` throws. */
    method AppendButtons(acc: string, buttons: seq<OptionButton>) returns (r: Result<string>)
      ensures r == Concat(Ok(acc), ButtonLines(buttons))
    {
      var s := acc;
      var i := 0;
      while i < |buttons|
        invariant 0 <= i <= |buttons|
        invariant ButtonLines(buttons[..i]).Ok?
        invariant s == acc + ButtonLines(buttons[..i]).value
      {
        assert buttons[..i + 1][..i] == buttons[..i];
        match buttons[i]
        case NoOptionData =>
          assert buttons[..i + 1] + buttons[i + 1..] == buttons;
          ButtonLinesAppend(buttons[..i + 1], buttons[i + 1..]);
          return Err(TypeError);
        case OptionButton(caption) =>
          s := s + "\n[[" + Show(caption) + "]]";
        i := i + 1;
      }
      assert buttons[..i] == buttons;
      r := Ok(s);
    }

    /** `cardType1`: each section's primitive rendering, then each button. */
    method CardType1(sections: NodeList, buttons: Option<seq<OptionButton>>) returns (r: Result<string>)
      ensures r == RenderComposite(Card(sections, buttons))
      decreases Card(sections, buttons), 1
    {
      if sections.Missing? {
        return Err(TypeError);
      }
      r := AppendPrimitives("", sections.nodes, "");
      ConcatEmptyLeft(PrimitiveEach(sections.nodes, ""));
      if r.Err? {
        return;
      }
      if buttons.None? {
        return Err(TypeError);
      }
      r := AppendButtons(r.value, buttons.value);
    }

    /** Appends the composite rendering of each node, each after `prefix`, to `acc`. */
    method AppendComposites(acc: string, ns: seq<Node>, prefix: string) returns (r: Result<string>)
      ensures r == Concat(Ok(acc), CompositeEach(ns, prefix))
      decreases ns, 1
    {
      var s := acc;
      var i := 0;
      while i < |ns|
        invariant 0 <= i <= |ns|
        invariant CompositeEach(ns[..i], prefix).Ok?
        invariant s == acc + CompositeEach(ns[..i], prefix).value
      {
        assert ns[..i + 1][..i] == ns[..i];
        var part := HandleNonPrimitiveType(ns[i]);
        assert CompositeEach(ns[..i + 1], prefix) == Concat(CompositeEach(ns[..i], prefix), Prefixed(prefix, part));
        ConcatStep(CompositeEach(ns[..i], prefix), part, prefix, acc, s);
        if part.Err? {
          CompositeEachStopsAtErr(ns, i + 1, prefix);
          return part;
        }
        s := s + prefix + part.value;
        i := i + 1;
      }
      assert ns[..i] == ns;
      r := Ok(s);
    }

    /** `horzCardsType1`: title, description, each card, each section, each button. */
    method HorzCardsType1(vertical: bool, title: Field, description: Field, cards: NodeList,
                          sections: NodeList, buttons: Option<seq<OptionButton>>) returns (r: Result<string>)
      ensures r == RenderComposite(CardGroup(vertical, title, description, cards, sections, buttons))
      decreases CardGroup(vertical, title, description, cards, sections, buttons), 1
    {
      var head := "\n" + Show(title) + "\n" + Show(description);
      CardGroupParts(vertical, title, description, cards, sections, buttons);
      if cards.Missing? {
        return Err(TypeError);
      }
      r := AppendComposites(head, cards.nodes, "\n");
      if r.Err? {
        return;
      }
      if sections.Missing? {
        return Err(TypeError);
      }
      r := AppendPrimitives(r.value, sections.nodes, "\n ");
      if r.Err? {
        return;
      }
      if buttons.None? {
        return Err(TypeError);
      }
      r := AppendButtons(r.value, buttons.value);
    }

    /** `options`: the packet (when present) on a `\n ` line, then each option button. */
    method OptionsType(packet: Option<Node>, options: seq<OptionButton>) returns (r: Result<string>)
      ensures r == RenderComposite(Options(packet, options))
      decreases Options(packet, options), 1
    {
      var s := "";
      if packet.Some? {
        var p := HandlePrimitiveType(packet.value);
        if p.Err? {
          return p;
        }
        s := "\n " + p.value;
      }
      r := AppendButtons(s, options);
    }

    /** `filledForm`: each field on a `\n ` line. */
    method FilledFormType(fields: NodeList) returns (r: Result<string>)
      ensures r == RenderComposite(FilledForm(fields))
      decreases FilledForm(fields), 1
    {
      if fields.Missing? {
        return Err(TypeError);
      }
      r := AppendPrimitives("", fields.nodes, "\n ");
      ConcatEmptyLeft(PrimitiveEach(fields.nodes, "\n "));
    }

    /** `table`: every cell of every row, row by row. */
    method TableType(rows: RowList) returns (r: Result<string>)
      ensures r == RenderPrimitive(Table(rows))
      decreases Table(rows), 1
    {
      if rows.MissingRows? {
        return Err(TypeError);
      }
      var rs := rows.rows;
      var tableStr := "";
      var i := 0;
      while i < |rs|
        invariant 0 <= i <= |rs|
        invariant TableRows(rs[..i]) == Ok(tableStr)
      {
        assert rs[..i + 1][..i] == rs[..i];
        if rs[i].NoCells? {
          TableRowsStopsAtErr(rs, i + 1);
          return Err(TypeError);
        }
        var row := AppendPrimitives(tableStr, rs[i].cells, "");
        if row.Err? {
          TableRowsStopsAtErr(rs, i + 1);
          return row;
        }
        tableStr := row.value;
        i := i + 1;
      }
      assert rs[..i] == rs;
      r := Ok(tableStr);
    }

    /** `horzVertzImageType`: one `\n ` line per image URL. */
    method HorzVertzImageType(vertical: bool, images: Option<seq<string>>) returns (r: Result<string>)
      ensures r == RenderPrimitive(ImageGroup(vertical, images))
    {
      if images.None? {
        return Err(TypeError);
      }
      var urls := images.value;
      var s := "";
      var i := 0;
      while i < |urls|
        invariant 0 <= i <= |urls|
        invariant s == ImageLines(urls[..i])
      {
        assert urls[..i + 1][..i] == urls[..i];
        s := s + "\n " + urls[i];
        i := i + 1;
      }
      assert urls[..i] == urls;
      r := Ok(s);
    }
  }
}
