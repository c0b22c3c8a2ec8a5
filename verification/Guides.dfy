/** The credential guides shown to an admin: HTML messages built piece by piece, which the
    plain-text fallback must still show in full. */
module Guides {

  import opened Decimal
  import opened Text
  import opened Escape
  import opened Registry

  /** The walkthrough of one provider type. */
  datatype Guide = Guide(title: string, steps: seq<string>, example: string)

  // The tags, by their place among the stripped patterns.
  const OPEN_QUOTE := 0
  const CLOSE_QUOTE := 2
  const OPEN_BOLD := 3
  const CLOSE_BOLD := 4
  const OPEN_CODE := 5
  const CLOSE_CODE := 6

  /** Text that escaping leaves alone. */
  predicate Inert(s: string) {
    '&' !in s && '<' !in s && '>' !in s
  }

  lemma InertEsc(s: string)
    requires Inert(s)
    ensures HtmlEsc(s) == s
  {
    ReplaceAbsent(s, '&', "&amp;");
    ReplaceAbsent(s, '<', "&lt;");
    ReplaceAbsent(s, '>', "&gt;");
  }

  /** A text between two inert ones is escaped on its own. */
  lemma EscBetween(a: string, s: string, b: string)
    requires Inert(a) && Inert(b)
    ensures HtmlEsc(a + s + b) == a + HtmlEsc(s) + b
  {
    EscSplit(a + s, b);
    EscSplit(a, s);
    InertEsc(a);
    InertEsc(b);
  }

  function Names(fields: seq<Field>, required: bool): seq<string> {
    if fields == [] then []
    else
      var last := fields[|fields| - 1];
      Names(fields[..|fields| - 1], required) + if last.required == required then [last.name] else []
  }

  function StepText(i: nat, step: string): string {
    Itoa(i + 1) + ". " + step + "\n"
  }

  function StepDoc(steps: seq<string>): seq<Piece> {
    if steps == [] then []
    else StepDoc(steps[..|steps| - 1]) + [Piece.Text(StepText(|steps| - 1, steps[|steps| - 1]))]
  }

  // The fixed texts.
  const TITLE_END := " — как получить креды"
  const REQUIRED := "\nОбязательные поля: "
  const OPTIONAL := "Необязательные: "
  const VALUES_START := "Все значения в JSON — "
  const VALUES_HOW := "строками (region_id"
  const VALUES_END := " тоже: \"7\").\n"
  const VALUES := VALUES_START + VALUES_HOW + VALUES_END
  const EXAMPLE := "Пример:\n"

  lemma ShortInert()
    ensures Inert(TITLE_END) && Inert(EXAMPLE) && Inert("\n") && Inert("")
  {
  }

  lemma RequiredInert()
    ensures Inert(REQUIRED) && Inert(OPTIONAL)
  {
  }

  lemma ValuesInert()
    ensures Inert(VALUES)
  {
    StartInert();
    HowInert();
    EndInert();
    hide VALUES_START, VALUES_HOW, VALUES_END;
  }

  lemma StartInert()
    ensures Inert(VALUES_START)
  {
  }

  lemma HowInert()
    ensures Inert(VALUES_HOW)
  {
  }

  lemma EndInert()
    ensures Inert(VALUES_END)
  {
  }

  function TitleDoc(title: string): seq<Piece> {
    [Tag(OPEN_BOLD), Piece.Text(title + TITLE_END), Tag(CLOSE_BOLD), Piece.Text("\n"), Tag(OPEN_QUOTE)]
  }

  function RequiredDoc(req: string): seq<Piece> {
    [Tag(CLOSE_QUOTE), Piece.Text(REQUIRED), Tag(OPEN_BOLD), Piece.Text(req), Tag(CLOSE_BOLD), Piece.Text("\n")]
  }

  function OptionalDoc(opt: seq<string>): seq<Piece> {
    if opt == [] then [] else [Piece.Text(OPTIONAL + Join(opt, ", ") + "\n")]
  }

  function ExampleDoc(example: string): seq<Piece> {
    [Piece.Text(VALUES), Piece.Text(EXAMPLE), Tag(OPEN_CODE), Piece.Text(example), Tag(CLOSE_CODE)]
  }

  /** A guide as a document. */
  function GuideDoc(g: Guide, fields: seq<Field>): seq<Piece> {
    TitleDoc(g.title) + StepDoc(g.steps) + RequiredDoc(Join(Names(fields, true), ", "))
    + OptionalDoc(Names(fields, false)) + ExampleDoc(g.example)
  }

  lemma {:induction false} RenderConcat(a: seq<Piece>, b: seq<Piece>)
    requires IsDocument(a) && IsDocument(b)
    ensures IsDocument(a + b) && Render(a + b) == Render(a) + Render(b)
  {
    hide RenderPiece;
    if a == [] {
      assert a + b == b;
    } else {
      assert (a + b)[1..] == a[1..] + b;
      RenderConcat(a[1..], b);
    }
  }

  lemma RenderOne(p: Piece)
    requires p.Tag? ==> p.index < TAGS
    ensures IsDocument([p]) && Render([p]) == RenderPiece(p)
  {
    assert [p][1..] == [];
    assert Render([]) == "";
  }

  lemma RenderAdd(doc: seq<Piece>, p: Piece)
    requires IsDocument(doc) && (p.Tag? ==> p.index < TAGS)
    ensures IsDocument(doc + [p]) && Render(doc + [p]) == Render(doc) + RenderPiece(p)
  {
    RenderOne(p);
    RenderConcat(doc, [p]);
  }

  /** The string builder the guides are written with. `doc` is the document written so far. */
  class Builder {
    var text: string
    ghost var doc: seq<Piece>

    ghost predicate Valid()
      reads this
    {
      IsDocument(doc) && text == Render(doc)
    }

    constructor ()
      ensures Valid() && doc == []
    {
      text, doc := "", [];
    }

    method WriteTag(index: nat)
      requires Valid() && index < TAGS
      modifies this
      ensures Valid() && doc == old(doc) + [Tag(index)]
    {
      RenderAdd(doc, Tag(index));
      text := text + STRIP[index].pat;
      doc := doc + [Tag(index)];
    }

    /** Fixed text, written as it is. */
    method WriteFixed(s: string)
      requires Valid() && Inert(s)
      modifies this
      ensures Valid() && doc == old(doc) + [Piece.Text(s)]
    {
      InertEsc(s);
      RenderAdd(doc, Piece.Text(s));
      text := text + s;
      doc := doc + [Piece.Text(s)];
    }

    /** Variable text between two fixed ones: only the variable part is escaped. */
    method WriteEscaped(before: string, s: string, after: string)
      requires Valid() && Inert(before) && Inert(after)
      modifies this
      ensures Valid() && doc == old(doc) + [Piece.Text(before + s + after)]
    {
      EscBetween(before, s, after);
      RenderAdd(doc, Piece.Text(before + s + after));
      text := text + (before + HtmlEsc(s) + after);
      doc := doc + [Piece.Text(before + s + after)];
    }
  }

  method SplitNames(fields: seq<Field>) returns (req: seq<string>, opt: seq<string>)
    ensures req == Names(fields, true) && opt == Names(fields, false)
  {
    req, opt := [], [];
    for i := 0 to |fields|
      invariant req == Names(fields[..i], true) && opt == Names(fields[..i], false)
    {
      assert fields[..i + 1][..i] == fields[..i];
      if fields[i].required {
        req := req + [fields[i].name];
      } else {
        opt := opt + [fields[i].name];
      }
    }
    assert fields[..|fields|] == fields;
  }

  lemma NumberInert(i: nat)
    ensures Inert(Itoa(i) + ". ")
  {
    forall c | c in Itoa(i) ensures IsDigit(c) {
      ItoaChars(i, c);
    }
  }

  method WriteSteps(b: Builder, steps: seq<string>)
    requires b.Valid()
    modifies b
    ensures b.Valid() && b.doc == old(b.doc) + StepDoc(steps)
  {
    hide HtmlEsc, Render, Itoa, Inert;
    for i := 0 to |steps|
      invariant b.Valid() && b.doc == old(b.doc) + StepDoc(steps[..i])
    {
      NumberInert(i + 1);
      ShortInert();
      b.WriteEscaped(Itoa(i + 1) + ". ", steps[i], "\n");
      assert steps[..i + 1][..i] == steps[..i];
    }
    assert steps[..|steps|] == steps;
  }

  method WriteTitle(b: Builder, title: string)
    requires b.Valid()
    modifies b
    ensures b.Valid() && b.doc == old(b.doc) + TitleDoc(title)
  {
    hide HtmlEsc, Render, Inert, TITLE_END;
    ShortInert();
    b.WriteTag(OPEN_BOLD);
    b.WriteEscaped("", title, TITLE_END);
    b.WriteTag(CLOSE_BOLD);
    b.WriteFixed("\n");
    b.WriteTag(OPEN_QUOTE);
    assert "" + title + TITLE_END == title + TITLE_END;
  }

  method WriteRequired(b: Builder, req: string)
    requires b.Valid()
    modifies b
    ensures b.Valid() && b.doc == old(b.doc) + RequiredDoc(req)
  {
    hide HtmlEsc, Render, Inert, REQUIRED;
    RequiredInert();
    ShortInert();
    b.WriteTag(CLOSE_QUOTE);
    b.WriteFixed(REQUIRED);
    b.WriteTag(OPEN_BOLD);
    b.WriteEscaped("", req, "");
    b.WriteTag(CLOSE_BOLD);
    b.WriteFixed("\n");
    assert "" + req + "" == req;
  }

  method WriteExample(b: Builder, example: string)
    requires b.Valid()
    modifies b
    ensures b.Valid() && b.doc == old(b.doc) + ExampleDoc(example)
  {
    hide HtmlEsc, Render, Inert, VALUES, EXAMPLE;
    ShortInert();
    ValuesInert();
    b.WriteFixed(VALUES);
    b.WriteFixed(EXAMPLE);
    b.WriteTag(OPEN_CODE);
    b.WriteEscaped("", example, "");
    b.WriteTag(CLOSE_CODE);
    assert "" + example + "" == example;
  }

  /** The guide is written piece by piece; the result is the rendering of the guide as a
      document, so the plain-text fallback shows exactly its text. */
  method GuideHTML(g: Guide, fields: seq<Field>) returns (html: string)
    ensures IsDocument(GuideDoc(g, fields)) && html == Render(GuideDoc(g, fields))
    ensures StripTags(html) == Plain(GuideDoc(g, fields))
  {
    hide HtmlEsc, Render, Plain, Inert, Join, Names, StripTags, OPTIONAL, TitleDoc, RequiredDoc, StepDoc, ExampleDoc, IsDocument;
    ShortInert();
    RequiredInert();
    var req, opt := SplitNames(fields);
    var b := new Builder();
    WriteTitle(b, g.title);
    WriteSteps(b, g.steps);
    WriteRequired(b, Join(req, ", "));
    if |opt| > 0 {
      b.WriteEscaped(OPTIONAL, Join(opt, ", "), "\n");
    }
    WriteExample(b, g.example);
    assert b.doc == GuideDoc(g, fields);
    StripShowsPlainText(GuideDoc(g, fields));
    html := b.text;
  }

  // ---- what a guide shows ----

  /** The required names are those of the required fields, the others those of the others. */
  lemma {:induction false} NamesExactly(fields: seq<Field>, required: bool, name: string)
    ensures name in Names(fields, required) <==> exists i :: 0 <= i < |fields| && fields[i].name == name && fields[i].required == required
  {
    if fields != [] {
      var n := |fields| - 1;
      NamesExactly(fields[..n], required, name);
      assert forall i :: 0 <= i < n ==> fields[..n][i] == fields[i];
      assert fields[n].required == required && fields[n].name == name ==> name in Names(fields, required);
    }
  }

  /** The steps are numbered from one. */
  lemma {:induction false} StepShown(steps: seq<string>, i: nat)
    requires i < |steps|
    ensures |StepDoc(steps)| == |steps| && StepDoc(steps)[i] == Piece.Text(Itoa(i + 1) + ". " + steps[i] + "\n")
  {
    var n := |steps| - 1;
    if i < n {
      StepShown(steps[..n], i);
    } else if n > 0 {
      StepShown(steps[..n], 0);
    }
  }

  lemma RenderFive(a: Piece, b: Piece, c: Piece, d: Piece, e: Piece)
    requires a.Tag? ==> a.index < TAGS
    requires b.Tag? ==> b.index < TAGS
    requires c.Tag? ==> c.index < TAGS
    requires d.Tag? ==> d.index < TAGS
    requires e.Tag? ==> e.index < TAGS
    ensures IsDocument([a, b, c, d, e])
    ensures Render([a, b, c, d, e]) == RenderPiece(a) + RenderPiece(b) + RenderPiece(c) + RenderPiece(d) + RenderPiece(e)
  {
    hide RenderPiece;
    RenderAdd([], a);
    RenderAdd([] + [a], b);
    RenderAdd([] + [a] + [b], c);
    RenderAdd([] + [a] + [b] + [c], d);
    RenderAdd([] + [a] + [b] + [c] + [d], e);
    assert [a, b, c, d, e] == [] + [a] + [b] + [c] + [d] + [e];
    assert "" + RenderPiece(a) == RenderPiece(a);
  }

  /** The title is bold and the steps that follow are in an expandable quote, ... */
  lemma TitleShown(title: string)
    ensures IsDocument(TitleDoc(title))
    ensures Render(TitleDoc(title)) == "<b>" + HtmlEsc(title + TITLE_END) + "</b>" + HtmlEsc("\n") + "<blockquote expandable>"
  {
    hide HtmlEsc, TITLE_END, Render;
    TagNames();
    RenderFive(Tag(3), Piece.Text(title + TITLE_END), Tag(4), Piece.Text("\n"), Tag(0));
  }

  /** ... the required names are bold, ... */
  lemma RequiredShown(req: string)
    ensures IsDocument(RequiredDoc(req))
    ensures Render(RequiredDoc(req)) == "</blockquote>" + HtmlEsc(REQUIRED) + "<b>" + HtmlEsc(req) + "</b>" + HtmlEsc("\n")
  {
    hide HtmlEsc, REQUIRED, Render;
    TagNames();
    var five := [Tag(2), Piece.Text(REQUIRED), Tag(3), Piece.Text(req), Tag(4)];
    RenderFive(Tag(2), Piece.Text(REQUIRED), Tag(3), Piece.Text(req), Tag(4));
    RenderAdd(five, Piece.Text("\n"));
    assert RequiredDoc(req) == five + [Piece.Text("\n")];
  }

  /** ... and the example is set as code. */
  lemma ExampleShown(example: string)
    ensures IsDocument(ExampleDoc(example))
    ensures Render(ExampleDoc(example)) == HtmlEsc(VALUES) + HtmlEsc(EXAMPLE) + "<code>" + HtmlEsc(example) + "</code>"
  {
    hide HtmlEsc, VALUES, EXAMPLE, Render;
    TagNames();
    RenderFive(Piece.Text(VALUES), Piece.Text(EXAMPLE), Tag(5), Piece.Text(example), Tag(6));
  }

  /** The plain text of a guide: the title, the numbered steps, the required and the optional names, and
      the example, in this order. */
  lemma GuideShows(g: Guide, fields: seq<Field>)
    ensures var req, opt := Names(fields, true), Names(fields, false);
      Plain(GuideDoc(g, fields)) ==
        (g.title + TITLE_END + "\n") + Plain(StepDoc(g.steps)) + (REQUIRED + Join(req, ", ") + "\n")
        + (if opt == [] then "" else OPTIONAL + Join(opt, ", ") + "\n") + (VALUES + EXAMPLE + g.example)
  {
    hide TITLE_END, REQUIRED, OPTIONAL, VALUES, EXAMPLE, Join, Names, StepDoc, TitleDoc, RequiredDoc, OptionalDoc, ExampleDoc, Plain;
    var req, opt := Names(fields, true), Names(fields, false);
    PlainConcat(TitleDoc(g.title) + StepDoc(g.steps) + RequiredDoc(Join(req, ", ")) + OptionalDoc(opt), ExampleDoc(g.example));
    PlainConcat(TitleDoc(g.title) + StepDoc(g.steps) + RequiredDoc(Join(req, ", ")), OptionalDoc(opt));
    PlainConcat(TitleDoc(g.title) + StepDoc(g.steps), RequiredDoc(Join(req, ", ")));
    PlainConcat(TitleDoc(g.title), StepDoc(g.steps));
    PlainTitle(g.title);
    PlainRequired(Join(req, ", "));
    PlainOptional(opt);
    PlainExample(g.example);
  }

  lemma {:induction false} PlainConcat(a: seq<Piece>, b: seq<Piece>)
    ensures Plain(a + b) == Plain(a) + Plain(b)
  {
    if a == [] {
      assert a + b == b;
    } else {
      assert (a + b)[1..] == a[1..] + b;
      PlainConcat(a[1..], b);
    }
  }

  lemma PlainAdd(doc: seq<Piece>, p: Piece)
    ensures Plain(doc + [p]) == Plain(doc) + PlainPiece(p)
  {
    PlainConcat(doc, [p]);
    assert [p][1..] == [];
    assert Plain([p]) == PlainPiece(p) + Plain([]);
  }

  lemma PlainTitle(title: string)
    ensures Plain(TitleDoc(title)) == title + TITLE_END + "\n"
  {
    hide TITLE_END, Plain;
    PlainFive(Tag(OPEN_BOLD), Piece.Text(title + TITLE_END), Tag(CLOSE_BOLD), Piece.Text("\n"), Tag(OPEN_QUOTE));
  }

  lemma PlainRequired(req: string)
    ensures Plain(RequiredDoc(req)) == REQUIRED + req + "\n"
  {
    hide REQUIRED, Plain;
    var five := [Tag(CLOSE_QUOTE), Piece.Text(REQUIRED), Tag(OPEN_BOLD), Piece.Text(req), Tag(CLOSE_BOLD)];
    PlainFive(Tag(CLOSE_QUOTE), Piece.Text(REQUIRED), Tag(OPEN_BOLD), Piece.Text(req), Tag(CLOSE_BOLD));
    PlainAdd(five, Piece.Text("\n"));
    assert RequiredDoc(req) == five + [Piece.Text("\n")];
  }

  lemma PlainOptional(opt: seq<string>)
    ensures Plain(OptionalDoc(opt)) == if opt == [] then "" else OPTIONAL + Join(opt, ", ") + "\n"
  {
    hide OPTIONAL, Join;
    if opt != [] {
      var p := Piece.Text(OPTIONAL + Join(opt, ", ") + "\n");
      PlainAdd([], p);
      assert [] + [p] == OptionalDoc(opt);
      assert "" + PlainPiece(p) == PlainPiece(p);
    }
  }

  lemma PlainExample(example: string)
    ensures Plain(ExampleDoc(example)) == VALUES + EXAMPLE + example
  {
    hide VALUES, EXAMPLE, Plain;
    PlainFive(Piece.Text(VALUES), Piece.Text(EXAMPLE), Tag(OPEN_CODE), Piece.Text(example), Tag(CLOSE_CODE));
  }

  lemma PlainFive(a: Piece, b: Piece, c: Piece, d: Piece, e: Piece)
    ensures Plain([a, b, c, d, e]) == PlainPiece(a) + PlainPiece(b) + PlainPiece(c) + PlainPiece(d) + PlainPiece(e)
  {
    hide PlainPiece;
    PlainAdd([], a);
    PlainAdd([] + [a], b);
    PlainAdd([] + [a] + [b], c);
    PlainAdd([] + [a] + [b] + [c], d);
    PlainAdd([] + [a] + [b] + [c] + [d], e);
    assert [a, b, c, d, e] == [] + [a] + [b] + [c] + [d] + [e];
    assert "" + PlainPiece(a) == PlainPiece(a);
  }
}
