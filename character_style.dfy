/** The shared, immutable style object (the flyweight) and its one-line summary. */
module CharacterStyles {
  import opened Formatting

  datatype TextAlignment = Left | Center | Right

  function AlignmentName(a: TextAlignment): string
  {
    match a
    case Left => "Left"
    case Center => "Center"
    case Right => "Right"
  }

  function ParseAlignment(s: string): (r: Option<TextAlignment>)
    ensures r.Some? ==> AlignmentName(r.value) == s
  {
    if s == "Left" then Some(Left)
    else if s == "Center" then Some(Center)
    else if s == "Right" then Some(Right)
    else None
  }

  lemma ParseAlignmentName(a: TextAlignment)
    ensures ParseAlignment(AlignmentName(a)) == Some(a)
    ensures LettersOnly(AlignmentName(a))
  {
    match a
    case Left =>
    case Center =>
    case Right =>
  }

  /** The seven attributes a style is made of, as a value. Two styles are
      interchangeable exactly when these are equal. */
  datatype StyleAttributes = StyleAttributes(
    font: string,
    size: int,
    bold: bool,
    italic: bool,
    color: ConsoleColor,
    underline: bool,
    alignment: TextAlignment)

  /** One field of the summary after the first: a space, the label, a colon,
      a space and the value. */
  function Labeled(name: string, value: string): string
  {
    " " + name + ": " + value
  }

  function Unlabel(field: string, name: string): (r: Option<string>)
    ensures r.Some? ==> Labeled(name, r.value) == field
  {
    StripPrefix(field, " " + name + ": ")
  }

  /** The six labelled fields that follow the font, in their fixed order. */
  function TrailingFields(a: StyleAttributes): (r: seq<string>)
    ensures |r| == 6
  {
    [ Labeled("Size", IntText(a.size)),
      Labeled("Bold", BoolText(a.bold)),
      Labeled("Italic", BoolText(a.italic)),
      Labeled("Color", ColorName(a.color)),
      Labeled("Underline", BoolText(a.underline)),
      Labeled("Text Alignment", AlignmentName(a.alignment)) ]
  }

  /** The line DisplayStyle writes (without its line break): the seven fields
      in the order Font, Size, Bold, Italic, Color, Underline, Text Alignment,
      each `Label: value`, joined by ", ". */
  function SummaryLine(a: StyleAttributes): string
  {
    JoinFields("Font: " + a.font, TrailingFields(a), ',')
  }

  /** Appending one labelled field to a joined prefix appends `, Label: value`. */
  lemma JoinLabeledStep(front: string, fields: seq<string>, i: nat, joined: string,
                        name: string, value: string, text: string)
    requires i < |fields| && fields[i] == Labeled(name, value)
    requires JoinFields(front, fields[..i], ',') == joined
    requires text == ", " + name + ": "
    ensures JoinFields(front, fields[..i + 1], ',') == joined + text + value
  {
    JoinFieldsPrefix(front, fields, ',', i);
    assert [','] + Labeled(name, value) == text + value;
  }

  /** The summary line written out: `Font: F, Size: S, Bold: B, Italic: I,
      Color: C, Underline: U, Text Alignment: A`, fields in that order. */
  lemma {:induction false} SummaryLineText(a: StyleAttributes)
    ensures SummaryLine(a)
         == "Font: " + a.font
          + ", Size: " + IntText(a.size)
          + ", Bold: " + BoolText(a.bold)
          + ", Italic: " + BoolText(a.italic)
          + ", Color: " + ColorName(a.color)
          + ", Underline: " + BoolText(a.underline)
          + ", Text Alignment: " + AlignmentName(a.alignment)
  {
    var f := TrailingFields(a);
    var front := "Font: " + a.font;
    var j1 := front + ", Size: " + IntText(a.size);
    var j2 := j1 + ", Bold: " + BoolText(a.bold);
    var j3 := j2 + ", Italic: " + BoolText(a.italic);
    var j4 := j3 + ", Color: " + ColorName(a.color);
    var j5 := j4 + ", Underline: " + BoolText(a.underline);
    assert f[..0] == [];
    JoinLabeledStep(front, f, 0, front, "Size", IntText(a.size), ", Size: ");
    JoinLabeledStep(front, f, 1, j1, "Bold", BoolText(a.bold), ", Bold: ");
    JoinLabeledStep(front, f, 2, j2, "Italic", BoolText(a.italic), ", Italic: ");
    JoinLabeledStep(front, f, 3, j3, "Color", ColorName(a.color), ", Color: ");
    JoinLabeledStep(front, f, 4, j4, "Underline", BoolText(a.underline), ", Underline: ");
    JoinLabeledStep(front, f, 5, j5, "Text Alignment", AlignmentName(a.alignment), ", Text Alignment: ");
    assert f[..6] == f;
  }

  /** Reads a summary line back, from the right: the six trailing fields hold
      no ',', so only the font may contain one. */
  function ParseSummary(line: string): Option<StyleAttributes>
  {
    var split :- SplitFields(line, ',', 6);
    var font :- StripPrefix(split.0, "Font: ");
    ParseTrailingFields(font, split.1)
  }

  function ParseTrailingFields(font: string, fields: seq<string>): Option<StyleAttributes>
    requires |fields| == 6
  {
    var sizeText :- Unlabel(fields[0], "Size");
    var size :- ParseInt(sizeText);
    var boldText :- Unlabel(fields[1], "Bold");
    var bold :- ParseBool(boldText);
    var italicText :- Unlabel(fields[2], "Italic");
    var italic :- ParseBool(italicText);
    var colorText :- Unlabel(fields[3], "Color");
    var color :- ParseColor(colorText);
    var underlineText :- Unlabel(fields[4], "Underline");
    var underline :- ParseBool(underlineText);
    var alignmentText :- Unlabel(fields[5], "Text Alignment");
    var alignment :- ParseAlignment(alignmentText);
    Some(StyleAttributes(font, size, bold, italic, color, underline, alignment))
  }

  /** A labelled field reads back to its value. */
  lemma UnlabelLabeled(name: string, value: string)
    ensures Unlabel(Labeled(name, value), name) == Some(value)
  {
    assert Labeled(name, value) == (" " + name + ": ") + value;
  }

  lemma LabeledNoComma(name: string, value: string)
    requires ',' !in name && ',' !in value
    ensures ',' !in Labeled(name, value)
  {
  }

  /** None of the six trailing fields holds a ','. */
  lemma {:induction false} TrailingNoComma(a: StyleAttributes)
    ensures forall i :: 0 <= i < 6 ==> ',' !in TrailingFields(a)[i]
  {
    ParseBoolText(a.bold);
    ParseBoolText(a.italic);
    ParseBoolText(a.underline);
    ParseColorName(a.color);
    ParseAlignmentName(a.alignment);
    LettersWithout(BoolText(a.bold), ',');
    LettersWithout(BoolText(a.italic), ',');
    LettersWithout(BoolText(a.underline), ',');
    LettersWithout(ColorName(a.color), ',');
    LettersWithout(AlignmentName(a.alignment), ',');
    IntTextWithout(a.size, ',');
    LabeledNoComma("Size", IntText(a.size));
    LabeledNoComma("Bold", BoolText(a.bold));
    LabeledNoComma("Italic", BoolText(a.italic));
    LabeledNoComma("Color", ColorName(a.color));
    LabeledNoComma("Underline", BoolText(a.underline));
    LabeledNoComma("Text Alignment", AlignmentName(a.alignment));
  }

  /** The six trailing fields read back to the attributes they were written from. */
  lemma {:induction false} ParseTrailing(a: StyleAttributes)
    ensures ParseTrailingFields(a.font, TrailingFields(a)) == Some(a)
  {
    UnlabelLabeled("Size", IntText(a.size));
    UnlabelLabeled("Bold", BoolText(a.bold));
    UnlabelLabeled("Italic", BoolText(a.italic));
    UnlabelLabeled("Color", ColorName(a.color));
    UnlabelLabeled("Underline", BoolText(a.underline));
    UnlabelLabeled("Text Alignment", AlignmentName(a.alignment));
    ParseIntText(a.size);
    ParseBoolText(a.bold);
    ParseBoolText(a.italic);
    ParseBoolText(a.underline);
    ParseColorName(a.color);
    ParseAlignmentName(a.alignment);
  }

  /** The summary line determines the style: reading it back gives the
      attributes it was written from. */
  lemma {:induction false} ParseSummaryLine(a: StyleAttributes)
    ensures ParseSummary(SummaryLine(a)) == Some(a)
  {
    TrailingNoComma(a);
    ParseTrailing(a);
    SplitJoinFields("Font: " + a.font, TrailingFields(a), ',');
    assert StripPrefix("Font: " + a.font, "Font: ") == Some(a.font);
  }

  /** Two styles print the same summary line only if all seven attributes agree. */
  lemma SummaryLineInjective(a: StyleAttributes, b: StyleAttributes)
    ensures SummaryLine(a) == SummaryLine(b) <==> a == b
  {
    ParseSummaryLine(a);
    ParseSummaryLine(b);
  }

  /** A character style: seven get-only attributes set once by the constructor.
      The cache hands out references to these objects, so their identity matters. */
  class CharacterStyle {
    const font: string
    const size: int
    const bold: bool
    const italic: bool
    const color: ConsoleColor
    const underline: bool
    const alignment: TextAlignment

    /** No validation: any size, including zero or a negative one, is accepted. */
    constructor (font: string, size: int, bold: bool, italic: bool,
                 color: ConsoleColor, underline: bool, alignment: TextAlignment)
      ensures this.font == font && this.size == size
      ensures this.bold == bold && this.italic == italic
      ensures this.color == color && this.underline == underline
      ensures this.alignment == alignment
    {
      this.font := font;
      this.size := size;
      this.bold := bold;
      this.italic := italic;
      this.color := color;
      this.underline := underline;
      this.alignment := alignment;
    }

    function Attributes(): StyleAttributes
    {
      StyleAttributes(font, size, bold, italic, color, underline, alignment)
    }

    /** What DisplayStyle writes: the summary line and a line break. */
    function DisplayStyle(): string
    {
      SummaryLine(Attributes()) + "\n"
    }
  }

  /** DisplayStyle writes one line, and that line alone is enough to recover
      every attribute of the style. */
  lemma DisplayStyleReadsBack(s: CharacterStyle)
    ensures var out := s.DisplayStyle();
      && |out| > 0 && out[|out| - 1] == '\n'
      && ParseSummary(out[..|out| - 1]) == Some(s.Attributes())
  {
    var line := SummaryLine(s.Attributes());
    ParseSummaryLine(s.Attributes());
    assert (line + "\n")[..|line|] == line;
  }
}
