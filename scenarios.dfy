/** Clients of the editor and the cache, one per unit-test scenario: each
    states as a postcondition what the corresponding test asserts. */
module Scenarios {
  import opened Formatting
  import opened CharacterStyles
  import opened StyleFactories
  import opened Characters
  import opened TextEditors

  /** Asking a new cache twice for the same attributes yields one object. */
  method SameParametersShareInstance(a: StyleAttributes)
    returns (first: CharacterStyle, second: CharacterStyle)
    ensures first.Attributes() == a
    ensures first == second
  {
    var factory := new StyleFactory();
    first := factory.GetStyle(a.font, a.size, a.bold, a.italic, a.color, a.underline, a.alignment);
    second := factory.GetStyle(a.font, a.size, a.bold, a.italic, a.color, a.underline, a.alignment);
  }

  /** Interleaved requests: the second object is the first exactly when the
      attributes agree, and asking for the first attributes again, after the
      other request, still yields the first object. */
  method DifferentParametersDistinctInstances(a: StyleAttributes, b: StyleAttributes)
    returns (first: CharacterStyle, second: CharacterStyle, again: CharacterStyle)
    ensures first.Attributes() == a && second.Attributes() == b
    ensures first == second <==> a == b
    ensures again == first
  {
    var factory := new StyleFactory();
    first := factory.GetStyle(a.font, a.size, a.bold, a.italic, a.color, a.underline, a.alignment);
    second := factory.GetStyle(b.font, b.size, b.bold, b.italic, b.color, b.underline, b.alignment);
    StyleKeyInjective(a, b);
    again := factory.GetStyle(a.font, a.size, a.bold, a.italic, a.color, a.underline, a.alignment);
  }

  /** Two characters inserted with the same style tuple share one style
      object, and the editor's cache then holds exactly one style. */
  method SameTupleOneStyle(a: StyleAttributes)
    returns (first: Character, second: Character, styleCount: nat)
    ensures first.symbol == 'A' && second.symbol == 'B'
    ensures first.style == second.style && first.style.Attributes() == a
    ensures styleCount == 1
  {
    var editor := new TextEditor();
    editor.InsertStyledCharacter('A', 0, a.font, a.size, a.bold, a.italic, a.color, a.underline, a.alignment);
    editor.InsertStyledCharacter('B', 1, a.font, a.size, a.bold, a.italic, a.color, a.underline, a.alignment);
    first := editor.document[0];
    second := editor.document[1];
    assert editor.factory.styles.Keys == {StyleKey(a)};
    styleCount := |editor.factory.styles|;
  }

  /** The short insertion on a new editor: one character with the given
      symbol and position, styled white, not underlined, left-aligned. */
  method InsertAddsCharacter(font: string, size: int, bold: bool, italic: bool)
    returns (count: nat, inserted: Character)
    ensures count == 1
    ensures inserted.symbol == 'A' && inserted.position == 0
    ensures inserted.style.Attributes() == StyleAttributes(font, size, bold, italic, White, false, Left)
  {
    var editor := new TextEditor();
    editor.InsertCharacter('A', 0, font, size, bold, italic);
    count := |editor.document|;
    inserted := editor.document[0];
  }

  /** A new editor displays nothing, whatever the console width. */
  method DisplayEmptyDocument(width: Option<int>) returns (out: string)
    ensures out == ""
  {
    var editor := new TextEditor();
    out := editor.DisplayDocument(width);
  }

  /** The summary line the unit test looks into, field by field. */
  const ArialSummary: string :=
    "Font: " + "Arial" + ", Size: " + "12" + ", Bold: " + "True" + ", Italic: " + "False"
    + ", Color: " + "Red" + ", Underline: " + "True" + ", Text Alignment: " + "Left"

  lemma TwelveText()
    ensures IntText(12) == "12"
  {
    assert NatText(12) == NatText(1) + [DigitChar(2)];
  }

  /** The summary line of the unit test's style. */
  lemma ArialSummaryLine()
    ensures SummaryLine(StyleAttributes("Arial", 12, true, false, Red, true, Left)) == ArialSummary
  {
    TwelveText();
    SummaryLineText(StyleAttributes("Arial", 12, true, false, Red, true, Left));
  }

  /** The record of an underlined, left-aligned character whose style has
      the given summary line. */
  lemma LeftUnderlinedRecord(c: Character, width: Option<int>, line: string)
    requires c.style.alignment == Left && c.style.underline
    requires SummaryLine(c.style.Attributes()) == line
    ensures Record(c, width) == [c.symbol] + "_\n" + line + "\n" + "******\n"
  {
    var pad := Padding(Left, width);
    var summary := c.style.DisplayStyle();
    assert pad == [];
    assert summary == line + "\n";
    assert c.Display(width) == pad + [c.symbol] + "_" + "\n" + summary;
    assert pad + [c.symbol] + "_" + "\n" == [c.symbol] + "_\n";
  }

  lemma ArialRecord(c: Character, width: Option<int>)
    requires c.symbol == 'A'
    requires c.style.Attributes() == StyleAttributes("Arial", 12, true, false, Red, true, Left)
    ensures Record(c, width) == "A_\n" + ArialSummary + "\n" + "******\n"
  {
    ArialSummaryLine();
    LeftUnderlinedRecord(c, width, ArialSummary);
    assert [c.symbol] + "_\n" == "A_\n";
  }

  /** One underlined, left-aligned character: its symbol and marker, its
      summary line and the separator, independent of the console width. */
  method DisplayOneCharacter(width: Option<int>) returns (out: string)
    ensures out == "A_\n" + ArialSummary + "\n" + "******\n"
  {
    var editor := new TextEditor();
    editor.InsertStyledCharacter('A', 0, "Arial", 12, true, false, Red, true, Left);
    out := editor.DisplayDocument(width);
    var c := editor.document[0];
    assert editor.document == [c];
    DocumentTextSingleton(c, width);
    ArialRecord(c, width);
  }
}
