/** The document: an append-only list of placed characters whose styles come
    from the editor's own flyweight cache, and the text DisplayDocument writes. */
module TextEditors {
  import opened Formatting
  import opened CharacterStyles
  import opened StyleFactories
  import opened Characters

  /** The line DisplayDocument writes after every character. */
  const Separator: string := "******\n"

  /** One character's record: what its Display writes, then the separator line. */
  function Record(c: Character, width: Option<int>): string
  {
    c.Display(width) + Separator
  }

  /** The whole output for a document: the records of its characters, in list order. */
  function DocumentText(document: seq<Character>, width: Option<int>): string
  {
    WriteAll(c => Record(c, width), document)
  }

  /** The output of a concatenation is the concatenation of the outputs. */
  lemma DocumentTextAppend(front: seq<Character>, back: seq<Character>, width: Option<int>)
    ensures DocumentText(front + back, width) == DocumentText(front, width) + DocumentText(back, width)
  {
    WriteAllAppend(c => Record(c, width), front, back);
  }

  lemma DocumentTextSingleton(c: Character, width: Option<int>)
    ensures DocumentText([c], width) == Record(c, width)
  {
    WriteAllSingleton(c => Record(c, width), c);
  }

  /** Extending the prefix of a document by one character extends its output
      by that character's record. */
  lemma {:induction false} DocumentTextPrefix(document: seq<Character>, i: nat, width: Option<int>)
    requires i < |document|
    ensures DocumentText(document[..i + 1], width) == DocumentText(document[..i], width) + Record(document[i], width)
  {
    assert document[..i + 1] == document[..i] + [document[i]];
    DocumentTextAppend(document[..i], [document[i]], width);
    DocumentTextSingleton(document[i], width);
  }

  /** The document's output is exactly one record per character: character
      i's record comes after the output of the characters before it and
      before the output of the characters after it. */
  lemma {:induction false} DocumentTextRecords(document: seq<Character>, width: Option<int>, i: nat)
    requires i < |document|
    ensures DocumentText(document, width)
         == DocumentText(document[..i], width) + Record(document[i], width) + DocumentText(document[i + 1..], width)
  {
    var rest := [document[i]] + document[i + 1..];
    assert document == document[..i] + rest;
    DocumentTextAppend(document[..i], rest, width);
    DocumentTextAppend([document[i]], document[i + 1..], width);
    DocumentTextSingleton(document[i], width);
  }

  class TextEditor {
    /** The characters, in insertion order. */
    var document: seq<Character>
    /** The editor's private style cache. */
    const factory: StyleFactory

    /** The cache is valid and every character's style is the object the
        cache holds for that style's attributes. */
    ghost predicate Valid()
      reads this, factory
    {
      && factory.Valid()
      && forall i :: 0 <= i < |document| ==>
           StyleKey(document[i].style.Attributes()) in factory.styles
           && factory.styles[StyleKey(document[i].style.Attributes())] == document[i].style
    }

    constructor ()
      ensures Valid() && document == [] && fresh(factory) && factory.styles == map[]
    {
      document := [];
      factory := new StyleFactory();
    }

    /** Appends a character with the given attributes; the style comes from
        the cache. Positions are not validated. */
    method InsertStyledCharacter(symbol: char, position: int, font: string, size: int,
                                 bold: bool, italic: bool, color: ConsoleColor,
                                 underline: bool, alignment: TextAlignment)
      requires Valid()
      modifies this, factory
      ensures Valid()
      ensures |document| == |old(document)| + 1
      ensures document[..|old(document)|] == old(document)
      ensures var c := document[|document| - 1];
        && fresh(c)
        && c.symbol == symbol && c.position == position
        && c.style.Attributes() == StyleAttributes(font, size, bold, italic, color, underline, alignment)
        && (StyleKey(c.style.Attributes()) in old(factory.styles) ==>
              c.style == old(factory.styles)[StyleKey(c.style.Attributes())]
              && factory.styles == old(factory.styles))
        && (StyleKey(c.style.Attributes()) !in old(factory.styles) ==>
              fresh(c.style)
              && factory.styles == old(factory.styles)[StyleKey(c.style.Attributes()) := c.style])
    {
      var style := factory.GetStyle(font, size, bold, italic, color, underline, alignment);
      var c := new Character(symbol, position, style);
      document := document + [c];
    }

    /** The short overload: white, not underlined, left-aligned. */
    method InsertCharacter(symbol: char, position: int, font: string, size: int,
                           bold: bool, italic: bool)
      requires Valid()
      modifies this, factory
      ensures Valid()
      ensures |document| == |old(document)| + 1
      ensures document[..|old(document)|] == old(document)
      ensures var c := document[|document| - 1];
        && fresh(c)
        && c.symbol == symbol && c.position == position
        && c.style.Attributes() == StyleAttributes(font, size, bold, italic, White, false, Left)
        && (StyleKey(c.style.Attributes()) in old(factory.styles) ==>
              c.style == old(factory.styles)[StyleKey(c.style.Attributes())]
              && factory.styles == old(factory.styles))
        && (StyleKey(c.style.Attributes()) !in old(factory.styles) ==>
              fresh(c.style)
              && factory.styles == old(factory.styles)[StyleKey(c.style.Attributes()) := c.style])
    {
      InsertStyledCharacter(symbol, position, font, size, bold, italic, White, false, Left);
    }

    /** What DisplayDocument writes, one record per character in list order,
        given the outcome of the console-width query. */
    method DisplayDocument(width: Option<int>) returns (out: string)
      ensures out == DocumentText(document, width)
      ensures document == [] ==> out == ""
    {
      out := "";
      var i := 0;
      while i < |document|
        invariant 0 <= i <= |document|
        invariant out == DocumentText(document[..i], width)
      {
        DocumentTextPrefix(document, i, width);
        out := out + Record(document[i], width);
        i := i + 1;
      }
      assert document[..i] == document;
    }
  }

  /** The flyweight property of a document: two characters have the very same
      style object exactly when their style attributes are equal. */
  lemma {:induction false} SharedStyles(e: TextEditor, i: nat, j: nat)
    requires e.Valid()
    requires i < |e.document| && j < |e.document|
    ensures e.document[i].style == e.document[j].style
        <==> e.document[i].style.Attributes() == e.document[j].style.Attributes()
  {
  }
}
