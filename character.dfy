/** A placed character: a symbol, a position and a reference to a shared
    style, and the text its Display writes. */
module Characters {
  import opened Formatting
  import opened CharacterStyles

  /** What Display writes before the symbol. Left alignment writes nothing and
      never asks for the console width. Center and Right ask for it (`width`,
      None when the query throws an IOException) and write max(0, width/2 - 1)
      or max(0, width - 2) spaces; when the query fails they write one space. */
  function Padding(alignment: TextAlignment, width: Option<int>): (pad: string)
    ensures forall i :: 0 <= i < |pad| ==> pad[i] == ' '
    ensures alignment == Left ==> pad == ""
    ensures alignment != Left && width.None? ==> |pad| == 1
    ensures alignment == Center && width.Some? ==> |pad| == AtLeastZero(TruncatedHalf(width.value) - 1)
    ensures alignment == Right && width.Some? ==> |pad| == AtLeastZero(width.value - 2)
  {
    match alignment
    case Left => ""
    case Center =>
      (match width
       case None => " "
       case Some(w) => Spaces(AtLeastZero(TruncatedHalf(w) - 1)))
    case Right =>
      (match width
       case None => " "
       case Some(w) => Spaces(AtLeastZero(w - 2)))
  }

  class Character {
    const symbol: char
    const position: int
    /** The shared style; the reference is never reassigned. */
    const style: CharacterStyle

    /** Copies its arguments; the position is not checked against anything. */
    constructor (symbol: char, position: int, style: CharacterStyle)
      ensures this.symbol == symbol && this.position == position && this.style == style
    {
      this.symbol := symbol;
      this.position := position;
      this.style := style;
    }

    /** The text Display writes, given the outcome of the console-width query. */
    function Display(width: Option<int>): string
    {
      Padding(style.alignment, width) + [symbol] + (if style.underline then "_" else "") + "\n"
        + style.DisplayStyle()
    }
  }

  /** The layout of Display's text: blank padding, the symbol, '_' right after
      it exactly when the style is underlined, a line break, and then what the
      style's DisplayStyle writes. */
  lemma DisplayLayout(c: Character, width: Option<int>)
    ensures var out := c.Display(width);
      var pad := Padding(c.style.alignment, width);
      var mark := if c.style.underline then 1 else 0;
      && |out| > |pad| + mark + 1
      && out[..|pad|] == pad
      && out[|pad|] == c.symbol
      && (out[|pad| + 1] == '_' <==> c.style.underline)
      && out[|pad| + mark + 1] == '\n'
      && out[|pad| + mark + 2..] == c.style.DisplayStyle()
  {
    var pad := Padding(c.style.alignment, width);
    var line := pad + [c.symbol] + (if c.style.underline then "_" else "");
    assert |line| == |pad| + 1 + (if c.style.underline then 1 else 0);
    var out := line + "\n" + c.style.DisplayStyle();
    assert out == c.Display(width);
    assert out[..|pad|] == pad;
    assert out[|line| + 1..] == c.style.DisplayStyle();
  }
}
