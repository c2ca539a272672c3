/** The flyweight cache: one CharacterStyle object per distinct combination
    of the seven attributes, looked up by a string key. */
module StyleFactories {
  import opened Formatting
  import opened CharacterStyles

  /** The six attributes after the font, as the key writes them. */
  function KeyFields(a: StyleAttributes): (r: seq<string>)
    ensures |r| == 6
  {
    [ IntText(a.size),
      BoolText(a.bold),
      BoolText(a.italic),
      ColorName(a.color),
      BoolText(a.underline),
      AlignmentName(a.alignment) ]
  }

  /** The cache key `font_size_bold_italic_color_underline_alignment`. */
  function StyleKey(a: StyleAttributes): string
  {
    JoinFields(a.font, KeyFields(a), '_')
  }

  /** The key written out, as the source's interpolated string builds it. */
  lemma {:induction false} StyleKeyText(a: StyleAttributes)
    ensures StyleKey(a)
         == a.font + "_" + IntText(a.size) + "_" + BoolText(a.bold) + "_" + BoolText(a.italic)
          + "_" + ColorName(a.color) + "_" + BoolText(a.underline) + "_" + AlignmentName(a.alignment)
  {
    var f := KeyFields(a);
    assert f[..0] == [] && f[..6] == f;
    JoinFieldsPrefix(a.font, f, '_', 0);
    JoinFieldsPrefix(a.font, f, '_', 1);
    JoinFieldsPrefix(a.font, f, '_', 2);
    JoinFieldsPrefix(a.font, f, '_', 3);
    JoinFieldsPrefix(a.font, f, '_', 4);
    JoinFieldsPrefix(a.font, f, '_', 5);
  }

  /** Reads a key back from the right. The font may hold '_', the other six
      fields cannot. */
  function DecodeStyleKey(key: string): Option<StyleAttributes>
  {
    var split :- SplitFields(key, '_', 6);
    var fields := split.1;
    var size :- ParseInt(fields[0]);
    var bold :- ParseBool(fields[1]);
    var italic :- ParseBool(fields[2]);
    var color :- ParseColor(fields[3]);
    var underline :- ParseBool(fields[4]);
    var alignment :- ParseAlignment(fields[5]);
    Some(StyleAttributes(split.0, size, bold, italic, color, underline, alignment))
  }

  /** None of the six fields after the font holds a '_'. */
  lemma {:induction false} KeyFieldsNoUnderscore(a: StyleAttributes)
    ensures forall i :: 0 <= i < 6 ==> '_' !in KeyFields(a)[i]
  {
    ParseBoolText(a.bold);
    ParseBoolText(a.italic);
    ParseBoolText(a.underline);
    ParseColorName(a.color);
    ParseAlignmentName(a.alignment);
    LettersWithout(BoolText(a.bold), '_');
    LettersWithout(BoolText(a.italic), '_');
    LettersWithout(BoolText(a.underline), '_');
    LettersWithout(ColorName(a.color), '_');
    LettersWithout(AlignmentName(a.alignment), '_');
    IntTextWithout(a.size, '_');
  }

  /** Every key decodes to the attributes it was built from. */
  lemma {:induction false} DecodeStyleKeyRoundTrip(a: StyleAttributes)
    ensures DecodeStyleKey(StyleKey(a)) == Some(a)
  {
    KeyFieldsNoUnderscore(a);
    SplitJoinFields(a.font, KeyFields(a), '_');
    ParseIntText(a.size);
    ParseBoolText(a.bold);
    ParseBoolText(a.italic);
    ParseBoolText(a.underline);
    ParseColorName(a.color);
    ParseAlignmentName(a.alignment);
  }

  /** The key is unique per attribute tuple: no two different tuples collide,
      even when the font name contains '_'. */
  lemma StyleKeyInjective(a: StyleAttributes, b: StyleAttributes)
    ensures StyleKey(a) == StyleKey(b) <==> a == b
  {
    DecodeStyleKeyRoundTrip(a);
    DecodeStyleKeyRoundTrip(b);
  }

  class StyleFactory {
    /** The cache: key to the one style object made for it. */
    var styles: map<string, CharacterStyle>

    /** Every stored style sits under its own key. */
    ghost predicate Valid()
      reads this
    {
      forall k :: k in styles ==> StyleKey(styles[k].Attributes()) == k
    }

    constructor ()
      ensures Valid() && styles == map[]
    {
      styles := map[];
    }

    /** Returns the cached style for these attributes, allocating and storing
        a new one only when the key is absent. */
    method GetStyle(font: string, size: int, bold: bool, italic: bool,
                    color: ConsoleColor, underline: bool, alignment: TextAlignment)
      returns (style: CharacterStyle)
      requires Valid()
      modifies this
      ensures Valid()
      ensures style.Attributes() == StyleAttributes(font, size, bold, italic, color, underline, alignment)
      ensures var key := StyleKey(style.Attributes());
        && key in styles && styles[key] == style
        && (key in old(styles) ==> style == old(styles)[key] && styles == old(styles))
        && (key !in old(styles) ==> fresh(style) && styles == old(styles)[key := style])
    {
      var attributes := StyleAttributes(font, size, bold, italic, color, underline, alignment);
      var key := StyleKey(attributes);
      if key !in styles {
        var created := new CharacterStyle(font, size, bold, italic, color, underline, alignment);
        styles := styles[key := created];
      }
      style := styles[key];
      StyleKeyInjective(style.Attributes(), attributes);
    }
  }

  /** In a valid cache, styles stored under different keys are different
      objects, and the style stored under a key carries that key's attributes. */
  lemma {:induction false} CachedStyleIdentity(f: StyleFactory, a: StyleAttributes, b: StyleAttributes)
    requires f.Valid()
    requires StyleKey(a) in f.styles && StyleKey(b) in f.styles
    ensures f.styles[StyleKey(a)].Attributes() == a
    ensures f.styles[StyleKey(a)] == f.styles[StyleKey(b)] <==> a == b
  {
    StyleKeyInjective(f.styles[StyleKey(a)].Attributes(), a);
    StyleKeyInjective(f.styles[StyleKey(b)].Attributes(), b);
  }
}
