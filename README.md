# Flyweight text editor, modelled in Dafny

The program is a small Flyweight-pattern demonstration in C#. A `TextEditor`
keeps an append-only list of `Character` objects. Each character has a symbol,
a position and a reference to a `CharacterStyle`. Styles are immutable objects
with seven attributes (font, size, bold, italic, colour, underline, alignment).
They are handed out by a `StyleFactory`, which caches them in a dictionary
under the string key `font_size_bold_italic_color_underline_alignment`, so
equal attribute tuples share one object. `DisplayDocument` writes every
character to the console: alignment padding, the symbol, an optional `_`
underline marker, a line break, the style's summary line and a `******` line.

The Dafny project has one module per source file, plus a helper module:

- `Formatting` (formatting.dfy): how .NET prints the values involved
  (`ConsoleColor` names, `True`/`False`, decimal ints), padding strings, C#'s
  truncating `w / 2`, the joining and splitting of delimited fields, and
  `WriteAll`, which writes a list of items one after another.
- `CharacterStyles` (character_style.dfy): `TextAlignment`, the
  `StyleAttributes` value, the `CharacterStyle` class with `const` fields,
  and the summary line with a parser that reads it back.
- `StyleFactories` (style_factory.dfy): the cache key, a decoder that
  proves the key injective, and the `StyleFactory` class whose `styles` map
  `GetStyle` updates in place.
- `Characters` (character.dfy): the `Character` class and the text its
  `Display` writes, for a given outcome of the console-width query.
- `TextEditors` (text_editor.dfy): the `TextEditor` class with its
  `document` sequence and private factory, both insert overloads, and
  `DisplayDocument` as a loop proved against `DocumentText`.
- `Scenarios` (scenarios.dfy): client methods whose postconditions are what
  the unit tests assert.

The cache keeps the source's string key. A font name may itself contain `_`,
and the key is still injective for non-null fonts: the six fields after the
font print as digits and `-`, `True`/`False` and enum names, none of which
contain `_`. So splitting the key at its last six `_` recovers the tuple
(`DecodeStyleKeyRoundTrip`), and the key is injective (`StyleKeyInjective`).
The same argument on `,` shows that the summary line determines the style
(`ParseSummaryLine`). A null font is the one exception; see "## Left out".

Neither the `CharacterStyle` constructor nor the cache checks the size, so the
model accepts any `int`, zero and negative sizes included.

## Model

| member | source | states |
|---|---|---|
| `CharacterStyles.CharacterStyle.constructor` | TextEditor/CharacterStyle.cs:55-71 | each of the seven fields equals its argument; there is no precondition, so a zero or negative size is accepted; the fields are `const`, so nothing changes them later |
| `CharacterStyles.DisplayStyleReadsBack` | TextEditor/CharacterStyle.cs:76-79 | what `DisplayStyle` writes ends in a line break, and the text before that final break (which may itself hold line breaks when the font does) parses back with `ParseSummary` to exactly the style's seven attributes |
| `CharacterStyles.SummaryLineText` | TextEditor/CharacterStyle.cs:78 | the summary line is `Font: F, Size: S, Bold: B, Italic: I, Color: C, Underline: U, Text Alignment: A`: fields in this fixed order, each `Label: value`, separated by `, `, with bools as `True`/`False` and enums by name |
| `CharacterStyles.ParseSummaryLine` | TextEditor/CharacterStyle.cs:78 | round trip: parsing the summary line of any attributes gives back those attributes, even when the font contains `,` |
| `CharacterStyles.SummaryLineInjective` | TextEditor/CharacterStyle.cs:78 | two attribute tuples print the same summary line if and only if they are equal |
| `CharacterStyles.ParseAlignmentName` | TextEditor/CharacterStyle.cs:85-101 | each of the three alignments Left, Center and Right prints as a name made only of letters, and that name parses back to the same alignment |
| `StyleFactories.StyleKeyText` | TextEditor/StyleFactory.cs:35 | the cache key is the font, size, bold, italic, colour, underline and alignment texts joined by `_`, in that order |
| `StyleFactories.KeyFieldsNoUnderscore` | TextEditor/StyleFactory.cs:35 | none of the six key fields after the font (size, the three bools, colour and alignment texts) contains `_`; only the font can |
| `StyleFactories.DecodeStyleKeyRoundTrip` | TextEditor/StyleFactory.cs:35 | splitting a key from the right at `_` recovers the exact attribute tuple it was built from, whatever the font contains |
| `StyleFactories.StyleKeyInjective` | TextEditor/StyleFactory.cs:35 | two attribute tuples have the same key if and only if they are equal, so the key is unique for each tuple |
| `StyleFactories.StyleFactory.constructor` | TextEditor/StyleFactory.cs:13 | a new cache is empty and valid |
| `StyleFactories.StyleFactory.GetStyle` | TextEditor/StyleFactory.cs:26-43 | the returned style has exactly the seven arguments as attributes, and the cache maps its key to it afterwards; on a hit the result is the stored object and the map is unchanged; on a miss the result is a fresh object and the only change is one new entry; existing entries are never overwritten or removed; the cache invariant (every entry sits under its own key) is kept |
| `StyleFactories.CachedStyleIdentity` | TextEditor/StyleFactory.cs:37-42 | in a valid cache, the object stored for a tuple carries that tuple, and the objects stored for two tuples are the same object if and only if the tuples are equal |
| `Characters.Character.constructor` | TextEditor/Character.cs:31-36 | the symbol and position are stored as given, and the style field is the very reference passed in; it is `const`, so it is never reassigned |
| `Characters.Padding` | TextEditor/Character.cs:52-68 | the padding contains only spaces; Left gives none and never needs the width; Center gives `max(0, width/2 - 1)` spaces with C#'s truncating division; Right gives `max(0, width - 2)`; a failed width query (only Center and Right ask) gives exactly one space |
| `Characters.DisplayLayout` | TextEditor/Character.cs:48-81 | what `Display` writes is the padding, then the symbol; the next character is `_` if and only if the style is underlined; then a line break and then exactly what the style's `DisplayStyle` writes |
| `TextEditors.DocumentTextAppend` | TextEditor/TextEditor.cs:65-69 | the output of a concatenated document is the concatenation of the outputs of the parts |
| `TextEditors.DocumentTextRecords` | TextEditor/TextEditor.cs:65-69 | for every index i, the output is the output of the characters before i, then character i's record (its `Display` text followed by the `******` line), then the output of the characters after i: one record per character, in list order |
| `TextEditors.DocumentTextPrefix` | TextEditor/TextEditor.cs:65-69 | the output for the first i+1 characters is the output for the first i characters followed by character i's record |
| `TextEditors.TextEditor.constructor` | TextEditor/TextEditor.cs:14-19 | a new editor has an empty document and its own fresh, empty cache |
| `TextEditors.TextEditor.InsertStyledCharacter` | TextEditor/TextEditor.cs:50-58 | the document grows by exactly one and earlier elements are unchanged; the new last element is a fresh character with the given symbol and position (not validated) and a style with the given seven attributes; that style is the cached object when one existed and a fresh one otherwise; the editor invariant is kept |
| `TextEditors.TextEditor.InsertCharacter` | TextEditor/TextEditor.cs:30-36 | the same as `InsertStyledCharacter` with colour White, no underline and Left alignment; it is implemented by calling it |
| `TextEditors.TextEditor.DisplayDocument` | TextEditor/TextEditor.cs:63-70 | the loop's output equals `DocumentText` of the document, one record per character in order; an empty document writes nothing |
| `TextEditors.SharedStyles` | TextEditor/TextEditor.cs:54-57 | in a valid editor, two characters share the very same style object if and only if their style attributes are equal |
| `Scenarios.SameParametersShareInstance` | UnitTests/UnitTest1.cs:42-57 | two requests with the same arguments to one cache return the same object, which carries those attributes |
| `Scenarios.DifferentParametersDistinctInstances` | UnitTests/UnitTest1.cs:63-78 | two requests return the same object if and only if the tuples are equal; a third request with the first tuple returns the first object again |
| `Scenarios.SameTupleOneStyle` | TextEditor/TextEditor.cs:54-57 | two characters inserted with the same tuple share one style object, and the cache then holds exactly one style |
| `Scenarios.InsertAddsCharacter` | UnitTests/UnitTest1.cs:117-132 | after one short insertion the document has one character, with symbol `A`, position 0 and the default White, not-underlined, Left style |
| `Scenarios.DisplayEmptyDocument` | UnitTests/UnitTest1.cs:258-278 | a new editor displays the empty string, whatever the width |
| `Scenarios.DisplayOneCharacter` | UnitTests/UnitTest1.cs:138-185 | for one underlined, left-aligned `A`, the output is exactly `A_`, a line break, `Font: Arial, Size: 12, Bold: True, Italic: False, Color: Red, Underline: True, Text Alignment: Left`, a line break and `******`, whatever the width |

## Left out

- Console colour: `Display` sets the foreground colour before writing and resets it afterwards (TextEditor/Character.cs:50, 77). This is terminal state with no effect on the text, so it is not modelled.
- Console output is returned as a string instead of being written. Each `WriteLine` ends in `"\n"`. `Environment.NewLine` (`"\r\n"` on Windows) is not modelled.
- `Console.WindowWidth` is a parameter `width: Option<int>`, where `None` stands for the `IOException` that is caught. `DisplayDocument` uses one width for the whole document, while the source asks again for each character. Exceptions other than `IOException` are not modelled.
- Numbers are rendered as with the invariant culture (`-` then digits). Culture-specific negative signs are not modelled.
- `int` fields (size, position, width) are unbounded. The source does no arithmetic on size or position. `width - 2` could overflow only for a width near `int.MinValue`, and a console width is never negative.
- `char` is a Dafny character, not a UTF-16 code unit. The model only stores and prints symbols.
- The two C# overloads are both named `InsertCharacter`. In Dafny, the long one is `InsertStyledCharacter`.
- `DecodeStyleKey`, `ParseSummary` and the other parsers exist only to prove injectivity. The program never parses a key or a summary line.
- TextEditor/Program.cs, the demo driver that ends in `Console.ReadKey()`, is not part of this model. UnitTests/UnitTest1.cs is not modelled as code. Its assertions become the postconditions of the `Scenarios` methods.
- Null: strings and object references are never null in the model. In C#, a null font is accepted and prints as the empty string, both in the key (TextEditor/StyleFactory.cs:35) and in the summary line (TextEditor/CharacterStyle.cs:78). So `GetStyle(null, …)` and `GetStyle("", …)` with the same other six arguments build the same key, and whichever comes second gets the object made by the first, whose `Font` is null or `""` accordingly (TextEditor/StyleFactory.cs:37-42). This is the one key collision the source has, and the model does not capture it. A null style passed to the `Character` constructor (TextEditor/Character.cs:31-36) is accepted there and only fails when `Display` reads it (TextEditor/Character.cs:50); the model has no such character.
- Concurrency: the program has none. The check-then-insert in `GetStyle` runs as one sequential step.
