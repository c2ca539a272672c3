/** How the .NET runtime renders the values this program prints, and how to
    read them back: the text of ints, bools and ConsoleColor names, padding
    strings, and the splitting helpers that the key and summary decoders use. */
module Formatting {

  datatype Option<+T> = None | Some(value: T) {
    predicate IsFailure() { None? }

    function PropagateFailure<U>(): Option<U>
      requires None?
    {
      None
    }

    function Extract(): T
      requires Some?
    {
      value
    }
  }

  /** System.ConsoleColor, in its declaration order. */
  datatype ConsoleColor =
    | Black | DarkBlue | DarkGreen | DarkCyan | DarkRed | DarkMagenta | DarkYellow | Gray
    | DarkGray | Blue | Green | Cyan | Red | Magenta | Yellow | White

  predicate IsLetter(c: char)
  {
    'A' <= c <= 'Z' || 'a' <= c <= 'z'
  }

  /** The text is made of ASCII letters only, as enum names and bool texts are. */
  predicate LettersOnly(s: string)
  {
    forall i :: 0 <= i < |s| ==> IsLetter(s[i])
  }

  /** A separator that is not a letter never occurs in a letters-only text. */
  lemma LettersWithout(s: string, sep: char)
    requires LettersOnly(s) && !IsLetter(sep)
    ensures sep !in s
  {
  }

  /** The enum member name that string interpolation produces. */
  function ColorName(c: ConsoleColor): string
  {
    match c
    case Black => "Black"
    case DarkBlue => "DarkBlue"
    case DarkGreen => "DarkGreen"
    case DarkCyan => "DarkCyan"
    case DarkRed => "DarkRed"
    case DarkMagenta => "DarkMagenta"
    case DarkYellow => "DarkYellow"
    case Gray => "Gray"
    case DarkGray => "DarkGray"
    case Blue => "Blue"
    case Green => "Green"
    case Cyan => "Cyan"
    case Red => "Red"
    case Magenta => "Magenta"
    case Yellow => "Yellow"
    case White => "White"
  }

  function ParseColor(s: string): (r: Option<ConsoleColor>)
    ensures r.Some? ==> ColorName(r.value) == s
  {
    if s == "Black" then Some(Black)
    else if s == "DarkBlue" then Some(DarkBlue)
    else if s == "DarkGreen" then Some(DarkGreen)
    else if s == "DarkCyan" then Some(DarkCyan)
    else if s == "DarkRed" then Some(DarkRed)
    else if s == "DarkMagenta" then Some(DarkMagenta)
    else if s == "DarkYellow" then Some(DarkYellow)
    else if s == "Gray" then Some(Gray)
    else if s == "DarkGray" then Some(DarkGray)
    else if s == "Blue" then Some(Blue)
    else if s == "Green" then Some(Green)
    else if s == "Cyan" then Some(Cyan)
    else if s == "Red" then Some(Red)
    else if s == "Magenta" then Some(Magenta)
    else if s == "Yellow" then Some(Yellow)
    else if s == "White" then Some(White)
    else None
  }

  /** Every colour name reads back as that colour; with the ensures of
      ParseColor this makes ColorName injective. */
  lemma ParseColorName(c: ConsoleColor)
    ensures ParseColor(ColorName(c)) == Some(c)
    ensures LettersOnly(ColorName(c))
  {
    match c
    case Black =>
    case DarkBlue =>
    case DarkGreen =>
    case DarkCyan =>
    case DarkRed =>
    case DarkMagenta =>
    case DarkYellow =>
    case Gray =>
    case DarkGray =>
    case Blue =>
    case Green =>
    case Cyan =>
    case Red =>
    case Magenta =>
    case Yellow =>
    case White =>
  }

  /** Boolean.ToString(). */
  function BoolText(b: bool): string
  {
    if b then "True" else "False"
  }

  function ParseBool(s: string): (r: Option<bool>)
    ensures r.Some? ==> BoolText(r.value) == s
  {
    if s == "True" then Some(true)
    else if s == "False" then Some(false)
    else None
  }

  lemma ParseBoolText(b: bool)
    ensures ParseBool(BoolText(b)) == Some(b)
    ensures LettersOnly(BoolText(b))
  {
  }

  predicate IsDigit(c: char)
  {
    '0' <= c <= '9'
  }

  function DigitChar(d: nat): (c: char)
    requires d < 10
    ensures IsDigit(c)
  {
    ('0' as int + d) as char
  }

  function DigitValue(c: char): (r: Option<nat>)
    ensures r.Some? <==> IsDigit(c)
    ensures r.Some? ==> r.value < 10 && DigitChar(r.value) == c
  {
    if IsDigit(c) then Some(c as int - '0' as int) else None
  }

  /** Decimal text of a natural number, without leading zeros. */
  function NatText(n: nat): (r: string)
    ensures |r| > 0
    ensures forall i :: 0 <= i < |r| ==> IsDigit(r[i])
    decreases n
  {
    if n < 10 then [DigitChar(n)] else NatText(n / 10) + [DigitChar(n % 10)]
  }

  function ParseDigits(s: string): Option<nat>
    decreases |s|
  {
    if |s| == 0 then None
    else if |s| == 1 then DigitValue(s[0])
    else
      var high :- ParseDigits(s[..|s| - 1]);
      var low :- DigitValue(s[|s| - 1]);
      Some(10 * high + low)
  }

  lemma {:induction false} ParseNatText(n: nat)
    ensures ParseDigits(NatText(n)) == Some(n)
    decreases n
  {
    if n >= 10 {
      var s := NatText(n);
      ParseNatText(n / 10);
      assert s[..|s| - 1] == NatText(n / 10);
      assert DigitValue(s[|s| - 1]) == Some(n % 10);
    }
  }

  /** Int32.ToString() with the invariant culture: an optional '-' and digits. */
  function IntText(n: int): (r: string)
    ensures forall i :: 0 <= i < |r| ==> r[i] == '-' || IsDigit(r[i])
  {
    if n < 0 then "-" + NatText(-n) else NatText(n)
  }

  /** A character other than '-' and the digits never occurs in an int's text. */
  lemma IntTextWithout(n: int, c: char)
    requires c != '-' && !IsDigit(c)
    ensures c !in IntText(n)
  {
  }

  function ParseInt(s: string): Option<int>
  {
    if |s| > 0 && s[0] == '-' then
      var m :- ParseDigits(s[1..]);
      Some(0 - m as int)
    else
      var m :- ParseDigits(s);
      Some(m)
  }

  lemma {:induction false} ParseIntText(n: int)
    ensures ParseInt(IntText(n)) == Some(n)
  {
    if n < 0 {
      assert IntText(n)[1..] == NatText(-n);
      ParseNatText(-n);
    } else {
      assert IsDigit(NatText(n)[0]);
      ParseNatText(n);
    }
  }

  /** Splits s at the LAST occurrence of sep: everything before it, and the
      separator-free tail after it. */
  function SplitLast(s: string, sep: char): (r: Option<(string, string)>)
    ensures r.Some? ==> s == r.value.0 + [sep] + r.value.1 && sep !in r.value.1
    ensures r.None? ==> sep !in s
    decreases |s|
  {
    if |s| == 0 then None
    else if s[|s| - 1] == sep then Some((s[..|s| - 1], ""))
    else
      match SplitLast(s[..|s| - 1], sep)
      case None => None
      case Some((front, back)) => Some((front, back + [s[|s| - 1]]))
  }

  /** Joining at a separator that does not occur in the tail is undone by SplitLast,
      whatever the front holds. */
  lemma {:induction false} SplitLastJoin(front: string, sep: char, back: string)
    requires sep !in back
    ensures SplitLast(front + [sep] + back, sep) == Some((front, back))
    decreases |back|
  {
    var s := front + [sep] + back;
    if back == [] {
      assert s[..|s| - 1] == front;
    } else {
      var shorter := back[..|back| - 1];
      assert s[..|s| - 1] == front + [sep] + shorter;
      assert s[|s| - 1] == back[|back| - 1];
      SplitLastJoin(front, sep, shorter);
      assert shorter + [back[|back| - 1]] == back;
    }
  }

  /** `front` followed by each field, every one introduced by `sep`. */
  function JoinFields(front: string, fields: seq<string>, sep: char): string
    decreases |fields|
  {
    if fields == [] then front
    else JoinFields(front, fields[..|fields| - 1], sep) + [sep] + fields[|fields| - 1]
  }

  lemma JoinFieldsPrefix(front: string, fields: seq<string>, sep: char, i: nat)
    requires i < |fields|
    ensures JoinFields(front, fields[..i + 1], sep) == JoinFields(front, fields[..i], sep) + [sep] + fields[i]
  {
    assert fields[..i + 1][..i] == fields[..i];
  }

  /** Peels n separator-free fields off the right end of s. */
  function SplitFields(s: string, sep: char, n: nat): (r: Option<(string, seq<string>)>)
    ensures r.Some? ==> |r.value.1| == n
    decreases n
  {
    if n == 0 then Some((s, []))
    else
      var last :- SplitLast(s, sep);
      var rest :- SplitFields(last.0, sep, n - 1);
      Some((rest.0, rest.1 + [last.1]))
  }

  /** SplitFields undoes JoinFields when no field holds the separator, whatever
      the front holds. */
  lemma {:induction false} SplitJoinFields(front: string, fields: seq<string>, sep: char)
    requires forall i :: 0 <= i < |fields| ==> sep !in fields[i]
    ensures SplitFields(JoinFields(front, fields, sep), sep, |fields|) == Some((front, fields))
    decreases |fields|
  {
    if fields != [] {
      var init := fields[..|fields| - 1];
      var last := fields[|fields| - 1];
      SplitLastJoin(JoinFields(front, init, sep), sep, last);
      SplitJoinFields(front, init, sep);
      assert init + [last] == fields;
    }
  }

  /** Each item written by `write`, one after another, in order. */
  function WriteAll<T>(write: T -> string, items: seq<T>): (r: string)
    ensures items == [] ==> r == ""
    decreases |items|
  {
    if items == [] then "" else write(items[0]) + WriteAll(write, items[1..])
  }

  /** Writing two lists of items in turn writes their concatenation. */
  lemma {:induction false} WriteAllAppend<T>(write: T -> string, front: seq<T>, back: seq<T>)
    ensures WriteAll(write, front + back) == WriteAll(write, front) + WriteAll(write, back)
    decreases |front|
  {
    if front != [] {
      assert (front + back)[1..] == front[1..] + back;
      WriteAllAppend(write, front[1..], back);
    } else {
      assert front + back == back;
    }
  }

  lemma WriteAllSingleton<T>(write: T -> string, item: T)
    ensures WriteAll(write, [item]) == write(item)
  {
    assert [item][1..] == [];
  }

  function StripPrefix(s: string, prefix: string): (r: Option<string>)
    ensures r.Some? <==> |prefix| <= |s| && s[..|prefix|] == prefix
    ensures r.Some? ==> s == prefix + r.value
  {
    if |prefix| <= |s| && s[..|prefix|] == prefix then Some(s[|prefix|..]) else None
  }

  /** `new string(' ', n)`. */
  function Spaces(n: nat): (r: string)
    ensures |r| == n
    ensures forall i :: 0 <= i < n ==> r[i] == ' '
  {
    seq(n, _ => ' ')
  }

  /** `Math.Max(0, x)`. */
  function AtLeastZero(x: int): (r: nat)
    ensures r >= x
    ensures r == x || r == 0
  {
    if x < 0 then 0 else x
  }

  /** C#'s `w / 2` on int, which truncates toward zero (Dafny's `/` rounds down). */
  function TruncatedHalf(w: int): (r: int)
    ensures w >= 0 ==> 0 <= 2 * r <= w < 2 * r + 2
    ensures w < 0 ==> 2 * r - 2 < w <= 2 * r <= 0
  {
    if w >= 0 then w / 2 else -((-w) / 2)
  }
}
