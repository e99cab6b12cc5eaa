/** char_to_chord (main.rs:265-313): the chord that types one character of a
    `type` line on a US layout, or nothing for a character the table lacks. */
module Translator {
  import opened Wrappers
  import opened Keys
  import opened Chords
  import Parser

  /** The table at main.rs:266-310: the registry name of the key that types
      `ch`, and whether shift must be held. */
  function KeyName(ch: char): (entry: Option<(string, bool)>) {
    if 'a' <= ch <= 'z' then Some(([ch], false))
    else if 'A' <= ch <= 'Z' then Some(([Parser.LowerChar(ch)], true))
    else if '0' <= ch <= '9' then Some(([ch], false))
    else match ch
      case ' ' => Some(("space", false))
      case '\n' => Some(("enter", false))
      case '\t' => Some(("tab", false))
      case '-' => Some(("minus", false))
      case '=' => Some(("equal", false))
      case '[' => Some(("leftbrace", false))
      case ']' => Some(("rightbrace", false))
      case ';' => Some(("semicolon", false))
      case '\'' => Some(("apostrophe", false))
      case '`' => Some(("grave", false))
      case '\\' => Some(("backslash", false))
      case ',' => Some(("comma", false))
      case '.' => Some(("dot", false))
      case '/' => Some(("slash", false))
      case '!' => Some(("1", true))
      case '@' => Some(("2", true))
      case '#' => Some(("3", true))
      case '$' => Some(("4", true))
      case '%' => Some(("5", true))
      case '^' => Some(("6", true))
      case '&' => Some(("7", true))
      case '*' => Some(("8", true))
      case '(' => Some(("9", true))
      case ')' => Some(("0", true))
      case '_' => Some(("minus", true))
      case '+' => Some(("equal", true))
      case '{' => Some(("leftbrace", true))
      case '}' => Some(("rightbrace", true))
      case ':' => Some(("semicolon", true))
      case '"' => Some(("apostrophe", true))
      case '~' => Some(("grave", true))
      case '|' => Some(("backslash", true))
      case '<' => Some(("comma", true))
      case '>' => Some(("dot", true))
      case '?' => Some(("slash", true))
      case _ => None
  }

  /** char_to_chord: look the table's name up in the registry and set shift
      as the table says. */
  function CharToChord(ch: char): (chord: Option<Chord>) {
    match KeyName(ch)
    case None => None
    case Some((name, shift)) =>
      match Lookup(name)
      case None => None
      case Some(key) => Some(NewChord(key).(shift := shift))
  }

  /** The characters the table covers, written out independently of it. */
  predicate Typeable(ch: char) {
    || 'a' <= ch <= 'z' || 'A' <= ch <= 'Z' || '0' <= ch <= '9'
    || IsSymbol(ch)
  }

  /** The whitespace and punctuation a US keyboard types, shifted or not. */
  predicate IsSymbol(ch: char) {
    ch in {' ', '\n', '\t', '-', '=', '[', ']', ';', '\'', '`', '\\', ',', '.', '/', '!', '@', '#', '$', '%', '^', '&', '*', '(', ')', '_', '+', '{', '}', ':', '"', '~', '|', '<', '>', '?'}
  }

  /** Every name in the table is in the registry, so a character is typeable
      exactly when the table covers it; the others give None. */
  lemma TypeableExactly(ch: char)
    ensures KeyName(ch).Some? ==> Lookup(KeyName(ch).value.0).Some?
    ensures CharToChord(ch).Some? <==> Typeable(ch)
  {
    if 'a' <= ch <= 'z' || '0' <= ch <= '9' {
      LettersAndDigits(ch);
    } else if 'A' <= ch <= 'Z' {
      UpperCaseLetters(ch);
      LettersAndDigits(Parser.LowerChar(ch));
    } else {
      SymbolsRegistered(ch);
    }
  }

  lemma SymbolsRegistered(ch: char)
    requires !('a' <= ch <= 'z' || 'A' <= ch <= 'Z' || '0' <= ch <= '9')
    ensures KeyName(ch).Some? ==> Lookup(KeyName(ch).value.0).Some?
    ensures KeyName(ch).Some? <==> IsSymbol(ch)
  {
    SymbolNamesRegistered(ch);
    SymbolsCovered(ch);
  }

  lemma SymbolNamesRegistered(ch: char)
    requires !('a' <= ch <= 'z' || 'A' <= ch <= 'Z' || '0' <= ch <= '9')
    ensures KeyName(ch).Some? ==> Lookup(KeyName(ch).value.0).Some?
  {
    WhitespaceKeys();
    MinusKey(); EqualKey(); LeftBraceKey(); RightBraceKey();
    SemiColonKey(); ApostropheKey(); GraveKey(); BackSlashKey();
    CommaKey(); DotKey(); SlashKey();
    LowDigitKeys(); HighDigitKeys();
  }

  lemma SymbolsCovered(ch: char)
    requires !('a' <= ch <= 'z' || 'A' <= ch <= 'Z' || '0' <= ch <= '9')
    ensures KeyName(ch).Some? <==> IsSymbol(ch)
  {
  }

  /** Only the shift flag is ever set, and it is set exactly when the table
      says so. */
  lemma OnlyShift(ch: char)
    requires CharToChord(ch).Some?
    ensures var c := CharToChord(ch).value;
      !c.superKey && !c.altgr && !c.ctrl && !c.alt && c.shift == KeyName(ch).value.1
  {
  }

  /** Lower-case letters and digits type their own key, without shift; this is
      the chord the one-character token of the same letter or digit gives. */
  lemma LettersAndDigits(ch: char)
    requires 'a' <= ch <= 'z' || '0' <= ch <= '9'
    ensures Lookup([ch]).Some?
    ensures CharToChord(ch) == Some(NewChord(Lookup([ch]).value))
    ensures Parser.ParseChord([ch]) == Ok(NewChord(Lookup([ch]).value))
  {
    if 'a' <= ch <= 'z' {
      LetterNames(ch);
    } else {
      DigitNames(ch);
    }
    Parser.SplitFront([ch], "");
    assert Parser.Lower([ch]) == [ch];
    Parser.ParseByPieces([ch]);
  }

  /** An upper-case letter types the key of its lower-case letter with shift
      held, which is what the same letter as a one-character token gives. */
  lemma UpperCaseLetters(ch: char)
    requires 'A' <= ch <= 'Z'
    ensures CharToChord(Parser.LowerChar(ch)).Some?
    ensures CharToChord(ch) == Some(CharToChord(Parser.LowerChar(ch)).value.(shift := true))
    ensures Parser.ParseChord([ch]) == Ok(CharToChord(ch).value)
  {
    Parser.ImpliedShift(ch);
  }

  /** The character on the same key as each shifted symbol of a US layout,
      written out independently of the table. */
  function Unshifted(symbol: char): Option<char> {
    match symbol
    case '!' => Some('1')
    case '@' => Some('2')
    case '#' => Some('3')
    case '$' => Some('4')
    case '%' => Some('5')
    case '^' => Some('6')
    case '&' => Some('7')
    case '*' => Some('8')
    case '(' => Some('9')
    case ')' => Some('0')
    case '_' => Some('-')
    case '+' => Some('=')
    case '{' => Some('[')
    case '}' => Some(']')
    case ':' => Some(';')
    case '"' => Some('\'')
    case '~' => Some('`')
    case '|' => Some('\\')
    case '<' => Some(',')
    case '>' => Some('.')
    case '?' => Some('/')
    case _ => None
  }

  /** A shifted symbol types the chord of its unshifted partner with shift
      held; the partner itself is typed without shift. */
  lemma ShiftedSymbols(symbol: char)
    requires Unshifted(symbol).Some?
    ensures var base := Unshifted(symbol).value;
      && CharToChord(base).Some? && !CharToChord(base).value.shift
      && CharToChord(symbol) == Some(CharToChord(base).value.(shift := true))
  {
    var base := Unshifted(symbol).value;
    if '0' <= base <= '9' {
      LettersAndDigits(base);
    } else {
      SymbolNamesRegistered(base);
    }
    SameKeyName(symbol);
    ShiftOfSameKey(symbol, base);
  }

  /** Both characters of a pair name the same key, the symbol with shift. */
  lemma SameKeyName(symbol: char)
    requires Unshifted(symbol).Some?
    ensures var base := Unshifted(symbol).value;
      && !('a' <= base <= 'z' || 'A' <= base <= 'Z')
      && KeyName(base).Some? && !KeyName(base).value.1
      && KeyName(symbol) == Some((KeyName(base).value.0, true))
  {
    if symbol in {'!', '@', '#', '$', '%', '^', '&', '*', '(', ')'} {
      SameKeyNameOfDigit(symbol);
    } else {
      SameKeyNameOfPunctuation(symbol);
    }
  }

  lemma SameKeyNameOfDigit(symbol: char)
    requires symbol in {'!', '@', '#', '$', '%', '^', '&', '*', '(', ')'}
    ensures Unshifted(symbol).Some?
    ensures var base := Unshifted(symbol).value;
      && '0' <= base <= '9'
      && KeyName(base) == Some(([base], false))
      && KeyName(symbol) == Some(([base], true))
  {
  }

  lemma SameKeyNameOfPunctuation(symbol: char)
    requires Unshifted(symbol).Some?
    requires symbol !in {'!', '@', '#', '$', '%', '^', '&', '*', '(', ')'}
    ensures var base := Unshifted(symbol).value;
      && !('a' <= base <= 'z' || 'A' <= base <= 'Z')
      && KeyName(base).Some? && !KeyName(base).value.1
      && KeyName(symbol) == Some((KeyName(base).value.0, true))
  {
  }

  lemma ShiftOfSameKey(symbol: char, base: char)
    requires KeyName(base).Some? && !KeyName(base).value.1
    requires KeyName(symbol) == Some((KeyName(base).value.0, true))
    requires Lookup(KeyName(base).value.0).Some?
    ensures CharToChord(base).Some? && !CharToChord(base).value.shift
    ensures CharToChord(symbol) == Some(CharToChord(base).value.(shift := true))
  {
  }
}
