/** The key registry: the fixed table from lower-case key names to the keys
    of the virtual keyboard (main.rs, init_linux_keys). */
module Keys {
  import opened Wrappers

  /** The keys of the virtual keyboard that the registry can name. `MiscPause`
      and `MiscPrint` are the two entries that the uinput crate files under its
      miscellaneous group rather than under its key group. */
  datatype KeyId =
    | A | B | C | D | E | F | G | H | I | J
    | K | L | M | N | O | P | Q | R | S | T
    | U | V | W | X | Y | Z | Digit0 | Digit1 | Digit2 | Digit3
    | Digit4 | Digit5 | Digit6 | Digit7 | Digit8 | Digit9 | F1 | F2 | F3 | F4
    | F5 | F6 | F7 | F8 | F9 | F10 | F11 | F12 | F13 | F14
    | F15 | F16 | F17 | F18 | F19 | F20 | F21 | F22 | F23 | F24
    | Space | Enter | Tab | BackSpace | Esc | Delete | Insert | Home | End | PageUp
    | PageDown | MiscPause | ScrollLock | SysRq | MiscPrint | Left | Right | Up | Down | LeftShift
    | RightShift | LeftControl | RightControl | LeftAlt | RightAlt | LeftMeta | RightMeta | CapsLock | NumLock | Minus
    | Equal | LeftBrace | RightBrace | SemiColon | Apostrophe | Grave | BackSlash | Comma | Dot | Slash


  /** Looking a name up in the registry. The table is exactly the one the
      program builds at start-up, one case per entry, and a name that is not in
      it (in particular any name with an upper-case letter) is absent. Several
      names resolve to the same key: "enter" and "return", "escape" and "esc". */
  function Lookup(name: string): (key: Option<KeyId>) {
    match name
    case "a" => Some(A)
    case "b" => Some(B)
    case "c" => Some(C)
    case "d" => Some(D)
    case "e" => Some(E)
    case "f" => Some(F)
    case "g" => Some(G)
    case "h" => Some(H)
    case "i" => Some(I)
    case "j" => Some(J)
    case "k" => Some(K)
    case "l" => Some(L)
    case "m" => Some(M)
    case "n" => Some(N)
    case "o" => Some(O)
    case "p" => Some(P)
    case "q" => Some(Q)
    case "r" => Some(R)
    case "s" => Some(S)
    case "t" => Some(T)
    case "u" => Some(U)
    case "v" => Some(V)
    case "w" => Some(W)
    case "x" => Some(X)
    case "y" => Some(Y)
    case "z" => Some(Z)
    case "0" => Some(Digit0)
    case "1" => Some(Digit1)
    case "2" => Some(Digit2)
    case "3" => Some(Digit3)
    case "4" => Some(Digit4)
    case "5" => Some(Digit5)
    case "6" => Some(Digit6)
    case "7" => Some(Digit7)
    case "8" => Some(Digit8)
    case "9" => Some(Digit9)
    case "f1" => Some(F1)
    case "f2" => Some(F2)
    case "f3" => Some(F3)
    case "f4" => Some(F4)
    case "f5" => Some(F5)
    case "f6" => Some(F6)
    case "f7" => Some(F7)
    case "f8" => Some(F8)
    case "f9" => Some(F9)
    case "f10" => Some(F10)
    case "f11" => Some(F11)
    case "f12" => Some(F12)
    case "f13" => Some(F13)
    case "f14" => Some(F14)
    case "f15" => Some(F15)
    case "f16" => Some(F16)
    case "f17" => Some(F17)
    case "f18" => Some(F18)
    case "f19" => Some(F19)
    case "f20" => Some(F20)
    case "f21" => Some(F21)
    case "f22" => Some(F22)
    case "f23" => Some(F23)
    case "f24" => Some(F24)
    case "space" => Some(Space)
    case "enter" => Some(Enter)
    case "return" => Some(Enter)
    case "tab" => Some(Tab)
    case "backspace" => Some(BackSpace)
    case "escape" => Some(Esc)
    case "esc" => Some(Esc)
    case "delete" => Some(Delete)
    case "insert" => Some(Insert)
    case "home" => Some(Home)
    case "end" => Some(End)
    case "pageup" => Some(PageUp)
    case "pagedown" => Some(PageDown)
    case "pause" => Some(MiscPause)
    case "scrolllock" => Some(ScrollLock)
    case "sysrq" => Some(SysRq)
    case "print" => Some(MiscPrint)
    case "left" => Some(Left)
    case "right" => Some(Right)
    case "up" => Some(Up)
    case "down" => Some(Down)
    case "leftshift" => Some(LeftShift)
    case "rightshift" => Some(RightShift)
    case "leftctrl" => Some(LeftControl)
    case "rightctrl" => Some(RightControl)
    case "leftalt" => Some(LeftAlt)
    case "rightalt" => Some(RightAlt)
    case "leftmeta" => Some(LeftMeta)
    case "rightmeta" => Some(RightMeta)
    case "capslock" => Some(CapsLock)
    case "numlock" => Some(NumLock)
    case "minus" => Some(Minus)
    case "equal" => Some(Equal)
    case "leftbrace" => Some(LeftBrace)
    case "rightbrace" => Some(RightBrace)
    case "semicolon" => Some(SemiColon)
    case "apostrophe" => Some(Apostrophe)
    case "grave" => Some(Grave)
    case "backslash" => Some(BackSlash)
    case "comma" => Some(Comma)
    case "dot" => Some(Dot)
    case "slash" => Some(Slash)
    case _ => None
  }

  /** Every lower-case letter and every digit names a key by itself. */
  lemma LetterNames(ch: char)
    requires 'a' <= ch <= 'z'
    ensures Lookup([ch]).Some?
  {
  }

  lemma DigitNames(ch: char)
    requires '0' <= ch <= '9'
    ensures Lookup([ch]).Some?
  {
  }

  /** The names of the keys that type whitespace and punctuation. */
  lemma WhitespaceKeys()
    ensures Lookup("space") == Some(Space) && Lookup("enter") == Some(Enter)
    ensures Lookup("tab") == Some(Tab)
  {
  }

  /** The names of the punctuation keys. */
  lemma MinusKey()
    ensures Lookup("minus") == Some(Minus)
  {
  }

  lemma EqualKey()
    ensures Lookup("equal") == Some(Equal)
  {
  }

  lemma LeftBraceKey()
    ensures Lookup("leftbrace") == Some(LeftBrace)
  {
  }

  lemma RightBraceKey()
    ensures Lookup("rightbrace") == Some(RightBrace)
  {
  }

  lemma SemiColonKey()
    ensures Lookup("semicolon") == Some(SemiColon)
  {
  }

  lemma ApostropheKey()
    ensures Lookup("apostrophe") == Some(Apostrophe)
  {
  }

  lemma GraveKey()
    ensures Lookup("grave") == Some(Grave)
  {
  }

  lemma BackSlashKey()
    ensures Lookup("backslash") == Some(BackSlash)
  {
  }

  lemma CommaKey()
    ensures Lookup("comma") == Some(Comma)
  {
  }

  lemma DotKey()
    ensures Lookup("dot") == Some(Dot)
  {
  }

  lemma SlashKey()
    ensures Lookup("slash") == Some(Slash)
  {
  }

  /** The names of the digit keys. */
  lemma LowDigitKeys()
    ensures Lookup("0") == Some(Digit0) && Lookup("1") == Some(Digit1)
    ensures Lookup("2") == Some(Digit2) && Lookup("3") == Some(Digit3)
    ensures Lookup("4") == Some(Digit4)
  {
  }

  lemma HighDigitKeys()
    ensures Lookup("5") == Some(Digit5) && Lookup("6") == Some(Digit6)
    ensures Lookup("7") == Some(Digit7) && Lookup("8") == Some(Digit8)
    ensures Lookup("9") == Some(Digit9)
  {
  }
}
