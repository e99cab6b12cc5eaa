/** How the interpreter cuts one input line into an opcode and its payload
    (main.rs:366-376): leading whitespace is dropped, the opcode is the first
    whitespace-separated word, and the payload is either the remaining words
    or the raw text after the opcode. */
module Lines {
  import opened Wrappers

  /** char::is_whitespace: the characters with the Unicode White_Space
      property. */
  predicate IsWhitespace(ch: char) {
    || ('\t' <= ch <= '\r') || ch == ' ' || ch == '\U{0085}' || ch == '\U{00A0}'
    || ch == '\U{1680}' || ('\U{2000}' <= ch <= '\U{200A}') || ch == '\U{2028}'
    || ch == '\U{2029}' || ch == '\U{202F}' || ch == '\U{205F}' || ch == '\U{3000}'
  }

  /** str::trim_start: the text from its first non-whitespace character on. */
  function TrimStart(s: string): (t: string)
    ensures |t| <= |s| && t == s[|s| - |t|..]
    ensures t == [] || !IsWhitespace(t[0])
  {
    if s != [] && IsWhitespace(s[0]) then TrimStart(s[1..]) else s
  }

  /** str::trim_end: the text up to its last non-whitespace character. */
  function TrimEnd(s: string): (t: string)
    ensures |t| <= |s| && t == s[..|t|]
    ensures t == [] || !IsWhitespace(t[|t| - 1])
    ensures forall i :: |t| <= i < |s| ==> IsWhitespace(s[i])
  {
    if s != [] && IsWhitespace(s[|s| - 1]) then TrimEnd(s[..|s| - 1]) else s
  }

  /** str::trim */
  function Trim(s: string): string {
    TrimEnd(TrimStart(s))
  }

  /** The length of the word `s` starts with: the index of its first
      whitespace character, or its length when it has none. */
  function WordEnd(s: string): (k: nat)
    ensures k <= |s|
    ensures k < |s| ==> IsWhitespace(s[k])
    ensures s != [] && !IsWhitespace(s[0]) ==> k > 0
  {
    if s == [] || IsWhitespace(s[0]) then 0 else 1 + WordEnd(s[1..])
  }

  /** str::split_whitespace: the maximal runs of non-whitespace characters, in
      order. */
  function Words(s: string): seq<string>
    decreases |s|
  {
    var t := TrimStart(s);
    if t == [] then []
    else
      var k := WordEnd(t);
      [t[..k]] + Words(t[k..])
  }

  /** A line after tokenizing: nothing, or an opcode with the words after it
      (what `for field in parts` visits) and the raw text after it (what
      `parts.remainder()` returns: None when the opcode ends the line, and
      otherwise everything after the one whitespace character that ends the
      opcode). */
  datatype Line = Blank | Command(op: string, fields: seq<string>, remainder: Option<string>)

  function Tokenize(line: string): (l: Line) {
    var text := TrimStart(line);
    if text == [] then Blank
    else
      var k := WordEnd(text);
      Command(text[..k], Words(text[k..]), if k == |text| then None else Some(text[k + 1..]))
  }

  /** What trim_start drops is whitespace. */
  lemma {:induction false} TrimStartDropsWhitespace(s: string)
    ensures forall i :: 0 <= i < |s| - |TrimStart(s)| ==> IsWhitespace(s[i])
    decreases |s|
  {
    if s != [] && IsWhitespace(s[0]) {
      TrimStartDropsWhitespace(s[1..]);
      assert forall i :: 1 <= i < |s| - |TrimStart(s)| ==> s[i] == s[1..][i - 1];
    }
  }

  /** A word has no whitespace in it. */
  lemma {:induction false} WordEndStopsAtWhitespace(s: string)
    ensures forall i :: 0 <= i < WordEnd(s) ==> !IsWhitespace(s[i])
    decreases |s|
  {
    if s != [] && !IsWhitespace(s[0]) {
      WordEndStopsAtWhitespace(s[1..]);
      assert forall i :: 1 <= i < WordEnd(s) ==> s[i] == s[1..][i - 1];
    }
  }

  /** A word: non-empty, and without whitespace. */
  predicate IsWord(w: string) {
    w != [] && forall j :: 0 <= j < |w| ==> !IsWhitespace(w[j])
  }

  /** The word a non-blank text starts with is a word. */
  lemma FirstWord(t: string)
    requires t != [] && !IsWhitespace(t[0])
    ensures IsWord(t[..WordEnd(t)])
  {
    WordEndStopsAtWhitespace(t);
    var w := t[..WordEnd(t)];
    assert forall j :: 0 <= j < |w| ==> w[j] == t[j];
  }

  /** split_whitespace yields only words. */
  lemma {:induction false} WordsAreWords(s: string)
    ensures forall i :: 0 <= i < |Words(s)| ==> IsWord(Words(s)[i])
    decreases |s|
  {
    var t := TrimStart(s);
    if t != [] {
      var k := WordEnd(t);
      FirstWord(t);
      var rest := Words(t[k..]);
      WordsAreWords(t[k..]);
      var ws := Words(s);
      assert ws == [t[..k]] + rest;
      forall i | 0 <= i < |ws|
        ensures IsWord(ws[i])
      {
        if i > 0 {
          assert ws[i] == rest[i - 1];
        }
      }
    }
  }

  /** A line is blank exactly when it is all whitespace. */
  lemma BlankExactly(line: string)
    ensures Tokenize(line) == Blank <==> forall i :: 0 <= i < |line| ==> IsWhitespace(line[i])
  {
    var t := TrimStart(line);
    TrimStartDropsWhitespace(line);
    if t != [] {
      assert line[|line| - |t|] == t[0];
    }
  }

  /** The opcode and the fields are exactly the whitespace-separated words of
      the line, and the opcode is never empty, so the "Invalid command" panic
      at main.rs:376-379 cannot happen. */
  lemma CommandWords(line: string)
    requires Tokenize(line).Command?
    ensures var cmd := Tokenize(line);
      Words(line) == [cmd.op] + cmd.fields && cmd.op != []
  {
  }

  /** Splitting words off after one whitespace character gives the same words
      as splitting them off before it. */
  lemma WordsAfterSeparator(s: string)
    requires s != [] && IsWhitespace(s[0])
    ensures Words(s) == Words(s[1..])
  {
    assert TrimStart(s) == TrimStart(s[1..]);
  }

  /** The raw remainder is present exactly when the opcode is followed by
      whitespace; the line minus its leading whitespace is then the opcode,
      that one whitespace character and the remainder. */
  lemma RemainderFollowsOp(line: string)
    requires Tokenize(line).Command?
    ensures var cmd := Tokenize(line);
      var text := TrimStart(line);
      && (cmd.remainder.None? <==> text == cmd.op)
      && (cmd.remainder.Some? ==>
            && |text| > |cmd.op|
            && IsWhitespace(text[|cmd.op|])
            && text == cmd.op + [text[|cmd.op|]] + cmd.remainder.value)
  {
    var cmd := Tokenize(line);
    var text := TrimStart(line);
    var k := WordEnd(text);
    assert cmd.op == text[..k] && |cmd.op| == k;
    if k < |text| {
      assert cmd.remainder == Some(text[k + 1..]);
      assert text != cmd.op;
      CutAt(text, k);
    } else {
      assert cmd.remainder == None;
      assert text == cmd.op;
    }
  }

  /** A text is what comes before position k, the character at k and what
      comes after it. */
  lemma CutAt(text: string, k: nat)
    requires k < |text|
    ensures text == text[..k] + [text[k]] + text[k + 1..]
  {
    assert text[..k] + [text[k]] == text[..k + 1];
  }

  /** The raw remainder holds the same words as the fields. */
  lemma RemainderHoldsFields(line: string)
    requires Tokenize(line).Command? && Tokenize(line).remainder.Some?
    ensures Words(Tokenize(line).remainder.value) == Tokenize(line).fields
  {
    var text := TrimStart(line);
    var k := WordEnd(text);
    var rest := text[k..];
    assert rest != [] && IsWhitespace(rest[0]);
    WordsAfterSeparator(rest);
    assert rest[1..] == text[k + 1..];
  }

  /** A word ends where the whitespace after it starts. */
  lemma {:induction false} WordEndOfWord(w: string, rest: string)
    requires IsWord(w) && (rest == [] || IsWhitespace(rest[0]))
    ensures WordEnd(w + rest) == |w|
    decreases |w|
  {
    var t := w + rest;
    assert t[0] == w[0];
    if |w| > 1 {
      assert IsWord(w[1..]) by {
        assert forall j :: 0 <= j < |w[1..]| ==> w[1..][j] == w[j + 1];
      }
      WordEndOfWord(w[1..], rest);
      assert t[1..] == w[1..] + rest;
    } else {
      assert t[1..] == rest;
    }
  }

  /** A line that starts with a word, followed by nothing or by whitespace,
      has that word as its opcode; the remainder is what follows the one
      whitespace character after it. */
  lemma LeadingWord(w: string, rest: string)
    requires IsWord(w) && (rest == [] || IsWhitespace(rest[0]))
    ensures Tokenize(w + rest).Command?
    ensures Tokenize(w + rest).op == w
    ensures Tokenize(w + rest).fields == Words(rest)
    ensures Tokenize(w + rest).remainder == if rest == [] then None else Some(rest[1..])
  {
    var t := w + rest;
    assert t[0] == w[0];
    assert TrimStart(t) == t;
    WordEndOfWord(w, rest);
    assert t[..|w|] == w && t[|w|..] == rest;
    if rest != [] {
      assert t[|w| + 1..] == rest[1..];
    }
  }

  /** A word alone splits into itself. */
  lemma SingleWord(w: string)
    requires IsWord(w)
    ensures Words(w) == [w]
  {
    assert TrimStart(w) == w;
    WordEndOfWord(w, []);
    assert w + [] == w;
    assert w[|w|..] == [];
  }

  /** A line of one opcode, one whitespace character and one more word. */
  lemma TwoWords(op: string, sep: char, field: string)
    requires IsWord(op) && IsWhitespace(sep) && IsWord(field)
    ensures Tokenize(op + [sep] + field) == Command(op, [field], Some(field))
  {
    var rest := [sep] + field;
    assert op + [sep] + field == op + rest;
    assert rest[0] == sep && rest[1..] == field;
    LeadingWord(op, rest);
    WordsAfterSeparator(rest);
    SingleWord(field);
  }

  /** A line whose only word is its opcode has neither fields nor a
      remainder. */
  lemma OpcodeAlone(line: string)
    requires IsWord(TrimStart(line))
    ensures Tokenize(line) == Command(TrimStart(line), [], None)
  {
    var w := TrimStart(line);
    WordEndOfWord(w, []);
    assert w + [] == w;
    assert w[..|w|] == w && w[|w|..] == [];
  }

  /** An opcode followed by one whitespace character has an empty
      remainder. */
  lemma OpcodeAndSeparator(op: string, sep: char)
    requires IsWord(op) && IsWhitespace(sep)
    ensures Tokenize(op + [sep]) == Command(op, [], Some([]))
  {
    LeadingWord(op, [sep]);
    assert [sep][1..] == [];
    assert TrimStart([sep]) == [];
  }
}
