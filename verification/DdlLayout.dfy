/** Layouts of a token sequence, and the round trip through the tokeniser in both directions. */
module DdlLayout {
  import opened Outcomes
  import opened Characters
  import opened DdlLexer

  /** A piece of text: a blank, a comment, or one token written in some style. */
  datatype Part =
    | Space(c: char)
    | LineComment(text: string, ended: bool)
    | BlockComment(text: string)
    | Word(text: string)
    | Number(text: string)
    | Delimited(open: char, text: string)
    | Symbol(text: string)

  function Doubled(text: string, close: char): string {
    if text == [] then [] else (if text[0] == close then [close, close] else [text[0]]) + Doubled(text[1..], close)
  }

  function PartText(p: Part): string {
    match p
    case Space(c) => [c]
    case LineComment(text, ended) => "--" + (text + if ended then "\n" else "")
    case BlockComment(text) => "/*" + (text + "*/")
    case Word(text) => text
    case Number(text) => text
    case Delimited(open, text) => [open] + (Doubled(text, CloseOf(open)) + [CloseOf(open)])
    case Symbol(text) => text
  }

  /** The token a piece stands for: none for blanks and comments. */
  function PartToken(p: Part): Option<Token> {
    match p
    case Word(text) => Some(WordToken(text))
    case Number(text) => Some(Token(NUMBER, Fold(text)))
    case Delimited(open, text) => Some(DelimitedToken(open, text))
    case Symbol(text) => Some(Token(if |text| == 1 && text[0] in PUNCTUATION then PUNCT else OPERATOR, text))
    case _ => None
  }

  predicate NumberTail(previous: char, s: string)
    decreases |s|
  {
    s == [] || (NumberPart(previous, s[0]) && NumberTail(s[0], s[1..]))
  }

  predicate IsSymbol(s: string) {
    s == "->>" || s in LONG_OPERATORS || (|s| == 1 && (s[0] in OPERATOR_CHARACTERS || s[0] in PUNCTUATION))
  }

  predicate PartValid(p: Part) {
    match p
    case Space(c) => IsSpace(c)
    case LineComment(text, _) => '\n' !in text
    case BlockComment(text) => AfterBlock(text).None?
    case Word(text) =>
      && text != [] && WordStart(text[0]) && !IsSpace(text[0])
      && forall i :: 0 <= i < |text| ==> WordPart(text[i])
    case Number(text) => text != [] && NumberStart(text) && NumberTail(text[0], text[1..])
    case Delimited(open, _) => IsOpen(open)
    case Symbol(text) => IsSymbol(text)
  }

  /** The piece ends where the following text begins: nothing there would be read as part of it. */
  predicate Ends(p: Part, rest: string) {
    match p
    case LineComment(_, ended) => ended || rest == []
    case Word(_) => rest == [] || !WordPart(rest[0])
    case Number(text) => text != [] && (rest == [] || !NumberPart(text[|text| - 1], rest[0]))
    case Delimited(open, _) => rest == [] || rest[0] != CloseOf(open)
    case Symbol(text) =>
      && !IsLineComment(text + rest) && !IsBlockComment(text + rest)
      && (text == "." ==> rest == [] || !IsDigit(rest[0]))
      && (LongOperator(text + rest) == if |text| == 1 then None else Some(text))
    case _ => true
  }

  function Text(parts: seq<Part>): string {
    if parts == [] then [] else PartText(parts[0]) + Text(parts[1..])
  }

  /** Every piece is well formed and ends where the next begins. */
  predicate WellLaidOut(parts: seq<Part>) {
    parts == [] || (PartValid(parts[0]) && Ends(parts[0], Text(parts[1..])) && WellLaidOut(parts[1..]))
  }

  function Tokens(parts: seq<Part>): seq<Token> {
    if parts == [] then []
    else (if PartToken(parts[0]).Some? then [PartToken(parts[0]).value] else []) + Tokens(parts[1..])
  }

  // ---- printing, then reading ----

  lemma {:induction false} AfterLineText(text: string, rest: string)
    requires '\n' !in text
    ensures AfterLine(text + ("\n" + rest)) == rest
    ensures AfterLine(text) == []
    decreases |text|
  {
    var s := text + ("\n" + rest);
    if text == [] {
      assert s[1..] == rest;
    } else {
      assert s[1..] == text[1..] + ("\n" + rest);
      AfterLineText(text[1..], rest);
    }
  }

  lemma {:induction false} AfterBlockText(text: string, rest: string)
    requires AfterBlock(text).None?
    ensures AfterBlock(text + ("*/" + rest)) == Some(rest)
    decreases |text|
  {
    var s := text + ("*/" + rest);
    if text == [] {
      assert s[2..] == rest;
    } else {
      assert s[1..] == text[1..] + ("*/" + rest);
      assert |text| >= 2 ==> s[1] == text[1];
      AfterBlockText(text[1..], rest);
    }
  }

  lemma ReadPlain(c: char, s: string, close: char)
    requires c != close
    ensures ReadDelimited([c] + s, close) == AfterRead([c], ReadDelimited(s, close))
  {
    assert ([c] + s)[0] == c && ([c] + s)[1..] == s;
  }

  lemma ReadPair(s: string, close: char)
    ensures ReadDelimited([close, close] + s, close) == AfterRead([close], ReadDelimited(s, close))
  {
    var t := [close, close] + s;
    assert t[0] == close && t[1] == close && t[2..] == s;
  }

  lemma ReadEnd(rest: string, close: char)
    requires rest == [] || rest[0] != close
    ensures ReadDelimited([close] + rest, close) == Some(Read([], rest))
  {
    var t := [close] + rest;
    assert t[0] == close && t[1..] == rest;
    assert rest != [] ==> t[1] == rest[0];
  }

  lemma DoubledCons(text: string, close: char, s: string)
    requires text != []
    ensures Doubled(text, close) + s ==
              (if text[0] == close then [close, close] else [text[0]]) + (Doubled(text[1..], close) + s)
  {
  }

  lemma {:induction false} ReadDoubled(text: string, close: char, rest: string)
    requires rest == [] || rest[0] != close
    ensures ReadDelimited(Doubled(text, close) + ([close] + rest), close) == Some(Read(text, rest))
    decreases |text|
  {
    hide ReadDelimited, Doubled;
    var tail := [close] + rest;
    if text == [] {
      assert Doubled(text, close) + tail == tail by { DoubledNothing(close, tail); }
      ReadEnd(rest, close);
    } else {
      ReadDoubled(text[1..], close, rest);
      DoubledCons(text, close, tail);
      assert text == [text[0]] + text[1..];
      if text[0] == close {
        ReadPair(Doubled(text[1..], close) + tail, close);
      } else {
        ReadPlain(text[0], Doubled(text[1..], close) + tail, close);
      }
    }
  }

  lemma DoubledNothing(close: char, s: string)
    ensures Doubled([], close) + s == s
  {
  }

  lemma {:induction false} WordLengthOf(text: string, rest: string)
    requires (forall i :: 0 <= i < |text| ==> WordPart(text[i])) && (rest == [] || !WordPart(rest[0]))
    ensures WordLength(text + rest) == |text|
    decreases |text|
  {
    if text == [] {
      assert text + rest == rest;
    } else {
      assert (text + rest)[1..] == text[1..] + rest;
      WordLengthOf(text[1..], rest);
    }
  }

  lemma {:induction false} NumberLengthOf(previous: char, text: string, rest: string)
    requires NumberTail(previous, text)
    requires rest == [] || !NumberPart(if text == [] then previous else text[|text| - 1], rest[0])
    ensures NumberLength(previous, text + rest) == |text|
    decreases |text|
  {
    if text == [] {
      assert text + rest == rest;
    } else {
      assert (text + rest)[1..] == text[1..] + rest;
      NumberLengthOf(text[0], text[1..], rest);
    }
  }

  /** What one turn of the tokeniser does with a piece. */
  ghost predicate StepsOver(p: Part, rest: string) {
    var s := PartText(p) + rest;
    && s != []
    && Step(s) == if PartToken(p).Some? then Emitted(PartToken(p).value, rest) else Skipped(rest)
  }

  lemma StepLineComment(p: Part, rest: string)
    requires PartValid(p) && Ends(p, rest) && p.LineComment?
    ensures StepsOver(p, rest)
  {
    hide AfterLine, AfterBlock, ReadDelimited, WordLength, NumberLength, StepSymbol;
    var s := PartText(p) + rest;
    var body := if p.ended then p.text + ("\n" + rest) else p.text;
    assert s == "--" + body;
    assert s[0] == '-' && s[1] == '-' && s[2..] == body;
    AfterLineText(p.text, rest);
  }

  lemma StepBlockComment(p: Part, rest: string)
    requires PartValid(p) && Ends(p, rest) && p.BlockComment?
    ensures StepsOver(p, rest)
  {
    hide AfterLine, AfterBlock, ReadDelimited, WordLength, NumberLength, StepSymbol;
    var s := PartText(p) + rest;
    var body := p.text + ("*/" + rest);
    assert s == "/*" + body;
    assert s[0] == '/' && s[1] == '*' && s[2..] == body;
    AfterBlockText(p.text, rest);
  }

  lemma StepDelimited(p: Part, rest: string)
    requires PartValid(p) && Ends(p, rest) && p.Delimited?
    ensures StepsOver(p, rest)
  {
    hide AfterLine, AfterBlock, ReadDelimited, WordLength, NumberLength, StepSymbol, Doubled, Fold, WordPart,
         NumberPart, LongOperator;
    var s, close := PartText(p) + rest, CloseOf(p.open);
    var body := Doubled(p.text, close) + ([close] + rest);
    assert s == [p.open] + body;
    assert s[0] == p.open && s[1..] == body;
    ReadDoubled(p.text, close, rest);
  }

  lemma StepWord(p: Part, rest: string)
    requires PartValid(p) && Ends(p, rest) && p.Word?
    ensures StepsOver(p, rest)
  {
    var s := p.text + rest;
    assert s[0] == p.text[0];
    assert s[1..] == p.text[1..] + rest;
    WordLengthOf(p.text[1..], rest);
    assert s[..|p.text|] == p.text && s[|p.text|..] == rest;
  }

  lemma StepNumber(p: Part, rest: string)
    requires PartValid(p) && Ends(p, rest) && p.Number?
    ensures StepsOver(p, rest)
  {
    var s := p.text + rest;
    assert s[0] == p.text[0];
    assert s[1..] == p.text[1..] + rest;
    assert |p.text| > 1 ==> s[1] == p.text[1];
    NumberLengthOf(p.text[0], p.text[1..], rest);
    assert s[..|p.text|] == p.text && s[|p.text|..] == rest;
  }

  lemma SymbolCharacters(c: char)
    requires c in OPERATOR_CHARACTERS || c in PUNCTUATION
    ensures !IsSpace(c) && !IsOpen(c) && !WordStart(c) && !IsDigit(c)
    ensures !(c in OPERATOR_CHARACTERS && c in PUNCTUATION)
  {
  }

  lemma SymbolStart(s: string)
    requires IsSymbol(s)
    ensures s != [] && (s[0] in OPERATOR_CHARACTERS || s[0] in PUNCTUATION)
    ensures s[0] == '.' ==> s == "."
  {
  }

  lemma StepOfSymbol(p: Part, rest: string)
    requires PartValid(p) && Ends(p, rest) && p.Symbol?
    ensures StepsOver(p, rest)
  {
    hide IsSpace, IsDigit, WordStart, LongOperator;
    var s := p.text + rest;
    SymbolStart(p.text);
    assert s[0] == p.text[0];
    SymbolCharacters(s[0]);
    assert s[|p.text|..] == rest;
    if |p.text| == 1 {
      assert p.text == [s[0]];
      assert s[1..] == rest;
    }
  }

  lemma StepPart(p: Part, rest: string)
    requires PartValid(p) && Ends(p, rest)
    ensures StepsOver(p, rest)
  {
    match p
    case Space(c) => assert (PartText(p) + rest)[1..] == rest;
    case LineComment(_, _) => StepLineComment(p, rest);
    case BlockComment(_) => StepBlockComment(p, rest);
    case Word(_) => StepWord(p, rest);
    case Number(_) => StepNumber(p, rest);
    case Delimited(_, _) => StepDelimited(p, rest);
    case Symbol(_) => StepOfSymbol(p, rest);
  }

  lemma LexStep(p: Part, rest: string)
    requires StepsOver(p, rest)
    ensures var token := PartToken(p);
      Lex(PartText(p) + rest) == After(if token.Some? then [token.value] else [], Lex(rest))
  {
    hide Step, PartText, PartToken;
    AfterNothing(Lex(rest), None);
  }

  /** Printing a token sequence in any layout and reading it gives the sequence back. */
  lemma {:induction false} LexOfLayout(parts: seq<Part>)
    requires WellLaidOut(parts)
    ensures Lex(Text(parts)) == Ok(Tokens(parts))
    decreases |parts|
  {
    hide Step, PartText, PartValid, Ends;
    if parts != [] {
      StepPart(parts[0], Text(parts[1..]));
      LexOfLayout(parts[1..]);
      LexStep(parts[0], Text(parts[1..]));
    }
  }

  // ---- reading, then printing ----

  lemma {:induction false} AfterLineSplit(s: string) returns (text: string, ended: bool)
    ensures '\n' !in text && (ended || AfterLine(s) == [])
    ensures s == text + ((if ended then "\n" else "") + AfterLine(s))
    decreases |s|
  {
    if s == [] {
      text, ended := [], false;
    } else if s[0] == '\n' {
      text, ended := [], true;
      assert s == "\n" + s[1..];
    } else {
      var t, e := AfterLineSplit(s[1..]);
      text, ended := [s[0]] + t, e;
      assert s == [s[0]] + s[1..];
      Prepended(s[0], t, (if e then "\n" else "") + AfterLine(s[1..]));
    }
  }

  lemma Prepended(c: char, t: string, tail: string)
    ensures [c] + (t + tail) == ([c] + t) + tail
  {
  }

  lemma {:induction false} AfterBlockSplit(s: string) returns (text: string)
    requires AfterBlock(s).Some?
    ensures AfterBlock(text).None? && s == text + ("*/" + AfterBlock(s).value)
    decreases |s|
  {
    if s[0] == '*' && s[1] == '/' {
      text := [];
      assert s == "*/" + s[2..];
    } else {
      var t := AfterBlockSplit(s[1..]);
      text := [s[0]] + t;
      assert s == [s[0]] + s[1..];
      Prepended(s[0], t, "*/" + AfterBlock(s[1..]).value);
      assert text[1..] == t;
      assert |t| > 0 ==> t[0] == s[1];
    }
  }

  lemma {:induction false} ReadSplit(s: string, close: char)
    requires ReadDelimited(s, close).Some?
    ensures var r := ReadDelimited(s, close).value;
      && s == Doubled(r.value, close) + ([close] + r.rest)
      && (r.rest == [] || r.rest[0] != close)
    decreases |s|
  {
    hide Doubled, ReadDelimited;
    if s[0] != close {
      assert s == [s[0]] + s[1..];
      ReadPlain(s[0], s[1..], close);
      ReadSplit(s[1..], close);
      DoubledAfter(s[0], ReadDelimited(s[1..], close).value, close);
    } else if |s| > 1 && s[1] == close {
      assert s == [close, close] + s[2..];
      ReadPair(s[2..], close);
      ReadSplit(s[2..], close);
      DoubledAfter(close, ReadDelimited(s[2..], close).value, close);
    } else {
      assert s == [close] + s[1..];
      ReadEnd(s[1..], close);
      DoubledNothing(close, s);
    }
  }

  lemma DoubledAfter(c: char, r: Read, close: char)
    ensures var tail := [close] + r.rest;
      Doubled([c] + r.value, close) + tail ==
        (if c == close then [close, close] else [c]) + (Doubled(r.value, close) + tail)
  {
    hide Doubled;
    assert ([c] + r.value)[1..] == r.value;
    DoubledCons([c] + r.value, close, [close] + r.rest);
  }

  lemma {:induction false} WordSplit(s: string)
    ensures var n := WordLength(s);
      (forall i :: 0 <= i < n ==> WordPart(s[i])) && (n == |s| || !WordPart(s[n]))
    decreases |s|
  {
    if s != [] && WordPart(s[0]) {
      WordSplit(s[1..]);
      var n := WordLength(s);
      forall i | 0 <= i < n
        ensures WordPart(s[i])
      {
        assert i > 0 ==> s[i] == s[1..][i - 1];
      }
    }
  }

  lemma {:induction false} NumberSplit(previous: char, s: string)
    ensures var n := NumberLength(previous, s);
      && NumberTail(previous, s[..n])
      && (n == |s| || !NumberPart(if n == 0 then previous else s[n - 1], s[n]))
    decreases |s|
  {
    if s != [] && NumberPart(previous, s[0]) {
      NumberSplit(s[0], s[1..]);
      var n := NumberLength(previous, s);
      assert s[..n][1..] == s[1..][..n - 1];
    }
  }

  /** `p` is what the tokeniser took from the front of `s`. */
  ghost predicate Takes(p: Part, s: string)
    requires s != [] && !Step(s).Stuck?
  {
    PartValid(p) && Ends(p, Step(s).rest) && PartText(p) + Step(s).rest == s
  }

  lemma TakeComment(s: string) returns (p: Part)
    requires s != [] && !Step(s).Stuck? && !IsSpace(s[0]) && (IsLineComment(s) || IsBlockComment(s))
    ensures Takes(p, s)
  {
    hide AfterLine, AfterBlock, ReadDelimited, WordLength, NumberLength, StepSymbol;
    var body := s[2..];
    if IsLineComment(s) {
      assert s == "--" + body;
      var text, ended := AfterLineSplit(body);
      p := LineComment(text, ended);
      var end := if ended then "\n" else "";
      assert text + (end + AfterLine(body)) == (text + end) + AfterLine(body);
      assert "--" + ((text + end) + AfterLine(body)) == PartText(p) + AfterLine(body);
    } else {
      assert s == "/*" + body;
      var text := AfterBlockSplit(body);
      p := BlockComment(text);
      var rest := AfterBlock(body).value;
      assert text + ("*/" + rest) == (text + "*/") + rest;
      assert "/*" + ((text + "*/") + rest) == PartText(p) + rest;
    }
  }

  lemma Requoted(open: char, quoted: string, close: char, rest: string)
    ensures [open] + (quoted + [close]) + rest == [open] + (quoted + ([close] + rest))
  {
  }

  lemma TakeDelimited(s: string) returns (p: Part)
    requires s != [] && !Step(s).Stuck? && IsOpen(s[0])
    ensures Takes(p, s)
  {
    hide AfterLine, AfterBlock, ReadDelimited, WordLength, NumberLength, StepSymbol, Doubled, Fold;
    var open, close := s[0], CloseOf(s[0]);
    var r := ReadDelimited(s[1..], close).value;
    ReadSplit(s[1..], close);
    p := Delimited(open, r.value);
    assert s == [open] + s[1..];
    Requoted(open, Doubled(r.value, close), close, r.rest);
  }

  lemma TakeWord(s: string) returns (p: Part)
    requires s != [] && !IsSpace(s[0]) && WordStart(s[0])
    ensures !Step(s).Stuck? && Takes(p, s)
  {
    hide AfterLine, AfterBlock, ReadDelimited, NumberLength, StepSymbol, Fold;
    var n := 1 + WordLength(s[1..]);
    WordSplit(s[1..]);
    p := Word(s[..n]);
    forall i | 0 <= i < n
      ensures WordPart(s[..n][i])
    {
      assert i > 0 ==> s[i] == s[1..][i - 1];
    }
    assert n < |s| ==> s[n] == s[1..][n - 1];
    assert s == s[..n] + s[n..];
  }

  lemma TakeNumber(s: string) returns (p: Part)
    requires s != [] && !IsSpace(s[0]) && !IsOpen(s[0]) && !WordStart(s[0]) && NumberStart(s)
    ensures !Step(s).Stuck? && Takes(p, s)
  {
    hide NumberTail, AfterLine, AfterBlock, ReadDelimited, WordLength, StepSymbol, Fold, NumberPart;
    var n := 1 + NumberLength(s[0], s[1..]);
    NumberSplit(s[0], s[1..]);
    p := Number(s[..n]);
    assert s[..n][1..] == s[1..][..n - 1];
    assert n < |s| ==> s[n] == s[1..][n - 1];
    assert n > 1 ==> s[n - 1] == s[1..][n - 2];
    assert s == s[..n] + s[n..];
    DotNeedsDigit(s, n);
  }

  /** A number that starts with a dot has taken the digit after it. */
  lemma DotNeedsDigit(s: string, n: nat)
    requires s != [] && NumberStart(s) && n == 1 + NumberLength(s[0], s[1..])
    ensures NumberStart(s[..n])
  {
  }

  lemma TakeSymbol(s: string) returns (p: Part)
    requires s != [] && !IsSpace(s[0]) && !IsLineComment(s) && !IsBlockComment(s)
    requires !IsOpen(s[0]) && !WordStart(s[0]) && !NumberStart(s) && !Step(s).Stuck?
    ensures Takes(p, s)
  {
    hide AfterLine, AfterBlock, ReadDelimited, WordLength, NumberLength, Fold, WordStart, IsSpace;
    var operator := LongOperator(s);
    var n := if operator.Some? then |operator.value| else 1;
    p := Symbol(s[..n]);
    assert s == s[..n] + s[n..];
    if operator.Some? {
      assert s[..n] == operator.value;
    }
  }

  lemma TakePart(s: string) returns (p: Part)
    requires s != [] && !Step(s).Stuck?
    ensures Takes(p, s)
  {
    if IsSpace(s[0]) {
      p := Space(s[0]);
      assert s == [s[0]] + s[1..];
    } else if IsLineComment(s) || IsBlockComment(s) {
      p := TakeComment(s);
    } else if IsOpen(s[0]) {
      p := TakeDelimited(s);
    } else if WordStart(s[0]) {
      p := TakeWord(s);
    } else if NumberStart(s) {
      p := TakeNumber(s);
    } else {
      p := TakeSymbol(s);
    }
  }

  /** Whatever the tokeniser accepts is a layout of the tokens it returns. */
  lemma {:induction false} LayoutOfLexed(s: string) returns (parts: seq<Part>)
    requires Lex(s).Ok?
    ensures WellLaidOut(parts) && Text(parts) == s && Lex(s) == Ok(Tokens(parts))
    decreases |s|
  {
    hide Step, PartText, PartValid, Ends;
    if s == [] {
      parts := [];
    } else {
      var p := TakePart(s);
      var rest := Step(s).rest;
      var more := LayoutOfLexed(rest);
      StepPart(p, rest);
      LexStep(p, rest);
      parts := [p] + more;
      assert parts[0] == p && parts[1..] == more;
      assert Tokens(parts) == (if PartToken(p).Some? then [PartToken(p).value] else []) + Tokens(more);
    }
  }

  /** Reading is exactly the inverse of laying out: a text lexes to a token sequence if and only if it
      is some layout of it. */
  lemma LexesExactlyLayouts(s: string, tokens: seq<Token>)
    ensures Lex(s) == Ok(tokens) <==>
              exists parts: seq<Part> :: WellLaidOut(parts) && Text(parts) == s && Tokens(parts) == tokens
  {
    hide Lex, WellLaidOut, Text, Tokens;
    if Lex(s) == Ok(tokens) {
      var parts := LayoutOfLexed(s);
    }
    if parts: seq<Part> :| WellLaidOut(parts) && Text(parts) == s && Tokens(parts) == tokens {
      LexOfLayout(parts);
    }
  }
}
