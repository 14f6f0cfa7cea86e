/** The tokeniser for stored table definitions.  Characters from 128 on count as letters that have no
    case; folding is over ASCII. */
module DdlLexer {
  import opened Outcomes
  import opened Characters

  datatype Kind = KEYWORD | IDENT | STRING | NUMBER | OPERATOR | PUNCT

  datatype Token = Token(kind: Kind, value: string)

  const KEYWORDS: set<string> := {
    "and", "as", "between", "case", "cast", "collate", "else", "escape", "glob", "in", "is", "like", "match", "not",
    "null", "or", "regexp", "then", "when", "with", "true", "false", "check"}

  const LONG_OPERATORS: set<string> := {"<<", ">>", "||", "->", "<>", "!=", "<=", ">=", "=="}

  const OPERATOR_CHARACTERS := "+-*/%|&^~<>!=?:"

  const PUNCTUATION := "(),;."

  predicate WordStart(c: char) {
    IsLetter(c) || c == '_' || c as int >= 128
  }

  predicate Alphanumeric(c: char) {
    IsLetter(c) || IsDigit(c) || c as int >= 128
  }

  predicate WordPart(c: char) {
    Alphanumeric(c) || c == '_'
  }

  /** Whether a number goes on with `c` after `previous`: a sign belongs to it only after an `e`. */
  predicate NumberPart(previous: char, c: char) {
    (Alphanumeric(c) || c in ".+-") && (c in "+-" ==> Lower(previous) == 'e')
  }

  function WordToken(text: string): Token {
    Token(if Fold(text) in KEYWORDS then KEYWORD else IDENT, Fold(text))
  }

  // ---- one step, on the rest of the text ----

  /** The text after the next line break. */
  function AfterLine(s: string): (r: string)
    ensures |r| <= |s| && r == s[|s| - |r|..]
  {
    if s == [] then [] else if s[0] == '\n' then s[1..] else AfterLine(s[1..])
  }

  /** The text after the next end of a block comment. */
  function AfterBlock(s: string): (r: Option<string>)
    ensures r.Some? ==> |r.value| <= |s| && r.value == s[|s| - |r.value|..]
  {
    if |s| < 2 then None
    else if s[0] == '*' && s[1] == '/' then Some(s[2..])
    else AfterBlock(s[1..])
  }

  datatype Read = Read(value: string, rest: string)

  /** The text up to the closing delimiter, a doubled delimiter standing for one. */
  function ReadDelimited(s: string, close: char): (r: Option<Read>)
    ensures r.Some? ==> |r.value.rest| < |s| && r.value.rest == s[|s| - |r.value.rest|..]
    decreases |s|
  {
    if s == [] then None
    else if s[0] != close then
      var r := ReadDelimited(s[1..], close);
      if r.None? then None else Some(Read([s[0]] + r.value.value, r.value.rest))
    else if |s| > 1 && s[1] == close then
      var r := ReadDelimited(s[2..], close);
      if r.None? then None else Some(Read([close] + r.value.value, r.value.rest))
    else Some(Read([], s[1..]))
  }

  /** How many characters at the front belong to a word. */
  function WordLength(s: string): (n: nat)
    ensures n <= |s|
  {
    if s == [] || !WordPart(s[0]) then 0 else 1 + WordLength(s[1..])
  }

  /** How many characters at the front continue a number whose last character is `previous`. */
  function NumberLength(previous: char, s: string): (n: nat)
    ensures n <= |s|
    decreases |s|
  {
    if s == [] || !NumberPart(previous, s[0]) then 0 else 1 + NumberLength(s[0], s[1..])
  }

  /** The longest operator at the front, if it has more than one character. */
  function LongOperator(s: string): (r: Option<string>)
    ensures r.Some? ==> r.value <= s && |r.value| > 0
  {
    if "->>" <= s then Some("->>")
    else if |s| >= 2 && s[..2] in LONG_OPERATORS then Some(s[..2])
    else None
  }

  datatype Stepped = Skipped(rest: string) | Emitted(token: Token, rest: string) | Stuck(reason: string)

  function CloseOf(open: char): char {
    if open == '[' then ']' else open
  }

  predicate IsOpen(c: char) {
    c == '\'' || c == '"' || c == '`' || c == '['
  }

  predicate NumberStart(s: string)
    requires s != []
  {
    IsDigit(s[0]) || (s[0] == '.' && |s| > 1 && IsDigit(s[1]))
  }

  function DelimitedToken(open: char, text: string): Token {
    if open == '\'' then Token(STRING, text) else Token(IDENT, Fold(text))
  }

  function Unterminated(open: char): string {
    if open == '\'' then "unterminated string"
    else if open == '[' then "unterminated bracket identifier"
    else "unterminated quoted identifier"
  }

  predicate IsLineComment(s: string) {
    "--" <= s
  }

  predicate IsBlockComment(s: string) {
    "/*" <= s
  }

  /** One turn of the tokeniser's loop. */
  function Step(s: string): (r: Stepped)
    requires s != []
    ensures !r.Stuck? ==> |r.rest| < |s| && r.rest == s[|s| - |r.rest|..]
  {
    var c := s[0];
    if IsSpace(c) then Skipped(s[1..])
    else if IsLineComment(s) then Skipped(AfterLine(s[2..]))
    else if IsBlockComment(s) then
      var r := AfterBlock(s[2..]);
      if r.None? then Stuck("unterminated block comment") else Skipped(r.value)
    else if IsOpen(c) then
      var r := ReadDelimited(s[1..], CloseOf(c));
      if r.None? then Stuck(Unterminated(c)) else Emitted(DelimitedToken(c, r.value.value), r.value.rest)
    else if WordStart(c) then
      var n := 1 + WordLength(s[1..]);
      Emitted(WordToken(s[..n]), s[n..])
    else if NumberStart(s) then
      var n := 1 + NumberLength(c, s[1..]);
      Emitted(Token(NUMBER, Fold(s[..n])), s[n..])
    else StepSymbol(s)
  }

  function StepSymbol(s: string): (r: Stepped)
    requires s != []
    ensures !r.Stuck? ==> |r.rest| < |s| && r.rest == s[|s| - |r.rest|..]
  {
    var operator := LongOperator(s);
    if operator.Some? then Emitted(Token(OPERATOR, operator.value), s[|operator.value|..])
    else if s[0] in OPERATOR_CHARACTERS then Emitted(Token(OPERATOR, [s[0]]), s[1..])
    else if s[0] in PUNCTUATION then Emitted(Token(PUNCT, [s[0]]), s[1..])
    else Stuck("unrecognized DDL character")
  }

  /** `_lex_ddl`. */
  function Lex(s: string): Result<seq<Token>>
    decreases |s|
  {
    if s == [] then Ok([]) else
    var step := Step(s);
    match step
    case Skipped(rest) => Lex(rest)
    case Emitted(token, rest) => var more :- Lex(rest); Ok([token] + more)
    case Stuck(reason) => Err(ValueError(reason))
  }

  // ---- the tokeniser as it runs, on an index ----

  /** What the loop still has to do after the tokens found so far. */
  function After(tokens: seq<Token>, r: Result<seq<Token>>): Result<seq<Token>> {
    if r.Ok? then Ok(tokens + r.value) else r
  }

  function AfterRead(value: string, r: Option<Read>): Option<Read> {
    if r.None? then None else Some(Read(value + r.value.value, r.value.rest))
  }

  lemma AfterNothing(r: Result<seq<Token>>, read: Option<Read>)
    ensures After([], r) == r && AfterRead([], read) == read
  {
    if r.Ok? {
      assert [] + r.value == r.value;
    }
    if read.Some? {
      assert [] + read.value.value == read.value.value;
    }
  }

  lemma AfterReadTwice(value: string, piece: string, r: Option<Read>)
    ensures AfterRead(value, AfterRead(piece, r)) == AfterRead(value + piece, r)
  {
    if r.Some? {
      assert value + (piece + r.value.value) == (value + piece) + r.value.value;
    }
  }

  /** What reading at an index comes to, by the character found there. */
  lemma ReadAt(sql: string, i: nat, close: char)
    requires i < |sql|
    ensures var c := sql[i]; var r := ReadDelimited(sql[i..], close);
      if c != close then r == AfterRead([c], ReadDelimited(sql[i + 1..], close))
      else if i + 1 < |sql| && sql[i + 1] == close then r == AfterRead([close], ReadDelimited(sql[i + 2..], close))
      else r == Some(Read([], sql[i + 1..]))
  {
    var s := sql[i..];
    assert s[1..] == sql[i + 1..];
    if i + 1 < |sql| {
      assert s[1] == sql[i + 1] && s[2..] == sql[i + 2..];
    }
  }

  method ScanDelimited(sql: string, start: nat, close: char) returns (value: string, end: nat, closed: bool)
    requires start <= |sql|
    ensures closed <==> ReadDelimited(sql[start..], close).Some?
    ensures closed ==> end <= |sql| && ReadDelimited(sql[start..], close) == Some(Read(value, sql[end..]))
  {
    hide ReadDelimited;
    value, end, closed := [], start, false;
    AfterNothing(Ok([]), ReadDelimited(sql[start..], close));
    while end < |sql|
      invariant start <= end <= |sql|
      invariant ReadDelimited(sql[start..], close) == AfterRead(value, ReadDelimited(sql[end..], close))
    {
      ReadAt(sql, end, close);
      if sql[end] == close {
        if end + 1 < |sql| && sql[end + 1] == close {
          AfterReadTwice(value, [close], ReadDelimited(sql[end + 2..], close));
          value := value + [close];
          end := end + 2;
        } else {
          end := end + 1;
          closed := true;
          assert value + [] == value;
          return;
        }
      } else {
        AfterReadTwice(value, [sql[end]], ReadDelimited(sql[end + 1..], close));
        value := value + [sql[end]];
        end := end + 1;
      }
    }
    assert sql[end..] == [];
    NothingToRead(close);
  }

  lemma NothingToRead(close: char)
    ensures ReadDelimited([], close).None?
  {
  }

  method ScanWord(sql: string, start: nat) returns (end: nat)
    requires start < |sql|
    ensures end == start + 1 + WordLength(sql[start + 1..]) && end <= |sql|
  {
    end := start + 1;
    while end < |sql| && WordPart(sql[end])
      invariant start < end <= |sql|
      invariant start + 1 + WordLength(sql[start + 1..]) == end + WordLength(sql[end..])
    {
      assert sql[end..][1..] == sql[end + 1..];
      end := end + 1;
    }
  }

  method ScanNumber(sql: string, start: nat) returns (end: nat)
    requires start < |sql|
    ensures end == start + 1 + NumberLength(sql[start], sql[start + 1..]) && end <= |sql|
  {
    end := start + 1;
    while end < |sql| && (Alphanumeric(sql[end]) || sql[end] in ".+-")
      invariant start < end <= |sql|
      invariant start + 1 + NumberLength(sql[start], sql[start + 1..]) == end + NumberLength(sql[end - 1], sql[end..])
    {
      assert sql[end..][1..] == sql[end + 1..];
      if sql[end] in "+-" && Lower(sql[end - 1]) != 'e' {
        break;
      }
      end := end + 1;
    }
  }

  method LexDdl(sql: string) returns (r: Result<seq<Token>>)
    ensures r == Lex(sql)
  {
    hide Step, IsSpace, AfterLine, AfterBlock, ReadDelimited, LongOperator;
    var tokens: seq<Token> := [];
    var index := 0;
    assert sql[0..] == sql;
    AfterNothing(Lex(sql), None);
    while index < |sql|
      invariant 0 <= index <= |sql|
      invariant Lex(sql) == After(tokens, Lex(sql[index..]))
    {
      var step := NextStep(sql, index);
      match step
      case Skipped(rest) =>
        index := |sql| - |rest|;
      case Emitted(token, rest) =>
        assert forall more: seq<Token> :: tokens + ([token] + more) == (tokens + [token]) + more;
        tokens := tokens + [token];
        index := |sql| - |rest|;
      case Stuck(reason) =>
        return Err(ValueError(reason));
    }
    assert sql[index..] == [] && tokens + [] == tokens;
    return Ok(tokens);
  }

  /** One turn of the loop at an index. */
  method NextStep(sql: string, index: nat) returns (step: Stepped)
    requires index < |sql|
    ensures step == Step(sql[index..])
  {
    hide IsSpace, AfterLine, AfterBlock, ReadDelimited, WordLength, NumberLength, StepSymbol, Fold, WordPart,
         NumberPart, WordStart, IsOpen, DelimitedToken, Unterminated, CloseOf;
    var c := sql[index];
    ghost var s := sql[index..];
    assert s[0] == c;
    if IsSpace(c) {
      return Skipped(sql[index + 1..]);
    }
    if IsLineComment(sql[index..]) {
      return Skipped(AfterLine(sql[index + 2..]));
    }
    if IsBlockComment(sql[index..]) {
      var end := AfterBlock(sql[index + 2..]);
      return if end.None? then Stuck("unterminated block comment") else Skipped(end.value);
    }
    if IsOpen(c) {
      var value, end, closed := ScanDelimited(sql, index + 1, CloseOf(c));
      return if closed then Emitted(DelimitedToken(c, value), sql[end..]) else Stuck(Unterminated(c));
    }
    if WordStart(c) {
      var end := ScanWord(sql, index);
      assert s[..end - index] == sql[index..end];
      return Emitted(WordToken(sql[index..end]), sql[end..]);
    }
    if IsDigit(c) || (c == '.' && index + 1 < |sql| && IsDigit(sql[index + 1])) {
      var end := ScanNumber(sql, index);
      assert s[..end - index] == sql[index..end];
      return Emitted(Token(NUMBER, Fold(sql[index..end])), sql[end..]);
    }
    return StepSymbol(sql[index..]);
  }
}
