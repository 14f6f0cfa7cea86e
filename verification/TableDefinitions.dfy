/** Cutting one table's definition out of a schema script.  The script is scanned character by character,
    without the tokeniser; the two are shown to find the same closing parenthesis. */
module TableDefinitions {
  import opened Outcomes
  import opened Characters
  import opened DdlLexer
  import opened DdlLayout
  import opened CheckConstraints

  // ---- the header pattern ----

  /** A text that the header pattern matches, by the parts of the pattern. */
  datatype Header = Header(create: string, gap1: string, table: string, gap2: string, name: string, gap3: string) {
    function Written(): string {
      create + (gap1 + (table + (gap2 + (name + (gap3 + "(")))))
    }
  }

  predicate Introduces(h: Header, table: string) {
    && Fold(h.create) == "create" && Fold(h.table) == "table" && Fold(h.name) == Fold(table)
    && Blank(h.gap1) && Blank(h.gap2) && Blank(h.gap3) && h.gap1 != [] && h.gap2 != []
  }

  function AfterWord(s: string, word: string): Option<string> {
    if |word| <= |s| && Fold(s[..|word|]) == Fold(word) then Some(s[|word|..]) else None
  }

  function AfterBlanks(s: string): string {
    if s != [] && IsSpace(s[0]) then AfterBlanks(s[1..]) else s
  }

  function AfterGap(s: string): Option<string> {
    if s != [] && IsSpace(s[0]) then Some(AfterBlanks(s)) else None
  }

  function LeadingBlanks(s: string): (n: nat)
    ensures n <= |s| && Blank(s[..n]) && (n == |s| || !IsSpace(s[n]))
  {
    if s == [] || !IsSpace(s[0]) then 0
    else
      var n := 1 + LeadingBlanks(s[1..]);
      assert s[..n] == [s[0]] + s[1..][..n - 1];
      n
  }

  /** After a gap of this length come the name, blanks and the opening parenthesis. */
  predicate NameAt(s: string, gap: nat, table: string)
    requires gap <= |s|
  {
    var rest := AfterWord(s[gap..], table);
    rest.Some? && var opening := AfterBlanks(rest.value); opening != [] && opening[0] == '('
  }

  /** The gap is tried at its longest first, then ever shorter. */
  predicate NameFollows(s: string, gap: nat, table: string)
    requires gap <= |s|
  {
    gap > 0 && (NameAt(s, gap, table) || NameFollows(s, gap - 1, table))
  }

  /** The header pattern matches at the front. */
  predicate HeaderAt(s: string, table: string) {
    var s1 := AfterWord(s, "create");
    s1.Some? &&
    var s2 := AfterGap(s1.value);
    s2.Some? &&
    var s3 := AfterWord(s2.value, "table");
    s3.Some? && NameFollows(s3.value, LeadingBlanks(s3.value), table)
  }

  lemma AfterWordIs(s: string, word: string, rest: string)
    ensures AfterWord(s, word) == Some(rest) <==> exists w: string :: Fold(w) == Fold(word) && s == w + rest
  {
    if AfterWord(s, word) == Some(rest) {
      assert s == s[..|word|] + rest;
    }
    if w: string :| Fold(w) == Fold(word) && s == w + rest {
      assert |w| == |Fold(w)| == |word|;
      assert s[..|word|] == w && s[|word|..] == rest;
    }
  }

  lemma {:induction false} AfterBlanksOf(gap: string, rest: string)
    requires Blank(gap) && (rest == [] || !IsSpace(rest[0]))
    ensures AfterBlanks(gap + rest) == rest
    ensures gap != [] ==> AfterGap(gap + rest) == Some(rest)
    decreases |gap|
  {
    if gap == [] {
      assert gap + rest == rest;
    } else {
      assert (gap + rest)[1..] == gap[1..] + rest;
      AfterBlanksOf(gap[1..], rest);
    }
  }

  lemma {:induction false} BlanksSplit(s: string) returns (gap: string)
    ensures Blank(gap) && s == gap + AfterBlanks(s)
    ensures gap != [] <==> s != [] && IsSpace(s[0])
    decreases |s|
  {
    if s != [] && IsSpace(s[0]) {
      var more := BlanksSplit(s[1..]);
      gap := [s[0]] + more;
      assert s == [s[0]] + s[1..];
    } else {
      gap := [];
    }
  }

  lemma NotBlank(w: string, word: string, rest: string)
    requires Fold(w) == Fold(word) && word != [] && !IsSpace(word[0])
    ensures w != [] && w + rest != [] && !IsSpace((w + rest)[0])
  {
    assert |w| == |Fold(w)| == |word|;
    assert Lower(w[0]) == Fold(w)[0] == Lower(word[0]);
  }

  /** The matcher, with its backtracking, accepts exactly the texts of the pattern, whatever the name. */
  lemma HeaderMatches(s: string, table: string)
    ensures HeaderAt(s, table) <==>
              exists h: Header, rest: string :: Introduces(h, table) && s == h.Written() + rest
  {
    hide AfterWord, AfterBlanks, AfterGap, IsSpace, HeaderAt;
    if HeaderAt(s, table) {
      var h, rest := HeaderSplit(s, table);
    }
    if h: Header, rest: string :| Introduces(h, table) && s == h.Written() + rest {
      HeaderOf(h, table, rest);
    }
  }

  lemma {:induction false} NameFound(s: string, gap: nat, table: string) returns (g: nat)
    requires gap <= |s| && NameFollows(s, gap, table)
    ensures 0 < g <= gap && NameAt(s, g, table)
  {
    hide NameAt;
    if NameAt(s, gap, table) {
      g := gap;
    } else {
      g := NameFound(s, gap - 1, table);
    }
  }

  lemma {:induction false} NameTried(s: string, gap: nat, table: string, g: nat)
    requires 0 < g <= gap <= |s| && NameAt(s, g, table)
    ensures NameFollows(s, gap, table)
    decreases gap
  {
    hide NameAt;
    if g < gap {
      NameTried(s, gap - 1, table, g);
    }
  }

  lemma HeaderSplit(s: string, table: string) returns (h: Header, rest: string)
    requires HeaderAt(s, table)
    ensures Introduces(h, table) && s == h.Written() + rest
  {
    hide AfterWord, AfterBlanks, IsSpace, Fold, NameFollows, LeadingBlanks;
    var s1 := AfterWord(s, "create").value;
    AfterWordIs(s, "create", s1);
    var create: string :| Fold(create) == Fold("create") && s == create + s1;
    var gap1 := BlanksSplit(s1);
    var s2 := AfterGap(s1).value;
    var s3 := AfterWord(s2, "table").value;
    AfterWordIs(s2, "table", s3);
    var word: string :| Fold(word) == Fold("table") && s2 == word + s3;
    var gap2, name, gap3, after := NameSplit(s3, table);
    rest := after;
    h := Header(create, gap1, word, gap2, name, gap3);
    KeywordsFold();
    Rejoined(h, rest);
  }

  lemma NameSplit(s: string, table: string) returns (gap: string, name: string, blanks: string, rest: string)
    requires NameFollows(s, LeadingBlanks(s), table)
    ensures Blank(gap) && gap != [] && Blank(blanks) && Fold(name) == Fold(table)
    ensures s == gap + (name + (blanks + ("(" + rest)))
  {
    hide AfterWord, AfterBlanks, IsSpace, Fold;
    var g := NameFound(s, LeadingBlanks(s), table);
    gap := s[..g];
    assert gap == s[..LeadingBlanks(s)][..g];
    var s5 := AfterWord(s[g..], table).value;
    AfterWordIs(s[g..], table, s5);
    name :| Fold(name) == Fold(table) && s[g..] == name + s5;
    blanks := BlanksSplit(s5);
    rest := AfterBlanks(s5)[1..];
    assert AfterBlanks(s5) == "(" + rest;
    assert s == gap + s[g..];
  }

  lemma KeywordsFold()
    ensures Fold("create") == "create" && Fold("table") == "table"
  {
  }

  lemma Rejoined(h: Header, rest: string)
    ensures h.Written() + rest ==
              h.create + (h.gap1 + (h.table + (h.gap2 + (h.name + (h.gap3 + ("(" + rest))))))
  {
    var t6 := h.gap3 + "(";
    assert t6 + rest == h.gap3 + ("(" + rest);
    var t5 := h.name + t6;
    assert t5 + rest == h.name + (t6 + rest);
    var t4 := h.gap2 + t5;
    assert t4 + rest == h.gap2 + (t5 + rest);
    var t3 := h.table + t4;
    assert t3 + rest == h.table + (t4 + rest);
    var t2 := h.gap1 + t3;
    assert t2 + rest == h.gap1 + (t3 + rest);
    assert h.create + t2 + rest == h.create + (t2 + rest);
  }

  lemma HeaderOf(h: Header, table: string, rest: string)
    requires Introduces(h, table)
    ensures HeaderAt(h.Written() + rest, table)
  {
    hide AfterWord, AfterBlanks, AfterGap, IsSpace, Fold, NameFollows;
    KeywordsFold();
    Rejoined(h, rest);
    var t6 := "(" + rest;
    assert t6[0] == '(';
    OpeningIsNoBlank();
    var s5 := h.gap3 + t6;
    AfterBlanksOf(h.gap3, t6);
    var s4 := h.name + s5;
    AfterWordIs(s4, table, s5);
    var s3 := h.gap2 + s4;
    var g := |h.gap2|;
    assert s3[g..] == s4 && s3[..g] == h.gap2;
    BlanksLead(s3, g);
    NameTried(s3, LeadingBlanks(s3), table, g);
    var s2 := h.table + s3;
    KeywordStarts();
    NotBlank(h.table, "table", s3);
    AfterWordIs(s2, "table", s3);
    var s1 := h.gap1 + s2;
    AfterBlanksOf(h.gap1, s2);
    AfterWordIs(h.create + s1, "create", s1);
  }

  lemma BlanksLead(s: string, g: nat)
    requires g <= |s| && Blank(s[..g])
    ensures g <= LeadingBlanks(s)
  {
    hide IsSpace;
    assert forall i :: 0 <= i < g ==> s[..g][i] == s[i];
  }

  lemma OpeningIsNoBlank()
    ensures !IsSpace('(') && !IsSpace(')')
  {
  }

  lemma KeywordStarts()
    ensures !IsSpace("create"[0]) && !IsSpace("table"[0])
  {
  }

  /** Where the header pattern matches first. */
  function FindHeader(script: string, table: string): (r: Option<nat>)
    ensures r.Some? ==> r.value <= |script| && HeaderAt(script[r.value..], table)
    ensures r.Some? ==> forall i :: 0 <= i < r.value ==> !HeaderAt(script[i..], table)
    ensures r.None? ==> forall i :: 0 <= i <= |script| ==> !HeaderAt(script[i..], table)
    decreases |script|
  {
    if HeaderAt(script, table) then
      assert script[0..] == script;
      Some(0)
    else if script == [] then
      assert script[0..] == script;
      None
    else
      var r := FindHeader(script[1..], table);
      assert forall i :: 0 < i <= |script| ==> script[i..] == script[1..][i - 1..];
      assert script[0..] == script;
      if r.None? then None else Some(r.value + 1)
  }

  // ---- the scanner ----

  /** How many parentheses are open, and the delimiter that ends the quoted text the scanner is in. */
  datatype Scan = Scan(depth: int, quote: Option<char>)

  predicate Closes(st: Scan, c: char) {
    st.quote.None? && c == ')' && st.depth == 1
  }

  function Advance(st: Scan, c: char): Scan {
    if st.quote.Some? then (if c == st.quote.value then st.(quote := None) else st)
    else if IsOpen(c) then st.(quote := Some(CloseOf(c)))
    else if c == '(' then st.(depth := st.depth + 1)
    else if c == ')' then st.(depth := st.depth - 1)
    else st
  }

  function Later(r: Option<nat>, n: nat): Option<nat> {
    if r.None? then None else Some(r.value + n)
  }

  /** Where the scanner finds the closing parenthesis. */
  function Partner(s: string, st: Scan): (r: Option<nat>)
    ensures r.Some? ==> r.value < |s|
    decreases |s|
  {
    if s == [] then None
    else if Closes(st, s[0]) then Some(0)
    else Later(Partner(s[1..], Advance(st, s[0])), 1)
  }

  /** `str.find` of one character; the length of the text when it is not there. */
  function IndexOf(s: string, c: char): (i: nat)
    ensures i <= |s| && (forall k :: 0 <= k < i ==> s[k] != c) && (i < |s| ==> s[i] == c)
  {
    if s == [] || s[0] == c then 0 else 1 + IndexOf(s[1..], c)
  }

  /** `_script_table_definition`. */
  function Definition(script: string, table: string): string {
    var start := FindHeader(script, table);
    if start.None? then "" else
    var s := script[start.value..];
    var opening := IndexOf(s, '(');
    var closing := Partner(s[opening..], Scan(0, None));
    if closing.None? then "" else s[..opening + closing.value + 1]
  }

  method ScriptTableDefinition(script: string, table: string) returns (definition: string)
    ensures definition == Definition(script, table)
  {
    hide HeaderAt, Partner, FindHeader, IndexOf;
    var start := FindHeader(script, table);
    if start.None? {
      return "";
    }
    ghost var s := script[start.value..];
    var opening := start.value + IndexOf(script[start.value..], '(');
    assert script[opening..] == s[opening - start.value..];
    var closing := ScanForClosing(script, opening);
    if closing.None? {
      return "";
    }
    assert script[start.value..closing.value + 1] == s[..closing.value + 1 - start.value];
    return script[start.value..closing.value + 1];
  }

  /** The loop over the characters from the opening parenthesis on. */
  method ScanForClosing(script: string, opening: nat) returns (closing: Option<int>)
    requires opening <= |script|
    ensures closing == LaterAt(Partner(script[opening..], Scan(0, None)), opening)
  {
    hide Partner, Advance;
    var depth, quote: Option<char> := 0, None;
    for index := opening to |script|
      invariant LaterAt(Partner(script[opening..], Scan(0, None)), opening) ==
                LaterAt(Partner(script[index..], Scan(depth, quote)), index)
    {
      var c := script[index];
      PartnerAt(script, index, Scan(depth, quote));
      AdvanceIs(depth, quote, c);
      if quote.Some? {
        if c == quote.value {
          quote := None;
        }
      } else if c == '\'' || c == '"' || c == '`' {
        quote := Some(c);
      } else if c == '[' {
        quote := Some(']');
      } else if c == '(' {
        depth := depth + 1;
      } else if c == ')' {
        depth := depth - 1;
        if depth == 0 {
          return Some(index);
        }
      }
    }
    assert script[|script|..] == [];
    NoPartner(Scan(depth, quote));
    return None;
  }

  lemma AdvanceIs(depth: int, quote: Option<char>, c: char)
    ensures Advance(Scan(depth, quote), c) ==
              if quote.Some? then Scan(depth, if c == quote.value then None else quote)
              else if c == '\'' || c == '"' || c == '`' then Scan(depth, Some(c))
              else if c == '[' then Scan(depth, Some(']'))
              else if c == '(' then Scan(depth + 1, None)
              else if c == ')' then Scan(depth - 1, None)
              else Scan(depth, None)
  {
  }

  function LaterAt(r: Option<nat>, offset: int): Option<int> {
    if r.None? then None else Some(r.value + offset)
  }

  lemma PartnerAt(s: string, i: nat, st: Scan)
    requires i < |s|
    ensures LaterAt(Partner(s[i..], st), i) ==
              if Closes(st, s[i]) then Some(i as int) else LaterAt(Partner(s[i + 1..], Advance(st, s[i])), i + 1)
  {
    assert s[i..][1..] == s[i + 1..];
  }

  lemma NoPartner(st: Scan)
    ensures Partner([], st).None?
  {
  }

  // ---- the scanner on laid-out text ----

  predicate IsMark(c: char) {
    IsOpen(c) || c == '(' || c == ')'
  }

  predicate NoMarks(s: string) {
    forall i :: 0 <= i < |s| ==> !IsMark(s[i])
  }

  /** The state after a text, unless the scanner stops inside it. */
  function Run(text: string, st: Scan): Option<Scan>
    decreases |text|
  {
    if text == [] then Some(st)
    else if Closes(st, text[0]) then None
    else Run(text[1..], Advance(st, text[0]))
  }

  /** The text after the first occurrence of a character. */
  function AfterFirst(s: string, c: char): (r: Option<string>)
    ensures r.Some? ==> |r.value| < |s|
  {
    if s == [] then None else if s[0] == c then Some(s[1..]) else AfterFirst(s[1..], c)
  }

  /** The text without its quoted parts, if every quote is closed. */
  function Unquoted(s: string): Option<string>
    decreases |s|
  {
    if s == [] then Some([])
    else if IsOpen(s[0]) then
      var rest := AfterFirst(s[1..], CloseOf(s[0]));
      if rest.None? then None else Unquoted(rest.value)
    else
      var rest := Unquoted(s[1..]);
      if rest.None? then None else Some([s[0]] + rest.value)
  }

  function Excess(s: string): int {
    multiset(s)['('] as int - multiset(s)[')'] as int
  }

  /** As many parentheses close as open, and none closes before one opened. */
  ghost predicate Parenthesised(s: string) {
    Excess(s) == 0 && forall k :: 0 <= k <= |s| ==> Excess(s[..k]) >= 0
  }

  /** Its quotes are paired, and its parentheses outside them are balanced. */
  ghost predicate Neutral(text: string) {
    Unquoted(text).Some? && Parenthesised(Unquoted(text).value)
  }

  /** The scanner knows neither comments nor the doubled closing bracket, so these must be neutral as they are
      written. */
  ghost predicate Plain(p: Part) {
    p.LineComment? || p.BlockComment? || (p.Delimited? && p.open == '[') ==> Neutral(PartText(p))
  }

  ghost predicate AllPlain(parts: seq<Part>) {
    forall i :: 0 <= i < |parts| ==> Plain(parts[i])
  }

  lemma PartnerStep(c: char, s: string, st: Scan)
    ensures Partner([c] + s, st) == if Closes(st, c) then Some(0) else Later(Partner(s, Advance(st, c)), 1)
  {
    assert ([c] + s)[0] == c && ([c] + s)[1..] == s;
  }

  lemma {:induction false} ThroughPlain(text: string, rest: string, depth: int)
    requires NoMarks(text)
    ensures Partner(text + rest, Scan(depth, None)) == Later(Partner(rest, Scan(depth, None)), |text|)
    decreases |text|
  {
    hide Partner;
    if text == [] {
      assert text + rest == rest;
    } else {
      assert text + rest == [text[0]] + (text[1..] + rest);
      PartnerStep(text[0], text[1..] + rest, Scan(depth, None));
      ThroughPlain(text[1..], rest, depth);
    }
  }

  /** A quoted text ends where the tokeniser ends it: each doubled delimiter closes and opens again. */
  lemma {:induction false} ThroughQuoted(text: string, close: char, rest: string, depth: int)
    requires IsOpen(close) && close != '['
    ensures Partner(Doubled(text, close) + ([close] + rest), Scan(depth, Some(close))) ==
              Later(Partner(rest, Scan(depth, None)), |Doubled(text, close)| + 1)
    decreases |text|
  {
    hide Partner, Doubled;
    var tail, quoted, open := [close] + rest, Scan(depth, Some(close)), Scan(depth, None);
    if text == [] {
      DoubledNothing(close, tail);
      DoubledLength(text, close);
      PartnerStep(close, rest, quoted);
    } else {
      var more := Doubled(text[1..], close) + tail;
      DoubledCons(text, close, tail);
      DoubledLength(text, close);
      ThroughQuoted(text[1..], close, rest, depth);
      if text[0] == close {
        assert [close, close] + more == [close] + ([close] + more);
        PartnerStep(close, [close] + more, quoted);
        PartnerStep(close, more, open);
      } else {
        PartnerStep(text[0], more, quoted);
      }
    }
  }

  lemma DoubledLength(text: string, close: char)
    ensures |Doubled(text, close)| ==
              if text == [] then 0 else |Doubled(text[1..], close)| + if text[0] == close then 2 else 1
  {
  }

  lemma {:induction false} PartnerAfter(text: string, rest: string, st: Scan)
    ensures var after := Run(text, st);
      if after.Some? then Partner(text + rest, st) == Later(Partner(rest, after.value), |text|)
      else Partner(text + rest, st).Some? && Partner(text + rest, st).value < |text|
    decreases |text|
  {
    hide Partner, Advance, Closes;
    if text == [] {
      assert text + rest == rest;
    } else {
      assert text + rest == [text[0]] + (text[1..] + rest);
      PartnerStep(text[0], text[1..] + rest, st);
      PartnerAfter(text[1..], rest, Advance(st, text[0]));
    }
  }

  /** What the scanner does not stop in, it does not stop in at a greater depth. */
  lemma {:induction false} RunDeeper(text: string, st: Scan, k: nat)
    requires st.depth > 0 && Run(text, st).Some?
    ensures var after := Run(text, st).value;
      Run(text, st.(depth := st.depth + k)) == Some(after.(depth := after.depth + k))
    decreases |text|
  {
    if text != [] {
      RunDeeper(text[1..], Advance(st, text[0]), k);
    }
  }

  // ---- neutral texts, and what the scanner does in them ----

  lemma {:induction false} RunQuoted(s: string, close: char, depth: int)
    ensures var rest := AfterFirst(s, close);
      Run(s, Scan(depth, Some(close))) ==
        if rest.Some? then Run(rest.value, Scan(depth, None)) else Some(Scan(depth, Some(close)))
    decreases |s|
  {
    if s != [] && s[0] != close {
      RunQuoted(s[1..], close, depth);
    }
  }

  lemma RunOne(c: char, s: string, st: Scan)
    ensures Run([c] + s, st) == if Closes(st, c) then None else Run(s, Advance(st, c))
  {
    assert ([c] + s)[0] == c && ([c] + s)[1..] == s;
  }

  /** Quoted parts do not matter; an open quote is still open at the end, if the scanner gets there. */
  lemma {:induction false} RunUnquoted(s: string, depth: int)
    ensures var outside, after := Unquoted(s), Run(s, Scan(depth, None));
      if outside.Some? then after == Run(outside.value, Scan(depth, None)) else after.Some? ==> after.value.quote.Some?
    decreases |s|
  {
    hide Run;
    var st := Scan(depth, None);
    if s != [] {
      var c, rest := s[0], s[1..];
      assert s == [c] + rest;
      RunOne(c, rest, st);
      if IsOpen(c) {
        RunQuoted(rest, CloseOf(c), depth);
        var after := AfterFirst(rest, CloseOf(c));
        if after.Some? {
          RunUnquoted(after.value, depth);
        }
      } else {
        RunUnquoted(rest, Advance(st, c).depth);
        if Unquoted(rest).Some? {
          RunOne(c, Unquoted(rest).value, st);
        }
      }
    }
  }

  lemma {:induction false} UnquotedHasNoQuotes(s: string)
    requires Unquoted(s).Some?
    ensures forall i :: 0 <= i < |Unquoted(s).value| ==> !IsOpen(Unquoted(s).value[i])
    decreases |s|
  {
    if s != [] {
      if IsOpen(s[0]) {
        UnquotedHasNoQuotes(AfterFirst(s[1..], CloseOf(s[0])).value);
      } else {
        UnquotedHasNoQuotes(s[1..]);
      }
    }
  }

  function Worth(c: char): int {
    if c == '(' then 1 else if c == ')' then -1 else 0
  }

  lemma ExcessStep(s: string, k: nat)
    requires 0 < k <= |s|
    ensures Excess(s[..k]) == Worth(s[0]) + Excess(s[1..][..k - 1])
  {
    assert s[..k] == [s[0]] + s[1..][..k - 1];
  }

  /** The level stays above zero for the scanner exactly while it does for the counts. */
  ghost predicate StaysOpen(s: string, depth: int) {
    forall k :: 0 <= k <= |s| ==> depth + Excess(s[..k]) > 0
  }

  lemma {:induction false} RunCounts(s: string, depth: int)
    requires depth > 0 && forall i :: 0 <= i < |s| ==> !IsOpen(s[i])
    ensures Run(s, Scan(depth, None)) ==
              if StaysOpen(s, depth) then Some(Scan(depth + Excess(s), None)) else None
    decreases |s|
  {
    hide Excess;
    if s == [] {
      assert s[..0] == [] && Excess([]) == 0 by { NoExcess(); }
    } else {
      var deeper, rest := depth + Worth(s[0]), s[1..];
      forall k | 0 < k <= |s|
        ensures Excess(s[..k]) == Worth(s[0]) + Excess(rest[..k - 1])
      {
        ExcessStep(s, k);
      }
      NoExcess();
      assert s[..0] == [] && rest[..0] == [] && s[..|s|] == s && rest[..|rest|] == rest;
      if deeper > 0 {
        RunCounts(rest, deeper);
        StaysOpenStep(s, depth);
      } else {
        assert !(depth + Excess(s[..1]) > 0);
      }
    }
  }

  lemma StaysOpenStep(s: string, depth: int)
    requires s != [] && depth > 0
    ensures StaysOpen(s, depth) <==> StaysOpen(s[1..], depth + Worth(s[0]))
  {
    hide Excess;
    NoExcess();
    var rest := s[1..];
    assert s[..0] == [];
    forall k | 0 < k <= |s|
      ensures Excess(s[..k]) == Worth(s[0]) + Excess(rest[..k - 1])
    {
      ExcessStep(s, k);
    }
    if StaysOpen(s, depth) {
      forall k | 0 <= k <= |rest|
        ensures depth + Worth(s[0]) + Excess(rest[..k]) > 0
      {
        assert depth + Excess(s[..k + 1]) > 0;
      }
    }
  }

  lemma NoExcess()
    ensures Excess([]) == 0
  {
  }

  /** Neutral texts are those the scanner leaves as it entered them, with one parenthesis open. */
  lemma NeutralRuns(text: string)
    ensures Neutral(text) <==> Run(text, Scan(1, None)) == Some(Scan(1, None))
  {
    hide Run, Unquoted, Excess;
    RunUnquoted(text, 1);
    if Unquoted(text).Some? {
      var outside := Unquoted(text).value;
      UnquotedHasNoQuotes(text);
      RunCounts(outside, 1);
    }
  }

  /** The scanner passes over a text in every context: at any depth, whatever follows. */
  ghost predicate Invisible(text: string) {
    forall depth: int, rest: string | depth > 0 ::
      Partner(text + rest, Scan(depth, None)) == Later(Partner(rest, Scan(depth, None)), |text|)
  }

  lemma NeutralIsInvisible(text: string, rest: string, depth: int)
    requires Neutral(text) && depth > 0
    ensures Partner(text + rest, Scan(depth, None)) == Later(Partner(rest, Scan(depth, None)), |text|)
  {
    hide Partner, Run, Neutral;
    NeutralRuns(text);
    RunDeeper(text, Scan(1, None), depth - 1);
    PartnerAfter(text, rest, Scan(depth, None));
  }

  /** The condition on comments and bracketed names is exact: the scanner passes over a text in every context
      if and only if it is neutral. */
  lemma InvisibleExactlyNeutral(text: string)
    ensures Invisible(text) <==> Neutral(text)
  {
    hide Partner, Run, Neutral;
    NeutralRuns(text);
    if Neutral(text) {
      forall depth: int, rest: string | depth > 0
        ensures Partner(text + rest, Scan(depth, None)) == Later(Partner(rest, Scan(depth, None)), |text|)
      {
        NeutralIsInvisible(text, rest, depth);
      }
    }
    if Invisible(text) {
      PartnerAfter(text, ")", Scan(1, None));
      OnlyCloses(Scan(1, None));
      var after := Run(text, Scan(1, None));
      if after.Some? {
        OnlyCloses(after.value);
      }
    }
  }

  lemma OnlyCloses(st: Scan)
    ensures Partner(")", st).Some? <==> st == Scan(1, None)
    ensures Partner(")", st).Some? ==> Partner(")", st).value == 0
  {
    PartnerStep(')', [], st);
    NoPartner(Advance(st, ')'));
  }

  function PieceRank(p: Part): int {
    var token := PartToken(p);
    if token.None? then 0 else Rank(token.value)
  }

  const CLOSING := Symbol(")")

  lemma OnlyClosingCloses(p: Part)
    requires PartValid(p)
    ensures PieceRank(p) >= -1 && (PieceRank(p) == -1 <==> p == CLOSING) && (PieceRank(p) == 1 <==> p == Symbol("("))
  {
  }

  lemma {:induction false} NumberHasNoMarks(previous: char, text: string)
    requires NumberTail(previous, text)
    ensures NoMarks(text)
    decreases |text|
  {
    if text != [] {
      NumberHasNoMarks(text[0], text[1..]);
    }
  }

  /** Pieces in which the scanner sees nothing. */
  lemma NoMarksIn(p: Part)
    requires PartValid(p) && (p.Space? || p.Word? || p.Number? || p.Symbol?) && p != CLOSING && p != Symbol("(")
    ensures NoMarks(PartText(p))
  {
    hide NoMarks, IsSymbol, NumberStart, NumberTail, WordPart, WordStart;
    match p
    case Space(c) => NoMarkSpace(c);
    case Word(text) => WordNoMarks(text);
    case Number(text) =>
      NumberHasNoMarks(text[0], text[1..]);
      NumberStartNoMark(text);
    case Symbol(text) => SymbolNoMarks(text);
  }

  lemma NoMarkSpace(c: char)
    requires IsSpace(c)
    ensures NoMarks([c])
  {
  }

  lemma WordNoMarks(text: string)
    requires forall i :: 0 <= i < |text| ==> WordPart(text[i])
    ensures NoMarks(text)
  {
  }

  lemma NumberStartNoMark(text: string)
    requires text != [] && NumberStart(text) && NoMarks(text[1..])
    ensures NoMarks(text)
  {
    assert text == [text[0]] + text[1..];
  }

  lemma SymbolNoMarks(text: string)
    requires IsSymbol(text) && text != ")" && text != "("
    ensures NoMarks(text)
  {
    if |text| == 1 {
      assert text == [text[0]];
    }
  }

  /** Reading one piece, the scanner follows the level of the tokens. */
  lemma PieceScanned(p: Part, rest: string, depth: int)
    requires PartValid(p) && Plain(p) && depth > 0 && !(p == CLOSING && depth == 1)
    ensures Partner(PartText(p) + rest, Scan(depth, None)) ==
              Later(Partner(rest, Scan(depth + PieceRank(p), None)), |PartText(p)|)
  {
    hide Partner, PieceRank, NoMarks, IsMark, PartValid, Doubled, Neutral;
    OnlyClosingCloses(p);
    if p.LineComment? || p.BlockComment? || (p.Delimited? && p.open == '[') {
      OtherRank(p);
      NeutralIsInvisible(PartText(p), rest, depth);
    } else if p.Delimited? {
      var close := p.open;
      var quoted := Doubled(p.text, close);
      OtherRank(p);
      OpensQuote(p);
      Requoted(p.open, quoted, close, rest);
      PartnerStep(p.open, quoted + ([close] + rest), Scan(depth, None));
      ThroughQuoted(p.text, close, rest, depth);
    } else if p == CLOSING || p == Symbol("(") {
      PartnerStep(p.text[0], rest, Scan(depth, None));
    } else {
      NoMarksIn(p);
      ThroughPlain(PartText(p), rest, depth);
      OtherRank(p);
    }
  }

  lemma OpensQuote(p: Part)
    requires PartValid(p) && p.Delimited?
    ensures IsOpen(p.open) && p.open != ')' && p.open != ']'
  {
  }

  lemma OtherRank(p: Part)
    requires PartValid(p) && p != CLOSING && p != Symbol("(")
    ensures PieceRank(p) == 0
  {
  }

  lemma FirstToken(parts: seq<Part>, depth: int)
    requires parts != []
    ensures var tokens := Tokens(parts[1..]);
      var deeper := depth + PieceRank(parts[0]);
      Closing(Tokens(parts), depth) ==
        if PartToken(parts[0]).None? then Closing(tokens, depth)
        else if deeper == 0 then Some(0)
        else Later(Closing(tokens, deeper), 1)
  {
    hide PartToken;
    var tokens := Tokens(parts[1..]);
    var token := PartToken(parts[0]);
    if token.Some? {
      assert ([token.value] + tokens)[1..] == tokens;
    } else {
      assert [] + tokens == tokens;
    }
  }

  lemma FirstPieces(parts: seq<Part>, n: nat)
    requires 0 < n <= |parts|
    ensures Text(parts[..n]) == PartText(parts[0]) + Text(parts[1..][..n - 1])
    ensures |Tokens(parts[..n])| ==
              |Tokens(parts[1..][..n - 1])| + if PartToken(parts[0]).Some? then 1 else 0
  {
    assert parts[..n][1..] == parts[1..][..n - 1];
  }

  /** On a plain layout the scanner stops at the piece where the tokens close: `n` is that piece, or the
      end of the text when neither finds one. */
  lemma {:induction false} ScannerMeetsTokens(parts: seq<Part>, depth: int) returns (n: nat)
    requires depth > 0 && WellLaidOut(parts) && AllPlain(parts)
    ensures n <= |parts|
    ensures n == |parts| ==> Closing(Tokens(parts), depth).None? && Partner(Text(parts), Scan(depth, None)).None?
    ensures n < |parts| ==>
              && parts[n] == CLOSING
              && Closing(Tokens(parts), depth) == Some(|Tokens(parts[..n])|)
              && Partner(Text(parts), Scan(depth, None)) == Some(|Text(parts[..n])|)
    decreases |parts|
  {
    hide Partner, PartText, PartToken, PieceRank, PartValid, Ends, Plain, Closing;
    if parts == [] {
      n := 0;
      NoPartner(Scan(depth, None));
      NothingCloses(depth);
    } else {
      var p, rest := parts[0], parts[1..];
      OnlyClosingCloses(p);
      FirstToken(parts, depth);
      if p == CLOSING && depth == 1 {
        n := 0;
        ClosesAtOnce(Text(rest));
        ClosingToken();
        assert parts[..0] == [];
      } else {
        PieceScanned(p, Text(rest), depth);
        NoTokenNoRank(p);
        var m := ScannerMeetsTokens(rest, depth + PieceRank(p));
        n := m + 1;
        FirstPieces(parts, n);
      }
    }
  }

  lemma NoTokenNoRank(p: Part)
    ensures PartToken(p).None? ==> PieceRank(p) == 0
  {
  }

  lemma ClosingToken()
    ensures PartToken(CLOSING) == Some(CLOSE) && PieceRank(CLOSING) == -1 && PartText(CLOSING) == ")"
  {
  }

  lemma ClosesAtOnce(rest: string)
    ensures Partner(PartText(CLOSING) + rest, Scan(1, None)) == Some(0)
  {
    PartnerStep(')', rest, Scan(1, None));
  }

  // ---- the definition that is cut out ----

  /** The header stands here first: the pattern matches nowhere before it. */
  ghost predicate FirstHeader(before: string, script: string, table: string) {
    before <= script && forall i :: 0 <= i < |before| ==> !HeaderAt(script[i..], table)
  }

  lemma FoundAt(before: string, s: string, table: string)
    requires HeaderAt(s, table) && FirstHeader(before, before + s, table)
    ensures FindHeader(before + s, table) == Some(|before|)
  {
    hide HeaderAt;
    assert (before + s)[|before|..] == s;
  }

  lemma HeaderOpens(h: Header, table: string, body: string)
    requires TableName(table) && Introduces(h, table)
    ensures IndexOf(h.Written() + body, '(') == |h.Written()| - 1
  {
    hide IsSpace, WordPart, WordStart;
    var s := h.Written() + body;
    assert h.Written() == (h.create + h.gap1 + h.table + h.gap2 + h.name + h.gap3) + "(";
    var front := h.create + h.gap1 + h.table + h.gap2 + h.name + h.gap3;
    NoOpening(h, table);
    forall k | 0 <= k < |front|
      ensures s[k] != '('
    {
      assert s[k] == front[k] && front[k] in front;
    }
    assert s[|front|] == '(';
  }

  lemma NoOpening(h: Header, table: string)
    requires TableName(table) && Introduces(h, table)
    ensures '(' !in h.create + h.gap1 + h.table + h.gap2 + h.name + h.gap3
  {
    FoldedOpening(h.create, "create");
    FoldedOpening(h.table, "table");
    FoldedOpening(h.name, table);
    KeywordsFold();
    OpeningIsNoBlank();
    NoWordPart();
  }

  lemma FoldedOpening(w: string, word: string)
    requires Fold(w) == Fold(word)
    ensures '(' in w ==> '(' in word
  {
    assert |w| == |Fold(w)| == |word|;
    if '(' in w {
      var i :| 0 <= i < |w| && w[i] == '(';
      assert Lower(word[i]) == Fold(word)[i] == Fold(w)[i] == '(';
    }
  }

  /** The names of tables, as the schema scripts use them: one word of the tokeniser. */
  predicate TableName(table: string) {
    PartValid(Word(table))
  }

  /** What is cut out, by what the scanner does after the first header. */
  lemma DefinitionAfterHeader(before: string, h: Header, body: string, table: string)
    requires TableName(table) && Introduces(h, table)
    requires FirstHeader(before, before + (h.Written() + body), table)
    ensures var closing := Partner(body, Scan(1, None));
      Definition(before + (h.Written() + body), table) ==
        if closing.None? then "" else h.Written() + body[..closing.value + 1]
  {
    hide HeaderAt, Partner, PartValid, Introduces, FirstHeader, FindHeader, IndexOf;
    var head := h.Written();
    var s := head + body;
    HeaderOf(h, table, body);
    FoundAt(before, s, table);
    assert (before + s)[|before|..] == s;
    HeaderEndsOpen(h);
    HeaderOpens(h, table, body);
    var opening := |head| - 1;
    assert s[opening..] == "(" + body;
    PartnerStep('(', body, Scan(0, None));
    var closing := Partner(body, Scan(1, None));
    if closing.Some? {
      assert s[..|head| + closing.value + 1] == head + body[..closing.value + 1];
    }
  }

  /** What is cut out of a script whose text after the header is a plain layout is the header and the pieces
      up to the one that closes its parenthesis, with a balanced body between; it is empty exactly when the
      tokens never close. */
  lemma DefinitionOfLayout(before: string, h: Header, parts: seq<Part>, table: string) returns (n: nat)
    requires TableName(table) && Introduces(h, table) && WellLaidOut(parts) && AllPlain(parts)
    requires FirstHeader(before, before + (h.Written() + Text(parts)), table)
    ensures n <= |parts|
    ensures var definition := Definition(before + (h.Written() + Text(parts)), table);
      if n == |parts| then definition == "" && Closing(Tokens(parts), 1).None?
      else
        && parts[n] == CLOSING && Balanced(Tokens(parts[..n]))
        && definition == h.Written() + Text(parts[..n + 1])
  {
    hide Partner, Text, Tokens, WellLaidOut, AllPlain, PartValid, Introduces, FirstHeader, Balanced, Closing,
         Definition;
    DefinitionAfterHeader(before, h, Text(parts), table);
    n := ScannerMeetsTokens(parts, 1);
    if n < |parts| {
      LastPiece(parts, n);
      var k := |Tokens(parts[..n])|;
      BodyIsBalanced(Tokens(parts), k);
      assert Tokens(parts)[..k] == Tokens(parts[..n]);
    }
  }

  lemma HeaderEndsOpen(h: Header)
    ensures h.Written() != [] && h.Written()[|h.Written()| - 1..] == "("
  {
  }

  lemma NoPieces(parts: seq<Part>)
    ensures Text(parts[..0]) + Text(parts[0..]) == Text(parts)
    ensures Tokens(parts[..0]) + Tokens(parts[0..]) == Tokens(parts)
  {
    assert parts[..0] == [] && parts[0..] == parts;
    assert [] + Text(parts) == Text(parts) && [] + Tokens(parts) == Tokens(parts);
  }

  function PieceTokens(p: Part): seq<Token> {
    if PartToken(p).Some? then [PartToken(p).value] else []
  }

  lemma FirstPiece(parts: seq<Part>)
    requires parts != []
    ensures Text(parts) == PartText(parts[0]) + Text(parts[1..])
    ensures Tokens(parts) == PieceTokens(parts[0]) + Tokens(parts[1..])
  {
  }

  lemma {:induction false} TextPrefix(parts: seq<Part>, n: nat)
    requires n <= |parts|
    ensures Text(parts) == Text(parts[..n]) + Text(parts[n..])
    ensures Tokens(parts) == Tokens(parts[..n]) + Tokens(parts[n..])
    decreases n
  {
    hide Text, Tokens, PartText, PieceTokens;
    if n == 0 {
      NoPieces(parts);
    } else {
      TextPrefix(parts[1..], n - 1);
      FirstPiece(parts);
      FirstPiece(parts[..n]);
      assert parts[..n][1..] == parts[1..][..n - 1];
      assert parts[1..][n - 1..] == parts[n..];
      var text, tokens := Text(parts[1..][..n - 1]), Tokens(parts[1..][..n - 1]);
      assert PartText(parts[0]) + (text + Text(parts[n..])) == (PartText(parts[0]) + text) + Text(parts[n..]);
      assert PieceTokens(parts[0]) + (tokens + Tokens(parts[n..])) ==
             (PieceTokens(parts[0]) + tokens) + Tokens(parts[n..]);
    }
  }

  lemma LastPiece(parts: seq<Part>, n: nat)
    requires n < |parts| && parts[n] == CLOSING
    ensures Text(parts[..n + 1]) == Text(parts[..n]) + ")" && Text(parts[..n + 1]) <= Text(parts)
    ensures Tokens(parts[..n + 1]) == Tokens(parts[..n]) + [CLOSE]
    ensures Tokens(parts[..n]) <= Tokens(parts)
  {
    hide Text, Tokens;
    TextPrefix(parts, n + 1);
    TextPrefix(parts[..n + 1], n);
    assert parts[..n + 1][..n] == parts[..n];
    assert parts[..n + 1][n..] == [CLOSING];
    OnlyPiece();
  }

  lemma OnlyPiece()
    ensures Text([CLOSING]) == ")" && Tokens([CLOSING]) == [CLOSE]
  {
    hide PartText, PartToken;
    ClosingToken();
    assert [CLOSING][1..] == [];
    assert Text([]) == "" && Tokens([]) == [];
  }

  /** A piece that ends before a text ends before any shorter text up to a closing parenthesis. */
  lemma EndsEarlier(p: Part, rest: string, t: string)
    requires PartValid(p) && Ends(p, rest) && t <= rest && t != [] && t[|t| - 1] == ')'
    ensures Ends(p, t)
  {
    hide WordPart, NumberPart, IsDigit, LongOperator, NumberTail, IsSymbol, NumberStart;
    assert t[0] == rest[0];
    if p.Symbol? {
      SymbolEndsEarlier(p.text, rest, t);
    }
  }

  lemma SymbolEndsEarlier(text: string, rest: string, t: string)
    requires text != [] && t <= rest && t != []
    requires LongOperator(text + rest) == if |text| == 1 then None else Some(text)
    ensures LongOperator(text + t) == LongOperator(text + rest)
    ensures IsLineComment(text + t) ==> IsLineComment(text + rest)
    ensures IsBlockComment(text + t) ==> IsBlockComment(text + rest)
  {
    var x, y := text + t, text + rest;
    assert x == y[..|x|];
    assert x[..2] == y[..2];
    if "->>" <= y {
      assert text == "->>";
      assert x[..3] == text;
    } else if |x| >= 3 {
      assert x[..3] == y[..3];
    }
  }

  lemma EndsAtEnd(p: Part)
    requires p == CLOSING
    ensures PartValid(p) && Ends(p, [])
  {
    assert p.text + [] == ")";
  }

  lemma {:induction false} LaidOutPrefix(parts: seq<Part>, n: nat)
    requires n < |parts| && WellLaidOut(parts) && parts[n] == CLOSING
    ensures WellLaidOut(parts[..n + 1])
    decreases n
  {
    hide PartValid, Ends, PartText, PartToken;
    var prefix, rest := parts[..n + 1], parts[1..];
    if n == 0 {
      EndsAtEnd(CLOSING);
      assert prefix == [CLOSING] && prefix[1..] == [];
    } else {
      LaidOutPrefix(rest, n - 1);
      assert prefix[1..] == rest[..n];
      LastPiece(rest, n - 1);
      EndsEarlier(parts[0], Text(rest), Text(rest[..n]));
    }
  }

  // ---- its tokens and its checks ----

  function Spaces(gap: string): seq<Part> {
    if gap == [] then [] else [Space(gap[0])] + Spaces(gap[1..])
  }

  lemma PieceLaidOut(p: Part, parts: seq<Part>)
    requires PartValid(p) && Ends(p, Text(parts)) && WellLaidOut(parts)
    ensures WellLaidOut([p] + parts)
    ensures Text([p] + parts) == PartText(p) + Text(parts)
    ensures Tokens([p] + parts) == (if PartToken(p).Some? then [PartToken(p).value] else []) + Tokens(parts)
  {
    hide PartValid, Ends, PartText, PartToken;
    assert ([p] + parts)[1..] == parts;
  }

  lemma SpaceLaidOut(c: char, parts: seq<Part>)
    requires IsSpace(c) && WellLaidOut(parts)
    ensures WellLaidOut([Space(c)] + parts)
    ensures Text([Space(c)] + parts) == [c] + Text(parts) && Tokens([Space(c)] + parts) == Tokens(parts)
  {
    hide WellLaidOut, Text, Tokens, IsSpace;
    PieceLaidOut(Space(c), parts);
    assert [] + Tokens(parts) == Tokens(parts);
  }

  lemma {:induction false} SpacesLaidOut(gap: string, parts: seq<Part>)
    requires Blank(gap) && WellLaidOut(parts)
    ensures WellLaidOut(Spaces(gap) + parts)
    ensures Text(Spaces(gap) + parts) == gap + Text(parts) && Tokens(Spaces(gap) + parts) == Tokens(parts)
    decreases |gap|
  {
    hide WellLaidOut, Text, Tokens, IsSpace;
    if gap == [] {
      assert Spaces(gap) + parts == parts;
      assert gap + Text(parts) == Text(parts);
    } else {
      SpacesLaidOut(gap[1..], parts);
      var more := Spaces(gap[1..]) + parts;
      assert Spaces(gap) + parts == [Space(gap[0])] + more;
      SpaceLaidOut(gap[0], more);
      assert gap == [gap[0]] + gap[1..];
      assert [gap[0]] + (gap[1..] + Text(parts)) == gap + Text(parts);
    }
  }

  lemma WordLaidOut(word: string, parts: seq<Part>)
    requires PartValid(Word(word)) && WellLaidOut(parts) && Text(parts) != [] && !WordPart(Text(parts)[0])
    ensures WellLaidOut([Word(word)] + parts)
    ensures Text([Word(word)] + parts) == word + Text(parts)
    ensures Tokens([Word(word)] + parts) == [WordToken(word)] + Tokens(parts)
  {
    hide WellLaidOut, Text, Tokens, WordPart, WordStart, WordToken, IsSpace;
    PieceLaidOut(Word(word), parts);
  }

  lemma SameWord(w: string, word: string)
    requires Fold(w) == Fold(word) && PartValid(Word(word))
    ensures PartValid(Word(w)) && WordToken(w) == WordToken(word)
  {
    assert |w| == |Fold(w)| == |word|;
    forall i | 0 <= i < |w|
      ensures Lower(w[i]) == Lower(word[i])
    {
      assert Fold(w)[i] == Fold(word)[i];
    }
  }

  /** Blanks that also end a word for the tokeniser, which takes every character from 128 on as a letter. */
  predicate Separates(gap: string) {
    Blank(gap) && forall i :: 0 <= i < |gap| ==> gap[i] as int < 128
  }

  lemma GapEndsWord(gap: string, text: string)
    requires Separates(gap) && text != [] && (gap == [] ==> !WordPart(text[0]))
    ensures gap + text != [] && !WordPart((gap + text)[0])
  {
    if gap != [] {
      assert (gap + text)[0] == gap[0];
      assert IsSpace(gap[0]);
    }
  }

  function HeaderTokens(table: string): seq<Token> {
    [WordToken("create"), WordToken("table"), WordToken(table), OPEN]
  }

  /** A word and the blanks after it, in front of laid-out text. */
  lemma WordAndGap(w: string, word: string, gap: string, parts: seq<Part>) returns (more: seq<Part>)
    requires Fold(w) == Fold(word) && PartValid(Word(word)) && Separates(gap)
    requires WellLaidOut(parts) && Text(parts) != [] && (gap == [] ==> !WordPart(Text(parts)[0]))
    ensures WellLaidOut(more) && Text(more) == w + (gap + Text(parts))
    ensures Tokens(more) == [WordToken(word)] + Tokens(parts)
  {
    hide WellLaidOut, Text, Tokens, WordPart, WordStart, WordToken, IsSpace, Fold, PartValid;
    SpacesLaidOut(gap, parts);
    GapEndsWord(gap, Text(parts));
    SameWord(w, word);
    WordLaidOut(w, Spaces(gap) + parts);
    more := [Word(w)] + (Spaces(gap) + parts);
  }

  lemma KeywordsAreWords()
    ensures PartValid(Word("create")) && PartValid(Word("table"))
  {
  }

  lemma OpeningLaidOut(parts: seq<Part>) returns (more: seq<Part>)
    requires WellLaidOut(parts)
    ensures WellLaidOut(more) && Text(more) == "(" + Text(parts) && Tokens(more) == [OPEN] + Tokens(parts)
  {
    hide WellLaidOut, Text, Tokens;
    more := [Symbol("(")] + parts;
    OpeningEnds(Text(parts));
    PieceLaidOut(Symbol("("), parts);
  }

  lemma OpeningEnds(rest: string)
    ensures PartValid(Symbol("(")) && Ends(Symbol("("), rest)
    ensures PartToken(Symbol("(")) == Some(OPEN) && PartText(Symbol("(")) == "("
  {
    assert ("(" + rest)[0] == '(';
  }

  /** The tokeniser reads the header as four tokens. */
  lemma HeaderLexes(h: Header, table: string, parts: seq<Part>) returns (all: seq<Part>)
    requires TableName(table) && Introduces(h, table) && WellLaidOut(parts)
    requires Separates(h.gap1) && Separates(h.gap2) && Separates(h.gap3)
    ensures WellLaidOut(all) && Text(all) == h.Written() + Text(parts)
    ensures Tokens(all) == HeaderTokens(table) + Tokens(parts)
  {
    hide WellLaidOut, Text, Tokens, WordPart, WordStart, WordToken, IsSpace, Fold, PartValid, Separates;
    KeywordsFold();
    KeywordsAreWords();
    NoWordPart();
    var p3 := OpeningLaidOut(parts);
    var p2 := WordAndGap(h.name, table, h.gap3, p3);
    var p1 := WordAndGap(h.table, "table", h.gap2, p2);
    all := WordAndGap(h.create, "create", h.gap1, p1);
    Rejoined(h, Text(parts));
  }

  lemma NoWordPart()
    ensures !WordPart('(')
  {
  }

  /** The checks the schema comparison expects of a table are those between the header and the piece that
      closes its parenthesis. */
  lemma DefinitionChecks(before: string, h: Header, parts: seq<Part>, table: string) returns (n: nat)
    requires TableName(table) && WordToken(table) != CHECK && Introduces(h, table)
    requires Separates(h.gap1) && Separates(h.gap2) && Separates(h.gap3)
    requires WellLaidOut(parts) && AllPlain(parts) && Closing(Tokens(parts), 1).Some?
    requires FirstHeader(before, before + (h.Written() + Text(parts)), table)
    ensures n < |parts| && parts[n] == CLOSING && Balanced(Tokens(parts[..n]))
    ensures var bodies := Bodies(Tokens(parts[..n]));
      var checks := CheckExpressions(Definition(before + (h.Written() + Text(parts)), table));
      bodies.Ok? ==> checks == Ok(SortedBodies(bodies.value))
  {
    hide WellLaidOut, Text, Tokens, AllPlain, PartValid, Introduces, Separates, FirstHeader, Definition, Lex, Bodies,
         Balanced, Closing, WordToken, SortedBodies, Fold;
    n := DefinitionOfLayout(before, h, parts, table);
    LaidOutPrefix(parts, n);
    LastPiece(parts, n);
    var all := HeaderLexes(h, table, parts[..n + 1]);
    LexOfLayout(all);
    if Bodies(Tokens(parts[..n])).Ok? {
      BodiesInside(table, Tokens(parts[..n]));
    }
  }

  lemma BodiesInside(table: string, body: seq<Token>)
    requires WordToken(table) != CHECK && Bodies(body).Ok?
    ensures Bodies(HeaderTokens(table) + (body + [CLOSE])) == Bodies(body)
  {
    hide BodyAt;
    HeaderHasNone(table);
    BodiesConcat(body, [CLOSE]);
    BodiesConcat(HeaderTokens(table), body + [CLOSE]);
    var found := Bodies(body).value;
    assert found + [] == found && [] + found == found;
  }

  lemma HeaderHasNone(table: string)
    requires WordToken(table) != CHECK
    ensures Bodies(HeaderTokens(table)) == Ok([]) && Bodies([CLOSE]) == Ok([])
  {
    hide BodyAt, Fold;
    NotChecks();
    NoBodies();
    NoCheckFirst(CLOSE, []);
    NoCheckFirst(OPEN, []);
    NoCheckFirst(WordToken(table), [OPEN]);
    NoCheckFirst(WordToken("table"), [WordToken(table), OPEN]);
    NoCheckFirst(WordToken("create"), [WordToken("table"), WordToken(table), OPEN]);
  }

  lemma NoCheckFirst(t: Token, tokens: seq<Token>)
    requires t != CHECK
    ensures Bodies([t] + tokens) == Bodies(tokens)
  {
    assert ([t] + tokens)[1..] == tokens;
  }

  lemma NotChecks()
    ensures WordToken("create") != CHECK && WordToken("table") != CHECK
  {
    assert |Fold("create")| == 6;
    assert Fold("table")[0] == 't' != "check"[0];
  }

  // ---- where the scanner and the tokeniser part ways ----

  const SMALL := Header("CREATE", " ", "TABLE", " ", "t", " ")

  lemma SmallHeader()
    ensures Introduces(SMALL, "t") && TableName("t") && SMALL.Written() == "CREATE TABLE t ("
    ensures Separates(SMALL.gap1) && Separates(SMALL.gap2) && Separates(SMALL.gap3)
  {
    var create, table := Fold("CREATE"), Fold("TABLE");
    assert create == [create[0], create[1], create[2], create[3], create[4], create[5]];
    assert table == [table[0], table[1], table[2], table[3], table[4]];
  }

  /** A script of one header and a body: what the tokeniser reads, and what is cut out. */
  lemma SmallScript(parts: seq<Part>)
    requires WellLaidOut(parts)
    ensures var closing := Partner(Text(parts), Scan(1, None)); var script := "CREATE TABLE t (" + Text(parts);
      && Lex(script) == Ok(HeaderTokens("t") + Tokens(parts))
      && Definition(script, "t") ==
         if closing.None? then "" else "CREATE TABLE t (" + Text(parts)[..closing.value + 1]
  {
    hide Partner, Definition, Lex, Text, Tokens, WellLaidOut, FirstHeader, Introduces, Separates, PartValid;
    SmallHeader();
    var all := HeaderLexes(SMALL, "t", parts);
    LexOfLayout(all);
    var script := SMALL.Written() + Text(parts);
    NothingBefore("t", script);
    DefinitionAfterHeader("", SMALL, Text(parts), "t");
    assert "" + script == script;
  }

  /** A comment that holds a closing parenthesis ends the definition for the scanner, not for the tokeniser: of
      the script, which is one whole statement, the last line is lost. */
  lemma CommentEndsDefinition()
    ensures var script := "CREATE TABLE t (" + "--)\n)";
      Lex(script) == Ok(HeaderTokens("t") + [CLOSE]) && Definition(script, "t") == "CREATE TABLE t (" + "--)"
  {
    hide Partner, Definition, Lex, Text, Tokens, WellLaidOut;
    var comment := LineComment(")", true);
    var parts := [comment] + [CLOSING];
    ClosingLaidOut();
    OnlyPiece();
    CommentPiece();
    PieceLaidOut(comment, [CLOSING]);
    assert [] + [CLOSE] == [CLOSE];
    assert Text(parts) == "--)\n" + ")" == "--)\n)";
    SmallScript(parts);
    CommentScanned();
    assert "--)\n)"[..3] == "--)";
  }

  lemma CommentPiece()
    ensures var comment := LineComment(")", true);
      PartValid(comment) && Ends(comment, ")") && PartText(comment) == "--)\n" && PartToken(comment).None?
  {
  }

  lemma NothingBefore(table: string, script: string)
    ensures FirstHeader("", "" + script, table)
  {
  }

  lemma CommentScanned()
    ensures Partner("--)\n)", Scan(1, None)) == Some(2)
  {
    hide Partner;
    assert "--)\n)" == "-" + "-)\n)" && "-)\n)" == "-" + ")\n)" && ")\n)" == ")" + "\n)";
    PartnerStep('-', "-)\n)", Scan(1, None));
    PartnerStep('-', ")\n)", Scan(1, None));
    PartnerStep(')', "\n)", Scan(1, None));
  }

  /** A bracketed name ends for the scanner at its first closing bracket, so that a parenthesis after a doubled one
      counts: it finds no end of the definition, which is again the whole script. */
  lemma BracketOpensParenthesis()
    ensures var script := "CREATE TABLE t (" + "[]](])";
      && Lex(script) == Ok(HeaderTokens("t") + ([Token(IDENT, "](")] + [CLOSE]))
      && Definition(script, "t") == ""
  {
    hide Partner, Definition, Lex, Text, Tokens, WellLaidOut;
    var name := Delimited('[', "](");
    var parts := [name] + [CLOSING];
    BracketedName();
    ClosingLaidOut();
    OnlyPiece();
    PieceLaidOut(name, [CLOSING]);
    assert Text(parts) == "[]](]" + ")" == "[]](])";
    SmallScript(parts);
    BracketScanned();
  }

  lemma BracketedName()
    ensures var name := Delimited('[', "](");
      PartValid(name) && Ends(name, ")") && PartText(name) == "[]](]" && PartToken(name) == Some(Token(IDENT, "]("))
  {
    var folded := Fold("](");
    assert folded == [folded[0], folded[1]];
    assert "]("[1..] == "(" && "("[1..] == "";
    assert Doubled("](", ']') == "]](";
  }

  lemma ClosingLaidOut()
    ensures WellLaidOut([CLOSING])
  {
    EndsAtEnd(CLOSING);
    assert [CLOSING][1..] == [];
  }

  lemma BracketScanned()
    ensures Partner("[]](])", Scan(1, None)).None?
  {
    hide Partner;
    assert "[]](])" == "[" + "]](])" && "]](])" == "]" + "](])" && "](])" == "]" + "(])";
    assert "(])" == "(" + "])" && "])" == "]" + ")" && ")" == ")" + "";
    PartnerStep('[', "]](])", Scan(1, None));
    PartnerStep(']', "](])", Scan(1, Some(']')));
    PartnerStep(']', "(])", Scan(1, None));
    PartnerStep('(', "])", Scan(1, None));
    PartnerStep(']', ")", Scan(2, None));
    PartnerStep(')', "", Scan(2, None));
    NoPartner(Scan(1, None));
  }
}
