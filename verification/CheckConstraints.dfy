/** The CHECK constraints of a table definition, as the schema comparison sees them. */
module CheckConstraints {
  import opened Outcomes
  import opened Sorting
  import opened Characters
  import opened DdlLexer
  import opened DdlLayout

  const OPEN := Token(PUNCT, "(")
  const CLOSE := Token(PUNCT, ")")
  const CHECK := Token(KEYWORD, "check")
  const MISMATCH := "attestation_persistence_schema_shape_mismatch"

  function KindName(k: Kind): string {
    match k
    case KEYWORD => "KEYWORD"
    case IDENT => "IDENT"
    case STRING => "STRING"
    case NUMBER => "NUMBER"
    case OPERATOR => "OPERATOR"
    case PUNCT => "PUNCT"
  }

  function Rendered(t: Token): string {
    KindName(t.kind) + ":" + t.value
  }

  /** `_canonical_constraint`. */
  function Canonical(tokens: seq<Token>): seq<string> {
    Mapped(tokens, Rendered)
  }

  function Rank(t: Token): int {
    if t == OPEN then 1 else if t == CLOSE then -1 else 0
  }

  /** How many parentheses are left open. */
  function Level(tokens: seq<Token>): int {
    if tokens == [] then 0 else Level(tokens[..|tokens| - 1]) + Rank(tokens[|tokens| - 1])
  }

  /** Every parenthesis is closed, and none closes before it opens. */
  ghost predicate Balanced(tokens: seq<Token>) {
    Level(tokens) == 0 && forall k :: 0 <= k <= |tokens| ==> Level(tokens[..k]) >= 0
  }

  /** Where the parenthesis `depth` levels out closes. */
  function Closing(tokens: seq<Token>, depth: int): (r: Option<nat>)
    ensures r.Some? ==> r.value < |tokens|
    decreases |tokens|
  {
    if tokens == [] then None
    else
      var deeper := depth + Rank(tokens[0]);
      if deeper == 0 then Some(0)
      else
        var r := Closing(tokens[1..], deeper);
        if r.None? then None else Some(r.value + 1)
  }

  /** The bodies of the CHECK constraints, in the order they are written. */
  function Bodies(tokens: seq<Token>): Result<seq<seq<Token>>>
    decreases |tokens|
  {
    if tokens == [] then Ok([])
    else if tokens[0] != CHECK then Bodies(tokens[1..])
    else
      var body :- BodyAt(tokens, 0);
      var rest :- Bodies(tokens[1..]);
      Ok([body] + rest)
  }

  /** The parenthesised body after the CHECK at an index. */
  function BodyAt(tokens: seq<Token>, i: nat): Result<seq<Token>>
    requires i < |tokens|
  {
    if i + 1 >= |tokens| || tokens[i + 1] != OPEN then
      Err(ValueError("CHECK must be followed by an opening parenthesis"))
    else
      var closing := Closing(tokens[i + 2..], 1);
      if closing.None? then Err(ValueError("unterminated CHECK expression"))
      else Ok(tokens[i + 2..i + 2 + closing.value])
  }

  function Itself(c: seq<string>): seq<string> {
    c
  }

  function SortedBodies(bodies: seq<seq<Token>>): seq<seq<string>> {
    Sorted(Mapped(bodies, Canonical), Itself)
  }

  /** `_check_expressions`. */
  function CheckExpressions(sql: string): Result<seq<seq<string>>> {
    var tokens := Lex(sql);
    if tokens.Err? then Err(ValueError(MISMATCH)) else
    var bodies := Bodies(tokens.value);
    if bodies.Err? then Err(ValueError(MISMATCH)) else Ok(SortedBodies(bodies.value))
  }

  // ---- as it runs ----

  function AfterBodies(found: seq<seq<Token>>, r: Result<seq<seq<Token>>>): Result<seq<seq<Token>>> {
    if r.Ok? then Ok(found + r.value) else r
  }

  lemma AfterBodiesTwice(found: seq<seq<Token>>, body: seq<Token>, r: Result<seq<seq<Token>>>)
    ensures AfterBodies(found, AfterBodies([body], r)) == AfterBodies(found + [body], r)
    ensures AfterBodies([], r) == r
  {
    if r.Ok? {
      assert found + ([body] + r.value) == (found + [body]) + r.value;
      assert [] + r.value == r.value;
    }
  }

  function Shifted(r: Option<nat>, offset: int): Option<int> {
    if r.None? then None else Some(r.value + offset)
  }

  lemma ClosingAt(tokens: seq<Token>, i: nat, depth: int)
    requires i < |tokens|
    ensures var deeper := depth + Rank(tokens[i]);
      Shifted(Closing(tokens[i..], depth), i) ==
        if deeper == 0 then Some(i as int) else Shifted(Closing(tokens[i + 1..], deeper), i + 1)
  {
    assert tokens[i..][1..] == tokens[i + 1..];
  }

  /** The inner loop: follow the parentheses from an opening one to its partner. */
  method FindClosing(tokens: seq<Token>, opening: nat) returns (closing: Option<int>)
    requires opening < |tokens| && tokens[opening] == OPEN
    ensures closing == Shifted(Closing(tokens[opening + 1..], 1), opening + 1)
  {
    hide Closing;
    var depth := 0;
    ClosingAt(tokens, opening, 0);
    for cursor := opening to |tokens|
      invariant depth >= 0 && (cursor > opening ==> depth > 0)
      invariant Shifted(Closing(tokens[opening + 1..], 1), opening + 1) == Shifted(Closing(tokens[cursor..], depth), cursor)
    {
      ClosingAt(tokens, cursor, depth);
      if tokens[cursor] == OPEN {
        depth := depth + 1;
      } else if tokens[cursor] == CLOSE {
        depth := depth - 1;
        if depth == 0 {
          return Some(cursor);
        }
      }
    }
    assert tokens[|tokens|..] == [];
    NothingCloses(depth);
    return None;
  }

  lemma NothingCloses(depth: int)
    ensures Closing([], depth).None?
  {
  }

  lemma BodiesAt(tokens: seq<Token>, i: nat)
    requires i < |tokens|
    ensures var rest := Bodies(tokens[i + 1..]); var body := BodyAt(tokens, i);
      Bodies(tokens[i..]) ==
        if tokens[i] != CHECK then rest
        else if body.Err? then Err(body.error)
        else AfterBodies([body.value], rest)
  {
    var s := tokens[i..];
    assert s[1..] == tokens[i + 1..];
    if i + 1 < |tokens| {
      assert s[2..] == tokens[i + 2..];
      var closing := Closing(s[2..], 1);
      if closing.Some? {
        assert s[2..2 + closing.value] == tokens[i + 2..i + 2 + closing.value];
      }
    }
  }

  method CollectBodies(tokens: seq<Token>) returns (r: Result<seq<seq<Token>>>)
    ensures r == Bodies(tokens)
  {
    hide Bodies;
    var found: seq<seq<Token>> := [];
    AfterBodiesTwice([], [], Bodies(tokens));
    assert tokens[0..] == tokens;
    for index := 0 to |tokens|
      invariant Bodies(tokens) == AfterBodies(found, Bodies(tokens[index..]))
    {
      BodiesAt(tokens, index);
      if tokens[index] == CHECK {
        var opening := index + 1;
        if opening >= |tokens| || tokens[opening] != OPEN {
          return Err(ValueError("CHECK must be followed by an opening parenthesis"));
        }
        var closing := FindClosing(tokens, opening);
        if closing.None? {
          return Err(ValueError("unterminated CHECK expression"));
        }
        AfterBodiesTwice(found, tokens[opening + 1..closing.value], Bodies(tokens[index + 1..]));
        found := found + [tokens[opening + 1..closing.value]];
      }
    }
    assert tokens[|tokens|..] == [] && found + [] == found;
    NoBodies();
    return Ok(found);
  }

  lemma NoBodies()
    ensures Bodies([]) == Ok([])
  {
  }

  method CheckExpressionsOf(sql: string) returns (r: Result<seq<seq<string>>>)
    ensures r == CheckExpressions(sql)
  {
    var tokens := LexDdl(sql);
    if tokens.Err? {
      return Err(ValueError(MISMATCH));
    }
    var bodies := CollectBodies(tokens.value);
    if bodies.Err? {
      return Err(ValueError(MISMATCH));
    }
    return Ok(SortedBodies(bodies.value));
  }

  // ---- what a body is ----

  lemma {:induction false} LevelConcat(xs: seq<Token>, ys: seq<Token>)
    ensures Level(xs + ys) == Level(xs) + Level(ys)
    decreases |ys|
  {
    if ys == [] {
      assert xs + ys == xs;
    } else {
      var front := ys[..|ys| - 1];
      assert (xs + ys)[..|xs + ys| - 1] == xs + front;
      LevelConcat(xs, front);
    }
  }

  lemma LevelCons(t: Token, ts: seq<Token>)
    ensures Level([t] + ts) == Rank(t) + Level(ts)
  {
    LevelConcat([t], ts);
    assert [t][..0] == [];
  }

  lemma PrefixLevel(tokens: seq<Token>, k: nat)
    requires 0 < k <= |tokens|
    ensures Level(tokens[..k]) == Rank(tokens[0]) + Level(tokens[1..][..k - 1])
  {
    assert tokens[..k] == [tokens[0]] + tokens[1..][..k - 1];
    LevelCons(tokens[0], tokens[1..][..k - 1]);
  }

  /** `n` is the first place where the level falls by `depth`. */
  ghost predicate FirstFall(tokens: seq<Token>, depth: int, n: nat) {
    && n < |tokens| && Level(tokens[..n + 1]) == -depth
    && forall k :: 0 <= k <= n ==> Level(tokens[..k]) > -depth
  }

  lemma {:induction false} ClosingIsFirstFall(tokens: seq<Token>, depth: int, n: nat)
    requires depth > 0
    ensures Closing(tokens, depth) == Some(n) <==> FirstFall(tokens, depth, n)
    decreases |tokens|
  {
    if tokens != [] {
      var deeper := depth + Rank(tokens[0]);
      PrefixLevel(tokens, 1);
      assert tokens[..0] == [] && tokens[1..][..0] == [];
      if deeper == 0 {
        assert Level(tokens[..1]) == -depth;
      } else if n > 0 {
        ClosingIsFirstFall(tokens[1..], deeper, n - 1);
        forall k | 0 < k <= n + 1 && k <= |tokens|
          ensures Level(tokens[..k]) == Rank(tokens[0]) + Level(tokens[1..][..k - 1])
        {
          PrefixLevel(tokens, k);
        }
        if FirstFall(tokens[1..], deeper, n - 1) {
          FallExtends(tokens, depth, n);
        }
        if FirstFall(tokens, depth, n) {
          FallShrinks(tokens, depth, n);
        }
      }
    }
  }

  lemma FallExtends(tokens: seq<Token>, depth: int, n: nat)
    requires depth > 0 && 0 < n < |tokens| && FirstFall(tokens[1..], depth + Rank(tokens[0]), n - 1)
    ensures FirstFall(tokens, depth, n)
  {
    forall k | 0 <= k <= n
      ensures Level(tokens[..k]) > -depth
    {
      if k > 0 {
        PrefixLevel(tokens, k);
      }
    }
    PrefixLevel(tokens, n + 1);
  }

  lemma FallShrinks(tokens: seq<Token>, depth: int, n: nat)
    requires depth > 0 && 0 < n < |tokens| && FirstFall(tokens, depth, n)
    ensures FirstFall(tokens[1..], depth + Rank(tokens[0]), n - 1)
  {
    forall k | 0 <= k <= n - 1
      ensures Level(tokens[1..][..k]) > -(depth + Rank(tokens[0]))
    {
      PrefixLevel(tokens, k + 1);
    }
    PrefixLevel(tokens, n + 1);
  }

  /** The text between a CHECK's parenthesis and the partner found for it is exactly the balanced one:
      a body is balanced, and the first closing parenthesis after a balanced body ends it. */
  lemma BodyIsBalanced(tokens: seq<Token>, n: nat)
    ensures Closing(tokens, 1) == Some(n) <==> n < |tokens| && tokens[n] == CLOSE && Balanced(tokens[..n])
  {
    ClosingIsFirstFall(tokens, 1, n);
    if n < |tokens| {
      assert tokens[..n + 1][..n] == tokens[..n];
      forall k | 0 <= k <= n
        ensures tokens[..n][..k] == tokens[..k]
      {
      }
      assert Level(tokens[..n + 1]) == Level(tokens[..n]) + Rank(tokens[n]);
      if FirstFall(tokens, 1, n) {
        assert Level(tokens[..n]) > -1;
        forall k | 0 <= k <= |tokens[..n]|
          ensures Level(tokens[..n][..k]) >= 0
        {
          assert Level(tokens[..k]) > -1;
        }
      }
      if tokens[n] == CLOSE && Balanced(tokens[..n]) {
        forall k | 0 <= k <= n
          ensures Level(tokens[..k]) > -1
        {
          assert Level(tokens[..n][..k]) >= 0;
        }
      }
    }
  }

  lemma {:induction false} BodiesAreBalanced(tokens: seq<Token>)
    requires Bodies(tokens).Ok?
    ensures forall i :: 0 <= i < |Bodies(tokens).value| ==> Balanced(Bodies(tokens).value[i])
    decreases |tokens|
  {
    hide Balanced, Closing;
    if tokens != [] {
      BodiesAreBalanced(tokens[1..]);
      if tokens[0] == CHECK {
        BodyIsBalanced(tokens[2..], Closing(tokens[2..], 1).value);
        assert tokens[2..][..Closing(tokens[2..], 1).value] == BodyAt(tokens, 0).value;
      }
    }
  }

  // ---- which constraints are found ----

  /** A CHECK, an opening parenthesis, `n` balanced tokens and the closing parenthesis stand at `i`. */
  ghost predicate CheckStands(tokens: seq<Token>, i: nat, n: nat) {
    && i + n + 2 < |tokens|
    && tokens[i] == Token(KEYWORD, "check") && tokens[i + 1] == Token(PUNCT, "(")
    && Balanced(tokens[i + 2..i + 2 + n]) && tokens[i + 2 + n] == Token(PUNCT, ")")
  }

  lemma StandsWithin(tokens: seq<Token>, i: nat, n: nat)
    requires CheckStands(tokens, i, n)
    ensures i + n + 2 < |tokens| && tokens[i] == CHECK
  {
  }

  lemma BodyAtExactly(tokens: seq<Token>, i: nat)
    requires i < |tokens| && tokens[i] == CHECK
    ensures BodyAt(tokens, i).Ok? <==> exists n :: CheckStands(tokens, i, n)
    ensures forall n :: CheckStands(tokens, i, n) ==> BodyAt(tokens, i) == Ok(tokens[i + 2..i + 2 + n])
  {
    hide Balanced, Closing;
    if i + 1 < |tokens| && tokens[i + 1] == OPEN {
      var tail := tokens[i + 2..];
      forall n: nat | n < |tail|
        ensures tail[..n] == tokens[i + 2..i + 2 + n] && tail[n] == tokens[i + 2 + n]
      {
      }
      forall n: nat | CheckStands(tokens, i, n)
        ensures Closing(tail, 1) == Some(n)
      {
        BodyIsBalanced(tail, n);
      }
      if Closing(tail, 1).Some? {
        var n := Closing(tail, 1).value;
        BodyIsBalanced(tail, n);
        assert CheckStands(tokens, i, n);
      }
    }
  }

  ghost predicate Increasing(at: seq<nat>) {
    forall j, k :: 0 <= j < k < |at| ==> at[j] < at[k]
  }

  /** `at` holds exactly the places of a CHECK from a place on. */
  ghost predicate AllChecks(tokens: seq<Token>, from: nat, at: seq<nat>) {
    && (forall i :: i in at ==> from <= i < |tokens|)
    && (forall i :: from <= i < |tokens| ==> (tokens[i] == Token(KEYWORD, "check") <==> i in at))
  }

  /** Each body is the balanced one that stands at its place. */
  ghost predicate BodiesStandAt(tokens: seq<Token>, bodies: seq<seq<Token>>, at: seq<nat>) {
    && |at| == |bodies|
    && (forall k :: 0 <= k < |at| ==> CheckStands(tokens, at[k], |bodies[k]|))
    && (forall k :: 0 <= k < |at| ==> at[k] + 2 + |bodies[k]| <= |tokens|
                                      && bodies[k] == tokens[at[k] + 2..at[k] + 2 + |bodies[k]|])
  }

  lemma OneMoreCheck(tokens: seq<Token>, from: nat, rest: seq<nat>)
    requires from < |tokens| && AllChecks(tokens, from + 1, rest) && Increasing(rest)
    ensures tokens[from] == CHECK ==> AllChecks(tokens, from, [from] + rest) && Increasing([from] + rest)
    ensures tokens[from] != CHECK ==> AllChecks(tokens, from, rest)
  {
    var at := [from] + rest;
    forall j, k | 0 <= j < k < |at|
      ensures at[j] < at[k]
    {
      assert at[k] == rest[k - 1] && rest[k - 1] in rest;
    }
  }

  lemma OneMoreBody(tokens: seq<Token>, from: nat, bodies: seq<seq<Token>>, rest: seq<nat>)
    requires from < |tokens| && tokens[from] == CHECK && BodyAt(tokens, from).Ok?
    requires BodiesStandAt(tokens, bodies, rest)
    ensures BodiesStandAt(tokens, [BodyAt(tokens, from).value] + bodies, [from] + rest)
  {
    hide CheckStands, BodyAt;
    BodyAtExactly(tokens, from);
    var n :| CheckStands(tokens, from, n);
    StandsWithin(tokens, from, n);
  }

  /** Reading from a place on, the constraints found are those of the CHECK words there. */
  lemma {:induction false} BodiesFrom(tokens: seq<Token>, from: nat) returns (at: seq<nat>)
    requires from <= |tokens| && Bodies(tokens[from..]).Ok?
    ensures Increasing(at) && AllChecks(tokens, from, at) && BodiesStandAt(tokens, Bodies(tokens[from..]).value, at)
    decreases |tokens| - from
  {
    hide Bodies, BodyAt, Increasing, AllChecks, BodiesStandAt;
    if from == |tokens| {
      at := [];
      assert tokens[from..] == [];
      NoBodies();
      NoChecks(tokens);
    } else {
      BodiesAt(tokens, from);
      at := BodiesFrom(tokens, from + 1);
      OneMoreCheck(tokens, from, at);
      if tokens[from] == CHECK {
        OneMoreBody(tokens, from, Bodies(tokens[from + 1..]).value, at);
        at := [from] + at;
      }
    }
  }

  lemma NoChecks(tokens: seq<Token>)
    ensures Increasing([]) && AllChecks(tokens, |tokens|, []) && BodiesStandAt(tokens, [], [])
  {
  }

  /** The constraints found are the bodies of all CHECK words, each once and in order. */
  lemma BodiesInOrder(tokens: seq<Token>) returns (at: seq<nat>)
    requires Bodies(tokens).Ok?
    ensures Increasing(at) && AllChecks(tokens, 0, at) && BodiesStandAt(tokens, Bodies(tokens).value, at)
  {
    hide Bodies, Increasing, AllChecks, BodiesStandAt;
    assert tokens[0..] == tokens;
    at := BodiesFrom(tokens, 0);
  }

  /** The search succeeds exactly when a closed parenthesis follows every CHECK word. */
  lemma {:induction false} BodiesSucceedExactly(tokens: seq<Token>, from: nat)
    requires from <= |tokens|
    ensures Bodies(tokens[from..]).Ok? <==>
              forall i :: from <= i < |tokens| && tokens[i] == CHECK ==> exists n :: CheckStands(tokens, i, n)
    decreases |tokens| - from
  {
    hide Bodies, CheckStands, BodyAt;
    if from == |tokens| {
      assert tokens[from..] == [];
      NoBodies();
    } else {
      BodiesAt(tokens, from);
      BodiesSucceedExactly(tokens, from + 1);
      if tokens[from] == CHECK {
        BodyAtExactly(tokens, from);
      }
    }
  }

  /** The word, in any case. */
  predicate CheckWord(w: string) {
    |w| == 5 && w[0] in "cC" && w[1] in "hH" && w[2] in "eE" && w[3] in "cC" && w[4] in "kK"
  }

  lemma CheckWordToken(w: string)
    requires CheckWord(w)
    ensures PartToken(Word(w)) == Some(CHECK)
  {
    assert Fold(w) == "check";
  }

  lemma {:induction false} TokensConcat(xs: seq<Part>, ys: seq<Part>)
    ensures Tokens(xs + ys) == Tokens(xs) + Tokens(ys)
    decreases |xs|
  {
    hide PartToken;
    if xs == [] {
      assert xs + ys == ys;
    } else {
      assert (xs + ys)[0] == xs[0] && (xs + ys)[1..] == xs[1..] + ys;
      TokensConcat(xs[1..], ys);
    }
  }

  /** The body of a CHECK that stands somewhere is found. */
  lemma StandingCheckIsFound(tokens: seq<Token>, i: nat, n: nat)
    requires CheckStands(tokens, i, n) && Bodies(tokens).Ok?
    ensures i + 2 + n <= |tokens| && tokens[i + 2..i + 2 + n] in Bodies(tokens).value
  {
    hide Bodies, BodyAt, CheckStands;
    StandsWithin(tokens, i, n);
    var at := BodiesInOrder(tokens);
    assert i in at;
    var k :| 0 <= k < |at| && at[k] == i;
    BodyAtExactly(tokens, i);
    assert Bodies(tokens).value[k] == tokens[i + 2..i + 2 + n];
  }

  lemma TokensAround(before: seq<Part>, w: string, after: seq<Part>)
    requires CheckWord(w)
    ensures Tokens(before + [Word(w)] + after) == Tokens(before) + [CHECK] + Tokens(after)
  {
    hide Tokens, PartToken;
    TokensConcat(before + [Word(w)], after);
    TokensConcat(before, [Word(w)]);
    CheckWordToken(w);
    OneToken(Word(w));
  }

  /** Whatever surrounds it and however it is laid out, the balanced body of a written CHECK is among the constraints
      of the text. */
  lemma WrittenCheckIsFound(before: seq<Part>, w: string, after: seq<Part>, body: seq<Token>, rest: seq<Token>)
    requires WellLaidOut(before + [Word(w)] + after) && CheckWord(w)
    requires Tokens(after) == [Token(PUNCT, "(")] + body + [Token(PUNCT, ")")] + rest && Balanced(body)
    requires CheckExpressions(Text(before + [Word(w)] + after)).Ok?
    ensures Canonical(body) in CheckExpressions(Text(before + [Word(w)] + after)).value
  {
    hide Balanced, Lex, Bodies, SortedBodies, WellLaidOut, Text, Canonical, Tokens, CheckWord;
    var parts := before + [Word(w)] + after;
    LexOfLayout(parts);
    var tokens := Tokens(parts);
    var i, n := |Tokens(before)|, |body|;
    TokensAround(before, w, after);
    assert tokens[i + 2..i + 2 + n] == body;
    assert CheckStands(tokens, i, n);
    StandingCheckIsFound(tokens, i, n);
    var bodies := Bodies(tokens).value;
    var k :| 0 <= k < |bodies| && bodies[k] == body;
    FoundInSorted(bodies, k);
  }

  lemma OneToken(p: Part)
    requires PartToken(p).Some?
    ensures Tokens([p]) == [PartToken(p).value]
  {
    assert [p][1..] == [];
  }

  lemma FoundInSorted(bodies: seq<seq<Token>>, k: nat)
    requires k < |bodies|
    ensures Canonical(bodies[k]) in SortedBodies(bodies)
  {
    hide Canonical;
    var rendered := Mapped(bodies, Canonical);
    assert rendered[k] == Canonical(bodies[k]);
    assert rendered[k] in multiset(rendered);
    assert multiset(SortedBodies(bodies)) == multiset(rendered);
  }

  // ---- what the comparison does not see ----

  lemma {:induction false} ClosingExtends(xs: seq<Token>, ys: seq<Token>, depth: int)
    requires Closing(xs, depth).Some?
    ensures Closing(xs + ys, depth) == Closing(xs, depth)
    decreases |xs|
  {
    assert (xs + ys)[0] == xs[0];
    assert (xs + ys)[1..] == xs[1..] + ys;
    if depth + Rank(xs[0]) != 0 {
      ClosingExtends(xs[1..], ys, depth + Rank(xs[0]));
    }
  }

  lemma BodyExtends(xs: seq<Token>, ys: seq<Token>)
    requires xs != [] && BodyAt(xs, 0).Ok?
    ensures BodyAt(xs + ys, 0) == BodyAt(xs, 0)
  {
    hide Closing;
    assert (xs + ys)[1] == xs[1];
    assert (xs + ys)[2..] == xs[2..] + ys;
    ClosingExtends(xs[2..], ys, 1);
    var n := Closing(xs[2..], 1).value;
    assert (xs + ys)[2..2 + n] == xs[2..2 + n];
  }

  /** Constraints of consecutive definitions add up, when each definition closes its own. */
  lemma {:induction false} BodiesConcat(xs: seq<Token>, ys: seq<Token>)
    requires Bodies(xs).Ok? && Bodies(ys).Ok?
    ensures Bodies(xs + ys) == Ok(Bodies(xs).value + Bodies(ys).value)
    decreases |xs|
  {
    hide BodyAt;
    if xs == [] {
      assert xs + ys == ys;
      assert [] + Bodies(ys).value == Bodies(ys).value;
    } else {
      assert (xs + ys)[0] == xs[0];
      assert (xs + ys)[1..] == xs[1..] + ys;
      BodiesConcat(xs[1..], ys);
      if xs[0] == CHECK {
        BodyExtends(xs, ys);
        var body, more, others := BodyAt(xs, 0).value, Bodies(xs[1..]).value, Bodies(ys).value;
        assert [body] + (more + others) == ([body] + more) + others;
      }
    }
  }

  function Joined(definitions: seq<seq<Token>>): seq<Token> {
    if definitions == [] then [] else definitions[0] + Joined(definitions[1..])
  }

  ghost predicate EachCloses(definitions: seq<seq<Token>>) {
    forall i :: 0 <= i < |definitions| ==> Bodies(definitions[i]).Ok?
  }

  ghost function AllBodies(definitions: seq<seq<Token>>): seq<seq<Token>>
    requires EachCloses(definitions)
  {
    if definitions == [] then [] else Bodies(definitions[0]).value + AllBodies(definitions[1..])
  }

  lemma {:induction false} BodiesOfJoined(definitions: seq<seq<Token>>)
    requires EachCloses(definitions)
    ensures Bodies(Joined(definitions)) == Ok(AllBodies(definitions))
    decreases |definitions|
  {
    if definitions != [] {
      BodiesOfJoined(definitions[1..]);
      BodiesConcat(definitions[0], Joined(definitions[1..]));
    }
  }

  lemma {:induction false} AllBodiesDropped(definitions: seq<seq<Token>>, j: nat)
    requires EachCloses(definitions) && j < |definitions|
    ensures EachCloses(Dropped(definitions, j))
    ensures multiset(AllBodies(definitions)) ==
              multiset(AllBodies(Dropped(definitions, j))) + multiset(Bodies(definitions[j]).value)
    decreases j
  {
    hide Bodies;
    var rest := definitions[1..];
    if j == 0 {
      assert Dropped(definitions, 0) == rest;
    } else {
      AllBodiesDropped(rest, j - 1);
      var dropped := Dropped(definitions, j);
      assert dropped[0] == definitions[0] && dropped[1..] == Dropped(rest, j - 1);
    }
  }

  lemma {:induction false} AllBodiesForgetOrder(xs: seq<seq<Token>>, ys: seq<seq<Token>>)
    requires EachCloses(xs) && EachCloses(ys) && multiset(xs) == multiset(ys)
    ensures multiset(AllBodies(xs)) == multiset(AllBodies(ys))
    decreases |xs|
  {
    hide Bodies, Dropped;
    if xs == [] {
      assert |multiset(ys)| == 0;
    } else {
      assert xs[0] in multiset(ys);
      var j :| 0 <= j < |ys| && ys[j] == xs[0];
      AllBodiesDropped(xs, 0);
      AllBodiesDropped(ys, j);
      DroppedElements(xs, 0);
      DroppedElements(ys, j);
      DroppedLength(xs, 0);
      AllBodiesForgetOrder(Dropped(xs, 0), Dropped(ys, j));
    }
  }

  lemma SortedBodiesForgetOrder(xs: seq<seq<Token>>, ys: seq<seq<Token>>)
    requires multiset(xs) == multiset(ys)
    ensures SortedBodies(xs) == SortedBodies(ys)
  {
    MappedSameElements(xs, ys, Canonical);
    SortedForgetsOrder(Mapped(xs, Canonical), Mapped(ys, Canonical), Itself);
  }

  /** The comparison is blind to layout, to the quoting style of identifiers and to the order of
      definitions: two texts that lay out the same definitions, in any order, give the same constraints. */
  lemma ChecksSeeDefinitionsOnly(parts: seq<Part>, parts': seq<Part>, definitions: seq<seq<Token>>,
                                 definitions': seq<seq<Token>>)
    requires WellLaidOut(parts) && Tokens(parts) == Joined(definitions)
    requires WellLaidOut(parts') && Tokens(parts') == Joined(definitions')
    requires EachCloses(definitions) && multiset(definitions) == multiset(definitions')
    ensures CheckExpressions(Text(parts)).Ok?
    ensures CheckExpressions(Text(parts)) == CheckExpressions(Text(parts'))
  {
    hide SortedBodies, Bodies, Lex, Joined, Tokens, WellLaidOut, Text;
    LexOfLayout(parts);
    LexOfLayout(parts');
    forall i | 0 <= i < |definitions'|
      ensures Bodies(definitions'[i]).Ok?
    {
      assert definitions'[i] in multiset(definitions);
      assert definitions'[i] in definitions;
    }
    BodiesOfJoined(definitions);
    BodiesOfJoined(definitions');
    AllBodiesForgetOrder(definitions, definitions');
    SortedBodiesForgetOrder(AllBodies(definitions), AllBodies(definitions'));
  }

  lemma NoColon(k: Kind, i: nat)
    requires i < |KindName(k)|
    ensures KindName(k)[i] != ':'
  {
  }

  lemma NoShorterName(k: Kind, k': Kind, x: string, y: string)
    requires KindName(k) + ([':'] + x) == KindName(k') + ([':'] + y)
    ensures |KindName(k)| >= |KindName(k')|
  {
    hide KindName;
    var s, m := KindName(k) + ([':'] + x), |KindName(k)|;
    if m < |KindName(k')| {
      assert s[m] == ':';
      assert s[m] == KindName(k')[m];
      NoColon(k', m);
    }
  }

  lemma KindNamesDiffer(k: Kind, k': Kind, x: string, y: string)
    requires KindName(k) + ([':'] + x) == KindName(k') + ([':'] + y)
    ensures k == k' && x == y
  {
    var s, m := KindName(k) + ([':'] + x), |KindName(k)|;
    NoShorterName(k, k', x, y);
    NoShorterName(k', k, y, x);
    assert s[0] == KindName(k)[0] == KindName(k')[0];
    assert s[m + 1..] == x;
    assert s[m + 1..] == y;
  }

  /** The rendered form of a constraint determines its tokens. */
  lemma {:induction false} CanonicalDecides(xs: seq<Token>, ys: seq<Token>)
    requires Canonical(xs) == Canonical(ys)
    ensures xs == ys
  {
    assert |xs| == |Canonical(xs)| == |ys|;
    forall i | 0 <= i < |xs|
      ensures xs[i] == ys[i]
    {
      assert Rendered(xs[i]) == Canonical(xs)[i] == Rendered(ys[i]);
      assert Rendered(xs[i]) == KindName(xs[i].kind) + ([':'] + xs[i].value);
      assert Rendered(ys[i]) == KindName(ys[i].kind) + ([':'] + ys[i].value);
      KindNamesDiffer(xs[i].kind, ys[i].kind, xs[i].value, ys[i].value);
    }
  }
}
