/** What a text becomes when it is normalised: its lines survive in their order, without the blanks at their ends,
    without blank lines at either end, and without the indentation of the first line. */
module CanonicalLines {
  import opened Characters
  import opened CanonicalText

  /** The lines of a text, broken at a line feed, a carriage return, or both together. */
  function Lines(s: string): (lines: seq<string>)
    ensures lines != []
    decreases |s|
  {
    if s == [] then [[]]
    else if |s| > 1 && s[0] == '\r' && s[1] == '\n' then [[]] + Lines(s[2..])
    else if s[0] == '\r' || s[0] == '\n' then [[]] + Lines(s[1..])
    else
      var rest := Lines(s[1..]);
      [[s[0]] + rest[0]] + rest[1..]
  }

  /** `r` is the line without the blanks at its end. */
  predicate Trimmed(line: string, r: string) {
    r <= line && Blank(line[|r|..]) && (r == [] || !IsSpace(r[|r| - 1]))
  }

  // ---- splitting ----

  lemma UnifiedStep(s: string)
    requires s != []
    ensures Unified(s) ==
              if |s| > 1 && s[0] == '\r' && s[1] == '\n' then ['\n'] + Unified(s[2..])
              else [if s[0] == '\r' then '\n' else s[0]] + Unified(s[1..])
  {
    var c, rest := if s[0] == '\r' then '\n' else s[0], ReplaceCrLf(s[1..]);
    if |s| > 1 && s[0] == '\r' && s[1] == '\n' {
      assert (['\n'] + ReplaceCrLf(s[2..]))[1..] == ReplaceCrLf(s[2..]);
    } else {
      assert ([s[0]] + rest)[1..] == rest;
    }
  }

  lemma {:induction false} LinesAreSplit(s: string)
    ensures Split(Unified(s)) == Lines(s)
    decreases |s|
  {
    hide Unified, IsSpace;
    if s != [] {
      UnifiedStep(s);
      var n := if |s| > 1 && s[0] == '\r' && s[1] == '\n' then 2 else 1;
      LinesAreSplit(s[n..]);
      SplitStep(if s[0] == '\r' then '\n' else s[0], Unified(s[n..]));
    } else {
      assert Unified([]) == [] by { NothingUnified(); }
    }
  }

  lemma NothingUnified()
    ensures Unified([]) == []
  {
  }

  lemma SplitStep(c: char, s: string)
    ensures var rest := Split(s);
      Split([c] + s) == if c == '\n' then [[]] + rest else [[c] + rest[0]] + rest[1..]
  {
    assert ([c] + s)[1..] == s;
  }

  lemma {:induction false} SplitJoin(lines: seq<string>)
    requires lines != [] && forall i :: 0 <= i < |lines| ==> '\n' !in lines[i]
    ensures Split(Join(lines)) == lines
    decreases |lines|
  {
    if |lines| == 1 {
      SplitLine(lines[0]);
      assert lines == [lines[0]];
    } else {
      SplitJoin(lines[1..]);
      var rest := Join(lines[1..]);
      assert Join(lines) == lines[0] + (['\n'] + rest);
      SplitAfter(lines[0], rest);
      assert lines == [lines[0]] + lines[1..];
    }
  }

  lemma {:induction false} SplitLine(line: string)
    requires '\n' !in line
    ensures Split(line) == [line]
    decreases |line|
  {
    if line != [] {
      SplitLine(line[1..]);
      assert line == [line[0]] + line[1..];
    }
  }

  lemma {:induction false} SplitAfter(line: string, rest: string)
    requires '\n' !in line
    ensures Split(line + (['\n'] + rest)) == [line] + Split(rest)
    decreases |line|
  {
    if line == [] {
      assert line + (['\n'] + rest) == ['\n'] + rest;
      SplitStep('\n', rest);
    } else {
      SplitAfter(line[1..], rest);
      assert line + (['\n'] + rest) == [line[0]] + (line[1..] + (['\n'] + rest));
      SplitStep(line[0], line[1..] + (['\n'] + rest));
      assert line == [line[0]] + line[1..];
    }
  }

  // ---- stripping ----

  lemma {:induction false} RStripTrims(s: string)
    ensures Trimmed(s, RStrip(s)) && (RStrip(s) == [] <==> Blank(s))
    decreases |s|
  {
    hide IsSpace;
    if s != [] && IsSpace(s[|s| - 1]) {
      var front := s[..|s| - 1];
      RStripTrims(front);
      var r := RStrip(s);
      assert s[|r|..] == front[|r|..] + [s[|s| - 1]];
      assert Blank(s) <==> Blank(front) by {
        assert forall i :: 0 <= i < |front| ==> front[i] == s[i];
      }
    } else if s != [] {
      assert s[|s|..] == [];
    }
  }

  lemma BlankCons(c: char, s: string)
    ensures Blank([c] + s) <==> IsSpace(c) && Blank(s)
  {
    hide IsSpace;
    assert ([c] + s)[0] == c;
    assert forall i :: 0 <= i < |s| ==> ([c] + s)[i + 1] == s[i];
  }

  lemma LStripCons(c: char, s: string)
    ensures LStrip([c] + s) == if IsSpace(c) then LStrip(s) else [c] + s
  {
    assert ([c] + s)[0] == c && ([c] + s)[1..] == s;
  }

  lemma {:induction false} LStripDrops(s: string)
    ensures var r := LStrip(s); Blank(s[..|s| - |r|]) && (r == [] <==> Blank(s))
    decreases |s|
  {
    hide IsSpace, Blank, LStrip;
    NothingIsBlank();
    if s == [] {
      assert s[..0] == [];
    } else {
      var c, rest := s[0], s[1..];
      assert s == [c] + rest;
      LStripCons(c, rest);
      BlankCons(c, rest);
      if IsSpace(c) {
        LStripDrops(rest);
        var dropped := rest[..|rest| - |LStrip(rest)|];
        assert s[..|dropped| + 1] == [c] + dropped;
        BlankCons(c, dropped);
      } else {
        assert s[..0] == [];
      }
    }
  }

  lemma NothingIsBlank()
    ensures Blank([]) && LStrip([]) == []
  {
  }

  lemma {:induction false} LStripConcat(s: string, t: string)
    requires !Blank(s)
    ensures LStrip(s + t) == LStrip(s) + t
    decreases |s|
  {
    hide IsSpace;
    assert (s + t)[0] == s[0];
    if IsSpace(s[0]) {
      assert (s + t)[1..] == s[1..] + t;
      assert !Blank(s[1..]) by {
        var i :| 0 <= i < |s| && !IsSpace(s[i]);
        assert s[1..][i - 1] == s[i];
      }
      LStripConcat(s[1..], t);
    }
  }

  lemma LineBreaksAreBlank()
    ensures IsSpace('\n')
  {
  }

  /** Lines as they are after their ends were trimmed. */
  ghost predicate Ends(lines: seq<string>) {
    forall i :: 0 <= i < |lines| ==> '\n' !in lines[i] && (lines[i] == [] || !IsSpace(lines[i][|lines[i]| - 1]))
  }

  /** Stripping the front of joined lines drops the empty lines there, and the indentation of the first other. */
  lemma {:induction false} FrontStripped(lines: seq<string>) returns (lo: nat)
    requires lines != [] && Ends(lines)
    ensures lo <= |lines| && (forall i :: 0 <= i < lo ==> lines[i] == [])
    ensures lo == |lines| ==> LStrip(Join(lines)) == []
    ensures lo < |lines| ==>
              lines[lo] != [] && LStrip(Join(lines)) == Join([LStrip(lines[lo])] + lines[lo + 1..])
    decreases |lines|
  {
    hide IsSpace, LStrip, Join, Blank, Ends;
    if lines[0] != [] {
      lo := 0;
      FrontKept(lines);
    } else if |lines| == 1 {
      lo := 1;
      assert lines == [[]];
      EmptyStripped();
    } else {
      EndsRest(lines);
      var m := FrontStripped(lines[1..]);
      lo := m + 1;
      FrontDropped(lines);
      RestBlank(lines, m);
      if m < |lines[1..]| {
        assert lines[1..][m + 1..] == lines[lo + 1..];
      }
    }
  }

  lemma EndsRest(lines: seq<string>)
    requires lines != [] && Ends(lines)
    ensures Ends(lines[1..])
  {
    hide IsSpace;
  }

  lemma RestBlank(lines: seq<string>, m: nat)
    requires lines != [] && lines[0] == [] && m <= |lines[1..]| && forall i :: 0 <= i < m ==> lines[1..][i] == []
    ensures forall i :: 0 <= i < m + 1 ==> lines[i] == []
  {
    forall i | 0 <= i < m + 1
      ensures lines[i] == []
    {
      assert i > 0 ==> lines[i] == lines[1..][i - 1];
    }
  }

  lemma FrontDropped(lines: seq<string>)
    requires |lines| > 1 && lines[0] == []
    ensures LStrip(Join(lines)) == LStrip(Join(lines[1..]))
  {
    hide LStrip, Join;
    JoinFirst(lines);
    BreakDropped(Join(lines[1..]));
    assert [] + (['\n'] + Join(lines[1..])) == ['\n'] + Join(lines[1..]);
  }

  lemma JoinFirst(lines: seq<string>)
    requires lines != []
    ensures Join(lines) == if |lines| == 1 then lines[0] else lines[0] + (['\n'] + Join(lines[1..]))
  {
  }

  lemma BreakDropped(s: string)
    ensures LStrip(['\n'] + s) == LStrip(s)
  {
    LineBreaksAreBlank();
    assert (['\n'] + s)[1..] == s;
  }

  lemma NotBlankLine(line: string)
    requires line != [] && !IsSpace(line[|line| - 1])
    ensures !Blank(line)
  {
    hide IsSpace;
  }

  lemma FrontKept(lines: seq<string>)
    requires lines != [] && Ends(lines) && lines[0] != []
    ensures LStrip(Join(lines)) == Join([LStrip(lines[0])] + lines[1..])
  {
    hide IsSpace, LStrip, Join, Blank;
    var first := lines[0];
    NotBlankLine(first);
    JoinFirst(lines);
    var stripped := [LStrip(first)] + lines[1..];
    JoinFirst(stripped);
    if |lines| > 1 {
      LStripConcat(first, ['\n'] + Join(lines[1..]));
      assert stripped[1..] == lines[1..];
    }
  }

  lemma {:induction false} JoinLast(lines: seq<string>)
    requires |lines| > 1
    ensures Join(lines) == Join(lines[..|lines| - 1]) + (['\n'] + lines[|lines| - 1])
    decreases |lines|
  {
    var front, last := lines[..|lines| - 1], lines[|lines| - 1];
    if |lines| == 2 {
      assert lines[1..] == [last] && front == [lines[0]];
    } else {
      JoinLast(lines[1..]);
      assert lines[1..][..|lines| - 2] == front[1..];
    }
  }

  /** Stripping the end of joined lines drops the empty lines there. */
  lemma {:induction false} EndStripped(lines: seq<string>) returns (n: nat)
    requires lines != [] && Ends(lines) && lines[0] != []
    ensures 0 < n <= |lines| && lines[n - 1] != [] && (forall i :: n <= i < |lines| ==> lines[i] == [])
    ensures RStrip(Join(lines)) == Join(lines[..n])
    decreases |lines|
  {
    hide IsSpace;
    var m := |lines|;
    var last := lines[m - 1];
    if last != [] {
      n := m;
      assert lines[..n] == lines;
      if m > 1 {
        JoinLast(lines);
      }
      assert Join(lines)[|Join(lines)| - 1] == last[|last| - 1];
    } else {
      var front := lines[..m - 1];
      n := EndStripped(front);
      JoinLast(lines);
      LineBreaksAreBlank();
      assert Join(lines) == Join(front) + ['\n'];
      assert (Join(front) + ['\n'])[..|Join(front)|] == Join(front);
      assert front[..n] == lines[..n];
    }
  }

  // ---- what survives ----

  /** `kept` are the lines from `lo` up to `hi`, each without the blanks at its end and the first also without its
      indentation; neither the first nor the last of them is blank. */
  ghost predicate Survive(lines: seq<string>, lo: nat, hi: nat, kept: seq<string>) {
    && lo < hi <= |lines| && |kept| == hi - lo && !Blank(lines[lo]) && !Blank(lines[hi - 1])
    && (forall k :: 0 < k < |kept| ==> Trimmed(lines[lo + k], kept[k]))
    && kept[0] != [] && !IsSpace(kept[0][0])
    && exists indent: string :: Blank(indent) && Trimmed(lines[lo], indent + kept[0])
  }

  /** The lines from `lo` to `hi` survive, and all others are blank; a text of blank lines becomes empty. */
  lemma LinesSurvive(s: string) returns (lo: nat, hi: nat)
    ensures lo <= hi <= |Lines(s)|
    ensures forall i :: 0 <= i < |Lines(s)| && !(lo <= i < hi) ==> Blank(Lines(s)[i])
    ensures if lo == hi then Text(s) == [] else Survive(Lines(s), lo, hi, Split(Text(s)))
  {
    hide IsSpace, RStrip, LStrip, Split, Join, Unified, Lines, Trimmed, Blank, Ends, Survive;
    var lines := Lines(s);
    LinesAreSplit(s);
    var trimmed := StripLines(lines);
    TrimmedLines(lines);
    lo := FrontStripped(trimmed);
    hi := lo;
    if lo < |trimmed| {
      hi := SurvivingLines(lines, trimmed, lo);
    } else {
      EmptyStripped();
    }
  }

  lemma SurvivingLines(lines: seq<string>, trimmed: seq<string>, lo: nat) returns (hi: nat)
    requires |lines| == |trimmed| && lo < |lines| && Ends(trimmed) && trimmed[lo] != []
    requires forall i :: 0 <= i < |lines| ==> Trimmed(lines[i], trimmed[i]) && (trimmed[i] == [] <==> Blank(lines[i]))
    ensures lo < hi <= |lines| && forall i :: hi <= i < |lines| ==> Blank(lines[i])
    ensures Survive(lines, lo, hi, Split(RStrip(Join([LStrip(trimmed[lo])] + trimmed[lo + 1..]))))
  {
    hide IsSpace, RStrip, LStrip, Split, Join, Trimmed, Blank;
    var first := LStrip(trimmed[lo]);
    assert '\n' !in trimmed[lo];
    FirstKept(lines[lo], trimmed[lo]);
    var rest := [first] + trimmed[lo + 1..];
    assert forall k :: 0 < k < |rest| ==> rest[k] == trimmed[lo + k];
    var n := EndStripped(rest);
    hi := lo + n;
    SplitJoin(rest[..n]);
    forall i | hi <= i < |lines|
      ensures Blank(lines[i])
    {
      assert rest[i - lo] == [];
    }
    assert n > 1 ==> rest[n - 1] == trimmed[hi - 1];
  }

  lemma EmptyStripped()
    ensures RStrip([]) == [] && LStrip([]) == [] && Join([[]]) == []
  {
  }

  lemma TrimmedLines(lines: seq<string>)
    requires forall i :: 0 <= i < |lines| ==> '\n' !in lines[i]
    ensures Ends(StripLines(lines))
    ensures forall i :: 0 <= i < |lines| ==>
              Trimmed(lines[i], StripLines(lines)[i]) && (StripLines(lines)[i] == [] <==> Blank(lines[i]))
  {
    hide IsSpace, RStrip, Blank;
    forall i | 0 <= i < |lines|
      ensures var r := StripLines(lines)[i];
        Trimmed(lines[i], r) && (r == [] <==> Blank(lines[i])) && '\n' !in r
    {
      RStripTrims(lines[i]);
    }
  }

  /** The first line that is kept. */
  lemma FirstKept(line: string, trimmed: string)
    requires Trimmed(line, trimmed) && trimmed != []
    ensures var first := LStrip(trimmed);
      && first != [] && !IsSpace(first[0]) && !IsSpace(first[|first| - 1])
      && ('\n' !in trimmed ==> '\n' !in first)
      && exists indent: string :: Blank(indent) && Trimmed(line, indent + first)
  {
    hide IsSpace, Blank, LStrip;
    LStripDrops(trimmed);
    NotBlankLine(trimmed);
    var first := LStrip(trimmed);
    var indent := trimmed[..|trimmed| - |first|];
    assert indent + first == trimmed;
    assert first[|first| - 1] == trimmed[|trimmed| - 1];
  }
}
