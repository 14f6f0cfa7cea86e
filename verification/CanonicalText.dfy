/** The text normalisation of canonical payloads.  Texts are over an alphabet on which Unicode
    composition (NFC) is the identity. */
module CanonicalText {
  import opened Characters

  /** `value.replace("\r\n", "\n")`. */
  function ReplaceCrLf(s: string): string
    decreases |s|
  {
    if s == [] then []
    else if |s| > 1 && s[0] == '\r' && s[1] == '\n' then ['\n'] + ReplaceCrLf(s[2..])
    else [s[0]] + ReplaceCrLf(s[1..])
  }

  /** `value.replace("\r", "\n")`. */
  function ReplaceCr(s: string): (r: string)
    ensures |r| == |s|
    ensures forall i :: 0 <= i < |s| ==> r[i] == if s[i] == '\r' then '\n' else s[i]
  {
    if s == [] then [] else [if s[0] == '\r' then '\n' else s[0]] + ReplaceCr(s[1..])
  }

  /** `value.split("\n")`. */
  function Split(s: string): (lines: seq<string>)
    ensures lines != []
    ensures forall i :: 0 <= i < |lines| ==> '\n' !in lines[i]
    ensures Join(lines) == s
    decreases |s|
  {
    if s == [] then [[]]
    else
      var rest := Split(s[1..]);
      assert rest == [rest[0]] + rest[1..];
      if s[0] == '\n' then
        assert ([[]] + rest)[1..] == rest;
        [[]] + rest
      else
        assert ([[s[0]] + rest[0]] + rest[1..])[1..] == rest[1..];
        [[s[0]] + rest[0]] + rest[1..]
  }

  /** `"\n".join(lines)`. */
  function Join(lines: seq<string>): string
    requires lines != []
    decreases |lines|
  {
    if |lines| == 1 then lines[0] else lines[0] + ['\n'] + Join(lines[1..])
  }

  function RStrip(s: string): (r: string)
    ensures r <= s
    ensures r == [] || !IsSpace(r[|r| - 1])
    decreases |s|
  {
    if s == [] || !IsSpace(s[|s| - 1]) then s else RStrip(s[..|s| - 1])
  }

  function LStrip(s: string): (r: string)
    ensures |r| <= |s| && r == s[|s| - |r|..]
    ensures r == [] || !IsSpace(r[0])
    decreases |s|
  {
    if s == [] || !IsSpace(s[0]) then s else LStrip(s[1..])
  }

  function StripLines(lines: seq<string>): (r: seq<string>)
    ensures |r| == |lines|
    ensures forall i :: 0 <= i < |r| ==> r[i] == RStrip(lines[i])
  {
    seq(|lines|, i requires 0 <= i < |lines| => RStrip(lines[i]))
  }

  function Unified(s: string): string {
    ReplaceCr(ReplaceCrLf(s))
  }

  /** `_text`. */
  function Text(s: string): string {
    RStrip(LStrip(Join(StripLines(Split(Unified(s))))))
  }

  // ---- what a normalised text is ----

  /** No line ends in a blank. */
  predicate LinesTrimmed(s: string) {
    forall i :: 0 < i < |s| && s[i] == '\n' ==> s[i - 1] == '\n' || !IsSpace(s[i - 1])
  }

  /** A text that normalisation leaves alone: no carriage return, no blank at either end, and none
      before a line break. */
  predicate Clean(s: string) {
    && '\r' !in s && LinesTrimmed(s)
    && (s != [] ==> !IsSpace(s[0]) && !IsSpace(s[|s| - 1]))
  }

  lemma {:induction false} JoinTrimmed(lines: seq<string>)
    requires lines != []
    requires forall i :: 0 <= i < |lines| ==>
               '\n' !in lines[i] && '\r' !in lines[i] && (lines[i] == [] || !IsSpace(lines[i][|lines[i]| - 1]))
    ensures LinesTrimmed(Join(lines)) && '\r' !in Join(lines)
    decreases |lines|
  {
    if |lines| > 1 {
      JoinTrimmed(lines[1..]);
    }
  }

  lemma {:induction false} SplitNoReturn(s: string)
    requires '\r' !in s
    ensures forall i :: 0 <= i < |Split(s)| ==> '\r' !in Split(s)[i]
    decreases |s|
  {
    if s != [] {
      SplitNoReturn(s[1..]);
    }
  }

  lemma StrippedLines(u: string)
    requires '\r' !in u
    ensures var lines := StripLines(Split(u));
      forall i :: 0 <= i < |lines| ==>
        '\n' !in lines[i] && '\r' !in lines[i] && (lines[i] == [] || !IsSpace(lines[i][|lines[i]| - 1]))
  {
    hide IsSpace, RStrip, Split;
    SplitNoReturn(u);
    var lines := StripLines(Split(u));
    forall i | 0 <= i < |lines|
      ensures '\n' !in lines[i] && '\r' !in lines[i] && (lines[i] == [] || !IsSpace(lines[i][|lines[i]| - 1]))
    {
      assert lines[i] <= Split(u)[i];
    }
  }

  lemma SuffixTrimmed(s: string, i: nat)
    requires LinesTrimmed(s) && '\r' !in s && i <= |s|
    ensures LinesTrimmed(s[i..]) && '\r' !in s[i..]
  {
    hide IsSpace;
  }

  lemma PrefixTrimmed(s: string, n: nat)
    requires LinesTrimmed(s) && '\r' !in s && n <= |s|
    ensures LinesTrimmed(s[..n]) && '\r' !in s[..n]
  {
    hide IsSpace;
  }

  lemma StripKeeps(j: string)
    requires LinesTrimmed(j) && '\r' !in j
    ensures Clean(RStrip(LStrip(j)))
  {
    hide IsSpace, RStrip, LStrip, LinesTrimmed;
    var l := LStrip(j);
    SuffixTrimmed(j, |j| - |l|);
    PrefixTrimmed(l, |RStrip(l)|);
    assert RStrip(l) == l[..|RStrip(l)|];
  }

  /** Whatever comes in, the result is clean. */
  lemma TextIsClean(s: string)
    ensures Clean(Text(s))
  {
    hide IsSpace, RStrip, LStrip, Split, Join, ReplaceCrLf, ReplaceCr;
    var u := Unified(s);
    assert '\r' !in u;
    var lines := StripLines(Split(u));
    StrippedLines(u);
    assert |lines| == |Split(u)|;
    JoinTrimmed(lines);
    StripKeeps(Join(lines));
  }

  lemma {:induction false} UnifiedNoReturn(s: string)
    requires '\r' !in s
    ensures Unified(s) == s
    decreases |s|
  {
    ReplaceCrLfNoReturn(s);
  }

  lemma {:induction false} ReplaceCrLfNoReturn(s: string)
    requires '\r' !in s
    ensures ReplaceCrLf(s) == s
    decreases |s|
  {
    if s != [] {
      ReplaceCrLfNoReturn(s[1..]);
    }
  }

  /** The lines of a text that ends without a blank and has no blank before a line break are trimmed. */
  lemma {:induction false} TrimmedSplit(s: string)
    requires LinesTrimmed(s) && (s == [] || s[|s| - 1] == '\n' || !IsSpace(s[|s| - 1]))
    ensures StripLines(Split(s)) == Split(s)
    decreases |s|
  {
    if s != [] {
      TrimmedSplit(s[1..]);
      FirstLine(s);
    }
  }

  lemma {:induction false} FirstLine(s: string)
    requires LinesTrimmed(s) && (s == [] || s[|s| - 1] == '\n' || !IsSpace(s[|s| - 1]))
    ensures RStrip(Split(s)[0]) == Split(s)[0]
    decreases |s|
  {
    if s != [] && s[0] != '\n' {
      FirstLine(s[1..]);
      FirstLineEnd(s);
    }
  }

  lemma {:induction false} FirstLineEnd(s: string)
    requires s != [] && s[0] != '\n'
    ensures var line := Split(s)[0];
      line != [] && line <= s && (|line| < |s| ==> s[|line|] == '\n')
    decreases |s|
  {
    if |s| > 1 && s[1] != '\n' {
      FirstLineEnd(s[1..]);
    }
  }

  lemma CleanIsFixed(s: string)
    requires Clean(s)
    ensures Text(s) == s
  {
    UnifiedNoReturn(s);
    TrimmedSplit(s);
  }

  /** Normalising a text leaves it alone exactly when it is clean; so normalising twice is normalising once. */
  lemma TextFixesExactlyClean(s: string)
    ensures Text(s) == s <==> Clean(s)
    ensures Text(Text(s)) == Text(s)
  {
    TextIsClean(s);
    CleanIsFixed(Text(s));
    if Clean(s) {
      CleanIsFixed(s);
    }
  }
}
