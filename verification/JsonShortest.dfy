/** The canonical text is compact: no text that the reader of the JSON grammar reads as the same value is shorter.
    So the separators stand alone, a character is escaped only where it must be, and by its short escape if it has
    one. */
module JsonShortest {
  import opened Outcomes
  import opened Characters
  import opened JsonText
  import opened JsonReader

  // ---- strings ----

  lemma EscapeCosts(c: char)
    ensures |Escape(c)| <= 6
    ensures c as int >= 0x20 && c != '"' && c != '\\' ==> |Escape(c)| == 1
  {
  }

  lemma ShortEscapeCosts(letter: char)
    requires Meaning(letter).Some?
    ensures |Escape(Meaning(letter).value as char)| <= 2
  {
  }

  lemma EscapeAllCons(c: char, text: string)
    ensures |EscapeAll([c] + text)| == |Escape(c)| + |EscapeAll(text)|
  {
    assert ([c] + text)[1..] == text;
  }

  /** Whatever is read as a string was at least as long as its printed characters and the closing mark. */
  lemma {:induction false} CharsCost(s: string)
    requires ReadChars(s).Some?
    ensures var r := ReadChars(s).value; |s| - |r.rest| >= |EscapeAll(r.value)| + 1
    decreases |s|
  {
    hide EscapeAll, Escape, FourHex, Meaning;
    if s[0] == '"' {
      assert |EscapeAll([])| == 0 by { EscapeNothing(); }
    } else if s[0] == '\\' {
      if s[1] == 'u' {
        var c := FourHex(s[2..6]).value as char;
        CharsCost(s[6..]);
        EscapeCosts(c);
        EscapeAllCons(c, ReadChars(s[6..]).value.value);
      } else {
        CharsCost(s[2..]);
        ShortEscapeCosts(s[1]);
        EscapeAllCons(Meaning(s[1]).value as char, ReadChars(s[2..]).value.value);
      }
    } else {
      CharsCost(s[1..]);
      EscapeCosts(s[0]);
      EscapeAllCons(s[0], ReadChars(s[1..]).value.value);
    }
  }

  lemma EscapeNothing()
    ensures EscapeAll([]) == []
  {
  }

  lemma QuotedCosts(text: string)
    ensures |Quoted(text)| == |EscapeAll(text)| + 2
  {
  }

  lemma HexIsLowerCase(n: nat)
    requires n < 16
    ensures !('A' <= HexDigit(n) <= 'F')
  {
  }

  /** An escape by number has lower-case digits. */
  lemma NumbersAreLowerCase(c: char, i: nat)
    requires |Escape(c)| == 6 && i < 6
    ensures !('A' <= Escape(c)[i] <= 'F')
  {
    hide HexDigit;
    var n := c as int;
    if c < ' ' {
      HexIsLowerCase(n / 16);
      HexIsLowerCase(n % 16);
      assert Escape(c) == ['\\', 'u', '0', '0', HexDigit(n / 16), HexDigit(n % 16)];
    }
  }

  // ---- numbers ----

  lemma {:induction false} DigitsGrow(n: nat, d: nat)
    requires d < 10
    ensures |Digits(10 * n + d)| <= |Digits(n)| + 1
  {
    if 10 * n + d >= 10 {
      assert (10 * n + d) / 10 == n;
    }
  }

  lemma {:induction false} DigitsCost(s: string, n: nat)
    ensures var r := ReadDigits(s, n); |Digits(r.value)| <= |Digits(n)| + (|s| - |r.rest|)
    decreases |s|
  {
    hide Digits;
    if s != [] && IsDigit(s[0]) {
      DigitsCost(s[1..], 10 * n + DigitValue(s[0]));
      DigitsGrow(n, DigitValue(s[0]));
    }
  }

  lemma IntCosts(s: string)
    requires ReadInt(s).Some?
    ensures var r := ReadInt(s).value; r.value.JInt? && |s| - |r.rest| >= |Print(r.value)|
  {
    var t := if s != [] && s[0] == '-' then s[1..] else s;
    if t[0] != '0' {
      DigitsCost(t[1..], DigitValue(t[0]));
    }
  }

  // ---- values ----

  lemma {:induction false} ValueCosts(s: string)
    requires ReadValue(s).Some?
    ensures var r := ReadValue(s).value; |s| - |r.rest| >= |Print(r.value)|
    decreases |s|, 0
  {
    hide ReadChars, ReadItems, ReadFields, ReadInt, Print;
    var t := Skip(s);
    if t[0] == '"' {
      CharsCost(t[1..]);
      TextCosts(ReadChars(t[1..]).value.value);
    } else if t[0] == '[' {
      var u := Skip(t[1..]);
      if u != [] && u[0] == ']' {
        EmptyCosts();
      } else {
        ItemsCost(t[1..]);
        ArrayCosts(ReadItems(t[1..]).value.value);
      }
    } else if t[0] == '{' {
      var u := Skip(t[1..]);
      if u != [] && u[0] == '}' {
        EmptyCosts();
      } else {
        FieldsCost(t[1..]);
        ObjectCosts(ReadFields(t[1..]).value.value);
      }
    } else if "null" <= t || "true" <= t || "false" <= t {
      LiteralCosts();
    } else {
      IntCosts(t);
    }
  }

  lemma TextCosts(text: string)
    ensures |Print(JStr(text))| == |EscapeAll(text)| + 2
  {
    QuotedCosts(text);
  }

  lemma EmptyCosts()
    ensures |Print(JArr([]))| == 2 && |Print(JObj([]))| == 2
  {
  }

  lemma LiteralCosts()
    ensures |Print(JNull)| == 4 && |Print(JBool(true))| == 4 && |Print(JBool(false))| == 5
  {
  }

  lemma ArrayCosts(items: seq<Json>)
    requires items != []
    ensures |Print(JArr(items))| == 1 + |Print(items[0])| + |MoreItems(items[1..])|
  {
  }

  lemma ObjectCosts(fields: seq<Field>)
    requires fields != []
    ensures |Print(JObj(fields))| == 1 + |PrintField(fields[0])| + |MoreFields(fields[1..])|
  {
  }

  lemma MoreCosts(items: seq<Json>, fields: seq<Field>)
    ensures |MoreItems(items)| == if items == [] then 1 else 1 + |Print(items[0])| + |MoreItems(items[1..])|
    ensures |MoreFields(fields)| == if fields == [] then 1 else 1 + |PrintField(fields[0])| + |MoreFields(fields[1..])|
  {
  }

  lemma FieldCosts(f: Field)
    ensures |PrintField(f)| == |EscapeAll(f.key)| + 3 + |Print(f.value)|
  {
    QuotedCosts(f.key);
  }

  lemma {:induction false} ItemsCost(s: string)
    requires ReadItems(s).Some?
    ensures var r := ReadItems(s).value;
      r.value != [] && |s| - |r.rest| >= |Print(r.value[0])| + |MoreItems(r.value[1..])|
    decreases |s|, 1
  {
    hide ReadValue, Print, MoreItems;
    var first := ReadValue(s).value;
    ValueCosts(s);
    var t := Skip(first.rest);
    if t[0] == ']' {
      assert [first.value][1..] == [];
      MoreCosts([], []);
    } else {
      ItemsCost(t[1..]);
      var more := ReadItems(t[1..]).value.value;
      MoreCosts(more, []);
      assert ([first.value] + more)[1..] == more;
    }
  }

  lemma {:induction false} FieldCost(s: string)
    requires ReadField(s).Some?
    ensures var r := ReadField(s).value; |s| - |r.rest| >= |PrintField(r.value)|
    decreases |s|, 1
  {
    hide ReadValue, ReadChars, Print, PrintField;
    var t := Skip(s);
    var key := ReadChars(t[1..]).value;
    CharsCost(t[1..]);
    var u := Skip(key.rest);
    ValueCosts(u[1..]);
    FieldCosts(Field(key.value, ReadValue(u[1..]).value.value));
  }

  lemma {:induction false} FieldsCost(s: string)
    requires ReadFields(s).Some?
    ensures var r := ReadFields(s).value;
      r.value != [] && |s| - |r.rest| >= |PrintField(r.value[0])| + |MoreFields(r.value[1..])|
    decreases |s|, 2
  {
    hide ReadField, PrintField, MoreFields;
    var first := ReadField(s).value;
    FieldCost(s);
    var t := Skip(first.rest);
    if t[0] == '}' {
      assert [first.value][1..] == [];
      MoreCosts([], []);
    } else {
      FieldsCost(t[1..]);
      var more := ReadFields(t[1..]).value.value;
      MoreCosts([], more);
      assert ([first.value] + more)[1..] == more;
    }
  }

  /** Among all texts that are read as a value, the printed one is a shortest. */
  lemma PrintIsShortest(j: Json, s: string)
    requires Read(s) == Some(j)
    ensures |Print(j)| <= |s|
  {
    hide ReadValue, Print;
    ValueCosts(s);
  }
}
