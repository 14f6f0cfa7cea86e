/** A reader of JSON texts after the grammar of RFC 8259 (sections 2 to 7), written without regard to the printer:
    escapes are turned back by the characters they mean and digits by their places.  The printer is shown to
    print what this reader reads.  Fractions, exponents and surrogate pairs are not read. */
module JsonReader {
  import opened Outcomes
  import opened Characters
  import opened JsonText

  datatype Got<T> = Got(value: T, rest: string)

  /** White space between tokens (section 2). */
  predicate Insignificant(c: char) {
    c as int == 0x20 || c as int == 0x09 || c as int == 0x0A || c as int == 0x0D
  }

  function Skip(s: string): (r: string)
    ensures |r| <= |s|
    ensures s != [] && !Insignificant(s[0]) ==> r == s
  {
    if s != [] && Insignificant(s[0]) then Skip(s[1..]) else s
  }

  // ---- strings (section 7) ----

  function HexValue(c: char): (r: Option<nat>)
    ensures r.Some? ==> r.value < 16
  {
    if '0' <= c <= '9' then Some(c as int - '0' as int)
    else if 'a' <= c <= 'f' then Some(10 + (c as int - 'a' as int))
    else if 'A' <= c <= 'F' then Some(10 + (c as int - 'A' as int))
    else None
  }

  /** The code that four hexadecimal digits stand for. */
  function FourHex(s: string): (r: Option<nat>)
    requires |s| == 4
    ensures r.Some? ==> r.value < 0x10000
  {
    var a, b, c, d := HexValue(s[0]), HexValue(s[1]), HexValue(s[2]), HexValue(s[3]);
    if a.Some? && b.Some? && c.Some? && d.Some? then Some(4096 * a.value + 256 * b.value + 16 * c.value + d.value) else None
  }

  /** The code point that a two-character escape stands for. */
  function Meaning(letter: char): (r: Option<nat>)
    ensures r.Some? ==> r.value < 128
  {
    match letter
    case '"' => Some(0x22)
    case '\\' => Some(0x5C)
    case '/' => Some(0x2F)
    case 'b' => Some(0x08)
    case 'f' => Some(0x0C)
    case 'n' => Some(0x0A)
    case 'r' => Some(0x0D)
    case 't' => Some(0x09)
    case _ => None
  }

  function Before(c: char, r: Option<Got<string>>): Option<Got<string>> {
    if r.None? then None else Some(Got([c] + r.value.value, r.value.rest))
  }

  /** The characters of a string up to its closing quotation mark. */
  function ReadChars(s: string): (r: Option<Got<string>>)
    ensures r.Some? ==> |r.value.rest| < |s|
    decreases |s|
  {
    if s == [] then None
    else if s[0] == '"' then Some(Got([], s[1..]))
    else if s[0] == '\\' then
      if |s| < 2 then None
      else if s[1] == 'u' then
        if |s| < 6 then None else
        var code := FourHex(s[2..6]);
        if code.None? || 0xD800 <= code.value < 0xE000 then None else Before(code.value as char, ReadChars(s[6..]))
      else
        var code := Meaning(s[1]);
        if code.None? then None else Before(code.value as char, ReadChars(s[2..]))
    else if s[0] as int < 0x20 then None
    else Before(s[0], ReadChars(s[1..]))
  }

  // ---- numbers (section 6) ----

  function DigitValue(c: char): nat
    requires IsDigit(c)
  {
    c as int - '0' as int
  }

  /** The number that digits stand for, after the digits read so far. */
  function ReadDigits(s: string, n: nat): (r: Got<nat>)
    ensures |r.rest| <= |s|
    decreases |s|
  {
    if s != [] && IsDigit(s[0]) then ReadDigits(s[1..], 10 * n + DigitValue(s[0])) else Got(n, s)
  }

  /** No leading zeros. */
  function ReadNat(s: string): (r: Option<Got<nat>>)
    ensures r.Some? ==> |r.value.rest| < |s|
  {
    if s == [] || !IsDigit(s[0]) then None
    else if s[0] == '0' then Some(Got(0, s[1..]))
    else Some(ReadDigits(s[1..], DigitValue(s[0])))
  }

  function ReadInt(s: string): (r: Option<Got<Json>>)
    ensures r.Some? ==> |r.value.rest| < |s|
  {
    if s != [] && s[0] == '-' then
      var n := ReadNat(s[1..]);
      if n.None? then None else Some(Got(JInt(0 - n.value.value), n.value.rest))
    else
      var n := ReadNat(s);
      if n.None? then None else Some(Got(JInt(n.value.value), n.value.rest))
  }

  // ---- values (sections 3 to 5) ----

  function ReadValue(s: string): (r: Option<Got<Json>>)
    ensures r.Some? ==> |r.value.rest| < |s|
    decreases |s|, 0
  {
    var t := Skip(s);
    if t == [] then None
    else if t[0] == '"' then
      var text := ReadChars(t[1..]);
      if text.None? then None else Some(Got(JStr(text.value.value), text.value.rest))
    else if t[0] == '[' then
      var u := Skip(t[1..]);
      if u != [] && u[0] == ']' then Some(Got(JArr([]), u[1..])) else
      var items := ReadItems(t[1..]);
      if items.None? then None else Some(Got(JArr(items.value.value), items.value.rest))
    else if t[0] == '{' then
      var u := Skip(t[1..]);
      if u != [] && u[0] == '}' then Some(Got(JObj([]), u[1..])) else
      var fields := ReadFields(t[1..]);
      if fields.None? then None else Some(Got(JObj(fields.value.value), fields.value.rest))
    else if "null" <= t then Some(Got(JNull, t[4..]))
    else if "true" <= t then Some(Got(JBool(true), t[4..]))
    else if "false" <= t then Some(Got(JBool(false), t[5..]))
    else ReadInt(t)
  }

  /** One or more values separated by commas, and the closing bracket. */
  function ReadItems(s: string): (r: Option<Got<seq<Json>>>)
    ensures r.Some? ==> |r.value.rest| < |s|
    decreases |s|, 1
  {
    var first := ReadValue(s);
    if first.None? then None else
    var t := Skip(first.value.rest);
    if t == [] then None
    else if t[0] == ']' then Some(Got([first.value.value], t[1..]))
    else if t[0] != ',' then None
    else
      var more := ReadItems(t[1..]);
      if more.None? then None else Some(Got([first.value.value] + more.value.value, more.value.rest))
  }

  /** A name, a colon and a value. */
  function ReadField(s: string): (r: Option<Got<Field>>)
    ensures r.Some? ==> |r.value.rest| < |s|
    decreases |s|, 1
  {
    var t := Skip(s);
    if t == [] || t[0] != '"' then None else
    var key := ReadChars(t[1..]);
    if key.None? then None else
    var u := Skip(key.value.rest);
    if u == [] || u[0] != ':' then None else
    var value := ReadValue(u[1..]);
    if value.None? then None else Some(Got(Field(key.value.value, value.value.value), value.value.rest))
  }

  function ReadFields(s: string): (r: Option<Got<seq<Field>>>)
    ensures r.Some? ==> |r.value.rest| < |s|
    decreases |s|, 2
  {
    var first := ReadField(s);
    if first.None? then None else
    var t := Skip(first.value.rest);
    if t == [] then None
    else if t[0] == '}' then Some(Got([first.value.value], t[1..]))
    else if t[0] != ',' then None
    else
      var more := ReadFields(t[1..]);
      if more.None? then None else Some(Got([first.value.value] + more.value.value, more.value.rest))
  }

  /** A whole text (section 2). */
  function Read(s: string): Option<Json> {
    var r := ReadValue(s);
    if r.Some? && Skip(r.value.rest) == [] then Some(r.value.value) else None
  }

  // ---- strings round trip ----

  lemma HexRead(n: nat)
    requires n < 16
    ensures HexValue(HexDigit(n)) == Some(n)
  {
  }

  /** A printed character is read back as that character. */
  lemma CharReads(c: char, s: string)
    ensures ReadChars(Escape(c) + s) == Before(c, ReadChars(s))
  {
    var e, t := Escape(c), Escape(c) + s;
    EscapeShape(c);
    assert t[0] == e[0];
    if e[0] != '\\' {
      assert t[1..] == s;
    } else if |e| == 2 {
      assert t[1] == e[1] && t[2..] == s;
    } else {
      var n := c as int;
      HexRead(n / 16);
      HexRead(n % 16);
      assert t[1] == 'u' && t[6..] == s;
      assert t[2..6] == ['0', '0', HexDigit(n / 16), HexDigit(n % 16)];
      assert HexValue('0') == Some(0);
    }
  }

  lemma {:induction false} CharsRead(text: string, s: string)
    ensures ReadChars(EscapeAll(text) + (['"'] + s)) == Some(Got(text, s))
    decreases |text|
  {
    hide Escape, ReadChars;
    var tail := ['"'] + s;
    if text == [] {
      assert EscapeAll(text) + tail == tail;
      ClosingRead(s);
    } else {
      assert EscapeAll(text) + tail == Escape(text[0]) + (EscapeAll(text[1..]) + tail);
      CharReads(text[0], EscapeAll(text[1..]) + tail);
      CharsRead(text[1..], s);
      assert text == [text[0]] + text[1..];
    }
  }

  lemma ClosingRead(s: string)
    ensures ReadChars(['"'] + s) == Some(Got([], s))
  {
    assert (['"'] + s)[1..] == s;
  }

  lemma QuotedReads(text: string, s: string)
    ensures Quoted(text) + s != [] && (Quoted(text) + s)[0] == '"'
    ensures ReadChars((Quoted(text) + s)[1..]) == Some(Got(text, s))
  {
    hide EscapeAll, ReadChars;
    assert Quoted(text) + s == ['"'] + (EscapeAll(text) + (['"'] + s));
    assert (Quoted(text) + s)[1..] == EscapeAll(text) + (['"'] + s);
    CharsRead(text, s);
  }

  // ---- numbers round trip ----

  function Positional(ds: string, n: nat): nat
    requires forall i :: 0 <= i < |ds| ==> IsDigit(ds[i])
    decreases |ds|
  {
    if ds == [] then n else Positional(ds[1..], 10 * n + DigitValue(ds[0]))
  }

  lemma {:induction false} DigitsReadAll(ds: string, s: string, n: nat)
    requires (forall i :: 0 <= i < |ds| ==> IsDigit(ds[i])) && (s == [] || !IsDigit(s[0]))
    ensures ReadDigits(ds + s, n) == Got(Positional(ds, n), s)
    decreases |ds|
  {
    if ds == [] {
      assert ds + s == s;
    } else {
      assert (ds + s)[0] == ds[0] && (ds + s)[1..] == ds[1..] + s;
      DigitsReadAll(ds[1..], s, 10 * n + DigitValue(ds[0]));
    }
  }

  lemma {:induction false} PositionalLast(ds: string, d: char, n: nat)
    requires (forall i :: 0 <= i < |ds| ==> IsDigit(ds[i])) && IsDigit(d)
    ensures Positional(ds + [d], n) == 10 * Positional(ds, n) + DigitValue(d)
    decreases |ds|
  {
    if ds == [] {
      assert (ds + [d])[1..] == [];
    } else {
      assert (ds + [d])[0] == ds[0] && (ds + [d])[1..] == ds[1..] + [d];
      PositionalLast(ds[1..], d, 10 * n + DigitValue(ds[0]));
    }
  }

  lemma DigitReads(n: nat)
    requires n < 10
    ensures IsDigit(Digit(n)) && DigitValue(Digit(n)) == n
  {
  }

  lemma {:induction false} DigitsArePositional(n: nat)
    ensures Positional(Digits(n), 0) == n && (n > 0 ==> Digits(n)[0] != '0') && (n == 0 ==> Digits(n) == "0")
    decreases n
  {
    if n < 10 {
      DigitReads(n);
      assert Digits(n)[1..] == [];
    } else {
      DigitsArePositional(n / 10);
      DigitReads(n % 10);
      PositionalLast(Digits(n / 10), Digit(n % 10), 0);
      assert Digits(n)[0] == Digits(n / 10)[0];
    }
  }

  lemma NatReads(n: nat, s: string)
    requires Delimited(s)
    ensures ReadNat(Digits(n) + s) == Some(Got(n, s))
  {
    hide Digits;
    DigitsArePositional(n);
    var ds, t := Digits(n), Digits(n) + s;
    assert t[0] == ds[0] && t[1..] == ds[1..] + s;
    if n > 0 {
      DigitsReadAll(ds[1..], s, DigitValue(ds[0]));
    } else {
      assert ds[1..] + s == s;
    }
  }

  lemma IntReads(n: int, s: string)
    requires Delimited(s)
    ensures ReadInt(IntText(n) + s) == Some(Got(JInt(n), s))
  {
    hide Digits, ReadNat, Delimited;
    SignedText(n, s);
    if n < 0 {
      NatReads(-n, s);
      assert (['-'] + (Digits(-n) + s))[1..] == Digits(-n) + s;
    } else {
      NatReads(n, s);
      assert (Digits(n) + s)[0] == Digits(n)[0];
    }
  }

  // ---- values round trip ----

  lemma LeadIsSignificant(j: Json, s: string)
    ensures var t := Print(j) + s; t != [] && t[0] == Lead(j) && Skip(t) == t
    ensures Lead(j) != ']' && Lead(j) != '}'
  {
    hide Print;
    PrintLead(j);
  }

  lemma LiteralReads(j: Json, s: string)
    requires j.JNull? || j.JBool?
    ensures ReadValue(Print(j) + s) == Some(Got(j, s))
  {
    hide ReadInt, ReadChars, ReadItems, ReadFields;
    var word := Print(j);
    LeadIsSignificant(j, s);
    assert word <= word + s && (word + s)[|word|..] == s;
  }

  lemma NumberReads(j: Json, s: string)
    requires j.JInt? && Delimited(s)
    ensures ReadValue(Print(j) + s) == Some(Got(j, s))
  {
    hide ReadInt, ReadChars, ReadItems, ReadFields, Delimited, IntText;
    LeadIsSignificant(j, s);
    PrintLead(j);
    IntReads(j.number, s);
  }

  lemma StringReads(j: Json, s: string)
    requires j.JStr?
    ensures ReadValue(Print(j) + s) == Some(Got(j, s))
  {
    hide ReadInt, ReadChars, ReadItems, ReadFields, Quoted;
    LeadIsSignificant(j, s);
    QuotedReads(j.text, s);
  }

  /** What is printed is read back, whatever follows it. */
  lemma {:induction false} ValueReads(j: Json, s: string)
    requires Delimited(s)
    ensures ReadValue(Print(j) + s) == Some(Got(j, s))
    decreases j, 1
  {
    hide Print, ReadValue, Delimited;
    match j
    case JInt(_) => NumberReads(j, s);
    case JStr(_) => StringReads(j, s);
    case JArr(items) =>
      if items != [] {
        ItemsRead(items, s);
      }
      ArrayReads(items, s);
    case JObj(fields) =>
      if fields != [] {
        FieldsRead(fields, s);
      }
      ObjectReads(fields, s);
    case _ => LiteralReads(j, s);
  }

  lemma ArrayReads(items: seq<Json>, s: string)
    requires items != [] ==> ReadItems(ItemsText(items, s)) == Some(Got(items, s))
    ensures ReadValue(Print(JArr(items)) + s) == Some(Got(JArr(items), s))
  {
    hide ReadItems, ReadFields, ReadChars, ReadInt, MoreText, Print;
    ArrayText(items, s);
    var t := ItemsText(items, s);
    assert (['['] + t)[0] == '[' && (['['] + t)[1..] == t;
    if items == [] {
      assert t == [']'] + s && t[1..] == s;
    } else {
      LeadIsSignificant(items[0], MoreText(items[1..], s));
    }
  }

  lemma ObjectReads(fields: seq<Field>, s: string)
    requires fields != [] ==> ReadFields(FieldsText(fields, s)) == Some(Got(fields, s))
    ensures ReadValue(Print(JObj(fields)) + s) == Some(Got(JObj(fields), s))
  {
    hide ReadItems, ReadFields, ReadChars, ReadInt, MoreFieldsText, Print;
    ObjectText(fields, s);
    var t := FieldsText(fields, s);
    assert (['{'] + t)[0] == '{' && (['{'] + t)[1..] == t;
    if fields == [] {
      assert t == ['}'] + s && t[1..] == s;
    } else {
      assert t[0] == '"';
    }
  }

  lemma {:induction false} ItemsRead(items: seq<Json>, s: string)
    requires items != [] && Delimited(s)
    ensures ReadItems(ItemsText(items, s)) == Some(Got(items, s))
    decreases items, 0
  {
    hide Print, ReadValue, Delimited;
    var more := MoreText(items[1..], s);
    MoreDelimited(items[1..], [], s);
    ValueReads(items[0], more);
    if items[1..] == [] {
      assert more == [']'] + s && more[1..] == s;
      assert items == [items[0]];
    } else {
      ItemsRead(items[1..], s);
      assert more == [','] + ItemsText(items[1..], s) && more[1..] == ItemsText(items[1..], s);
      assert items == [items[0]] + items[1..];
    }
  }

  lemma {:induction false} FieldReads(f: Field, s: string)
    requires Delimited(s)
    ensures ReadField(FieldText(f, s)) == Some(Got(f, s))
    decreases f, 2
  {
    hide Print, ReadValue, ReadChars, Quoted, Delimited;
    var value := Print(f.value) + s;
    QuotedReads(f.key, [':'] + value);
    assert ([':'] + value)[1..] == value;
    ValueReads(f.value, s);
  }

  lemma {:induction false} FieldsRead(fields: seq<Field>, s: string)
    requires fields != [] && Delimited(s)
    ensures ReadFields(FieldsText(fields, s)) == Some(Got(fields, s))
    decreases fields, 0
  {
    hide Print, ReadField, FieldText, Delimited;
    var more := MoreFieldsText(fields[1..], s);
    MoreDelimited([], fields[1..], s);
    FieldReads(fields[0], more);
    if fields[1..] == [] {
      assert more == ['}'] + s && more[1..] == s;
      assert fields == [fields[0]];
    } else {
      FieldsRead(fields[1..], s);
      assert more == [','] + FieldsText(fields[1..], s) && more[1..] == FieldsText(fields[1..], s);
      assert fields == [fields[0]] + fields[1..];
    }
  }

  /** Reading what was printed gives the value back. */
  lemma PrintReadsBack(j: Json)
    ensures Read(Print(j)) == Some(j)
  {
    hide Print, ReadValue;
    ValueReads(j, []);
    assert Print(j) + [] == Print(j);
  }
}
