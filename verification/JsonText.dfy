/** The compact JSON printer and its unique decodability (RFC 8259, sections 4, 5 and 7). */
module JsonText {
  import opened Characters

  /** Values the printer accepts; an object is its fields in the order they are printed. */
  datatype Json =
    | JNull
    | JBool(bit: bool)
    | JInt(number: int)
    | JStr(text: string)
    | JArr(items: seq<Json>)
    | JObj(fields: seq<Field>)

  datatype Field = Field(key: string, value: Json)

  function HexDigit(n: nat): char
    requires n < 16
  {
    "0123456789abcdef"[n]
  }

  /** How one character appears inside a printed string. */
  function Escape(c: char): string {
    match c
    case '"' => "\\\""
    case '\\' => "\\\\"
    case '\n' => "\\n"
    case '\r' => "\\r"
    case '\t' => "\\t"
    case _ =>
      if c as int == 8 then "\\b"
      else if c as int == 12 then "\\f"
      else if c < ' ' then "\\u00" + [HexDigit(c as int / 16), HexDigit(c as int % 16)]
      else [c]
  }

  function EscapeAll(s: string): string {
    if s == [] then [] else Escape(s[0]) + EscapeAll(s[1..])
  }

  function Quoted(s: string): string {
    "\"" + EscapeAll(s) + "\""
  }

  function Digit(n: nat): char
    requires n < 10
  {
    "0123456789"[n]
  }

  function Digits(n: nat): (ds: string)
    ensures ds != []
    ensures forall i :: 0 <= i < |ds| ==> IsDigit(ds[i])
  {
    if n < 10 then [Digit(n)] else Digits(n / 10) + [Digit(n % 10)]
  }

  function IntText(n: int): string {
    if n < 0 then "-" + Digits(-n) else Digits(n)
  }

  /** `json.dumps(value, ensure_ascii=False, sort_keys=True, separators=(",", ":"))` on normalised values,
      whose objects already list their fields in key order. */
  function Print(j: Json): string
    decreases j, 1
  {
    match j
    case JNull => "null"
    case JBool(bit) => if bit then "true" else "false"
    case JInt(number) => IntText(number)
    case JStr(text) => Quoted(text)
    case JArr(items) => "[" + if items == [] then "]" else Print(items[0]) + MoreItems(items[1..])
    case JObj(fields) => "{" + if fields == [] then "}" else PrintField(fields[0]) + MoreFields(fields[1..])
  }

  function PrintField(f: Field): string
    decreases f, 0
  {
    Quoted(f.key) + (":" + Print(f.value))
  }

  /** The rest of an array after an item, up to its closing bracket. */
  function MoreItems(items: seq<Json>): string
    decreases items, 0
  {
    if items == [] then "]" else "," + (Print(items[0]) + MoreItems(items[1..]))
  }

  function MoreFields(fields: seq<Field>): string
    decreases fields, 0
  {
    if fields == [] then "}" else "," + (PrintField(fields[0]) + MoreFields(fields[1..]))
  }

  // ---- strings decode uniquely ----

  lemma ConsUnique(c: char, d: char, x: string, y: string)
    requires [c] + x == [d] + y
    ensures c == d && x == y
  {
    assert ([c] + x)[0] == c && ([d] + y)[0] == d;
    assert ([c] + x)[1..] == x && ([d] + y)[1..] == y;
  }

  lemma EscapeShape(c: char)
    ensures Escape(c) != []
    ensures Escape(c)[0] == '\\' || (Escape(c) == [c] && c != '"' && c != '\\')
    ensures Escape(c)[0] == '\\' ==> |Escape(c)| == 2 || (|Escape(c)| == 6 && Escape(c)[1] == 'u' && c < ' ')
    ensures Escape(c)[0] == '\\' && |Escape(c)| == 2 ==> Escape(c)[1] != 'u'
  {
  }

  /** No escape is the beginning of another, and each stands for one character. */
  lemma EscapePrefixFree(c: char, d: char, s: string, t: string)
    requires Escape(c) + s == Escape(d) + t
    ensures c == d && s == t
  {
    EscapeShape(c);
    EscapeShape(d);
    var u := Escape(c) + s;
    assert u[0] == Escape(c)[0] == Escape(d)[0];
    if u[0] == '\\' {
      assert u[1] == Escape(c)[1] == Escape(d)[1];
      assert |Escape(c)| == |Escape(d)|;
    }
    EscapeInjective(c, d, u);
    assert u[|Escape(c)|..] == s && u[|Escape(c)|..] == t;
  }

  lemma EscapeInjective(c: char, d: char, u: string)
    requires Escape(c) <= u && Escape(d) <= u && |Escape(c)| == |Escape(d)|
    ensures c == d
  {
    assert Escape(c) == u[..|Escape(c)|] == Escape(d);
    if |Escape(c)| == 6 {
      var m, n := c as int, d as int;
      assert Escape(c)[4] == HexDigit(m / 16) && Escape(d)[4] == HexDigit(n / 16);
      assert Escape(c)[5] == HexDigit(m % 16) && Escape(d)[5] == HexDigit(n % 16);
      HexInjective(m / 16, n / 16);
      HexInjective(m % 16, n % 16);
    } else if |Escape(c)| == 2 {
      assert Escape(c)[1] == Escape(d)[1];
    }
  }

  lemma HexInjective(m: nat, n: nat)
    requires m < 16 && n < 16 && HexDigit(m) == HexDigit(n)
    ensures m == n
  {
  }

  lemma EscapedNotClosing(a: string, s: string, t: string)
    requires a != []
    ensures EscapeAll(a) + s != ['"'] + t
  {
    EscapeShape(a[0]);
    assert (EscapeAll(a) + s)[0] == Escape(a[0])[0];
    assert (['"'] + t)[0] == '"';
  }

  lemma {:induction false} EscapedUnique(a: string, b: string, s: string, t: string)
    requires EscapeAll(a) + (['"'] + s) == EscapeAll(b) + (['"'] + t)
    ensures a == b && s == t
    decreases |a|
  {
    hide Escape;
    if a == [] && b == [] {
      assert EscapeAll([]) + (['"'] + s) == ['"'] + s && EscapeAll([]) + (['"'] + t) == ['"'] + t;
      ConsUnique('"', '"', s, t);
    } else if a == [] {
      EscapedNotClosing(b, ['"'] + t, s);
    } else if b == [] {
      EscapedNotClosing(a, ['"'] + s, t);
    } else {
      var x, y := EscapeAll(a[1..]) + (['"'] + s), EscapeAll(b[1..]) + (['"'] + t);
      assert EscapeAll(a) + (['"'] + s) == Escape(a[0]) + x;
      assert EscapeAll(b) + (['"'] + t) == Escape(b[0]) + y;
      EscapePrefixFree(a[0], b[0], x, y);
      EscapedUnique(a[1..], b[1..], s, t);
      assert a == [a[0]] + a[1..] && b == [b[0]] + b[1..];
    }
  }

  lemma QuotedUnique(a: string, b: string, s: string, t: string)
    requires Quoted(a) + s == Quoted(b) + t
    ensures a == b && s == t
  {
    hide EscapeAll;
    assert Quoted(a) + s == ['"'] + (EscapeAll(a) + (['"'] + s));
    assert Quoted(b) + t == ['"'] + (EscapeAll(b) + (['"'] + t));
    ConsUnique('"', '"', EscapeAll(a) + (['"'] + s), EscapeAll(b) + (['"'] + t));
    EscapedUnique(a, b, s, t);
  }

  // ---- numbers decode uniquely before a delimiter ----

  /** What can follow a printed value. */
  predicate Delimited(s: string) {
    s == [] || s[0] in {',', ']', '}'}
  }

  function ValueOf(ds: string): int
    requires forall i :: 0 <= i < |ds| ==> IsDigit(ds[i])
  {
    if ds == [] then 0 else 10 * ValueOf(ds[..|ds| - 1]) + (ds[|ds| - 1] as int - '0' as int)
  }

  lemma {:induction false} DigitsDecode(n: nat)
    ensures ValueOf(Digits(n)) == n
  {
    if n < 10 {
      assert Digits(n)[..0] == [];
    } else {
      DigitsDecode(n / 10);
      assert Digits(n)[..|Digits(n)| - 1] == Digits(n / 10);
    }
  }

  lemma DelimitedNotDigit(s: string)
    requires Delimited(s) && s != []
    ensures !IsDigit(s[0])
  {
  }

  lemma NoShorterNumber(m: nat, n: nat, s: string, t: string)
    requires Digits(m) + s == Digits(n) + t && Delimited(s)
    ensures |Digits(m)| >= |Digits(n)|
  {
    hide Delimited, IsDigit;
    var u := Digits(m) + s;
    var i := |Digits(m)|;
    if i < |Digits(n)| {
      assert u[i] == s[0];
      assert u[i] == Digits(n)[i];
      DelimitedNotDigit(s);
    }
  }

  lemma DigitsUnique(m: nat, n: nat, s: string, t: string)
    requires Digits(m) + s == Digits(n) + t && Delimited(s) && Delimited(t)
    ensures m == n && s == t
  {
    hide Delimited, Digits;
    NoShorterNumber(m, n, s, t);
    NoShorterNumber(n, m, t, s);
    var u, i := Digits(m) + s, |Digits(m)|;
    assert Digits(m) == u[..i] && Digits(n) == u[..i];
    assert s == u[i..] && t == u[i..];
    DigitsDecode(m);
    DigitsDecode(n);
  }

  lemma DigitsNotSigned(n: nat, x: string, y: string)
    ensures Digits(n) + x != ['-'] + y
  {
    assert (Digits(n) + x)[0] == Digits(n)[0];
    assert (['-'] + y)[0] == '-';
  }

  lemma SignedText(n: int, s: string)
    ensures IntText(n) + s == if n < 0 then ['-'] + (Digits(-n) + s) else Digits(n) + s
  {
    hide Digits;
  }

  lemma IntTextUnique(m: int, n: int, s: string, t: string)
    requires IntText(m) + s == IntText(n) + t && Delimited(s) && Delimited(t)
    ensures m == n && s == t
  {
    hide Digits, Delimited, IsDigit, IntText;
    SignedText(m, s);
    SignedText(n, t);
    if m < 0 && n < 0 {
      ConsUnique('-', '-', Digits(-m) + s, Digits(-n) + t);
      DigitsUnique(-m, -n, s, t);
    } else if m < 0 {
      DigitsNotSigned(n, t, Digits(-m) + s);
    } else if n < 0 {
      DigitsNotSigned(m, s, Digits(-n) + t);
    } else {
      DigitsUnique(m, n, s, t);
    }
  }

  // ---- values decode uniquely ----

  /** The first character of a printed value says what kind of value it is. */
  function Lead(j: Json): char {
    match j
    case JNull => 'n'
    case JBool(bit) => if bit then 't' else 'f'
    case JInt(number) => IntText(number)[0]
    case JStr(_) => '"'
    case JArr(_) => '['
    case JObj(_) => '{'
  }

  lemma PrintLead(j: Json)
    ensures Print(j) != [] && Print(j)[0] == Lead(j)
    ensures j.JInt? ==> IsDigit(Lead(j)) || Lead(j) == '-'
  {
  }

  /** What follows an opening bracket: the items, their closing bracket, and the text after it. */
  ghost function ItemsText(items: seq<Json>, s: string): string
    decreases |items|, 0
  {
    if items == [] then [']'] + s else Print(items[0]) + MoreText(items[1..], s)
  }

  ghost function MoreText(items: seq<Json>, s: string): string
    decreases |items|, 1
  {
    if items == [] then [']'] + s else [','] + ItemsText(items, s)
  }

  ghost function FieldsText(fields: seq<Field>, s: string): string
    decreases |fields|, 0
  {
    if fields == [] then ['}'] + s else FieldText(fields[0], MoreFieldsText(fields[1..], s))
  }

  ghost function MoreFieldsText(fields: seq<Field>, s: string): string
    decreases |fields|, 1
  {
    if fields == [] then ['}'] + s else [','] + FieldsText(fields, s)
  }

  ghost function FieldText(f: Field, s: string): string {
    Quoted(f.key) + ([':'] + (Print(f.value) + s))
  }

  lemma Regroup(c: char, x: string, y: string, s: string)
    ensures [c] + (x + y) + s == [c] + (x + (y + s))
  {
  }

  lemma {:induction false} MoreItemsText(items: seq<Json>, s: string)
    ensures MoreItems(items) + s == MoreText(items, s)
    decreases |items|
  {
    hide Print;
    if items != [] {
      MoreItemsText(items[1..], s);
      Regroup(',', Print(items[0]), MoreItems(items[1..]), s);
    }
  }

  lemma ArrayText(items: seq<Json>, s: string)
    ensures Print(JArr(items)) + s == ['['] + ItemsText(items, s)
  {
    hide MoreItems, MoreText;
    if items != [] {
      MoreItemsText(items[1..], s);
      Regroup('[', Print(items[0]), MoreItems(items[1..]), s);
    }
  }

  lemma FieldPrinted(f: Field, s: string)
    ensures PrintField(f) + s == FieldText(f, s)
  {
    hide Print, Quoted;
    assert PrintField(f) + s == Quoted(f.key) + ([':'] + (Print(f.value) + s));
  }

  lemma {:induction false} MoreFieldsPrinted(fields: seq<Field>, s: string)
    ensures MoreFields(fields) + s == MoreFieldsText(fields, s)
    decreases |fields|
  {
    hide PrintField, Quoted, Print;
    if fields != [] {
      MoreFieldsPrinted(fields[1..], s);
      Regroup(',', PrintField(fields[0]), MoreFields(fields[1..]), s);
      FieldPrinted(fields[0], MoreFields(fields[1..]) + s);
    }
  }

  lemma ObjectText(fields: seq<Field>, s: string)
    ensures Print(JObj(fields)) + s == ['{'] + FieldsText(fields, s)
  {
    hide MoreFields, MoreFieldsText, PrintField;
    if fields != [] {
      MoreFieldsPrinted(fields[1..], s);
      Regroup('{', PrintField(fields[0]), MoreFields(fields[1..]), s);
      FieldPrinted(fields[0], MoreFields(fields[1..]) + s);
    }
  }

  lemma MoreDelimited(items: seq<Json>, fields: seq<Field>, s: string)
    ensures Delimited(MoreText(items, s)) && Delimited(MoreFieldsText(fields, s))
  {
  }

  /** Unique decodability: a printed value can be read off the front of a text in one way only. */
  lemma {:induction false} PrintUnique(x: Json, y: Json, s: string, t: string)
    requires Print(x) + s == Print(y) + t && Delimited(s) && Delimited(t)
    ensures x == y && s == t
    decreases x, 1
  {
    hide Delimited;
    SameLead(x, y, s, t);
    match x
    case JNull => LiteralUnique("null", s, t);
    case JBool(bit) => LiteralUnique(Print(x), s, t);
    case JInt(number) => IntTextUnique(number, y.number, s, t);
    case JStr(text) => QuotedUnique(text, y.text, s, t);
    case JArr(items) =>
      ArrayText(items, s);
      ArrayText(y.items, t);
      ConsUnique('[', '[', ItemsText(items, s), ItemsText(y.items, t));
      ItemsUnique(items, y.items, s, t);
    case JObj(fields) =>
      ObjectText(fields, s);
      ObjectText(y.fields, t);
      ConsUnique('{', '{', FieldsText(fields, s), FieldsText(y.fields, t));
      FieldsUnique(fields, y.fields, s, t);
  }

  /** Texts that agree start with the same kind of value. */
  lemma SameLead(x: Json, y: Json, s: string, t: string)
    requires Print(x) + s == Print(y) + t
    ensures match x
            case JNull => y.JNull?
            case JBool(bit) => x == y
            case JInt(_) => y.JInt?
            case JStr(_) => y.JStr?
            case JArr(_) => y.JArr?
            case JObj(_) => y.JObj?
  {
    hide Print;
    PrintLead(x);
    PrintLead(y);
    assert (Print(x) + s)[0] == Lead(x);
    assert (Print(y) + t)[0] == Lead(y);
  }

  lemma LiteralUnique(word: string, s: string, t: string)
    requires word + s == word + t
    ensures s == t
  {
    assert (word + s)[|word|..] == s && (word + t)[|word|..] == t;
  }

  lemma ValueNotClosing(x: Json, s: string, t: string)
    ensures Print(x) + s != [']'] + t
  {
    hide Print;
    PrintLead(x);
    assert (Print(x) + s)[0] == Lead(x);
    assert ([']'] + t)[0] == ']';
  }

  lemma FieldNotClosing(f: Field, s: string, t: string)
    ensures FieldText(f, s) != ['}'] + t
  {
    assert FieldText(f, s)[0] == '"';
    assert (['}'] + t)[0] == '}';
  }

  lemma {:induction false} ItemsUnique(xs: seq<Json>, ys: seq<Json>, s: string, t: string)
    requires ItemsText(xs, s) == ItemsText(ys, t) && Delimited(s) && Delimited(t)
    ensures xs == ys && s == t
    decreases xs, 1
  {
    hide Print, Delimited, MoreText;
    if xs == [] && ys == [] {
      ConsUnique(']', ']', s, t);
    } else if xs == [] {
      ValueNotClosing(ys[0], MoreText(ys[1..], t), s);
    } else if ys == [] {
      ValueNotClosing(xs[0], MoreText(xs[1..], s), t);
    } else {
      MoreDelimited(xs[1..], [], s);
      MoreDelimited(ys[1..], [], t);
      PrintUnique(xs[0], ys[0], MoreText(xs[1..], s), MoreText(ys[1..], t));
      MoreItemsUnique(xs[1..], ys[1..], s, t);
      assert xs == [xs[0]] + xs[1..] && ys == [ys[0]] + ys[1..];
    }
  }

  lemma {:induction false} MoreItemsUnique(xs: seq<Json>, ys: seq<Json>, s: string, t: string)
    requires MoreText(xs, s) == MoreText(ys, t) && Delimited(s) && Delimited(t)
    ensures xs == ys && s == t
    decreases xs, 2
  {
    hide Print, Delimited, ItemsText;
    ConsUnique(if xs == [] then ']' else ',', if ys == [] then ']' else ',',
               if xs == [] then s else ItemsText(xs, s), if ys == [] then t else ItemsText(ys, t));
    if xs != [] {
      ItemsUnique(xs, ys, s, t);
    }
  }

  lemma {:induction false} FieldsUnique(xs: seq<Field>, ys: seq<Field>, s: string, t: string)
    requires FieldsText(xs, s) == FieldsText(ys, t) && Delimited(s) && Delimited(t)
    ensures xs == ys && s == t
    decreases xs, 1
  {
    hide Print, Delimited, MoreFieldsText, FieldText;
    if xs == [] && ys == [] {
      ConsUnique('}', '}', s, t);
    } else if xs == [] {
      FieldNotClosing(ys[0], MoreFieldsText(ys[1..], t), s);
    } else if ys == [] {
      FieldNotClosing(xs[0], MoreFieldsText(xs[1..], s), t);
    } else {
      MoreDelimited([], xs[1..], s);
      MoreDelimited([], ys[1..], t);
      FieldUnique(xs[0], ys[0], MoreFieldsText(xs[1..], s), MoreFieldsText(ys[1..], t));
      MoreFieldsUnique(xs[1..], ys[1..], s, t);
      assert xs == [xs[0]] + xs[1..] && ys == [ys[0]] + ys[1..];
    }
  }

  lemma {:induction false} FieldUnique(x: Field, y: Field, s: string, t: string)
    requires FieldText(x, s) == FieldText(y, t) && Delimited(s) && Delimited(t)
    ensures x == y && s == t
    decreases x, 2
  {
    hide Print, Delimited, Quoted;
    var v, w := Print(x.value) + s, Print(y.value) + t;
    QuotedUnique(x.key, y.key, [':'] + v, [':'] + w);
    ConsUnique(':', ':', v, w);
    PrintUnique(x.value, y.value, s, t);
  }

  lemma {:induction false} MoreFieldsUnique(xs: seq<Field>, ys: seq<Field>, s: string, t: string)
    requires MoreFieldsText(xs, s) == MoreFieldsText(ys, t) && Delimited(s) && Delimited(t)
    ensures xs == ys && s == t
    decreases xs, 2
  {
    hide Print, Delimited, FieldsText;
    ConsUnique(if xs == [] then '}' else ',', if ys == [] then '}' else ',',
               if xs == [] then s else FieldsText(xs, s), if ys == [] then t else FieldsText(ys, t));
    if xs != [] {
      FieldsUnique(xs, ys, s, t);
    }
  }

  /** The printer is injective. */
  lemma PrintInjective(x: Json, y: Json)
    requires Print(x) == Print(y)
    ensures x == y
  {
    hide Print;
    assert Print(x) + [] == Print(x) && Print(y) + [] == Print(y);
    PrintUnique(x, y, [], []);
  }
}
