/** Canonical values: normalising, and what the canonical text of a payload determines.
    Floats are not part of the model, and a mapping's keys are texts. */
module CanonicalValue {
  import opened Outcomes
  import opened Sorting
  import opened CanonicalText
  import opened JsonText
  import JsonReader
  import JsonShortest

  /** A value as handed in.  A mapping lists its entries in insertion order, a set its elements in
      iteration order. */
  datatype Value =
    | Null
    | Bool(bit: bool)
    | Int(number: int)
    | Str(text: string)
    | List(items: seq<Value>)
    | SetOf(elements: seq<Value>)
    | Mapping(entries: seq<Entry>)

  datatype Entry = Entry(key: string, value: Value)

  predicate DistinctKeys(entries: seq<Entry>) {
    forall i, j :: 0 <= i < j < |entries| ==> entries[i].key != entries[j].key
  }

  /** Every mapping inside has distinct keys, as a Python mapping has. */
  predicate WellFormed(v: Value)
    decreases v
  {
    match v
    case List(items) => forall i :: 0 <= i < |items| ==> WellFormed(items[i])
    case SetOf(elements) => forall i :: 0 <= i < |elements| ==> WellFormed(elements[i])
    case Mapping(entries) => DistinctKeys(entries) && forall i :: 0 <= i < |entries| ==> WellFormed(entries[i].value)
    case _ => true
  }

  /** `_sort_key`: the compact text of a normalised value. */
  function SortKey(j: Json): seq<string> {
    [Print(j)]
  }

  function FieldKey(f: Field): seq<string> {
    [f.key]
  }

  /** `normalize`. */
  function Normalize(v: Value): (j: Json)
    ensures v.Mapping? ==> j.JObj?
    decreases v, 1
  {
    match v
    case Null => JNull
    case Bool(bit) => JBool(bit)
    case Int(number) => JInt(number)
    case Str(text) => JStr(Text(text))
    case List(items) => JArr(NormalizeAll(items))
    case SetOf(elements) => JArr(Sorted(NormalizeAll(elements), SortKey))
    case Mapping(entries) => JObj(Sorted(NormalizeEntries(entries), FieldKey))
  }

  function NormalizeAll(vs: seq<Value>): (js: seq<Json>)
    ensures |js| == |vs|
    ensures forall i :: 0 <= i < |vs| ==> js[i] == Normalize(vs[i])
    decreases vs, 0
  {
    if vs == [] then [] else [Normalize(vs[0])] + NormalizeAll(vs[1..])
  }

  function NormalizeEntries(es: seq<Entry>): (fs: seq<Field>)
    ensures |fs| == |es|
    ensures forall i :: 0 <= i < |es| ==> fs[i] == Field(es[i].key, Normalize(es[i].value))
    decreases es, 0
  {
    if es == [] then [] else [Field(es[0].key, Normalize(es[0].value))] + NormalizeEntries(es[1..])
  }

  /** `canonical_payload`, of which the digest is a function. */
  function Payload(v: Value): string {
    Print(Normalize(v))
  }

  /** The canonical text of a payload determines its normalised value, and nothing more. */
  lemma PayloadDecides(v: Value, w: Value)
    ensures Payload(v) == Payload(w) <==> Normalize(v) == Normalize(w)
  {
    hide Print, Normalize;
    if Payload(v) == Payload(w) {
      PrintInjective(Normalize(v), Normalize(w));
    }
  }

  /** The canonical text is read back as the normalised value by a reader of the JSON grammar. */
  lemma PayloadReadsBack(v: Value)
    ensures JsonReader.Read(Payload(v)) == Some(Normalize(v))
  {
    hide Print, Normalize, JsonReader.Read;
    JsonReader.PrintReadsBack(Normalize(v));
  }

  /** No text that is read as the same normalised value is shorter than the canonical one. */
  lemma PayloadIsShortest(v: Value, s: string)
    requires JsonReader.Read(s) == Some(Normalize(v))
    ensures |Payload(v)| <= |s|
  {
    hide Print, Normalize, JsonReader.Read;
    JsonShortest.PrintIsShortest(Normalize(v), s);
  }

  /** Normalising keeps what is there: scalars as they are, a list item by item in order, the elements of a set as
      often as they occur and ordered by their texts, and the entries of a mapping under their keys in key order. */
  lemma NormalizeKeeps(v: Value)
    ensures match v
            case Null => Normalize(v) == JNull
            case Bool(bit) => Normalize(v) == JBool(bit)
            case Int(number) => Normalize(v) == JInt(number)
            case Str(text) => Normalize(v) == JStr(Text(text))
            case List(items) =>
              && Normalize(v).JArr? && |Normalize(v).items| == |items|
              && forall i :: 0 <= i < |items| ==> Normalize(v).items[i] == Normalize(items[i])
            case SetOf(elements) =>
              && Normalize(v).JArr? && multiset(Normalize(v).items) == multiset(NormalizeAll(elements))
              && forall i, j :: 0 <= i < j < |Normalize(v).items| ==>
                   TextLe(Print(Normalize(v).items[i]), Print(Normalize(v).items[j]))
            case Mapping(entries) =>
              && multiset(Normalize(v).fields) == multiset(NormalizeEntries(entries))
              && forall i, j :: 0 <= i < j < |Normalize(v).fields| ==>
                   TextLe(Normalize(v).fields[i].key, Normalize(v).fields[j].key)
  {
    hide Print, TextLe, Sorted;
    match v
    case SetOf(elements) =>
      SortedOrdered(NormalizeAll(elements), SortKey);
      OrderedByTexts(Normalize(v).items);
    case Mapping(entries) =>
      SortedOrdered(NormalizeEntries(entries), FieldKey);
      OrderedByKeys(Normalize(v).fields);
    case _ =>
  }

  lemma OrderedByTexts(js: seq<Json>)
    requires Ordered(js, SortKey)
    ensures forall i, j :: 0 <= i < j < |js| ==> TextLe(Print(js[i]), Print(js[j]))
  {
    hide Print, TextLe, KeyLe;
    forall i, j | 0 <= i < j < |js|
      ensures TextLe(Print(js[i]), Print(js[j]))
    {
      assert KeyLe(SortKey(js[i]), SortKey(js[j]));
      SingleKey(Print(js[i]), Print(js[j]));
    }
  }

  lemma OrderedByKeys(fields: seq<Field>)
    requires Ordered(fields, FieldKey)
    ensures forall i, j :: 0 <= i < j < |fields| ==> TextLe(fields[i].key, fields[j].key)
  {
    hide TextLe, KeyLe;
    forall i, j | 0 <= i < j < |fields|
      ensures TextLe(fields[i].key, fields[j].key)
    {
      assert KeyLe(FieldKey(fields[i]), FieldKey(fields[j]));
      SingleKey(fields[i].key, fields[j].key);
    }
  }

  // ---- normal forms ----

  ghost predicate DistinctFields(fields: seq<Field>) {
    forall i, j :: 0 <= i < j < |fields| ==> fields[i].key != fields[j].key
  }

  /** Every text is clean and every object lists its fields in key order, once each. */
  ghost predicate Normal(j: Json)
    decreases j
  {
    match j
    case JStr(text) => Clean(text)
    case JArr(items) => forall i :: 0 <= i < |items| ==> Normal(items[i])
    case JObj(fields) =>
      && Ordered(fields, FieldKey) && DistinctFields(fields)
      && forall i :: 0 <= i < |fields| ==> Normal(fields[i].value)
    case _ => true
  }

  lemma SortedKeepsNormal(js: seq<Json>)
    requires forall i :: 0 <= i < |js| ==> Normal(js[i])
    ensures forall i :: 0 <= i < |js| ==> Normal(Sorted(js, SortKey)[i])
  {
    hide Sorted, Normal;
    var s := Sorted(js, SortKey);
    forall i | 0 <= i < |s|
      ensures Normal(s[i])
    {
      assert s[i] in multiset(s);
      assert s[i] in js;
    }
  }

  lemma FieldsByKey(fields: seq<Field>)
    ensures DistinctFields(fields) <==> DistinctBy(fields, FieldKey)
  {
    forall i, j | 0 <= i < j < |fields|
      ensures FieldKey(fields[i]) == FieldKey(fields[j]) <==> fields[i].key == fields[j].key
    {
      assert FieldKey(fields[i])[0] == fields[i].key && FieldKey(fields[j])[0] == fields[j].key;
    }
  }

  lemma {:induction false} NormalizeIsNormal(v: Value)
    requires WellFormed(v)
    ensures Normal(Normalize(v))
    decreases v
  {
    match v
    case Str(text) => TextIsClean(text);
    case List(items) =>
      forall i | 0 <= i < |items| ensures Normal(Normalize(items[i])) { NormalizeIsNormal(items[i]); }
    case SetOf(elements) =>
      forall i | 0 <= i < |elements| ensures Normal(Normalize(elements[i])) { NormalizeIsNormal(elements[i]); }
      SortedKeepsNormal(NormalizeAll(elements));
    case Mapping(entries) =>
      forall i | 0 <= i < |entries| ensures Normal(Normalize(entries[i].value)) { NormalizeIsNormal(entries[i].value); }
      SortedFieldsNormal(NormalizeEntries(entries));
    case _ =>
  }

  lemma SortedFieldsNormal(fs: seq<Field>)
    requires DistinctFields(fs) && forall i :: 0 <= i < |fs| ==> Normal(fs[i].value)
    ensures Normal(JObj(Sorted(fs, FieldKey)))
  {
    var s := Sorted(fs, FieldKey);
    SortedOrdered(fs, FieldKey);
    FieldsByKey(fs);
    DistinctForgetsOrder(fs, s, FieldKey);
    FieldsByKey(s);
    forall i | 0 <= i < |s|
      ensures Normal(s[i].value)
    {
      assert s[i] in multiset(s);
      assert s[i] in fs;
    }
  }

  /** A normalised value as an input again. */
  function AsValue(j: Json): Value
    decreases j, 1
  {
    match j
    case JNull => Null
    case JBool(bit) => Bool(bit)
    case JInt(number) => Int(number)
    case JStr(text) => Str(text)
    case JArr(items) => List(AsValues(items))
    case JObj(fields) => Mapping(AsEntries(fields))
  }

  function AsValues(js: seq<Json>): (vs: seq<Value>)
    ensures |vs| == |js|
    ensures forall i :: 0 <= i < |js| ==> vs[i] == AsValue(js[i])
    decreases js, 0
  {
    if js == [] then [] else [AsValue(js[0])] + AsValues(js[1..])
  }

  function AsEntries(fs: seq<Field>): (es: seq<Entry>)
    ensures |es| == |fs|
    ensures forall i :: 0 <= i < |fs| ==> es[i] == Entry(fs[i].key, AsValue(fs[i].value))
    decreases fs, 0
  {
    if fs == [] then [] else [Entry(fs[0].key, AsValue(fs[0].value))] + AsEntries(fs[1..])
  }

  lemma {:induction false} NormalIsFixed(j: Json)
    requires Normal(j)
    ensures Normalize(AsValue(j)) == j
    decreases j
  {
    hide Text, Clean, Sorted;
    match j
    case JStr(text) => TextFixesExactlyClean(text);
    case JArr(items) =>
      forall i | 0 <= i < |items| ensures Normalize(AsValue(items[i])) == items[i] { NormalIsFixed(items[i]); }
      ItemsFixed(items);
    case JObj(fields) =>
      forall i | 0 <= i < |fields| ensures Normalize(AsValue(fields[i].value)) == fields[i].value {
        NormalIsFixed(fields[i].value);
      }
      FieldsFixed(fields);
    case _ =>
  }

  lemma ItemsFixed(items: seq<Json>)
    requires forall i :: 0 <= i < |items| ==> Normalize(AsValue(items[i])) == items[i]
    ensures Normalize(AsValue(JArr(items))) == JArr(items)
  {
    hide Sorted;
    assert NormalizeAll(AsValues(items)) == items;
  }

  lemma FieldsFixed(fields: seq<Field>)
    requires forall i :: 0 <= i < |fields| ==> Normalize(AsValue(fields[i].value)) == fields[i].value
    requires Ordered(fields, FieldKey)
    ensures Normalize(AsValue(JObj(fields))) == JObj(fields)
  {
    hide Sorted;
    assert NormalizeEntries(AsEntries(fields)) == fields;
    SortedOfOrdered(fields, FieldKey);
  }

  /** Normalising is idempotent, and leaves a value alone exactly when it is normal. */
  lemma NormalizeFixesExactlyNormal(v: Value, j: Json)
    ensures WellFormed(v) ==> Normalize(AsValue(Normalize(v))) == Normalize(v)
    ensures WellFormed(AsValue(j)) ==> (Normalize(AsValue(j)) == j <==> Normal(j))
  {
    if WellFormed(v) {
      NormalizeIsNormal(v);
      NormalIsFixed(Normalize(v));
    }
    if WellFormed(AsValue(j)) {
      NormalizeIsNormal(AsValue(j));
      if Normal(j) {
        NormalIsFixed(j);
      }
    }
  }

  // ---- order independence ----

  ghost predicate SameElements(xs: seq<Value>, ys: seq<Value>, p: seq<nat>)
    requires Permutation(p, |xs|) && |ys| == |xs|
    decreases xs, 0
  {
    forall i :: 0 <= i < |xs| ==> Reordered(xs[i], ys[p[i]])
  }

  ghost predicate SameEntries(xs: seq<Entry>, ys: seq<Entry>, p: seq<nat>)
    requires Permutation(p, |xs|) && |ys| == |xs|
    decreases xs, 0
  {
    forall i :: 0 <= i < |xs| ==> xs[i].key == ys[p[i]].key && Reordered(xs[i].value, ys[p[i]].value)
  }

  /** The same value, up to the insertion order of mappings and the iteration order of sets at any depth. */
  ghost predicate Reordered(v: Value, w: Value)
    decreases v, 1
  {
    match v
    case List(xs) => w.List? && |w.items| == |xs| && forall i :: 0 <= i < |xs| ==> Reordered(xs[i], w.items[i])
    case SetOf(xs) =>
      && w.SetOf? && |w.elements| == |xs|
      && exists p: seq<nat> :: Permutation(p, |xs|) && SameElements(xs, w.elements, p)
    case Mapping(xs) =>
      && w.Mapping? && |w.entries| == |xs|
      && exists p: seq<nat> :: Permutation(p, |xs|) && SameEntries(xs, w.entries, p)
    case _ => v == w
  }

  lemma TextsTellValuesApart(js: seq<Json>)
    ensures Distinguishes(js, SortKey)
  {
    hide Print;
    forall i, j | 0 <= i < |js| && 0 <= j < |js| && SortKey(js[i]) == SortKey(js[j])
      ensures js[i] == js[j]
    {
      assert SortKey(js[i])[0] == SortKey(js[j])[0];
      PrintInjective(js[i], js[j]);
    }
  }

  lemma SetForgetsOrder(xs: seq<Json>, ys: seq<Json>, p: seq<nat>)
    requires Sorting.Moved(xs, ys, p)
    ensures Sorted(xs, SortKey) == Sorted(ys, SortKey)
  {
    MovedSameElements(xs, ys, p);
    TextsTellValuesApart(xs);
    SortedForgetsOrder(xs, ys, SortKey);
  }

  lemma ObjectForgetsOrder(xs: seq<Field>, ys: seq<Field>, p: seq<nat>)
    requires Sorting.Moved(xs, ys, p) && DistinctFields(xs)
    ensures Sorted(xs, FieldKey) == Sorted(ys, FieldKey)
  {
    MovedSameElements(xs, ys, p);
    FieldsByKey(xs);
    DistinctDistinguishes(xs, FieldKey);
    SortedForgetsOrder(xs, ys, FieldKey);
  }

  /** The normalised value does not depend on insertion order or iteration order, at any depth. */
  lemma {:induction false} NormalizeForgetsOrder(v: Value, w: Value)
    requires WellFormed(v) && Reordered(v, w)
    ensures Normalize(v) == Normalize(w)
    decreases v
  {
    hide Sorted, Print;
    match v
    case List(xs) =>
      forall i | 0 <= i < |xs| ensures Normalize(xs[i]) == Normalize(w.items[i]) {
        NormalizeForgetsOrder(xs[i], w.items[i]);
      }
      assert NormalizeAll(xs) == NormalizeAll(w.items);
    case SetOf(xs) =>
      var ys := w.elements;
      var p: seq<nat> :| Permutation(p, |xs|) && SameElements(xs, ys, p);
      forall i | 0 <= i < |xs| ensures Normalize(xs[i]) == Normalize(ys[p[i]]) {
        NormalizeForgetsOrder(xs[i], ys[p[i]]);
      }
      SetForgetsOrder(NormalizeAll(xs), NormalizeAll(ys), p);
    case Mapping(xs) =>
      var ys := w.entries;
      var p: seq<nat> :| Permutation(p, |xs|) && SameEntries(xs, ys, p);
      forall i | 0 <= i < |xs| ensures Normalize(xs[i].value) == Normalize(ys[p[i]].value) {
        NormalizeForgetsOrder(xs[i].value, ys[p[i]].value);
      }
      ObjectForgetsOrder(NormalizeEntries(xs), NormalizeEntries(ys), p);
    case _ =>
  }
}
