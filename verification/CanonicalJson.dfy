/**
 * The canonical text of a JSON value: object keys sorted, undefined fields dropped
 * (`canonical` in src/control/plane.ts).
 */
module CanonicalJson {
  import opened Sorting
  import opened Text

  datatype Json =
    | Undefined
    | Null
    | Bool(b: bool)
    /** a number by its printed text */
    | Num(digits: string)
    | Str(text: string)
    | Arr(items: seq<Json>)
    | Obj(fields: seq<Field>)

  datatype Field = Field(key: string, value: Json)

  // ------------------------------------------------------------------ texts

  predicate IsNumChar(c: char) { '0' <= c <= '9' || c == '-' || c == '+' || c == '.' || c == 'e' }

  function Hex(d: int): char
    requires 0 <= d < 16
  {
    if d < 10 then ('0' as int + d) as char else ('a' as int + d - 10) as char
  }

  /** One character inside a JSON string. */
  function EscapeChar(c: char): string {
    if c == '"' then "\\\"" else if c == '\\' then "\\\\"
    else if c == '\U{08}' then "\\b" else if c == '\U{0C}' then "\\f"
    else if c == '\n' then "\\n" else if c == '\r' then "\\r" else if c == '\t' then "\\t"
    else if c < ' ' then ['\\', 'u', '0', '0', Hex(c as int / 16), Hex(c as int % 16)]
    else [c]
  }

  function Escape(s: string): string {
    if s == [] then [] else EscapeChar(s[0]) + Escape(s[1..])
  }

  function Quote(s: string): string { "\"" + Escape(s) + "\"" }

  // ------------------------------------------------------------------ canonical, as the source has it

  /** A printed field under its key; fields without a value are left out. */
  datatype Part = Part(key: string, text: string)

  function ByPartKey(): (Part, Part) -> bool { (a: Part, b: Part) => StringLe(a.key, b.key) }

  function Canonical(v: Json): string
    decreases v, 0
  {
    match v
    case Undefined => ""
    case Null => "null"
    case Bool(b) => if b then "true" else "false"
    case Num(digits) => digits
    case Str(text) => Quote(text)
    case Arr(items) => "[" + Join(CanonicalAll(items), ',') + "]"
    case Obj(fields) => "{" + Join(PartTexts(SortBy(Parts(fields), ByPartKey())), ',') + "}"
  }

  function CanonicalAll(items: seq<Json>): (r: seq<string>)
    ensures |r| == |items|
    decreases items, 1
  {
    if items == [] then [] else [Canonical(items[0])] + CanonicalAll(items[1..])
  }

  function Parts(fields: seq<Field>): seq<Part>
    decreases fields, 1
  {
    if fields == [] then []
    else (if fields[0].value.Undefined? then [] else [Part(fields[0].key, Canonical(fields[0].value))]) + Parts(fields[1..])
  }

  function PartTexts(parts: seq<Part>): seq<string> {
    if parts == [] then [] else [Quote(parts[0].key) + ":" + parts[0].text] + PartTexts(parts[1..])
  }

  // ------------------------------------------------------------------ what it stands for

  function ByFieldKey(): (Field, Field) -> bool { (a: Field, b: Field) => StringLe(a.key, b.key) }

  /** An array of one undefined item prints as the empty array does. */
  function Collapse(items: seq<Json>): seq<Json> { if items == [Undefined] then [] else items }

  /** Keys sorted, undefined fields dropped and lone undefined items forgotten, at every level. */
  function Norm(v: Json): Json
    decreases v, 0
  {
    match v
    case Arr(items) => Arr(Collapse(NormAll(items)))
    case Obj(fields) => Obj(SortBy(NormFields(fields), ByFieldKey()))
    case _ => v
  }

  function NormAll(items: seq<Json>): (r: seq<Json>)
    ensures |r| == |items|
    decreases items, 1
  {
    if items == [] then [] else [Norm(items[0])] + NormAll(items[1..])
  }

  function NormFields(fields: seq<Field>): seq<Field>
    decreases fields, 1
  {
    if fields == [] then []
    else (if fields[0].value.Undefined? then [] else [Field(fields[0].key, Norm(fields[0].value))]) + NormFields(fields[1..])
  }

  /** Numbers are printed as JSON prints them. */
  predicate IsJson(v: Json)
    decreases v
  {
    match v
    case Num(digits) => digits != [] && forall c | c in digits :: IsNumChar(c)
    case Arr(items) => forall i | i in items :: IsJson(i)
    case Obj(fields) => forall f | f in fields :: IsJson(f.value)
    case _ => true
  }

  // ------------------------------------------------------------------ printing a normal form

  function Print(v: Json): string
    decreases v, 0
  {
    match v
    case Undefined => ""
    case Null => "null"
    case Bool(b) => if b then "true" else "false"
    case Num(digits) => digits
    case Str(text) => Quote(text)
    case Arr(items) => "[" + Items(items)
    case Obj(fields) => "{" + Fields(fields)
  }

  /** The rest of an array, with its closing bracket. */
  function Items(items: seq<Json>): string
    decreases items, 1
  {
    if items == [] then "]" else Print(items[0]) + (if |items| == 1 then "]" else "," + Items(items[1..]))
  }

  function Fields(fields: seq<Field>): string
    decreases fields, 1
  {
    if fields == [] then "}"
    else Quote(fields[0].key) + ":" + Print(fields[0].value) + (if |fields| == 1 then "}" else "," + Fields(fields[1..]))
  }

  /** A normal form: no undefined field, and no undefined item alone in its array. */
  predicate IsPlain(v: Json)
    decreases v
  {
    match v
    case Num(digits) => digits != [] && forall c | c in digits :: IsNumChar(c)
    case Arr(items) => items != [Undefined] && forall i | i in items :: IsPlain(i)
    case Obj(fields) => forall f | f in fields :: !f.value.Undefined? && IsPlain(f.value)
    case _ => true
  }

  // ------------------------------------------------------------------ canonical prints the normal form

  function PartOf(f: Field): Part { Part(f.key, Print(f.value)) }

  function PartsOf(fields: seq<Field>): (r: seq<Part>)
    ensures |r| == |fields|
    ensures forall i :: 0 <= i < |fields| ==> r[i] == PartOf(fields[i])
  {
    seq(|fields|, i requires 0 <= i < |fields| => PartOf(fields[i]))
  }

  lemma {:induction false} InsertCommutes(f: Field, s: seq<Field>)
    ensures InsertBy(PartOf(f), PartsOf(s), ByPartKey()) == PartsOf(InsertBy(f, s, ByFieldKey()))
    decreases |s|
  {
    hide Print, StringLe;
    if s != [] {
      assert PartsOf(s)[1..] == PartsOf(s[1..]);
      InsertCommutes(f, s[1..]);
    }
  }

  lemma {:induction false} SortCommutes(s: seq<Field>)
    ensures SortBy(PartsOf(s), ByPartKey()) == PartsOf(SortBy(s, ByFieldKey()))
    decreases |s|
  {
    hide Print, StringLe;
    if s != [] {
      assert PartsOf(s)[1..] == PartsOf(s[1..]);
      SortCommutes(s[1..]);
      InsertCommutes(s[0], SortBy(s[1..], ByFieldKey()));
    } else {
      assert PartsOf(s) == [];
    }
  }

  lemma {:induction false} ItemsAreJoined(items: seq<Json>, texts: seq<string>)
    requires |texts| == |items| && forall i :: 0 <= i < |items| ==> texts[i] == Print(items[i])
    ensures Items(items) == Join(texts, ',') + "]"
    decreases |items|
  {
    hide Print;
    if |items| > 1 {
      ItemsAreJoined(items[1..], texts[1..]);
      assert Join(texts, ',') == texts[0] + [','] + Join(texts[1..], ',');
    }
  }

  lemma {:induction false} FieldsAreJoined(fields: seq<Field>)
    ensures Fields(fields) == Join(PartTexts(PartsOf(fields)), ',') + "}"
    decreases |fields|
  {
    hide Print, Quote;
    if fields != [] {
      var parts := PartsOf(fields);
      assert parts[1..] == PartsOf(fields[1..]);
      FieldsAreJoined(fields[1..]);
      var texts := PartTexts(parts);
      assert texts[0] == Quote(fields[0].key) + ":" + Print(fields[0].value) && texts[1..] == PartTexts(PartsOf(fields[1..]));
      if |fields| == 1 {
        assert PartsOf(fields[1..]) == [];
        assert |texts| == 1;
      } else {
        assert |texts| > 1;
        assert Join(texts, ',') == texts[0] + [','] + Join(texts[1..], ',');
      }
    }
  }

  /** The canonical text is the printed normal form. */
  lemma {:induction false} CanonicalPrintsNorm(v: Json)
    ensures Canonical(v) == Print(Norm(v))
    decreases v, 0
  {
    hide Join, Quote;
    match v
    case Arr(items) =>
      AllPrintNorm(items);
      ItemsAreJoined(NormAll(items), CanonicalAll(items));
      CollapsePrints(NormAll(items));
    case Obj(fields) =>
      PartsPrintNorm(fields);
      SortCommutes(NormFields(fields));
      FieldsAreJoined(SortBy(NormFields(fields), ByFieldKey()));
    case _ =>
  }

  lemma CollapsePrints(items: seq<Json>)
    ensures Items(Collapse(items)) == Items(items)
  {
  }

  lemma {:induction false} AllPrintNorm(items: seq<Json>)
    ensures forall i :: 0 <= i < |items| ==> CanonicalAll(items)[i] == Print(NormAll(items)[i])
    decreases items, 1
  {
    if items != [] {
      CanonicalPrintsNorm(items[0]);
      AllPrintNorm(items[1..]);
    }
  }

  lemma {:induction false} PartsPrintNorm(fields: seq<Field>)
    ensures Parts(fields) == PartsOf(NormFields(fields))
    decreases fields, 1
  {
    hide Canonical, Norm, Print;
    if fields != [] {
      PartsPrintNorm(fields[1..]);
      if !fields[0].value.Undefined? {
        CanonicalPrintsNorm(fields[0].value);
        assert PartsOf(NormFields(fields)) == [PartOf(Field(fields[0].key, Norm(fields[0].value)))] + PartsOf(NormFields(fields[1..]));
      }
    }
  }

  // ------------------------------------------------------------------ a printed normal form is read one way only

  /** What may follow a value. */
  predicate Stops(x: string) { x == [] || x[0] == ',' || x[0] == ']' || x[0] == '}' }

  lemma CharUnique(c: char, d: char, u: string, v: string)
    requires EscapeChar(c) + u == EscapeChar(d) + v
    ensures c == d && u == v
  {
    var a, b := EscapeChar(c), EscapeChar(d);
    assert (a + u)[0] == a[0] && (b + v)[0] == b[0];
    if |a| > 1 && |b| > 1 {
      assert (a + u)[1] == a[1] && (b + v)[1] == b[1];
      if |a| > 2 && |b| > 2 {
        assert (a + u)[4] == a[4] && (b + v)[4] == b[4];
        assert (a + u)[5] == a[5] && (b + v)[5] == b[5];
        HexUnique(c as int / 16, d as int / 16);
        HexUnique(c as int % 16, d as int % 16);
      }
    }
    assert u == (a + u)[|a|..] && v == (b + v)[|b|..];
  }

  lemma HexUnique(a: int, b: int)
    requires 0 <= a < 16 && 0 <= b < 16 && Hex(a) == Hex(b)
    ensures a == b
  {
  }

  /** The quote that ends a string is the first one that is not escaped. */
  lemma EscapeFront(s: string, x: string)
    ensures var l := Escape(s) + "\"" + x;
      && l != [] && (l[0] == '"' <==> s == [])
      && (s == [] ==> l[1..] == x)
      && (s != [] ==> l == EscapeChar(s[0]) + (Escape(s[1..]) + "\"" + x))
  {
    if s != [] { assert EscapeChar(s[0])[0] != '"'; }
  }

  lemma {:induction false} EscapeUnique(s: string, t: string, x: string, y: string)
    requires Escape(s) + "\"" + x == Escape(t) + "\"" + y
    ensures s == t && x == y
    decreases |s|
  {
    hide EscapeChar, Escape;
    EscapeFront(s, x);
    EscapeFront(t, y);
    if s != [] {
      CharUnique(s[0], t[0], Escape(s[1..]) + "\"" + x, Escape(t[1..]) + "\"" + y);
      EscapeUnique(s[1..], t[1..], x, y);
      assert s == [s[0]] + s[1..] && t == [t[0]] + t[1..];
    }
  }

  lemma QuoteUnique(s: string, t: string, x: string, y: string)
    requires Quote(s) + x == Quote(t) + y
    ensures s == t && x == y
  {
    hide Escape;
    assert (Quote(s) + x)[1..] == Escape(s) + "\"" + x;
    assert (Quote(t) + y)[1..] == Escape(t) + "\"" + y;
    EscapeUnique(s, t, x, y);
  }

  lemma NumFront(a: string, x: string)
    requires (forall c | c in a :: IsNumChar(c)) && Stops(x)
    ensures a == [] <==> a + x == [] || !IsNumChar((a + x)[0])
    ensures a == [] ==> a + x == x
    ensures a != [] ==> (a + x)[0] == a[0] && (a + x)[1..] == a[1..] + x
  {
    if a != [] { assert a[0] in a; }
  }

  lemma {:induction false} NumUnique(a: string, b: string, x: string, y: string)
    requires (forall c | c in a :: IsNumChar(c)) && (forall c | c in b :: IsNumChar(c)) && Stops(x) && Stops(y)
    requires a + x == b + y
    ensures a == b && x == y
    decreases |a|
  {
    NumFront(a, x);
    NumFront(b, y);
    if a != [] {
      NumUnique(a[1..], b[1..], x, y);
      assert a == [a[0]] + a[1..] && b == [b[0]] + b[1..];
    }
  }

  /** The first character tells the kind. */
  lemma FirstTells(v: Json)
    requires IsPlain(v) && !v.Undefined?
    ensures Print(v) != []
    ensures var c := Print(v)[0];
      && (v.Null? <==> c == 'n') && (v.Bool? && v.b <==> c == 't') && (v.Bool? && !v.b <==> c == 'f')
      && (v.Num? <==> IsNumChar(c)) && (v.Str? <==> c == '"') && (v.Arr? <==> c == '[') && (v.Obj? <==> c == '{')
      && c != ']' && c != '}' && c != ','
  {
    hide Items, Fields;
    if v.Num? { assert v.digits[0] in v.digits; }
  }

  /** Two printed values in front of anything that may follow: equal texts, equal values, equal rests. */
  lemma {:induction false} PrintUnique(a: Json, b: Json, x: string, y: string)
    requires IsPlain(a) && IsPlain(b) && Stops(x) && Stops(y) && Print(a) + x == Print(b) + y
    ensures a == b && x == y
    decreases a, 0
  {
    hide Items, Fields, Quote, IsNumChar;
    KindsAgree(a, b, x, y);
    match a
    case Num(digits) => NumUnique(digits, b.digits, x, y);
    case Str(text) => QuoteUnique(text, b.text, x, y);
    case Arr(items) =>
      assert (Print(a) + x)[1..] == Items(items) + x && (Print(b) + y)[1..] == Items(b.items) + y;
      ItemsUnique(items, b.items, x, y);
    case Obj(fields) =>
      assert (Print(a) + x)[1..] == Fields(fields) + x && (Print(b) + y)[1..] == Fields(b.fields) + y;
      FieldsUnique(fields, b.fields, x, y);
    case _ =>
      SameWord(Print(a), x, y);
  }

  /** Nothing printed is the only thing that may be followed at once. */
  lemma KindsAgree(a: Json, b: Json, x: string, y: string)
    requires IsPlain(a) && IsPlain(b) && Stops(x) && Stops(y) && Print(a) + x == Print(b) + y
    ensures a.Undefined? == b.Undefined? && a.Null? == b.Null? && a.Bool? == b.Bool? && a.Num? == b.Num?
    ensures a.Str? == b.Str? && a.Arr? == b.Arr? && a.Obj? == b.Obj? && (a.Bool? ==> a == b)
  {
    hide Items, Fields, Quote, IsNumChar, IsPlain;
    if !a.Undefined? { FirstTells(a); assert (Print(a) + x)[0] == Print(a)[0]; }
    if !b.Undefined? { FirstTells(b); assert (Print(b) + y)[0] == Print(b)[0]; }
  }

  lemma SameWord(w: string, x: string, y: string)
    requires w + x == w + y
    ensures x == y
  {
    assert x == (w + x)[|w|..] && y == (w + y)[|w|..];
  }

  /** The rest of an array behind its first element. */
  function ItemsRest(items: seq<Json>): string
    requires items != []
  {
    if |items| == 1 then "]" else "," + Items(items[1..])
  }

  lemma ItemsFront(items: seq<Json>, x: string)
    requires forall i | i in items :: IsPlain(i)
    ensures var l := Items(items) + x;
      && l != [] && (l[0] == ']' <==> items == [] || items == [Undefined])
      && (items == [] ==> l == "]" + x)
      && (items != [] ==> l == Print(items[0]) + (ItemsRest(items) + x) && Stops(ItemsRest(items) + x))
      && (items != [] ==> (ItemsRest(items) + x)[0] == if |items| == 1 then ']' else ',')
      && (|items| == 1 ==> ItemsRest(items) + x == "]" + x)
      && (|items| > 1 ==> ItemsRest(items) + x == "," + (Items(items[1..]) + x))
  {
    hide Print, IsPlain, Items, ItemsRest;
    ItemsOpen(items);
    if items != [] {
      if |items| > 1 { Regroup(",", Items(items[1..]), x); }
      if items[0].Undefined? {
        UndefinedFront(items);
      } else {
        FirstTells(items[0]);
        Regroup(Print(items[0]), ItemsRest(items), x);
      }
    }
  }

  lemma UndefinedFront(items: seq<Json>)
    requires items != [] && items[0].Undefined?
    ensures Print(items[0]) == [] && Items(items) == ItemsRest(items)
    ensures items == [Undefined] <==> |items| == 1
  {
  }

  lemma ItemsOpen(items: seq<Json>)
    ensures Items(items) == if items == [] then "]" else Print(items[0]) + ItemsRest(items)
    ensures items != [] ==> ItemsRest(items) == if |items| == 1 then "]" else "," + Items(items[1..])
  {
    hide Print;
  }

  lemma Regroup(a: string, b: string, c: string)
    requires a != []
    ensures a + b + c == a + (b + c) && (a + b + c)[0] == a[0] && a + b + c != []
  {
  }

  lemma {:induction false} ItemsUnique(ms: seq<Json>, bs: seq<Json>, x: string, y: string)
    requires (forall i | i in ms :: IsPlain(i)) && (forall i | i in bs :: IsPlain(i))
    requires (ms == [] ==> bs != [Undefined]) && (bs == [] ==> ms != [Undefined])
    requires Items(ms) + x == Items(bs) + y
    ensures ms == bs && x == y
    decreases ms, 1
  {
    hide Print, IsPlain, Items, ItemsRest, Stops;
    ItemsFront(ms, x);
    ItemsFront(bs, y);
    if ms == [] {
      SameWord("]", x, y);
    } else {
      PrintUnique(ms[0], bs[0], ItemsRest(ms) + x, ItemsRest(bs) + y);
      if |ms| == 1 {
        SameWord("]", x, y);
      } else {
        SameWord(",", Items(ms[1..]) + x, Items(bs[1..]) + y);
        ItemsUnique(ms[1..], bs[1..], x, y);
      }
      assert ms == [ms[0]] + ms[1..] && bs == [bs[0]] + bs[1..];
    }
  }

  function FieldsRest(fields: seq<Field>): string
    requires fields != []
  {
    if |fields| == 1 then "}" else "," + Fields(fields[1..])
  }

  lemma FieldsFront(fields: seq<Field>, x: string)
    ensures var l := Fields(fields) + x;
      && l != [] && (l[0] == '}' <==> fields == [])
      && (fields == [] ==> l == "}" + x)
      && (fields != [] ==> l == Quote(fields[0].key) + (":" + (Print(fields[0].value) + (FieldsRest(fields) + x))) && Stops(FieldsRest(fields) + x))
      && (fields != [] ==> (FieldsRest(fields) + x)[0] == if |fields| == 1 then '}' else ',')
      && (|fields| == 1 ==> FieldsRest(fields) + x == "}" + x)
      && (|fields| > 1 ==> FieldsRest(fields) + x == "," + (Fields(fields[1..]) + x))
  {
    hide Print, Quote, Fields, FieldsRest;
    FieldsOpen(fields);
    if fields != [] {
      var q, p, r := Quote(fields[0].key), Print(fields[0].value), FieldsRest(fields);
      Regroup(q, ":" + (p + r), x);
      Regroup(":", p + r, x);
      Trailer(p, r, x);
      if |fields| > 1 { Regroup(",", Fields(fields[1..]), x); }
    }
  }

  lemma FieldsOpen(fields: seq<Field>)
    ensures Fields(fields) == if fields == [] then "}" else Quote(fields[0].key) + (":" + (Print(fields[0].value) + FieldsRest(fields)))
    ensures fields != [] ==> FieldsRest(fields) == if |fields| == 1 then "}" else "," + Fields(fields[1..])
    ensures fields != [] ==> Quote(fields[0].key) != [] && Quote(fields[0].key)[0] == '"'
  {
    hide Print, Quote;
    if fields != [] {
      QuoteOpens(fields[0].key);
      var q, p := Quote(fields[0].key), Print(fields[0].value);
      assert Fields(fields) == q + ":" + p + FieldsRest(fields);
      Trailer(q + ":", p, FieldsRest(fields));
      Trailer(q, ":", p + FieldsRest(fields));
    }
  }

  lemma QuoteOpens(s: string)
    ensures Quote(s) != [] && Quote(s)[0] == '"'
  {
    hide Escape;
  }

  lemma Trailer(a: string, b: string, c: string)
    ensures a + b + c == a + (b + c)
  {
  }

  lemma {:induction false} FieldsUnique(ms: seq<Field>, bs: seq<Field>, x: string, y: string)
    requires (forall f | f in ms :: IsPlain(f.value)) && (forall f | f in bs :: IsPlain(f.value))
    requires Fields(ms) + x == Fields(bs) + y
    ensures ms == bs && x == y
    decreases ms, 1
  {
    hide Print, IsPlain, Quote, Fields, FieldsRest, Stops;
    FieldsFront(ms, x);
    FieldsFront(bs, y);
    if ms == [] {
      SameWord("}", x, y);
    } else {
      QuoteUnique(ms[0].key, bs[0].key, ":" + (Print(ms[0].value) + (FieldsRest(ms) + x)), ":" + (Print(bs[0].value) + (FieldsRest(bs) + y)));
      SameWord(":", Print(ms[0].value) + (FieldsRest(ms) + x), Print(bs[0].value) + (FieldsRest(bs) + y));
      PrintUnique(ms[0].value, bs[0].value, FieldsRest(ms) + x, FieldsRest(bs) + y);
      if |ms| == 1 {
        SameWord("}", x, y);
      } else {
        SameWord(",", Fields(ms[1..]) + x, Fields(bs[1..]) + y);
        FieldsUnique(ms[1..], bs[1..], x, y);
      }
      assert ms == [ms[0]] + ms[1..] && bs == [bs[0]] + bs[1..];
    }
  }

  // ------------------------------------------------------------------ the theorem

  lemma {:induction false} NormIsPlain(v: Json)
    requires IsJson(v)
    ensures IsPlain(Norm(v))
    decreases v, 0
  {
    match v
    case Arr(items) => NormAllPlain(items);
    case Obj(fields) =>
      NormFieldsPlain(fields);
      SortKeepsFields(NormFields(fields));
    case _ =>
  }

  lemma NormKeepsUndefined(v: Json)
    ensures Norm(v).Undefined? <==> v.Undefined?
  {
    hide NormAll, NormFields;
  }

  lemma ByFieldKeyIsOrder()
    ensures TotalPreorder(ByFieldKey())
  {
    ByTextIsOrder();
    forall a: Field, b: Field ensures ByFieldKey()(a, b) || ByFieldKey()(b, a) { assert ByText()(a.key, b.key) || ByText()(b.key, a.key); }
    forall a: Field, b: Field, c: Field | ByFieldKey()(a, b) && ByFieldKey()(b, c) ensures ByFieldKey()(a, c) {
      assert ByText()(a.key, b.key) && ByText()(b.key, c.key);
    }
  }

  lemma SortKeepsFields(fields: seq<Field>)
    ensures forall f :: f in SortBy(fields, ByFieldKey()) <==> f in fields
  {
    ByFieldKeyIsOrder();
    SortIsSorted(fields, ByFieldKey());
    SameMembers(SortBy(fields, ByFieldKey()), fields);
  }

  lemma {:induction false} NormAllPlain(items: seq<Json>)
    requires forall i | i in items :: IsJson(i)
    ensures forall i | i in NormAll(items) :: IsPlain(i)
    decreases items, 1
  {
    hide IsPlain, IsJson, Norm;
    if items != [] {
      assert items[0] in items && forall i | i in items[1..] :: i in items;
      NormIsPlain(items[0]);
      NormAllPlain(items[1..]);
    }
  }

  lemma {:induction false} NormFieldsPlain(fields: seq<Field>)
    requires forall f | f in fields :: IsJson(f.value)
    ensures forall f | f in NormFields(fields) :: !f.value.Undefined? && IsPlain(f.value)
    decreases fields, 1
  {
    hide IsPlain, IsJson, Norm;
    if fields != [] {
      assert fields[0] in fields && forall f | f in fields[1..] :: f in fields;
      if !fields[0].value.Undefined? { NormIsPlain(fields[0].value); NormKeepsUndefined(fields[0].value); }
      NormFieldsPlain(fields[1..]);
    }
  }

  /** Equal canonical texts mean equal values, up to key order, undefined fields and lone undefined items, and nothing else. */
  lemma CanonicalIsInjective(a: Json, b: Json)
    requires IsJson(a) && IsJson(b)
    ensures Canonical(a) == Canonical(b) <==> Norm(a) == Norm(b)
  {
    hide Canonical, Print, Norm;
    CanonicalPrintsNorm(a);
    CanonicalPrintsNorm(b);
    NormIsPlain(a);
    NormIsPlain(b);
    if Canonical(a) == Canonical(b) {
      assert Print(Norm(a)) + [] == Print(Norm(b)) + [];
      PrintUnique(Norm(a), Norm(b), [], []);
    }
  }

  predicate PrintsNoItem(items: seq<Json>) { items == [] || items == [Undefined] }

  lemma {:induction false} AllUndefinedStay(items: seq<Json>)
    ensures NormAll(items) == [Undefined] <==> items == [Undefined]
  {
    if items != [] {
      NormKeepsUndefined(items[0]);
      assert items == [items[0]] + items[1..];
    }
  }

  /** The only arrays of different items with one text: no item, and one undefined item. */
  lemma ArraysCollideExactly(a: seq<Json>, b: seq<Json>)
    requires IsJson(Arr(a)) && IsJson(Arr(b))
    ensures Canonical(Arr(a)) == Canonical(Arr(b)) <==> NormAll(a) == NormAll(b) || (PrintsNoItem(a) && PrintsNoItem(b))
  {
    hide Canonical;
    CanonicalIsInjective(Arr(a), Arr(b));
    AllUndefinedStay(a);
    AllUndefinedStay(b);
  }
}
