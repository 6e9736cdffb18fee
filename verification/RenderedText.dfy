/** The pretty-printed text itself, byte by byte, and the proof that its length is the measured one. */
module RenderedText {
  import opened JsonValues
  import opened Rendering

  type Bytes = seq<int>

  /** The keys of an object as its map iterates them. */
  type Order = Json -> seq<string>

  ghost predicate Lists(keys: seq<string>, fields: map<string, Json>) {
    && (forall key :: key in keys <==> key in fields)
    && (forall a, b :: 0 <= a < b < |keys| ==> keys[a] != keys[b])
  }

  ghost predicate Iterates(order: Order) {
    forall j: Json :: j.Obj? ==> Lists(order(j), j.fields)
  }

  function HexDigit(n: int): int {
    if n < 10 then 0x30 + n else 0x57 + n
  }

  /** One character of a JSON string: the short escapes, `\u00xx` for other controls, UTF-8 for the rest. */
  function CharText(c: char): Bytes {
    var n := c as int;
    if c == '\"' then [0x5C, 0x22]
    else if c == '\\' then [0x5C, 0x5C]
    else if n == 8 then [0x5C, 0x62]
    else if n == 9 then [0x5C, 0x74]
    else if n == 10 then [0x5C, 0x6E]
    else if n == 12 then [0x5C, 0x66]
    else if n == 13 then [0x5C, 0x72]
    else if n < 0x20 then [0x5C, 0x75, 0x30, 0x30, HexDigit(n / 16), HexDigit(n % 16)]
    else if n < 0x80 then [n]
    else if n < 0x800 then [0xC0 + n / 64, 0x80 + n % 64]
    else if n < 0x10000 then [0xE0 + n / 4096, 0x80 + n / 64 % 64, 0x80 + n % 64]
    else [0xF0 + n / 262144, 0x80 + n / 4096 % 64, 0x80 + n / 64 % 64, 0x80 + n % 64]
  }

  function CharsText(text: string): Bytes {
    if text == "" then [] else CharsText(text[..|text| - 1]) + CharText(text[|text| - 1])
  }

  function StringText(text: string): Bytes {
    [0x22] + CharsText(text) + [0x22]
  }

  function DigitsText(n: nat): Bytes {
    if n < 10 then [0x30 + n] else DigitsText(n / 10) + [0x30 + n % 10]
  }

  function NumText(n: int): Bytes {
    if n < 0 then [0x2D] + DigitsText(-n) else DigitsText(n)
  }

  function Indent(depth: nat): Bytes {
    seq(2 * depth, i => 0x20)
  }

  const NULL_TEXT: Bytes := [0x6E, 0x75, 0x6C, 0x6C]
  const TRUE_TEXT: Bytes := [0x74, 0x72, 0x75, 0x65]
  const FALSE_TEXT: Bytes := [0x66, 0x61, 0x6C, 0x73, 0x65]

  /** Brackets around lines, or the two brackets alone. */
  function Framed(open: int, lines: Bytes, close: int, depth: nat): Bytes {
    if lines == [] then [open, close] else [open, 0x0A] + lines + [0x0A] + Indent(depth) + [close]
  }

  /** A comma and a line break before every entry but the first. */
  function Separator(count: nat): Bytes {
    if count == 0 then [] else [0x2C, 0x0A]
  }

  ghost function Text(j: Json, depth: nat, order: Order): Bytes
    requires Iterates(order)
    decreases j, 1, 0
  {
    match j
    case Null => NULL_TEXT
    case Bool(b) => if b then TRUE_TEXT else FALSE_TEXT
    case Num(n) => NumText(n)
    case Str(s) => StringText(s)
    case Arr(items) => Framed(0x5B, ItemsText(j, |items|, depth + 1, order), 0x5D, depth)
    case Obj(fields) => Framed(0x7B, FieldsText(j, order(j), depth + 1, order), 0x7D, depth)
  }

  ghost function ItemsText(j: Json, count: nat, depth: nat, order: Order): Bytes
    requires Iterates(order) && j.Arr? && count <= |j.items|
    decreases j, 0, count
  {
    if count == 0 then [] else
    ItemsText(j, count - 1, depth, order) + Separator(count - 1) + Indent(depth)
    + Text(j.items[count - 1], depth, order)
  }

  ghost function FieldsText(j: Json, keys: seq<string>, depth: nat, order: Order): Bytes
    requires Iterates(order) && j.Obj? && forall key :: key in keys ==> key in j.fields
    decreases j, 0, |keys|
  {
    if keys == [] then [] else
    var last := |keys| - 1;
    FieldsText(j, keys[..last], depth, order) + Separator(last) + Indent(depth) + StringText(keys[last])
    + [0x3A, 0x20] + Text(j.fields[keys[last]], depth, order)
  }

  // ---- Lengths ----

  lemma {:induction false} StringMeasures(text: string)
    ensures |StringText(text)| == TextLen(text)
  {
    if text != "" {
      StringMeasures(text[..|text| - 1]);
      assert |CharText(text[|text| - 1])| == CharLen(text[|text| - 1]);
    }
  }

  lemma {:induction false} DigitsMeasure(n: nat)
    ensures |DigitsText(n)| == DigitsLen(n)
  {
    if n >= 10 {
      DigitsMeasure(n / 10);
    }
  }

  /** A number's digits are those of its value. */
  function DigitsValue(text: Bytes): int {
    if text == [] then 0 else 10 * DigitsValue(text[..|text| - 1]) + text[|text| - 1] - 0x30
  }

  lemma {:induction false} DigitsReadBack(n: nat)
    ensures DigitsValue(DigitsText(n)) == n
  {
    if n >= 10 {
      DigitsReadBack(n / 10);
      assert DigitsText(n)[..|DigitsText(n)| - 1] == DigitsText(n / 10);
    } else {
      assert DigitsText(n)[..0] == [];
    }
  }

  function Commas(count: nat): nat {
    if count == 0 then 0 else 2 * (count - 1)
  }

  lemma FrameMeasures(open: int, lines: Bytes, close: int, depth: nat, count: nat, inner: nat)
    requires count == 0 ==> lines == []
    requires count > 0 ==> |lines| == inner + Commas(count) && |lines| > 0
    ensures |Framed(open, lines, close, depth)| == FramedLen(count, inner, depth)
  {
  }

  lemma TextIsNotEmpty(j: Json, depth: nat, order: Order)
    requires Iterates(order)
    ensures |Text(j, depth, order)| > 0
  {
    if j.Num? {
      NumMeasures(j.n);
    }
  }

  lemma NumMeasures(n: int)
    ensures |NumText(n)| == NumLen(n)
  {
    DigitsMeasure(if n < 0 then -n else n);
  }

  lemma {:induction false} ItemsMeasure(j: Json, count: nat, depth: nat, order: Order)
    requires Iterates(order) && j.Arr? && count <= |j.items|
    ensures |ItemsText(j, count, depth, order)| == ItemsLen(j, count, depth) + Commas(count)
    ensures count > 0 ==> |ItemsText(j, count, depth, order)| > 0
    decreases j, 0, count
  {
    hide Iterates, Text, PrettyLen;
    if count != 0 {
      ItemsMeasure(j, count - 1, depth, order);
      TextMeasures(j.items[count - 1], depth, order);
      TextIsNotEmpty(j.items[count - 1], depth, order);
    }
  }

  ghost function KeySet(keys: seq<string>): set<string> {
    set key | key in keys
  }

  lemma KeySetSplits(keys: seq<string>)
    requires keys != [] && forall a, b :: 0 <= a < b < |keys| ==> keys[a] != keys[b]
    ensures keys[|keys| - 1] in KeySet(keys)
    ensures KeySet(keys) - {keys[|keys| - 1]} == KeySet(keys[..|keys| - 1])
  {
    var last := |keys| - 1;
    assert forall key :: key in keys <==> key in keys[..last] || key == keys[last];
  }

  lemma FieldsTextGrows(j: Json, keys: seq<string>, depth: nat, order: Order)
    requires Iterates(order) && j.Obj? && (forall key :: key in keys ==> key in j.fields) && keys != []
    ensures var last := |keys| - 1;
            |FieldsText(j, keys, depth, order)|
            == |FieldsText(j, keys[..last], depth, order)| + |Separator(last)|
               + EntryLen(keys[last], |Text(j.fields[keys[last]], depth, order)|, depth)
  {
    hide Iterates, Text;
    StringMeasures(keys[|keys| - 1]);
    hide StringText, TextLen;
  }

  lemma NoFields(j: Json, depth: nat, order: Order)
    requires Iterates(order) && j.Obj?
    ensures KeySet([]) == {} && FieldsText(j, [], depth, order) == [] && FieldsLen(j, {}, depth) == 0 && Commas(0) == 0
  {
    hide Iterates, Text, PrettyLen;
  }

  lemma OneMoreField(j: Json, keys: seq<string>, depth: nat, order: Order)
    requires Iterates(order) && j.Obj? && (forall key :: key in keys ==> key in j.fields) && keys != []
    requires forall a, b :: 0 <= a < b < |keys| ==> keys[a] != keys[b]
    requires KeySet(keys[..|keys| - 1]) <= j.fields.Keys
    requires |FieldsText(j, keys[..|keys| - 1], depth, order)|
             == FieldsLen(j, KeySet(keys[..|keys| - 1]), depth) + Commas(|keys| - 1)
    requires var field := j.fields[keys[|keys| - 1]];
             |Text(field, depth, order)| == PrettyLen(field, depth)
    ensures KeySet(keys) <= j.fields.Keys
    ensures |FieldsText(j, keys, depth, order)| == FieldsLen(j, KeySet(keys), depth) + Commas(|keys|)
  {
    hide Iterates, Text, PrettyLen, TextLen, FieldsText, FieldsLen;
    FieldsTextGrows(j, keys, depth, order);
    KeySetSplits(keys);
    FieldsLenSplits(j, KeySet(keys), depth, keys[|keys| - 1]);
  }

  lemma {:induction false} FieldsMeasure(j: Json, keys: seq<string>, depth: nat, order: Order)
    requires Iterates(order) && j.Obj? && forall key :: key in keys ==> key in j.fields
    requires forall a, b :: 0 <= a < b < |keys| ==> keys[a] != keys[b]
    ensures KeySet(keys) <= j.fields.Keys
    ensures |FieldsText(j, keys, depth, order)| == FieldsLen(j, KeySet(keys), depth) + Commas(|keys|)
    decreases j, 0, |keys|
  {
    hide Iterates, Text, PrettyLen, FieldsText, FieldsLen, KeySet, Commas;
    if keys == [] {
      NoFields(j, depth, order);
    } else {
      var last := |keys| - 1;
      FieldsMeasure(j, keys[..last], depth, order);
      TextMeasures(j.fields[keys[last]], depth, order);
      OneMoreField(j, keys, depth, order);
    }
  }

  lemma {:induction false} ArrayMeasures(j: Json, depth: nat, order: Order)
    requires Iterates(order) && j.Arr?
    ensures |Text(j, depth, order)| == PrettyLen(j, depth)
    decreases j, 1, 0
  {
    var n := |j.items|;
    ItemsMeasure(j, n, depth + 1, order);
    FrameMeasures(0x5B, ItemsText(j, n, depth + 1, order), 0x5D, depth, n, ItemsLen(j, n, depth + 1));
  }

  lemma {:induction false} ObjectMeasures(j: Json, depth: nat, order: Order)
    requires Iterates(order) && j.Obj?
    ensures |Text(j, depth, order)| == PrettyLen(j, depth)
    decreases j, 1, 0
  {
    var keys := order(j);
    assert Lists(keys, j.fields);
    FieldsMeasure(j, keys, depth + 1, order);
    assert KeySet(keys) == j.fields.Keys;
    ListedOnce(keys);
    if keys != [] {
      FieldsTextGrows(j, keys, depth + 1, order);
    }
    FrameMeasures(0x7B, FieldsText(j, keys, depth + 1, order), 0x7D, depth, |keys|,
                  FieldsLen(j, j.fields.Keys, depth + 1));
  }

  /** The measured length is the length of the text, whatever order an object's keys are iterated in. */
  lemma {:induction false} TextMeasures(j: Json, depth: nat, order: Order)
    requires Iterates(order)
    ensures |Text(j, depth, order)| == PrettyLen(j, depth)
    decreases j, 2, 0
  {
    match j {
      case Null =>
      case Bool(_) =>
      case Num(n) => NumMeasures(n);
      case Str(s) => StringMeasures(s);
      case Arr(_) => ArrayMeasures(j, depth, order);
      case Obj(_) => ObjectMeasures(j, depth, order);
    }
  }

  lemma {:induction false} ListedOnce(keys: seq<string>)
    requires forall a, b :: 0 <= a < b < |keys| ==> keys[a] != keys[b]
    ensures |KeySet(keys)| == |keys|
  {
    if keys != [] {
      var last := |keys| - 1;
      ListedOnce(keys[..last]);
      assert KeySet(keys) == KeySet(keys[..last]) + {keys[last]};
    } else {
      assert KeySet(keys) == {};
    }
  }
}
