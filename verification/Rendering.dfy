/** The byte length of pretty-printed JSON: two spaces a level, one entry a line. */
module Rendering {
  import opened JsonValues

  /** One character in a JSON string: escaped if it must be, UTF-8 otherwise. */
  function CharLen(c: char): nat {
    if c == '\"' || c == '\\' then 2
    else if c as int in {8, 9, 10, 12, 13} then 2
    else if c as int < 0x20 then 6
    else if c as int < 0x80 then 1
    else if c as int < 0x800 then 2
    else if c as int < 0x10000 then 3
    else 4
  }

  function TextLen(text: string): nat {
    if text == "" then 2 else TextLen(text[..|text| - 1]) + CharLen(text[|text| - 1])
  }

  function DigitsLen(n: nat): (len: nat)
    ensures len > 0
  {
    if n < 10 then 1 else DigitsLen(n / 10) + 1
  }

  function NumLen(n: int): (len: nat)
    ensures len > 0
  {
    if n < 0 then DigitsLen(-n) + 1 else DigitsLen(n)
  }

  /** Brackets, line breaks and separators around `count` entries whose own lines take `inner` bytes. */
  function FramedLen(count: nat, inner: nat, depth: nat): nat {
    if count == 0 then 2 else 2 + inner + 2 * (count - 1) + 1 + 2 * depth + 1
  }

  ghost function PrettyLen(j: Json, depth: nat): nat
    decreases j, 1, 0
  {
    match j
    case Null => 4
    case Bool(b) => if b then 4 else 5
    case Num(n) => NumLen(n)
    case Str(s) => TextLen(s)
    case Arr(items) => FramedLen(|items|, ItemsLen(j, |items|, depth + 1), depth)
    case Obj(fields) => FramedLen(|fields|, FieldsLen(j, fields.Keys, depth + 1), depth)
  }

  /** The lines of the first `count` elements. */
  ghost function ItemsLen(j: Json, count: nat, depth: nat): nat
    requires j.Arr? && count <= |j.items|
    decreases j, 0, count
  {
    if count == 0 then 0 else ItemsLen(j, count - 1, depth) + 2 * depth + PrettyLen(j.items[count - 1], depth)
  }

  ghost function FieldsLen(j: Json, keys: set<string>, depth: nat): nat
    requires j.Obj? && keys <= j.fields.Keys
    decreases j, 0, |keys|
  {
    if keys == {} then 0 else
    var key :| key in keys;
    EntryLen(key, PrettyLen(j.fields[key], depth), depth) + FieldsLen(j, keys - {key}, depth)
  }

  function EntryLen(key: string, value: nat, depth: nat): nat {
    2 * depth + TextLen(key) + 2 + value
  }

  /** The order fields are summed in does not matter. */
  lemma {:induction false} FieldsLenSplits(j: Json, keys: set<string>, depth: nat, key: string)
    requires j.Obj? && keys <= j.fields.Keys && key in keys
    ensures FieldsLen(j, keys, depth)
            == EntryLen(key, PrettyLen(j.fields[key], depth), depth) + FieldsLen(j, keys - {key}, depth)
    decreases |keys|
  {
    var first :| first in keys && FieldsLen(j, keys, depth)
                 == EntryLen(first, PrettyLen(j.fields[first], depth), depth) + FieldsLen(j, keys - {first}, depth);
    if first != key {
      FieldsLenSplits(j, keys - {first}, depth, key);
      FieldsLenSplits(j, keys - {key}, depth, first);
      assert keys - {first} - {key} == keys - {key} - {first};
    }
  }

  /** Entry by entry no longer means no longer as a whole. */
  lemma {:induction false} FieldsLenGrows(a: Json, b: Json, keys: set<string>, depth: nat)
    requires a.Obj? && b.Obj? && keys <= a.fields.Keys && keys <= b.fields.Keys
    requires forall key :: key in keys ==> PrettyLen(a.fields[key], depth) <= PrettyLen(b.fields[key], depth)
    ensures FieldsLen(a, keys, depth) <= FieldsLen(b, keys, depth)
    decreases |keys|
  {
    if keys != {} {
      var key :| key in keys;
      FieldsLenSplits(a, keys, depth, key);
      FieldsLenSplits(b, keys, depth, key);
      FieldsLenGrows(a, b, keys - {key}, depth);
    }
  }

  /** Two objects over the same keys, the second no shorter anywhere. */
  lemma ObjectGrows(a: Json, b: Json, depth: nat)
    requires a.Obj? && b.Obj? && a.fields.Keys == b.fields.Keys
    requires forall key :: key in a.fields ==>
               PrettyLen(a.fields[key], depth + 1) <= PrettyLen(b.fields[key], depth + 1)
    ensures PrettyLen(a, depth) <= PrettyLen(b, depth)
  {
    FieldsLenGrows(a, b, a.fields.Keys, depth + 1);
    assert |a.fields| == |a.fields.Keys| && |b.fields| == |b.fields.Keys|;
  }

  lemma {:induction false} ItemsLenAgrees(a: Json, b: Json, count: nat, depth: nat)
    requires a.Arr? && b.Arr? && count <= |a.items| <= |b.items| && a.items == b.items[..|a.items|]
    ensures ItemsLen(a, count, depth) == ItemsLen(b, count, depth)
  {
    if count != 0 {
      ItemsLenAgrees(a, b, count - 1, depth);
    }
  }

  lemma {:induction false} ItemsLenGrows(j: Json, few: nat, many: nat, depth: nat)
    requires j.Arr? && few <= many <= |j.items|
    ensures ItemsLen(j, few, depth) <= ItemsLen(j, many, depth)
    decreases many
  {
    if few < many {
      ItemsLenGrows(j, few, many - 1, depth);
    }
  }

  /** A longer prefix of an array renders no shorter. */
  lemma ArrayGrows(items: seq<Json>, few: nat, many: nat, depth: nat)
    requires few <= many <= |items|
    ensures PrettyLen(Arr(items[..few]), depth) <= PrettyLen(Arr(items[..many]), depth)
  {
    var a, b := Arr(items[..few]), Arr(items[..many]);
    ItemsLenAgrees(a, b, few, depth + 1);
    ItemsLenGrows(b, few, many, depth + 1);
  }

  lemma {:induction false} DigitsGrow(a: nat, b: nat)
    requires a <= b
    ensures DigitsLen(a) <= DigitsLen(b)
  {
    if a >= 10 {
      DigitsGrow(a / 10, b / 10);
    }
  }

  /** The measurement, as a serializer makes it. */
  method Measure(j: Json, depth: nat) returns (len: nat)
    ensures len == PrettyLen(j, depth)
    decreases j
  {
    match j {
      case Null => len := 4;
      case Bool(b) => len := if b then 4 else 5;
      case Num(n) => len := NumLen(n);
      case Str(s) => len := TextLen(s);
      case Arr(items) =>
        var inner := 0;
        for i := 0 to |items|
          invariant inner == ItemsLen(j, i, depth + 1)
        {
          var item := Measure(items[i], depth + 1);
          inner := inner + 2 * (depth + 1) + item;
        }
        len := FramedLen(|items|, inner, depth);
      case Obj(fields) =>
        var inner := 0;
        var todo := fields.Keys;
        while todo != {}
          invariant todo <= fields.Keys
          invariant inner + FieldsLen(j, todo, depth + 1) == FieldsLen(j, fields.Keys, depth + 1)
          decreases |todo|
        {
          var key :| key in todo;
          FieldsLenSplits(j, todo, depth + 1, key);
          var value := Measure(fields[key], depth + 1);
          inner := inner + EntryLen(key, value, depth + 1);
          todo := todo - {key};
        }
        len := FramedLen(|fields|, inner, depth);
    }
  }
}
