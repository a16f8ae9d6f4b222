/** Typed access to JSON objects, as serde's derived deserializers do it, and the length of printed objects. */
module Fields {
  import opened Wrappers
  import opened Text
  import opened Json

  /** A Rust `String`. */
  type Utf8 = s: string | ValidUtf8(s) witness ""

  predicate Known(fields: seq<Field>, keys: seq<string>) {
    forall i :: 0 <= i < |fields| ==> fields[i].key in keys
  }

  /** A second occurrence of a field is an error in every derived deserializer. */
  predicate NoRepeat(fields: seq<Field>) {
    forall i, j :: 0 <= i < j < |fields| ==> fields[i].key != fields[j].key
  }

  function Lookup(fields: seq<Field>, key: string): Option<Json> {
    if fields == [] then None
    else if fields[0].key == key then Some(fields[0].value)
    else Lookup(fields[1..], key)
  }

  lemma {:induction false} LookupFound(fields: seq<Field>, i: nat)
    requires i < |fields| && NoRepeat(fields)
    ensures Lookup(fields, fields[i].key) == Some(fields[i].value)
  {
    if i > 0 {
      assert fields[1..][i - 1] == fields[i];
      LookupFound(fields[1..], i - 1);
    }
  }

  lemma {:induction false} LookupMissing(fields: seq<Field>, key: string)
    requires forall i :: 0 <= i < |fields| ==> fields[i].key != key
    ensures Lookup(fields, key) == None
  {
    if fields != [] {
      LookupMissing(fields[1..], key);
    }
  }

  function AsU16(v: Option<Json>): Option<u16> {
    match v
    case Some(JNum(n)) => if n < 0x1_0000 then Some(n) else None
    case _ => None
  }

  function AsU64(v: Option<Json>): Option<u64> {
    match v
    case Some(JNum(n)) => if n < 0x1_0000_0000_0000_0000 then Some(n) else None
    case _ => None
  }

  function AsString(v: Option<Json>): Option<Utf8> {
    match v
    case Some(JStr(s)) => if ValidUtf8(s) then Some(s) else None
    case _ => None
  }

  /** `Option<String>` with a serde default: absent and null both mean `None`. */
  function AsOptionalString(v: Option<Json>): Option<Option<Utf8>> {
    match v
    case None => Some(None)
    case Some(JNull) => Some(None)
    case Some(JStr(s)) => if ValidUtf8(s) then Some(Some(s)) else None
    case _ => None
  }

  // ---------------------------------------------------------------- Compact sizes

  /** Bytes of the fields when each is followed by one separator. */
  function FieldsSize(fields: seq<Field>): nat {
    if fields == [] then 0
    else |PrintField(fields[0], Compact, 1)| + 1 + FieldsSize(fields[1..])
  }

  function ItemsSize(items: seq<Json>): nat {
    if items == [] then 0
    else |Print(items[0], Compact, 1)| + 1 + ItemsSize(items[1..])
  }

  lemma {:induction false} FieldsSizeAppend(a: seq<Field>, b: seq<Field>)
    ensures FieldsSize(a + b) == FieldsSize(a) + FieldsSize(b)
  {
    if a == [] {
      assert a + b == b;
    } else {
      assert (a + b)[1..] == a[1..] + b;
      FieldsSizeAppend(a[1..], b);
    }
  }

  lemma {:induction false} CompactDepth(v: Json, d: nat, e: nat)
    ensures Print(v, Compact, d) == Print(v, Compact, e)
    decreases v, 1
  {
    hide Escape, Decimal;
    match v {
      case JArr(items) => if items != [] { CompactItems(items, d + 1, e + 1); }
      case JObj(fields) => if fields != [] { CompactFields(fields, d + 1, e + 1); }
      case _ =>
    }
  }

  lemma {:induction false} CompactItems(items: seq<Json>, d: nat, e: nat)
    requires items != []
    ensures PrintItems(items, Compact, d) == PrintItems(items, Compact, e)
    decreases items, 0
  {
    hide Print;
    CompactDepth(items[0], d, e);
    if |items| > 1 { CompactItems(items[1..], d, e); }
  }

  lemma {:induction false} CompactFields(fields: seq<Field>, d: nat, e: nat)
    requires fields != []
    ensures PrintFields(fields, Compact, d) == PrintFields(fields, Compact, e)
    decreases fields, 0
  {
    hide Print;
    CompactDepth(fields[0].value, d, e);
    if |fields| > 1 { CompactFields(fields[1..], d, e); }
  }

  lemma {:induction false} PrintFieldsSize(fields: seq<Field>)
    requires fields != []
    ensures |PrintFields(fields, Compact, 1)| + 1 == FieldsSize(fields)
  {
    hide Print, PrintField;
    if |fields| > 1 { PrintFieldsSize(fields[1..]); }
  }

  lemma {:induction false} PrintItemsSize(items: seq<Json>)
    requires items != []
    ensures |PrintItems(items, Compact, 1)| + 1 == ItemsSize(items)
  {
    hide Print;
    if |items| > 1 { PrintItemsSize(items[1..]); }
  }

  lemma ObjectSize(fields: seq<Field>, d: nat)
    requires fields != []
    ensures |Print(JObj(fields), Compact, d)| == 1 + FieldsSize(fields)
  {
    hide FieldsSize, PrintFields;
    CompactDepth(JObj(fields), d, 0);
    PrintFieldsSize(fields);
  }

  lemma ArraySize(items: seq<Json>, d: nat)
    ensures |Print(JArr(items), Compact, d)| == if items == [] then 2 else 1 + ItemsSize(items)
  {
    hide ItemsSize, PrintItems;
    CompactDepth(JArr(items), d, 0);
    if items != [] { PrintItemsSize(items); }
  }
}
