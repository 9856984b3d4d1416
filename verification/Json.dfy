/** JSON values and the compact text that serde_json prints for them (RFC 8259). */
module Json {
  import opened Options

  datatype Field = Field(name: string, value: Value)

  /** The characters of a number (section 6 of RFC 8259). */
  predicate IsNumberText(s: string) {
    s != "" && forall i :: 0 <= i < |s| ==> s[i] in "0123456789+-.eE"
  }

  type NumberText = s: string | IsNumberText(s) witness "0"

  datatype Value =
    | Null
    | Bool(b: bool)
    | Number(digits: NumberText)
    | Str(s: string)
    | Array(items: seq<Value>)
    | Object(fields: seq<Field>)
  {
    /** `Value::get(key)`: nothing for a missing key or for a value that is not an object. */
    function Get(key: string): Option<Value> {
      if Object? then Lookup(fields, key) else None
    }

    function AsStr(): Option<string> {
      if Str? then Some(s) else None
    }

    /** `obj[key] = v` on an object. */
    function Set(key: string, v: Value): Value
      requires Object?
    {
      Object(Replace(fields, key, v))
    }
  }

  /** The text at a key, if there is one. */
  function TextAt(v: Value, key: string): Option<string> {
    var field := v.Get(key);
    if field.Some? then field.value.AsStr() else None
  }

  function NameOf(v: Value): Option<string> {
    TextAt(v, "name")
  }

  function Lookup(fields: seq<Field>, key: string): Option<Value> {
    if fields == [] then None
    else if fields[0].name == key then Some(fields[0].value)
    else Lookup(fields[1..], key)
  }

  /** Field by field through a literal object. */
  lemma LookupNext(f: Field, rest: seq<Field>, key: string)
    ensures Lookup([f] + rest, key) == if f.name == key then Some(f.value) else Lookup(rest, key)
  {
  }

  /** The field at an index, when none before it has its name. */
  lemma {:induction false} LookupAt(fields: seq<Field>, i: nat, key: string)
    requires i < |fields| && fields[i].name == key && forall j :: 0 <= j < i ==> fields[j].name != key
    ensures Lookup(fields, key) == Some(fields[i].value)
  {
    if i > 0 { LookupAt(fields[1..], i - 1, key); }
  }

  lemma {:induction false} LookupMissing(fields: seq<Field>, key: string)
    requires forall j :: 0 <= j < |fields| ==> fields[j].name != key
    ensures Lookup(fields, key) == None
  {
    if fields != [] { LookupMissing(fields[1..], key); }
  }

  function Replace(fields: seq<Field>, key: string, v: Value): (r: seq<Field>) {
    if fields == [] then [Field(key, v)]
    else if fields[0].name == key then [Field(key, v)] + fields[1..]
    else [fields[0]] + Replace(fields[1..], key, v)
  }

  lemma {:induction false} LookupReplace(fields: seq<Field>, key: string, v: Value, other: string)
    ensures Lookup(Replace(fields, key, v), other) == if other == key then Some(v) else Lookup(fields, other)
  {
    if fields != [] && fields[0].name != key {
      LookupReplace(fields[1..], key, v, other);
    }
  }

  /** The decimal digits of a number. */
  function Decimal(n: nat): (s: NumberText)
    ensures forall i :: 0 <= i < |s| ==> s[i] in "0123456789"
  {
    if n < 10 then ["0123456789"[n]] else Decimal(n / 10) + ["0123456789"[n % 10]]
  }

  // ---- Serialisation ----

  function HexDigit(n: nat): char
    requires n < 16
  {
    "0123456789abcdef"[n]
  }

  /** The escapes of section 7 of RFC 8259, in the short form where there is one. */
  function EscapeChar(c: char): string {
    if c == '"' then "\\\""
    else if c == '\\' then "\\\\"
    else if c as int == 0x08 then "\\b"
    else if c as int == 0x09 then "\\t"
    else if c as int == 0x0A then "\\n"
    else if c as int == 0x0C then "\\f"
    else if c as int == 0x0D then "\\r"
    else if c as int < 0x20 then "\\u00" + [HexDigit(c as int / 16), HexDigit(c as int % 16)]
    else [c]
  }

  function Escape(s: string): string {
    if s == "" then "" else EscapeChar(s[0]) + Escape(s[1..])
  }

  function Quote(s: string): string {
    "\"" + Escape(s) + "\""
  }

  function Serialize(v: Value): string
    decreases v, 1
  {
    match v
    case Null => "null"
    case Bool(b) => if b then "true" else "false"
    case Number(digits) => digits
    case Str(s) => Quote(s)
    case Array(items) => "[" + SerializeItems(items) + "]"
    case Object(fields) => "{" + SerializeFields(fields) + "}"
  }

  function SerializeItems(items: seq<Value>): string
    decreases items, 0
  {
    if items == [] then "" else
      Serialize(items[0]) + (if |items| == 1 then "" else "," + SerializeItems(items[1..]))
  }

  function SerializeFields(fields: seq<Field>): string
    decreases fields, 0
  {
    if fields == [] then "" else
      Quote(fields[0].name) + ":" + Serialize(fields[0].value)
      + (if |fields| == 1 then "" else "," + SerializeFields(fields[1..]))
  }

  // ---- What serialised text is made of ----

  predicate NoControl(s: string) {
    forall i :: 0 <= i < |s| ==> 0x20 <= s[i] as int
  }

  lemma {:induction false} EscapeHasNoControl(s: string)
    ensures NoControl(Escape(s))
  {
    if s != "" { EscapeHasNoControl(s[1..]); }
  }

  lemma NoControlConcat(a: string, b: string, c: string)
    requires NoControl(a) && NoControl(b) && NoControl(c)
    ensures NoControl(a + b + c)
  {
  }

  /** Serialised JSON contains no control character, so it is free of line breaks. */
  lemma {:induction false} SerializeHasNoControl(v: Value)
    ensures NoControl(Serialize(v))
    decreases v, 1
  {
    match v
    case Null =>
    case Bool(b) =>
    case Number(digits) =>
    case Str(s) => EscapeHasNoControl(s);
    case Array(items) =>
      ItemsHaveNoControl(items);
      assert NoControl("[") && NoControl("]");
      NoControlConcat("[", SerializeItems(items), "]");
    case Object(fields) =>
      FieldsHaveNoControl(fields);
      assert NoControl("{") && NoControl("}");
      NoControlConcat("{", SerializeFields(fields), "}");
  }

  lemma {:induction false} ItemsHaveNoControl(items: seq<Value>)
    ensures NoControl(SerializeItems(items))
    decreases items, 0
  {
    if items != [] {
      SerializeHasNoControl(items[0]);
      if |items| > 1 { ItemsHaveNoControl(items[1..]); }
    }
  }

  lemma {:induction false} FieldsHaveNoControl(fields: seq<Field>)
    ensures NoControl(SerializeFields(fields))
    decreases fields, 0
  {
    if fields != [] {
      EscapeHasNoControl(fields[0].name);
      SerializeHasNoControl(fields[0].value);
      if |fields| > 1 { FieldsHaveNoControl(fields[1..]); }
    }
  }
}
