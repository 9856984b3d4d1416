/** A reader of compact JSON text (RFC 8259): what is printed for a value reads back as that value, so
    a parser of the kind that the transformer is given exists. */
module JsonReading {
  import opened Options
  import opened Json
  import opened Text

  // ---- Numbers and strings ----

  predicate IsNumberChar(c: char) {
    '0' <= c <= '9' || c == '+' || c == '-' || c == '.' || c == 'e' || c == 'E'
  }

  /** The length of the number that the text begins with. */
  function NumberRun(s: string): (k: nat)
    ensures k <= |s| && forall i :: 0 <= i < k ==> IsNumberChar(s[i])
  {
    if s == "" || !IsNumberChar(s[0]) then 0 else 1 + NumberRun(s[1..])
  }

  function HexValue(c: char): Option<nat> {
    if '0' <= c <= '9' then Some((c - '0') as nat)
    else if 'a' <= c <= 'f' then Some((c - 'a') as nat + 10)
    else None
  }

  /** The code of four hexadecimal digits. */
  function HexCode(s: string): Option<nat>
    requires |s| == 4
  {
    var a, b, c, d := HexValue(s[0]), HexValue(s[1]), HexValue(s[2]), HexValue(s[3]);
    if a.Some? && b.Some? && c.Some? && d.Some?
    then Some(((a.value * 16 + b.value) * 16 + c.value) * 16 + d.value) else None
  }

  /** One character of a string literal, and what follows it. */
  function ReadChar(s: string): (r: Option<(char, string)>)
    ensures r.Some? ==> |r.value.1| < |s|
  {
    if s == "" || s[0] as int < 0x20 || s[0] == '"' then None
    else if s[0] != '\\' then Some((s[0], s[1..]))
    else if |s| < 2 then None
    else
      match s[1]
      case '"' => Some(('"', s[2..]))
      case '\\' => Some(('\\', s[2..]))
      case '/' => Some(('/', s[2..]))
      case 'b' => Some(('\U{0008}', s[2..]))
      case 't' => Some(('\t', s[2..]))
      case 'n' => Some(('\n', s[2..]))
      case 'f' => Some(('\U{000C}', s[2..]))
      case 'r' => Some(('\r', s[2..]))
      case 'u' =>
        if |s| >= 6 && HexCode(s[2..6]).Some? && HexCode(s[2..6]).value < 0xD800
        then Some((HexCode(s[2..6]).value as char, s[6..])) else None
      case _ => None
  }

  /** The characters up to the closing quote, and what follows it. */
  function ReadChars(s: string): (r: Option<(string, string)>)
    ensures r.Some? ==> |r.value.1| < |s|
    decreases |s|
  {
    if s != "" && s[0] == '"' then Some(("", s[1..]))
    else
      var c := ReadChar(s);
      if c.None? then None else
        var more := ReadChars(c.value.1);
        if more.None? then None else Some(([c.value.0] + more.value.0, more.value.1))
  }

  // ---- Values ----

  function ReadWord(s: string, word: string, v: Value): (r: Option<(Value, string)>)
    requires word != ""
    ensures r.Some? ==> |r.value.1| < |s|
  {
    if word <= s then Some((v, s[|word|..])) else None
  }

  function ReadValue(s: string): (r: Option<(Value, string)>)
    ensures r.Some? ==> |r.value.1| < |s|
    decreases |s|, 1
  {
    if s == "" then None
    else
      match s[0]
      case 'n' => ReadWord(s, "null", Null)
      case 't' => ReadWord(s, "true", Bool(true))
      case 'f' => ReadWord(s, "false", Bool(false))
      case '"' =>
        var text := ReadChars(s[1..]);
        if text.Some? then Some((Str(text.value.0), text.value.1)) else None
      case '[' =>
        if |s| > 1 && s[1] == ']' then Some((Array([]), s[2..])) else
          var items := ReadItems(s[1..]);
          if items.Some? then Some((Array(items.value.0), items.value.1)) else None
      case '{' =>
        if |s| > 1 && s[1] == '}' then Some((Object([]), s[2..])) else
          var fields := ReadFields(s[1..]);
          if fields.Some? then Some((Object(fields.value.0), fields.value.1)) else None
      case _ =>
        var k := NumberRun(s);
        if k > 0 then Some((Number(s[..k]), s[k..])) else None
  }

  /** Items up to the closing bracket. */
  function ReadItems(s: string): (r: Option<(seq<Value>, string)>)
    ensures r.Some? ==> |r.value.1| < |s|
    decreases |s|, 2
  {
    var first := ReadValue(s);
    if first.None? then None else
      var (v, rest) := first.value;
      if rest == "" then None
      else if rest[0] == ']' then Some(([v], rest[1..]))
      else if rest[0] != ',' then None
      else
        var more := ReadItems(rest[1..]);
        if more.Some? then Some(([v] + more.value.0, more.value.1)) else None
  }

  /** One field: a name, a colon and a value. */
  function ReadField(s: string): (r: Option<(Field, string)>)
    ensures r.Some? ==> |r.value.1| < |s|
    decreases |s|, 2
  {
    if s == "" || s[0] != '"' then None else
      var name := ReadChars(s[1..]);
      if name.None? || name.value.1 == "" || name.value.1[0] != ':' then None else
        var v := ReadValue(name.value.1[1..]);
        if v.Some? then Some((Field(name.value.0, v.value.0), v.value.1)) else None
  }

  function ReadFields(s: string): (r: Option<(seq<Field>, string)>)
    ensures r.Some? ==> |r.value.1| < |s|
    decreases |s|, 3
  {
    var first := ReadField(s);
    if first.None? then None else
      var (f, rest) := first.value;
      if rest == "" then None
      else if rest[0] == '}' then Some(([f], rest[1..]))
      else if rest[0] != ',' then None
      else
        var more := ReadFields(rest[1..]);
        if more.Some? then Some(([f] + more.value.0, more.value.1)) else None
  }

  /** A whole text. */
  function Parse(s: string): Option<Value> {
    var r := ReadValue(s);
    if r.Some? && r.value.1 == "" then Some(r.value.0) else None
  }

  // ---- Reading back ----

  lemma HexDigitReads(n: nat)
    requires n < 16
    ensures HexValue(HexDigit(n)) == Some(n)
  {
  }

  /** Every character reads back, however it was escaped. */
  lemma CharReads(c: char, rest: string)
    ensures ReadChar(EscapeChar(c) + rest) == Some((c, rest))
    ensures EscapeChar(c) != "" && EscapeChar(c)[0] != '"'
  {
    var s := EscapeChar(c) + rest;
    if |EscapeChar(c)| == 6 {
      var n := c as int;
      HexDigitReads(n / 16);
      HexDigitReads(n % 16);
      assert EscapeChar(c) == "\\u00" + [HexDigit(n / 16), HexDigit(n % 16)];
      assert s[2..6] == ['0', '0', HexDigit(n / 16), HexDigit(n % 16)];
      assert s[6..] == rest;
    } else if |EscapeChar(c)| == 2 {
      assert s[2..] == rest;
    } else {
      assert s[1..] == rest;
    }
  }

  lemma CharsEnd(rest: string)
    ensures ReadChars("\"" + rest) == Some(("", rest))
  {
    assert ("\"" + rest)[1..] == rest;
  }

  lemma CharsGoOn(s: string, c: char, t: string, cs: string, rest: string)
    requires s != "" && s[0] != '"' && ReadChar(s) == Some((c, t)) && ReadChars(t) == Some((cs, rest))
    ensures ReadChars(s) == Some(([c] + cs, rest))
  {
  }

  lemma SplitFirst<T>(s: seq<T>)
    requires s != []
    ensures [s[0]] + s[1..] == s && (|s| == 1 ==> s == [s[0]])
  {
  }

  lemma Reassociate(a: string, b: string, c: string)
    ensures (a + b) + c == a + (b + c)
  {
  }

  /** The text of the first character, told by how it reads. */
  lemma FirstEscaped(s: string) returns (e: string)
    requires s != ""
    ensures Escape(s) == e + Escape(s[1..]) && e != "" && e[0] != '"'
    ensures forall rest :: ReadChar(e + rest) == Some((s[0], rest))
  {
    e := EscapeChar(s[0]);
    CharReads(s[0], "");
    forall rest ensures ReadChar(e + rest) == Some((s[0], rest)) { CharReads(s[0], rest); }
  }

  lemma CharsStep(e: string, c: char, more: string, cs: string, tail: string, rest: string)
    requires e != "" && e[0] != '"' && ReadChar(e + (more + tail)) == Some((c, more + tail))
    requires ReadChars(more + tail) == Some((cs, rest))
    ensures ReadChars((e + more) + tail) == Some(([c] + cs, rest))
  {
    Reassociate(e, more, tail);
    CharsGoOn(e + (more + tail), c, more + tail, cs, rest);
  }

  lemma {:induction false} CharsRead(s: string, rest: string)
    ensures ReadChars(Escape(s) + ("\"" + rest)) == Some((s, rest))
    decreases |s|
  {
    var tail := "\"" + rest;
    if s == "" {
      CharsEnd(rest);
      assert "" + tail == tail;
    } else {
      var e := FirstEscaped(s);
      CharsRead(s[1..], rest);
      CharsStep(e, s[0], Escape(s[1..]), s[1..], tail, rest);
      SplitFirst(s);
    }
  }

  /** A number is not continued by what follows. */
  predicate Delimits(rest: string) {
    rest == "" || !IsNumberChar(rest[0])
  }

  lemma {:induction false} NumberReads(digits: string, rest: string)
    requires (forall i :: 0 <= i < |digits| ==> IsNumberChar(digits[i])) && Delimits(rest)
    ensures NumberRun(digits + rest) == |digits|
  {
    if digits == "" {
      assert digits + rest == rest;
    } else {
      assert (digits + rest)[1..] == digits[1..] + rest;
      NumberReads(digits[1..], rest);
    }
  }

  lemma WordReads(word: string, v: Value, rest: string)
    requires word != ""
    ensures ReadWord(word + rest, word, v) == Some((v, rest))
  {
    assert (word + rest)[|word|..] == rest;
  }

  lemma Bracketed(open: char, text: string, close: char, rest: string)
    ensures ([open] + text + [close] + rest)[1..] == text + ([close] + rest)
    ensures text != "" ==> ([open] + text + [close] + rest)[1] == text[0]
  {
  }

  lemma QuoteReads(s: string, rest: string)
    ensures Quote(s) + rest != "" && (Quote(s) + rest)[0] == '"'
    ensures ReadChars((Quote(s) + rest)[1..]) == Some((s, rest))
  {
    CharsRead(s, rest);
    Bracketed('"', Escape(s), '"', rest);
  }

  // Reading by the first character.

  lemma NumberStarts(s: string)
    requires s != "" && IsNumberChar(s[0])
    ensures ReadValue(s) == Some((Number(s[..NumberRun(s)]), s[NumberRun(s)..]))
  {
  }

  lemma StringStarts(s: string, text: string, rest: string)
    requires s != "" && s[0] == '"' && ReadChars(s[1..]) == Some((text, rest))
    ensures ReadValue(s) == Some((Str(text), rest))
  {
  }

  lemma ArrayStarts(s: string, items: seq<Value>, rest: string)
    requires |s| > 1 && s[0] == '[' && s[1] != ']' && ReadItems(s[1..]) == Some((items, rest))
    ensures ReadValue(s) == Some((Array(items), rest))
  {
  }

  lemma ObjectStarts(s: string, fields: seq<Field>, rest: string)
    requires |s| > 1 && s[0] == '{' && s[1] != '}' && ReadFields(s[1..]) == Some((fields, rest))
    ensures ReadValue(s) == Some((Object(fields), rest))
  {
  }

  lemma EmptyReads(rest: string)
    ensures ReadValue("[]" + rest) == Some((Array([]), rest)) && ReadValue("{}" + rest) == Some((Object([]), rest))
  {
    assert ("[]" + rest)[2..] == rest && ("{}" + rest)[2..] == rest;
  }

  lemma LastItem(s: string, v: Value, rest: string)
    requires ReadValue(s) == Some((v, "]" + rest))
    ensures ReadItems(s) == Some(([v], rest))
  {
    assert ("]" + rest)[1..] == rest;
  }

  lemma OneMoreItem(s: string, v: Value, t: string, items: seq<Value>, rest: string)
    requires ReadValue(s) == Some((v, "," + t)) && ReadItems(t) == Some((items, rest))
    ensures ReadItems(s) == Some(([v] + items, rest))
  {
    assert ("," + t)[1..] == t;
  }

  lemma FieldStarts(s: string, name: string, t: string, v: Value, rest: string)
    requires s != "" && s[0] == '"' && ReadChars(s[1..]) == Some((name, ":" + t)) && ReadValue(t) == Some((v, rest))
    ensures ReadField(s) == Some((Field(name, v), rest))
  {
    assert (":" + t)[1..] == t;
  }

  lemma LastField(s: string, f: Field, rest: string)
    requires ReadField(s) == Some((f, "}" + rest))
    ensures ReadFields(s) == Some(([f], rest))
  {
    assert ("}" + rest)[1..] == rest;
  }

  lemma OneMoreField(s: string, f: Field, t: string, fields: seq<Field>, rest: string)
    requires ReadField(s) == Some((f, "," + t)) && ReadFields(t) == Some((fields, rest))
    ensures ReadFields(s) == Some(([f] + fields, rest))
  {
    assert ("," + t)[1..] == t;
  }

  lemma DigitsRead(digits: NumberText, rest: string)
    requires Delimits(rest)
    ensures ReadValue(digits + rest) == Some((Number(digits), rest))
  {
    NumberReads(digits, rest);
    var s := digits + rest;
    assert s[0] == digits[0] && s[..|digits|] == digits && s[|digits|..] == rest;
    NumberStarts(s);
  }

  lemma WordsRead(rest: string)
    ensures ReadValue("null" + rest) == Some((Null, rest))
    ensures ReadValue("true" + rest) == Some((Bool(true), rest))
    ensures ReadValue("false" + rest) == Some((Bool(false), rest))
  {
    WordReads("null", Null, rest);
    WordReads("true", Bool(true), rest);
    WordReads("false", Bool(false), rest);
  }

  /** No value begins with a closing bracket. */
  lemma ItemsOpen(items: seq<Value>)
    requires items != []
    ensures SerializeItems(items) != "" && SerializeItems(items)[0] != ']'
  {
    var first := Serialize(items[0]);
    assert first != "" && first[0] != ']';
    assert SerializeItems(items)[0] == first[0];
  }

  lemma FieldsOpen(fields: seq<Field>)
    requires fields != []
    ensures SerializeFields(fields) != "" && SerializeFields(fields)[0] == '"'
  {
    assert SerializeFields(fields)[0] == Quote(fields[0].name)[0];
  }

  /** What is printed for a value reads back as that value, and what follows is left. */
  lemma {:induction false} ValueReads(v: Value, rest: string)
    requires Delimits(rest)
    ensures ReadValue(Serialize(v) + rest) == Some((v, rest))
    decreases v, 1
  {
    match v
    case Null => WordsRead(rest);
    case Bool(b) => WordsRead(rest);
    case Number(digits) => DigitsRead(digits, rest);
    case Str(s) =>
      QuoteReads(s, rest);
      StringStarts(Quote(s) + rest, s, rest);
    case Array(items) => if items == [] { EmptyReads(rest); } else { ArrayReads(items, rest); }
    case Object(fields) => if fields == [] { EmptyReads(rest); } else { ObjectReads(fields, rest); }
  }

  lemma {:induction false} ArrayReads(items: seq<Value>, rest: string)
    requires items != []
    ensures ReadValue("[" + SerializeItems(items) + "]" + rest) == Some((Array(items), rest))
    decreases items, 1
  {
    ItemsRead(items, rest);
    ItemsOpen(items);
    Bracketed('[', SerializeItems(items), ']', rest);
    ArrayStarts("[" + SerializeItems(items) + "]" + rest, items, rest);
  }

  lemma {:induction false} ObjectReads(fields: seq<Field>, rest: string)
    requires fields != []
    ensures ReadValue("{" + SerializeFields(fields) + "}" + rest) == Some((Object(fields), rest))
    decreases fields, 1
  {
    FieldsRead(fields, rest);
    FieldsOpen(fields);
    Bracketed('{', SerializeFields(fields), '}', rest);
    ObjectStarts("{" + SerializeFields(fields) + "}" + rest, fields, rest);
  }

  lemma Regroup(a: string, b: string, c: string)
    ensures (a + ("," + b)) + c == a + ("," + (b + c))
  {
    assert "," + (b + c) == ("," + b) + c;
  }

  lemma MoreItems(first: string, v: Value, text: string, items: seq<Value>, close: string, rest: string)
    requires ReadValue(first + ("," + (text + close))) == Some((v, "," + (text + close)))
    requires ReadItems(text + close) == Some((items, rest))
    ensures ReadItems((first + ("," + text)) + close) == Some(([v] + items, rest))
  {
    Regroup(first, text, close);
    OneMoreItem(first + ("," + (text + close)), v, text + close, items, rest);
  }

  lemma ItemsText(items: seq<Value>)
    requires items != []
    ensures SerializeItems(items) == if |items| == 1 then Serialize(items[0])
      else Serialize(items[0]) + ("," + SerializeItems(items[1..]))
  {
  }

  lemma {:induction false} ItemsRead(items: seq<Value>, rest: string)
    requires items != []
    ensures ReadItems(SerializeItems(items) + ("]" + rest)) == Some((items, rest))
    decreases items, 0
  {
    var close := "]" + rest;
    ItemsText(items);
    SplitFirst(items);
    if |items| == 1 {
      ValueReads(items[0], close);
      LastItem(Serialize(items[0]) + close, items[0], rest);
    } else {
      var text := SerializeItems(items[1..]);
      ItemsRead(items[1..], rest);
      ValueReads(items[0], "," + (text + close));
      MoreItems(Serialize(items[0]), items[0], text, items[1..], close, rest);
    }
  }

  lemma {:induction false} FieldReads(f: Field, rest: string)
    requires Delimits(rest)
    ensures ReadField(Quote(f.name) + ":" + Serialize(f.value) + rest) == Some((f, rest))
    decreases f, 2
  {
    var t := Serialize(f.value) + rest;
    QuoteReads(f.name, ":" + t);
    ValueReads(f.value, rest);
    assert Quote(f.name) + ":" + Serialize(f.value) + rest == Quote(f.name) + (":" + t);
    FieldStarts(Quote(f.name) + (":" + t), f.name, t, f.value, rest);
  }

  lemma MoreFields(first: string, f: Field, text: string, fields: seq<Field>, close: string, rest: string)
    requires ReadField(first + ("," + (text + close))) == Some((f, "," + (text + close)))
    requires ReadFields(text + close) == Some((fields, rest))
    ensures ReadFields((first + ("," + text)) + close) == Some(([f] + fields, rest))
  {
    Regroup(first, text, close);
    OneMoreField(first + ("," + (text + close)), f, text + close, fields, rest);
  }

  lemma FieldsText(fields: seq<Field>)
    requires fields != []
    ensures var first := Quote(fields[0].name) + ":" + Serialize(fields[0].value);
      SerializeFields(fields) == if |fields| == 1 then first else first + ("," + SerializeFields(fields[1..]))
  {
  }

  lemma {:induction false} FieldsRead(fields: seq<Field>, rest: string)
    requires fields != []
    ensures ReadFields(SerializeFields(fields) + ("}" + rest)) == Some((fields, rest))
    decreases fields, 0
  {
    var close, first := "}" + rest, Quote(fields[0].name) + ":" + Serialize(fields[0].value);
    FieldsText(fields);
    SplitFirst(fields);
    if |fields| == 1 {
      FieldReads(fields[0], close);
      LastField(first + close, fields[0], rest);
    } else {
      var text := SerializeFields(fields[1..]);
      FieldsRead(fields[1..], rest);
      FieldReads(fields[0], "," + (text + close));
      MoreFields(first, fields[0], text, fields[1..], close, rest);
    }
  }

  /** The whole text of a value reads back, and with anything after it that does not continue a number it
      is no text of a value. */
  lemma ParseInverts(v: Value, after: string)
    requires Delimits(after)
    ensures Parse(Serialize(v) + after) == if after == "" then Some(v) else None
  {
    ValueReads(v, after);
  }

  lemma DigitsSnoc(s: string, c: char)
    requires DigitsValue(s).Some? && '0' <= c <= '9'
    ensures DigitsValue(s + [c]) == Some(10 * DigitsValue(s).value + (c - '0') as int)
  {
    assert (s + [c])[..|s|] == s;
  }

  lemma DigitChar(d: nat)
    requires d < 10
    ensures var c := "0123456789"[d]; '0' <= c <= '9' && (c - '0') as int == d
  {
  }

  /** All digits but the last, and the last one. */
  lemma DecimalEnds(n: nat) returns (front: string, c: char)
    ensures Decimal(n) == front + [c] && '0' <= c <= '9' && (c - '0') as int == n % 10
    ensures front == if n < 10 then "" else Decimal(n / 10)
  {
    c := "0123456789"[n % 10];
    DigitChar(n % 10);
    if n < 10 {
      front := "";
      assert front + [c] == [c];
    } else {
      front := Decimal(n / 10);
    }
  }

  lemma ValueGrows(front: string, c: char, n: nat)
    requires '0' <= c <= '9' && (c - '0') as int == n % 10 && DigitsValue(front) == Some(n / 10)
    ensures DigitsValue(front + [c]) == Some(n)
  {
    DigitsSnoc(front, c);
  }

  lemma {:induction false} DigitsOf(n: nat, digits: string)
    requires digits == Decimal(n)
    ensures DigitsValue(digits) == Some(n)
    decreases n
  {
    var front, c := DecimalEnds(n);
    if n >= 10 { DigitsOf(n / 10, front); }
    ValueGrows(front, c, n);
  }

  /** The digits printed for a number have its value. */
  lemma DecimalReads(n: nat)
    ensures DigitsValue(Decimal(n)) == Some(n)
  {
    DigitsOf(n, Decimal(n));
  }
}
