/** The scanner that pulls one JSON object out of free text (`extract_balanced_json_object`). */
module ObjectScanner {
  import opened Options
  import opened Text
  import opened Json

  datatype Scan = Scan(depth: nat, inString: bool, escape: bool)

  const START := Scan(0, false, false)

  function Outside(depth: nat): Scan { Scan(depth, false, false) }

  /** The state after one character. A `}` with no open brace leaves the depth at zero. */
  function Next(st: Scan, c: char): Scan {
    if st.inString then
      if st.escape then st.(escape := false)
      else if c == '\\' then st.(escape := true)
      else if c == '"' then st.(inString := false)
      else st
    else if c == '"' then st.(inString := true)
    else if c == '{' then st.(depth := st.depth + 1)
    else if c == '}' && st.depth > 0 then st.(depth := st.depth - 1)
    else st
  }

  function Run(st: Scan, s: string): Scan
    decreases |s|
  {
    if s == "" then st else Run(Next(st, s[0]), s[1..])
  }

  predicate Closes(st: Scan, c: char) {
    !st.inString && c == '}' && st.depth == 1
  }

  /** The index of the brace that closes the outermost object. */
  function FirstClose(st: Scan, s: string): (r: Option<nat>)
    ensures r.Some? ==> r.value < |s|
    decreases |s|
  {
    if s == "" then None
    else if Closes(st, s[0]) then Some(0)
    else
      var r := FirstClose(Next(st, s[0]), s[1..]);
      if r.Some? then Some(r.value + 1) else None
  }

  function Extract(s: string): Option<string> {
    var t := TrimStart(s);
    if t == "" || t[0] != '{' then None else
      var end := FirstClose(START, t);
      if end.Some? then Some(t[..end.value + 1]) else None
  }

  function Shift(i: nat, r: Option<nat>): Option<nat> {
    if r.Some? then Some(i + r.value) else None
  }

  lemma OneCharacter(st: Scan, s: string, i: nat)
    requires i < |s|
    ensures Shift(i, FirstClose(st, s[i..])) ==
      if Closes(st, s[i]) then Some(i) else Shift(i + 1, FirstClose(Next(st, s[i]), s[i + 1..]))
  {
  }

  /** The loop. Its answer of nothing for an unmatched `}` is unreachable: the first character
      opened an object and the loop stops where that object closes. */
  method ExtractBalancedJsonObject(text: string) returns (r: Option<string>)
    ensures r == Extract(text)
  {
    var s := TrimStart(text);
    if s == "" || s[0] != '{' {
      return None;
    }
    var depth: nat, inString, escape := 0, false, false;
    ghost var end := FirstClose(START, s);
    assert s[0..] == s && Shift(0, end) == end;
    for i := 0 to |s|
      invariant if i == 0 then depth == 0 && !inString else depth > 0
      invariant end == Shift(i, FirstClose(Scan(depth, inString, escape), s[i..]))
    {
      var ch := s[i];
      OneCharacter(Scan(depth, inString, escape), s, i);
      if inString {
        if escape {
          escape := false;
        } else if ch == '\\' {
          escape := true;
        } else if ch == '"' {
          inString := false;
        }
      } else if ch == '"' {
        inString := true;
      } else if ch == '{' {
        depth := depth + 1;
      } else if ch == '}' {
        if depth == 0 {
          assert false;
        } else {
          depth := depth - 1;
          if depth == 0 {
            return Some(s[..i + 1]);
          }
        }
      }
    }
    r := None;
  }

  // ---- What the scanner returns ----

  /** Every brace outside strings is matched. */
  predicate Balanced(s: string) {
    Run(START, s).depth == 0 && !Run(START, s).inString
  }

  lemma {:induction false} RunConcat(st: Scan, a: string, b: string)
    ensures Run(st, a + b) == Run(Run(st, a), b)
    decreases |a|
  {
    if a == "" {
      assert a + b == b;
    } else {
      assert (a + b)[1..] == a[1..] + b;
      RunConcat(Next(st, a[0]), a[1..], b);
    }
  }

  lemma {:induction false} FirstCloseConcat(st: Scan, a: string, b: string)
    ensures FirstClose(st, a).Some? ==> FirstClose(st, a + b) == FirstClose(st, a)
    ensures FirstClose(st, a).None? ==>
      var r := FirstClose(Run(st, a), b);
      FirstClose(st, a + b) == if r.Some? then Some(|a| + r.value) else None
    decreases |a|
  {
    if a == "" {
      assert a + b == b;
    } else {
      assert (a + b)[1..] == a[1..] + b;
      if !Closes(st, a[0]) { FirstCloseConcat(Next(st, a[0]), a[1..], b); }
    }
  }

  /** Inside the outermost object, the close is the first place where the depth returns to zero. */
  lemma {:induction false} CloseIsFirstZero(st: Scan, s: string, k: nat)
    requires st.depth > 0 && k <= |s|
    ensures Run(st, s[..k]).depth == 0 ==> FirstClose(st, s).Some? && FirstClose(st, s).value < k
    ensures FirstClose(st, s).Some? && FirstClose(st, s).value + 1 == k ==>
      Run(st, s[..k]).depth == 0 && !Run(st, s[..k]).inString
    decreases k
  {
    if k > 0 {
      assert s[..k][0] == s[0] && s[..k][1..] == s[1..][..k - 1];
      if Closes(st, s[0]) {
        if k == 1 { assert s[..1][1..] == ""; }
      } else {
        CloseIsFirstZero(Next(st, s[0]), s[1..], k - 1);
      }
    }
  }

  /** The answer is the shortest non-empty balanced prefix of the trimmed text, and there is one
      exactly when the text opens with a brace and some prefix is balanced. */
  lemma ExtractIsShortestBalanced(s: string)
    ensures var t := TrimStart(s);
      Extract(s).Some? ==>
        && var r := Extract(s).value;
        && 0 < |r| <= |t| && r == t[..|r|] && Balanced(r)
        && forall k :: 0 < k < |r| ==> !Balanced(t[..k])
    ensures var t := TrimStart(s);
      Extract(s).Some? <==> t != "" && t[0] == '{' && exists k :: 0 < k <= |t| && Balanced(t[..k])
  {
    var t := TrimStart(s);
    if t != "" && t[0] == '{' {
      var st := Outside(1);
      forall k | 0 < k <= |t|
        ensures Balanced(t[..k]) ==> FirstClose(START, t).Some? && FirstClose(START, t).value < k
        ensures FirstClose(START, t).Some? && FirstClose(START, t).value + 1 == k ==> Balanced(t[..k])
      {
        assert t[..k][1..] == t[1..][..k - 1];
        CloseIsFirstZero(st, t[1..], k - 1);
      }
      if FirstClose(START, t).Some? { assert Balanced(t[..FirstClose(START, t).value + 1]); }
    }
  }

  // ---- JSON objects delimit themselves ----

  /** The text passes through state `st` without closing anything and without leaving a trace. */
  predicate Neutral(st: Scan, s: string) {
    Run(st, s) == st && FirstClose(st, s).None?
  }

  lemma NeutralConcat(st: Scan, a: string, b: string)
    requires Neutral(st, a) && Neutral(st, b)
    ensures Neutral(st, a + b)
  {
    RunConcat(st, a, b);
    FirstCloseConcat(st, a, b);
  }

  predicate Plain(c: char) {
    c != '"' && c != '{' && c != '}'
  }

  lemma {:induction false} PlainIsNeutral(depth: nat, s: string)
    requires forall i :: 0 <= i < |s| ==> Plain(s[i])
    ensures Neutral(Outside(depth), s)
  {
    if s != "" { PlainIsNeutral(depth, s[1..]); }
  }

  /** A backslash hides the next character. */
  lemma EscapedPair(depth: nat, c: char)
    ensures Neutral(Scan(depth, true, false), "\\" + [c])
  {
    var st, hidden := Scan(depth, true, false), Scan(depth, true, true);
    assert ("\\" + [c])[1..] == [c] && [c][1..] == "";
    assert Next(st, '\\') == hidden && Next(hidden, c) == st;
    assert Run(hidden, [c]) == Run(st, "") && FirstClose(hidden, [c]).None?;
  }

  lemma OrdinaryInString(depth: nat, c: char)
    requires c != '"' && c != '\\'
    ensures Neutral(Scan(depth, true, false), [c])
  {
  }

  lemma EscapedCharIsNeutral(depth: nat, c: char)
    ensures Neutral(Scan(depth, true, false), EscapeChar(c))
  {
    var st, e := Scan(depth, true, false), EscapeChar(c);
    if |e| == 1 {
      OrdinaryInString(depth, c);
    } else {
      EscapedPair(depth, e[1]);
      assert e[..2] == "\\" + [e[1]];
      if |e| == 2 {
        assert e == e[..2];
      } else {
        var h, l := HexDigit(c as int / 16), HexDigit(c as int % 16);
        OrdinaryInString(depth, '0');
        OrdinaryInString(depth, h);
        OrdinaryInString(depth, l);
        NeutralConcat(st, "\\u", "0");
        NeutralConcat(st, "\\u" + "0", "0");
        NeutralConcat(st, "\\u" + "0" + "0", [h]);
        NeutralConcat(st, "\\u" + "0" + "0" + [h], [l]);
        assert e == "\\u" + "0" + "0" + [h] + [l];
      }
    }
  }

  lemma {:induction false} EscapeIsNeutral(depth: nat, s: string)
    ensures Neutral(Scan(depth, true, false), Escape(s))
  {
    if s != "" {
      EscapedCharIsNeutral(depth, s[0]);
      EscapeIsNeutral(depth, s[1..]);
      NeutralConcat(Scan(depth, true, false), EscapeChar(s[0]), Escape(s[1..]));
    }
  }

  lemma QuoteIsNeutral(depth: nat, s: string)
    ensures Neutral(Outside(depth), Quote(s))
  {
    var body, inside := Escape(s), Scan(depth, true, false);
    EscapeIsNeutral(depth, s);
    RunConcat(inside, body, "\"");
    FirstCloseConcat(inside, body, "\"");
    assert "\""[1..] == "";
    assert Quote(s) == "\"" + (body + "\"");
    assert Quote(s)[1..] == body + "\"";
  }

  lemma BracesAreNeutral(depth: nat, s: string)
    requires depth > 0 && Neutral(Outside(depth + 1), s)
    ensures Neutral(Outside(depth), "{" + s + "}")
  {
    RunConcat(Outside(depth + 1), s, "}");
    FirstCloseConcat(Outside(depth + 1), s, "}");
    assert "}"[1..] == "";
    assert ("{" + s + "}")[1..] == s + "}";
  }

  lemma BracketsAreNeutral(depth: nat, s: string)
    requires depth > 0 && Neutral(Outside(depth), s)
    ensures Neutral(Outside(depth), "[" + s + "]")
  {
    PlainIsNeutral(depth, "[");
    PlainIsNeutral(depth, "]");
    NeutralConcat(Outside(depth), "[", s);
    NeutralConcat(Outside(depth), "[" + s, "]");
  }

  lemma WordIsNeutral(depth: nat, v: Value)
    requires depth > 0 && (v.Null? || v.Bool?)
    ensures Neutral(Outside(depth), Serialize(v))
  {
    if v.Null? {
      PlainIsNeutral(depth, "null");
    } else if v.b {
      PlainIsNeutral(depth, "true");
    } else {
      PlainIsNeutral(depth, "false");
    }
  }

  lemma ScalarIsNeutral(depth: nat, v: Value)
    requires depth > 0 && !v.Array? && !v.Object?
    ensures Neutral(Outside(depth), Serialize(v))
  {
    if v.Number? {
      PlainIsNeutral(depth, v.digits);
    } else if v.Str? {
      QuoteIsNeutral(depth, v.s);
    } else {
      WordIsNeutral(depth, v);
    }
  }

  /** Inside an object, every value passes through the scanner, whatever its nesting and escapes. */
  lemma {:induction false} ValueIsNeutral(depth: nat, v: Value)
    requires depth > 0
    ensures Neutral(Outside(depth), Serialize(v))
    decreases v, 1
  {
    if v.Array? {
      ItemsAreNeutral(depth, v.items);
      BracketsAreNeutral(depth, SerializeItems(v.items));
    } else if v.Object? {
      FieldsAreNeutral(depth + 1, v.fields);
      BracesAreNeutral(depth, SerializeFields(v.fields));
    } else {
      ScalarIsNeutral(depth, v);
    }
  }

  lemma {:induction false} ItemsAreNeutral(depth: nat, items: seq<Value>)
    requires depth > 0
    ensures Neutral(Outside(depth), SerializeItems(items))
    decreases items, 0
  {
    if items != [] {
      ValueIsNeutral(depth, items[0]);
      if |items| > 1 {
        ItemsAreNeutral(depth, items[1..]);
        ThenMore(depth, Serialize(items[0]), SerializeItems(items[1..]));
      } else {
        assert SerializeItems(items) == Serialize(items[0]);
      }
    }
  }

  lemma {:induction false} FieldsAreNeutral(depth: nat, fields: seq<Field>)
    requires depth > 0
    ensures Neutral(Outside(depth), SerializeFields(fields))
    decreases fields, 0
  {
    if fields != [] {
      var key, value := Quote(fields[0].name), Serialize(fields[0].value);
      QuoteIsNeutral(depth, fields[0].name);
      ValueIsNeutral(depth, fields[0].value);
      PlainIsNeutral(depth, ":");
      NeutralConcat(Outside(depth), key, ":");
      NeutralConcat(Outside(depth), key + ":", value);
      if |fields| > 1 {
        FieldsAreNeutral(depth, fields[1..]);
        ThenMore(depth, key + ":" + value, SerializeFields(fields[1..]));
      } else {
        assert SerializeFields(fields) == key + ":" + value;
      }
    }
  }

  lemma ThenMore(depth: nat, first: string, rest: string)
    requires Neutral(Outside(depth), first) && Neutral(Outside(depth), rest)
    ensures Neutral(Outside(depth), first + ("," + rest))
  {
    PlainIsNeutral(depth, ",");
    NeutralConcat(Outside(depth), ",", rest);
    NeutralConcat(Outside(depth), first, "," + rest);
  }

  lemma ObjectCloses(v: Value)
    requires v.Object?
    ensures FirstClose(START, Serialize(v)) == Some(|Serialize(v)| - 1)
  {
    FieldsAreNeutral(1, v.fields);
    OpenedThenClosed(SerializeFields(v.fields));
  }

  lemma FirstCloseInside(s: string)
    requires s != "" && s[0] == '{'
    ensures FirstClose(START, s) == Shift(1, FirstClose(Outside(1), s[1..]))
  {
  }

  lemma BodyThenClosed(body: string)
    requires Neutral(Outside(1), body)
    ensures FirstClose(Outside(1), body + "}") == Some(|body|)
  {
    FirstCloseConcat(Outside(1), body, "}");
    assert Closes(Outside(1), "}"[0]);
  }

  lemma OpenedThenClosed(body: string)
    requires Neutral(Outside(1), body)
    ensures FirstClose(START, "{" + body + "}") == Some(|body| + 1)
  {
    var s := "{" + body + "}";
    assert s[0] == '{' && s[1..] == body + "}";
    BodyThenClosed(body);
    FirstCloseInside(s);
  }

  /** For every object, the text printed for it is found again exactly, whatever white space
      comes before it and whatever text follows it. */
  lemma ObjectsDelimitThemselves(before: string, v: Value, after: string)
    requires AllWhitespace(before) && v.Object?
    ensures Extract(before + Serialize(v) + after) == Some(Serialize(v))
  {
    var text := Serialize(v);
    ObjectCloses(v);
    FirstCloseConcat(START, text, after);
    StartsAtBrace(before, text, after);
    assert (text + after)[..|text|] == text;
  }

  lemma StartsAtBrace(before: string, text: string, after: string)
    requires AllWhitespace(before) && text != "" && text[0] == '{'
    ensures TrimStart(before + text + after) == text + after && (text + after)[0] == '{'
  {
    assert before + text + after == before + (text + after);
    TrimStartSkips(before, text + after);
  }
}
