/** What the senders make of the upstream's bytes: each item is decoded on its own, and one that is no
    text by itself is skipped. */
module Upstream {
  import opened Options
  import opened Text
  import opened Lines
  import opened Utf8

  type Item = seq<Byte>

  function Concat(items: seq<Item>): seq<Byte> {
    if items == [] then [] else items[0] + Concat(items[1..])
  }

  /** The texts of the items that `String::from_utf8` accepts. */
  function Kept(items: seq<Item>): seq<string> {
    if items == [] then []
    else (if Decode(items[0]).Some? then [Decode(items[0]).value] else []) + Kept(items[1..])
  }

  /** The text that the sender has after all items. */
  function KeptText(items: seq<Item>): string {
    Join(Kept(items))
  }

  /** The items are the bytes of `text`, cut anywhere. */
  predicate Splits(items: seq<Item>, text: string) {
    Concat(items) == Encode(text)
  }

  /** The byte offset before item `i`. */
  function Cut(items: seq<Item>, i: nat): nat
    requires i <= |items|
  {
    |Concat(items[..i])|
  }

  /** No cut is inside a character. */
  predicate CutsAtCharacters(items: seq<Item>, text: string) {
    forall i :: 0 <= i <= |items| ==> IsCharBoundary(text, Cut(items, i))
  }

  // ---- Items and cuts ----

  lemma {:induction false} ConcatParts(a: seq<Item>, b: seq<Item>)
    ensures Concat(a + b) == Concat(a) + Concat(b)
  {
    if a == [] {
      assert a + b == b;
    } else {
      assert (a + b)[1..] == a[1..] + b;
      ConcatParts(a[1..], b);
    }
  }

  lemma {:induction false} KeptParts(a: seq<Item>, b: seq<Item>)
    ensures Kept(a + b) == Kept(a) + Kept(b)
  {
    if a == [] {
      assert a + b == b;
    } else {
      assert (a + b)[1..] == a[1..] + b;
      KeptParts(a[1..], b);
    }
  }

  lemma CutAt(items: seq<Item>, i: nat)
    requires i <= |items|
    ensures Concat(items) == Concat(items[..i]) + Concat(items[i..])
    ensures Cut(items, 0) == 0 && Cut(items, |items|) == |Concat(items)|
  {
    assert items == items[..i] + items[i..] && items[..|items|] == items;
    ConcatParts(items[..i], items[i..]);
  }

  lemma CutNext(items: seq<Item>, i: nat)
    requires i < |items|
    ensures Cut(items, i + 1) == Cut(items, i) + |items[i]| <= |Concat(items)|
    ensures Concat(items)[Cut(items, i)..Cut(items, i + 1)] == items[i]
  {
    assert items[..i + 1] == items[..i] + [items[i]];
    ConcatParts(items[..i], [items[i]]);
    assert Concat([items[i]]) == items[i] + [];
    CutAt(items, i + 1);
  }

  /** Exactly the items are kept that are empty or begin and end between characters. */
  lemma KeptItem(items: seq<Item>, text: string, i: nat)
    requires Splits(items, text) && i < |items|
    ensures Cut(items, i) <= Cut(items, i + 1)
    ensures Decode(items[i]).Some? <==>
      items[i] == [] || (IsCharBoundary(text, Cut(items, i)) && IsCharBoundary(text, Cut(items, i + 1)))
  {
    CutNext(items, i);
    SliceIsAccepted(text, Cut(items, i), Cut(items, i + 1));
  }

  // ---- When nothing is lost ----

  predicate AllAccepted(items: seq<Item>) {
    forall i :: 0 <= i < |items| ==> Decode(items[i]).Some?
  }

  lemma {:induction false} AcceptedText(items: seq<Item>)
    ensures |Encode(KeptText(items))| <= |Concat(items)|
    ensures AllAccepted(items) ==> Encode(KeptText(items)) == Concat(items)
    ensures !AllAccepted(items) ==> |Encode(KeptText(items))| < |Concat(items)|
  {
    if items != [] {
      var rest := items[1..];
      AcceptedText(rest);
      AcceptedFirst(items);
      if Decode(items[0]).Some? {
        EncodeDecoded(items[0]);
        EncodeConcat(Decode(items[0]).value, KeptText(rest));
      }
    }
  }

  lemma AcceptedFirst(items: seq<Item>)
    requires items != []
    ensures AllAccepted(items) <==> Decode(items[0]).Some? && AllAccepted(items[1..])
    ensures Decode(items[0]).None? ==> items[0] != [] && KeptText(items) == KeptText(items[1..])
    ensures Decode(items[0]).Some? ==> KeptText(items) == Decode(items[0]).value + KeptText(items[1..])
  {
    var first, rest := items[0], items[1..];
    if Decode(first).Some? && AllAccepted(rest) {
      forall i | 0 <= i < |items| ensures Decode(items[i]).Some? { if i > 0 { assert items[i] == rest[i - 1]; } }
    }
    if AllAccepted(items) {
      forall i | 0 <= i < |rest| ensures Decode(rest[i]).Some? { assert rest[i] == items[i + 1]; }
    }
    if Decode(first).Some? {
      JoinCons(Decode(first).value, Kept(rest));
    } else {
      assert [] + Kept(rest) == Kept(rest);
    }
  }

  lemma {:induction false} AcceptedCuts(items: seq<Item>, text: string, i: nat)
    requires Splits(items, text) && AllAccepted(items) && i <= |items|
    ensures IsCharBoundary(text, Cut(items, i))
  {
    CutAt(items, i);
    if i > 0 {
      KeptItem(items, text, i - 1);
      CutNext(items, i - 1);
      AcceptedCuts(items, text, i - 1);
    }
  }

  /** Every item is accepted exactly when every cut is between characters. */
  lemma AcceptedAtCharacters(items: seq<Item>, text: string)
    requires Splits(items, text)
    ensures AllAccepted(items) <==> CutsAtCharacters(items, text)
  {
    if CutsAtCharacters(items, text) {
      forall i | 0 <= i < |items| ensures Decode(items[i]).Some? { KeptItem(items, text, i); }
    }
    if AllAccepted(items) {
      forall i | 0 <= i <= |items| ensures IsCharBoundary(text, Cut(items, i)) { AcceptedCuts(items, text, i); }
    }
  }

  /** The sender has the whole text exactly when every cut is between characters; otherwise it has a
      shorter one. */
  lemma KeptIsWhole(items: seq<Item>, text: string)
    requires Splits(items, text)
    ensures KeptText(items) == text <==> CutsAtCharacters(items, text)
    ensures !CutsAtCharacters(items, text) ==> ByteLen(KeptText(items)) < ByteLen(text)
  {
    AcceptedAtCharacters(items, text);
    AcceptedText(items);
    if AllAccepted(items) {
      DecodeEncoded(KeptText(items));
      DecodeEncoded(text);
    }
  }

  // ---- What the reader of the lines notices ----

  /** The characters that are not white space. */
  function Ink(s: string): string {
    if s == "" then "" else (if IsWhitespace(s[0]) then "" else [s[0]]) + Ink(s[1..])
  }

  lemma {:induction false} InkConcat(a: string, b: string)
    ensures Ink(a + b) == Ink(a) + Ink(b)
  {
    if a == "" {
      assert a + b == b;
    } else {
      assert (a + b)[1..] == a[1..] + b;
      InkConcat(a[1..], b);
    }
  }

  lemma {:induction false} BlankHasNoInk(s: string)
    requires AllWhitespace(s)
    ensures Ink(s) == ""
  {
    if s != "" { BlankHasNoInk(s[1..]); }
  }

  lemma {:induction false} NonBlankKeepsInk(lines: seq<string>)
    ensures Ink(Join(NonBlank(lines))) == Ink(Join(lines))
  {
    if lines != [] {
      var first, rest := lines[0], lines[1..];
      NonBlankKeepsInk(rest);
      InkConcat(first, Join(rest));
      if IsBlank(first) {
        BlankIsAllWhitespace(first);
        BlankHasNoInk(first);
      } else {
        JoinCons(first, NonBlank(rest));
        InkConcat(first, Join(NonBlank(rest)));
      }
    }
  }

  lemma TailKeepsInk(rest: string)
    ensures Ink(Join(Tail(rest))) == Ink(rest)
  {
    if IsBlank(rest) {
      BlankIsAllWhitespace(rest);
      BlankHasNoInk(rest);
    } else {
      JoinOne(rest + [NEWLINE]);
      InkConcat(rest, [NEWLINE]);
      BlankHasNoInk([NEWLINE]);
    }
  }

  /** The lines of a text have all its ink. */
  lemma LinesKeepInk(text: string)
    ensures Ink(Join(AllLines(text))) == Ink(text)
  {
    var whole, rest := Complete(text), Rest(text);
    NonBlankKeepsInk(whole);
    TailKeepsInk(rest);
    JoinConcat(NonBlank(whole), Tail(rest));
    InkConcat(Join(NonBlank(whole)), Join(Tail(rest)));
    InkConcat(Join(whole), rest);
    CutKeepsText(text);
  }

  lemma InkGrows(s: string, m: nat, n: nat)
    requires m <= n <= |s|
    ensures Ink(s[..n]) == Ink(s[..m]) + Ink(s[m..n])
  {
    assert s[..n] == s[..m] + s[m..n];
    InkConcat(s[..m], s[m..n]);
  }

  lemma InkAt(s: string, m: nat, k: nat, n: nat)
    requires m <= k < n <= |s| && !IsWhitespace(s[k])
    ensures |Ink(s[..m])| < |Ink(s[..n])|
  {
    InkGrows(s, m, k);
    InkGrows(s, k, k + 1);
    InkGrows(s, k + 1, n);
    assert Ink([s[k]]) == [s[k]] + Ink("");
    assert s[k..k + 1] == [s[k]];
  }

  // ---- Ink before a cut ----

  lemma {:induction false} FitAtBoundary(s: string, i: nat)
    requires IsCharBoundary(s, i)
    ensures Fit(s, i) == CharsBefore(s, i)
  {
    if i > 0 { FitAtBoundary(s[1..], i - Width(s[0])); }
  }

  lemma {:induction false} FitMonotone(s: string, i: nat, j: nat)
    requires i <= j
    ensures Fit(s, i) <= Fit(s, j)
  {
    if s != "" && Width(s[0]) <= i { FitMonotone(s[1..], i - Width(s[0]), j - Width(s[0])); }
  }

  /** The character around an offset that is no boundary. */
  lemma {:induction false} SplitChar(s: string, i: nat)
    requires i <= ByteLen(s) && !IsCharBoundary(s, i)
    ensures Fit(s, i) < |s| && Width(s[Fit(s, i)]) > 1
  {
    if Width(s[0]) <= i { SplitChar(s[1..], i - Width(s[0])); }
  }

  /** A later boundary is behind that character. */
  lemma BoundaryBehind(s: string, i: nat, j: nat)
    requires i <= j && !IsCharBoundary(s, i) && IsCharBoundary(s, j)
    ensures Fit(s, i) < Fit(s, j)
  {
    FitMonotone(s, i, j);
    FitAtBoundary(s, j);
    BoundaryPassed(s, i, j);
  }

  lemma {:induction false} BoundaryPassed(s: string, i: nat, j: nat)
    requires i <= j && !IsCharBoundary(s, i) && IsCharBoundary(s, j)
    ensures Fit(s, i) < CharsBefore(s, j)
  {
    if Width(s[0]) <= i { BoundaryPassed(s[1..], i - Width(s[0]), j - Width(s[0])); }
  }

  /** The characters that are wholly before cut `i`. */
  function Before(items: seq<Item>, text: string, i: nat): string
    requires i <= |items|
  {
    text[..Fit(text, Cut(items, i))]
  }

  /** What item `i` adds to the text kept, and to the characters before the cut. */
  lemma KeptNext(items: seq<Item>, text: string, i: nat)
    requires Splits(items, text) && i < |items|
    ensures var part := if Decode(items[i]).Some? then Decode(items[i]).value else "";
      && KeptText(items[..i + 1]) == KeptText(items[..i]) + part
      && Fit(text, Cut(items, i)) <= Fit(text, Cut(items, i + 1))
      && (Decode(items[i]).Some? ==> Before(items, text, i + 1) == Before(items, text, i) + part)
  {
    assert items[..i + 1] == items[..i] + [items[i]];
    KeptTextParts(items[..i], [items[i]]);
    KeptOne(items[i]);
    KeptItem(items, text, i);
    FitMonotone(text, Cut(items, i), Cut(items, i + 1));
    if Decode(items[i]).Some? { WholeItem(items, text, i); }
  }

  lemma KeptOne(item: Item)
    ensures KeptText([item]) == if Decode(item).Some? then Decode(item).value else ""
  {
    assert [item][1..] == [];
    if Decode(item).Some? {
      var text := Decode(item).value;
      assert Kept([item]) == [text] + Kept([]) == [text];
      JoinOne(text);
    } else {
      assert Kept([item]) == [] + Kept([]) == [];
    }
  }

  lemma KeptTextParts(a: seq<Item>, b: seq<Item>)
    ensures KeptText(a + b) == KeptText(a) + KeptText(b)
  {
    KeptParts(a, b);
    JoinConcat(Kept(a), Kept(b));
  }

  lemma WholeItem(items: seq<Item>, text: string, i: nat)
    requires Splits(items, text) && i < |items| && Decode(items[i]).Some?
    ensures Before(items, text, i + 1) == Before(items, text, i) + Decode(items[i]).value
  {
    KeptItem(items, text, i);
    CutNext(items, i);
    var c, d := Cut(items, i), Cut(items, i + 1);
    if items[i] == [] {
      assert Decode(items[i]).value == "";
    } else {
      SliceIsAccepted(text, c, d);
      FitAtBoundary(text, c);
      FitAtBoundary(text, d);
      BoundariesOrder(text, c, d);
    }
  }

  lemma {:induction false} InkBound(items: seq<Item>, text: string, i: nat)
    requires Splits(items, text) && i <= |items|
    ensures |Ink(KeptText(items[..i]))| <= |Ink(Before(items, text, i))|
  {
    if i > 0 {
      InkBound(items, text, i - 1);
      KeptNext(items, text, i - 1);
      InkStep(items, text, i - 1);
    }
  }

  /** An accepted item adds the same ink on both sides, any other adds none to the text kept. */
  lemma InkStep(items: seq<Item>, text: string, i: nat)
    requires Splits(items, text) && i < |items|
    ensures |Ink(KeptText(items[..i + 1]))| - |Ink(KeptText(items[..i]))|
         <= |Ink(Before(items, text, i + 1))| - |Ink(Before(items, text, i))|
    ensures Decode(items[i]).None? ==> KeptText(items[..i + 1]) == KeptText(items[..i])
  {
    KeptNext(items, text, i);
    if Decode(items[i]).Some? {
      InkConcat(KeptText(items[..i]), Decode(items[i]).value);
      InkConcat(Before(items, text, i), Decode(items[i]).value);
    } else {
      assert KeptText(items[..i]) + "" == KeptText(items[..i]);
      InkGrows(text, Fit(text, Cut(items, i)), Fit(text, Cut(items, i + 1)));
    }
  }

  /** Cut `i` is inside a character that is not white space. */
  predicate CutsInk(items: seq<Item>, text: string, i: nat)
    requires i <= |items|
  {
    var k := Fit(text, Cut(items, i));
    !IsCharBoundary(text, Cut(items, i)) && k < |text| && !IsWhitespace(text[k])
  }

  lemma CutsAscend(items: seq<Item>, i: nat, j: nat)
    requires i <= j <= |items|
    ensures Cut(items, i) <= Cut(items, j)
  {
    assert items[..j] == items[..i] + items[i..j];
    ConcatParts(items[..i], items[i..j]);
  }

  /** The text kept lacks ink as soon as the character at cut `i` is past. */
  ghost predicate LacksInk(items: seq<Item>, text: string, i: nat, j: nat)
    requires i <= |items| && j <= |items|
  {
    var k, n := Fit(text, Cut(items, i)), Fit(text, Cut(items, j));
    k <= n && |Ink(KeptText(items[..j]))| + (if k < n then 1 else 0) <= |Ink(Before(items, text, j))|
  }

  lemma LacksInkNext(items: seq<Item>, text: string, i: nat, j: nat)
    requires Splits(items, text) && i <= j < |items| && CutsInk(items, text, i) && LacksInk(items, text, i, j)
    ensures LacksInk(items, text, i, j + 1)
  {
    var k, n, next := Fit(text, Cut(items, i)), Fit(text, Cut(items, j)), Fit(text, Cut(items, j + 1));
    KeptNext(items, text, j);
    InkStep(items, text, j);
    if k == n < next {
      CharLost(items, text, i, j);
      InkAt(text, k, k, next);
    }
  }

  lemma {:induction false} InkDeficit(items: seq<Item>, text: string, i: nat, j: nat)
    requires Splits(items, text) && i <= j <= |items| && CutsInk(items, text, i)
    ensures LacksInk(items, text, i, j)
    decreases j
  {
    if j == i {
      InkBound(items, text, i);
    } else {
      InkDeficit(items, text, i, j - 1);
      LacksInkNext(items, text, i, j - 1);
    }
  }

  /** The item that passes the split character is not accepted. */
  lemma CharLost(items: seq<Item>, text: string, i: nat, j: nat)
    requires Splits(items, text) && i <= j < |items| && CutsInk(items, text, i)
    requires Fit(text, Cut(items, j)) == Fit(text, Cut(items, i)) < Fit(text, Cut(items, j + 1))
    ensures Decode(items[j]).None?
  {
    CutsAscend(items, i, j);
    KeptItem(items, text, j);
    CutNext(items, j);
    if IsCharBoundary(text, Cut(items, j)) {
      BoundaryBehind(text, Cut(items, i), Cut(items, j));
    }
  }

  /** A cut inside a character that is not white space is seen in the lines. */
  lemma LinesShowLoss(items: seq<Item>, text: string, i: nat)
    requires Splits(items, text) && i <= |items| && CutsInk(items, text, i)
    ensures AllLines(KeptText(items)) != AllLines(text)
  {
    var n := |items|;
    CutAt(items, n);
    FitIsMaximal(text, ByteLen(text));
    InkDeficit(items, text, i, n);
    assert items[..n] == items && text[..|text|] == text;
    LinesKeepInk(KeptText(items));
    LinesKeepInk(text);
  }

  /** White space beyond one byte, like the ideographic space, does not occur. */
  predicate BlanksAreShort(text: string) {
    forall k :: 0 <= k < |text| && IsWhitespace(text[k]) ==> Width(text[k]) == 1
  }

  /** Then the lines are those of the whole text exactly when every cut is between characters. */
  lemma LinesNeedWholeCharacters(items: seq<Item>, text: string)
    requires Splits(items, text) && BlanksAreShort(text)
    ensures AllLines(KeptText(items)) == AllLines(text) <==> CutsAtCharacters(items, text)
  {
    KeptIsWhole(items, text);
    if !CutsAtCharacters(items, text) {
      var i: nat :| i <= |items| && !IsCharBoundary(text, Cut(items, i));
      CutAt(items, i);
      SplitChar(text, Cut(items, i));
      LinesShowLoss(items, text, i);
    }
  }

  // ---- Inputs ----

  const WIDE_SPACE: char := '\U{3000}'

  /** A two-byte character that arrives in two items is gone. */
  lemma SplitCharacterIsLost(before: string, after: string)
    ensures var items := [Encode(before), [0xC3], [0xA9], Encode(after)];
      Splits(items, before + [E_ACUTE] + after) && KeptText(items) == before + after
  {
    var halves: seq<Item> := [[0xC3]] + [[0xA9]];
    assert [Encode(before), [0xC3], [0xA9], Encode(after)] == [Encode(before)] + halves + [Encode(after)];
    HalvesAreLost();
    KeptTextParts([Encode(before)], halves);
    KeptTextParts([Encode(before)] + halves, [Encode(after)]);
    KeptOne(Encode(before));
    KeptOne(Encode(after));
    DecodeEncoded(before);
    DecodeEncoded(after);
    ConcatParts([Encode(before)], halves);
    ConcatParts([Encode(before)] + halves, [Encode(after)]);
    ConcatOne(Encode(before));
    ConcatOne(Encode(after));
    EncodeConcat(before, [E_ACUTE]);
    EncodeConcat(before + [E_ACUTE], after);
    assert before + "" == before;
  }

  lemma ConcatOne(item: Item)
    ensures Concat([item]) == item
  {
    assert [item][1..] == [] && item + [] == item;
  }

  lemma HalvesAreLost()
    ensures var halves: seq<Item> := [[0xC3]] + [[0xA9]];
      KeptText(halves) == "" && Concat(halves) == Encode([E_ACUTE])
  {
    KeptTextParts([[0xC3]], [[0xA9]]);
    KeptOne([0xC3]);
    KeptOne([0xA9]);
    ConcatParts([[0xC3]], [[0xA9]]);
    ConcatOne([0xC3]);
    ConcatOne([0xA9]);
    assert EncodeChar(E_ACUTE) == [0xC3, 0xA9];
    assert Encode([E_ACUTE]) == EncodeChar(E_ACUTE) + [];
  }

  /** White space of more than one byte can be lost without the lines showing it. */
  lemma WideSpaceIsNotMissed()
    ensures var items: seq<Item> := [[0xE3]] + [[0x80, 0x80]];
      && Splits(items, [WIDE_SPACE]) && !CutsAtCharacters(items, [WIDE_SPACE])
      && AllLines(KeptText(items)) == AllLines([WIDE_SPACE])
  {
    var items: seq<Item> := [[0xE3]] + [[0x80, 0x80]];
    ConcatParts([[0xE3]], [[0x80, 0x80]]);
    ConcatOne([0xE3]);
    ConcatOne([0x80, 0x80]);
    assert EncodeChar(WIDE_SPACE) == [0xE3, 0x80, 0x80];
    assert Encode([WIDE_SPACE]) == EncodeChar(WIDE_SPACE) + [];
    KeptTextParts([[0xE3]], [[0x80, 0x80]]);
    KeptOne([0xE3]);
    KeptOne([0x80, 0x80]);
    KeptIsWhole(items, [WIDE_SPACE]);
    BlankIsAllWhitespace([WIDE_SPACE]);
    BlankIsAllWhitespace("");
    assert Complete([WIDE_SPACE]) == [] && Complete("") == [];
  }
}
