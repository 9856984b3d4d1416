/** The bytes of a text (section 3 of RFC 3629), what `String::from_utf8` accepts, and what becomes of
    a text that arrives in byte items which are decoded one by one. */
module Utf8 {
  import opened Options
  import opened Text

  type Byte = b: nat | b < 256

  function EncodeChar(c: char): (bytes: seq<Byte>)
    ensures |bytes| == Width(c)
  {
    var u := c as int;
    if u < 0x80 then [u]
    else if u < 0x800 then [0xC0 + u / 64, 0x80 + u % 64]
    else if u < 0x10000 then [0xE0 + u / 64 / 64, 0x80 + u / 64 % 64, 0x80 + u % 64]
    else [0xF0 + u / 64 / 64 / 64, 0x80 + u / 64 / 64 % 64, 0x80 + u / 64 % 64, 0x80 + u % 64]
  }

  function Encode(s: string): (bytes: seq<Byte>)
    ensures |bytes| == ByteLen(s)
  {
    if s == "" then [] else EncodeChar(s[0]) + Encode(s[1..])
  }

  predicate IsContinuation(b: Byte) {
    0x80 <= b < 0xC0
  }

  /** How many bytes a leading byte announces. */
  function Announced(lead: Byte): nat {
    if lead < 0x80 then 1 else if lead < 0xC0 then 0 else if lead < 0xE0 then 2
    else if lead < 0xF0 then 3 else if lead < 0xF8 then 4 else 0
  }

  /** The number that the bytes spell, before it is known to be a character. */
  function Spelt(bytes: seq<Byte>): int
    requires 1 <= |bytes| <= 4
  {
    if |bytes| == 1 then bytes[0]
    else
      var first := bytes[0] as int - (if |bytes| == 2 then 0xC0 else if |bytes| == 3 then 0xE0 else 0xF0);
      var two := first * 64 + (bytes[1] as int - 0x80);
      if |bytes| == 2 then two
      else
        var three := two * 64 + (bytes[2] as int - 0x80);
        if |bytes| == 3 then three else three * 64 + (bytes[3] as int - 0x80)
  }

  predicate IsScalar(u: int) {
    0 <= u < 0xD800 || 0xE000 <= u < 0x11_0000
  }

  /** The character at the front of the bytes, if they begin with the one proper encoding of one. */
  function FirstChar(bytes: seq<Byte>): (c: Option<char>)
    requires bytes != []
    ensures c.Some? ==> Width(c.value) <= |bytes| && EncodeChar(c.value) == bytes[..Width(c.value)]
  {
    var w := Announced(bytes[0]);
    if w == 0 || |bytes| < w then None
    else
      var u := Spelt(bytes[..w]);
      if IsScalar(u) && EncodeChar(u as char) == bytes[..w] then Some(u as char) else None
  }

  /** `String::from_utf8` */
  function Decode(bytes: seq<Byte>): Option<string>
    decreases |bytes|
  {
    if bytes == [] then Some("")
    else
      var c := FirstChar(bytes);
      if c.None? then None
      else
        var rest := Decode(bytes[Width(c.value)..]);
        if rest.None? then None else Some([c.value] + rest.value)
  }

  lemma DecodeStep(bytes: seq<Byte>, c: char)
    requires bytes != [] && FirstChar(bytes) == Some(c)
    ensures Width(c) <= |bytes|
    ensures var rest := Decode(bytes[Width(c)..]);
      Decode(bytes) == if rest.None? then None else Some([c] + rest.value)
  {
  }

  lemma SpeltIsChar(c: char)
    ensures Announced(EncodeChar(c)[0]) == Width(c) && Spelt(EncodeChar(c)) == c as int
  {
    var u := c as int;
    var q := u / 64;
    var p := q / 64;
    assert u == q * 64 + u % 64 && q == p * 64 + q % 64 && p == (p / 64) * 64 + p % 64;
  }

  lemma FirstCharOf(c: char, rest: seq<Byte>)
    ensures FirstChar(EncodeChar(c) + rest) == Some(c)
  {
    var bytes := EncodeChar(c) + rest;
    SpeltIsChar(c);
    assert bytes[0] == EncodeChar(c)[0] && bytes[..Width(c)] == EncodeChar(c);
  }

  /** Decoding undoes encoding. */
  lemma {:induction false} DecodeEncoded(s: string)
    ensures Decode(Encode(s)) == Some(s)
  {
    if s != "" {
      FirstCharOf(s[0], Encode(s[1..]));
      DecodeEncoded(s[1..]);
      assert Encode(s)[Width(s[0])..] == Encode(s[1..]);
      DecodeStep(Encode(s), s[0]);
      assert s == [s[0]] + s[1..];
    }
  }

  /** Only encodings are accepted. */
  lemma {:induction false} EncodeDecoded(bytes: seq<Byte>)
    ensures Decode(bytes).Some? ==> Encode(Decode(bytes).value) == bytes
    decreases |bytes|
  {
    if bytes != [] && FirstChar(bytes).Some? {
      var c, rest := CutFirst(bytes);
      EncodeDecoded(rest);
      if Decode(rest).Some? { EncodeCons(c, Decode(rest).value, rest); }
    }
  }

  lemma CutFirst(bytes: seq<Byte>) returns (c: char, rest: seq<Byte>)
    requires bytes != [] && FirstChar(bytes).Some?
    ensures |rest| < |bytes| && bytes == EncodeChar(c) + rest
    ensures Decode(bytes) == if Decode(rest).None? then None else Some([c] + Decode(rest).value)
  {
    c := FirstChar(bytes).value;
    rest := bytes[Width(c)..];
    DecodeStep(bytes, c);
  }

  lemma EncodeCons(c: char, s: string, rest: seq<Byte>)
    requires Encode(s) == rest
    ensures Encode([c] + s) == EncodeChar(c) + rest
  {
    assert ([c] + s)[1..] == s;
  }

  lemma {:induction false} EncodeConcat(a: string, b: string)
    ensures Encode(a + b) == Encode(a) + Encode(b)
  {
    if a == "" {
      assert a + b == b;
    } else {
      assert (a + b)[1..] == a[1..] + b;
      EncodeConcat(a[1..], b);
    }
  }

  // ---- Slices of an encoded text ----

  lemma LeadIsNoContinuation(c: char)
    ensures !IsContinuation(EncodeChar(c)[0])
    ensures forall i :: 0 < i < Width(c) ==> IsContinuation(EncodeChar(c)[i])
  {
  }

  /** Exactly the boundaries inside a text are where no continuation byte stands. */
  lemma {:induction false} BoundaryByte(s: string, i: nat)
    requires i < ByteLen(s)
    ensures IsCharBoundary(s, i) <==> !IsContinuation(Encode(s)[i])
  {
    LeadIsNoContinuation(s[0]);
    if Width(s[0]) <= i {
      BoundaryByte(s[1..], i - Width(s[0]));
    }
  }

  /** No encoding is the beginning of another text's encoding unless the text begins so. */
  lemma {:induction false} PrefixOfEncoding(s: string, t: string)
    requires Encode(s) <= Encode(t)
    ensures s <= t
  {
    if s != "" {
      var rest := Encode(t)[|Encode(s)|..];
      var more := Encode(s[1..]) + rest;
      assert Encode(t) == EncodeChar(s[0]) + more;
      SameFirst(s[0], more, t);
      assert more == Encode(t[1..]) && Encode(s[1..]) <= more;
      PrefixOfEncoding(s[1..], t[1..]);
      assert s == [s[0]] + s[1..] && t == [t[0]] + t[1..];
    }
  }

  lemma SameFirst(c: char, more: seq<Byte>, t: string)
    requires Encode(t) == EncodeChar(c) + more
    ensures t != "" && t[0] == c && Encode(t[1..]) == more
  {
    FirstCharOf(c, more);
    FirstCharOf(t[0], Encode(t[1..]));
    assert Encode(t)[Width(c)..] == more && Encode(t)[Width(t[0])..] == Encode(t[1..]);
  }

  /** The text before a boundary, in bytes and in characters. */
  lemma EncodedPrefix(s: string, i: nat) returns (k: nat)
    requires IsCharBoundary(s, i)
    ensures k == CharsBefore(s, i) && i == ByteLen(s[..k]) <= ByteLen(s)
    ensures Encode(s)[..i] == Encode(s[..k]) && Encode(s)[i..] == Encode(s[k..])
  {
    k := CharsBefore(s, i);
    BytesBefore(s, i);
    assert s == s[..k] + s[k..];
    EncodeConcat(s[..k], s[k..]);
  }

  lemma {:induction false} BoundariesOrder(s: string, i: nat, j: nat)
    requires IsCharBoundary(s, i) && IsCharBoundary(s, j) && i <= j
    ensures CharsBefore(s, i) <= CharsBefore(s, j)
  {
    if i > 0 { BoundariesOrder(s[1..], i - Width(s[0]), j - Width(s[0])); }
  }

  /** Between two boundaries stands the encoding of the characters between them. */
  lemma SliceIsText(s: string, i: nat, j: nat)
    requires IsCharBoundary(s, i) && IsCharBoundary(s, j) && i <= j
    ensures j <= ByteLen(s) && Encode(s)[i..j] == Encode(ByteSlice(s, i, j))
  {
    var k, m := CharsBefore(s, i), CharsBefore(s, j);
    BytesBefore(s, i);
    BytesBefore(s, j);
    BoundariesOrder(s, i, j);
    SliceOfChars(s, k, m);
  }

  lemma SliceOfChars(s: string, k: nat, m: nat)
    requires k <= m <= |s|
    ensures ByteLen(s[..k]) <= ByteLen(s[..m]) <= ByteLen(s)
    ensures Encode(s)[ByteLen(s[..k])..ByteLen(s[..m])] == Encode(s[k..m])
  {
    EncodeCut(s, m);
    assert s[..m][..k] == s[..k] && s[..m][k..] == s[k..m];
    EncodeCut(s[..m], k);
    Middle(Encode(s), ByteLen(s[..k]), ByteLen(s[..m]), Encode(s[..k]), Encode(s[k..m]));
  }

  lemma EncodeCut(s: string, k: nat)
    requires k <= |s|
    ensures ByteLen(s[..k]) <= ByteLen(s)
    ensures Encode(s) == Encode(s[..k]) + Encode(s[k..]) && Encode(s)[..ByteLen(s[..k])] == Encode(s[..k])
  {
    assert s == s[..k] + s[k..];
    EncodeConcat(s[..k], s[k..]);
  }

  lemma Middle(bytes: seq<Byte>, i: nat, j: nat, front: seq<Byte>, slice: seq<Byte>)
    requires i <= j <= |bytes| && bytes[..j] == front + slice && |front| == i
    ensures bytes[i..j] == slice
  {
    assert bytes[i..j] == bytes[..j][i..];
  }

  /** A slice of a text's bytes is accepted exactly when it is empty or begins and ends on a
      character boundary, and is then the characters between. */
  lemma SliceIsAccepted(s: string, i: nat, j: nat)
    requires i <= j <= ByteLen(s)
    ensures Decode(Encode(s)[i..j]).Some? <==> i == j || (IsCharBoundary(s, i) && IsCharBoundary(s, j))
    ensures i < j && Decode(Encode(s)[i..j]).Some? ==> Decode(Encode(s)[i..j]).value == ByteSlice(s, i, j)
  {
    var bytes := Encode(s)[i..j];
    if i < j {
      if IsCharBoundary(s, i) && IsCharBoundary(s, j) {
        SliceIsText(s, i, j);
        DecodeEncoded(ByteSlice(s, i, j));
      } else if Decode(bytes).Some? {
        EncodeDecoded(bytes);
        AcceptedBegins(s, i, j, Decode(bytes).value);
        AcceptedEnds(s, i, j, Decode(bytes).value);
      }
    }
  }

  lemma AcceptedBegins(s: string, i: nat, j: nat, t: string)
    requires i < j <= ByteLen(s) && Encode(s)[i..j] == Encode(t)
    ensures IsCharBoundary(s, i)
  {
    assert Encode(t)[0] == Encode(s)[i];
    BoundaryByte(t, 0);
    BoundaryByte(s, i);
  }

  lemma AcceptedEnds(s: string, i: nat, j: nat, t: string)
    requires i < j <= ByteLen(s) && Encode(s)[i..j] == Encode(t) && IsCharBoundary(s, i)
    ensures IsCharBoundary(s, j)
  {
    var k := EncodedPrefix(s, i);
    EndsAt(s, k, i, j, t);
  }

  lemma EndsAt(s: string, k: nat, i: nat, j: nat, t: string)
    requires k <= |s| && i == ByteLen(s[..k]) && i < j <= |Encode(s)|
    requires Encode(s)[i..] == Encode(s[k..]) && Encode(s)[i..j] == Encode(t)
    ensures IsCharBoundary(s, j)
  {
    StartsTail(Encode(s), i, j, Encode(s[k..]));
    EndsAfter(s, k, t);
    assert |Encode(t)| == j - i;
  }

  lemma EndsAfter(s: string, k: nat, t: string)
    requires k <= |s| && Encode(t) <= Encode(s[k..])
    ensures IsCharBoundary(s, ByteLen(s[..k]) + |Encode(t)|)
  {
    PrefixOfEncoding(t, s[k..]);
    BoundaryAfter(s, k, t);
  }

  lemma StartsTail(bytes: seq<Byte>, i: nat, j: nat, tail: seq<Byte>)
    requires i <= j <= |bytes| && bytes[i..] == tail
    ensures bytes[i..j] <= tail
  {
  }

  lemma BoundaryAfter(s: string, k: nat, t: string)
    requires k <= |s| && t <= s[k..]
    ensures IsCharBoundary(s, ByteLen(s[..k]) + ByteLen(t))
  {
    assert s[..k + |t|] == s[..k] + t;
    ByteLenConcat(s[..k], t);
    PrefixIsBoundary(s, k + |t|);
  }
}
