/** Every data-channel message must fit in 8 KiB. How long the chunk messages get, for every body,
    and how long a request identifier may be. */
module Wire {
  import opened Options
  import opened Text
  import opened Json
  import Chunking

  const MAX_DC_WIRE_BYTES := 8192
  const MAX_DC_CHUNK_BYTES := 3072
  const MAX_E2EE_PLAINTEXT_CHUNK_BYTES := 1024
  const TAG_BYTES := 16
  const NONCE_BYTES := 12

  type Byte = b: nat | b < 256
  type U32 = n: nat | n < 0x1_0000_0000

  function ByteArray(bytes: seq<Byte>): (v: seq<Value>)
    ensures |v| == |bytes|
  {
    if bytes == [] then [] else [Number(Decimal(bytes[0]))] + ByteArray(bytes[1..])
  }

  function BytesField(name: string, bytes: seq<Byte>): Field {
    Field(name, Array(ByteArray(bytes)))
  }

  function NumField(name: string, n: nat): Field {
    Field(name, Number(Decimal(n)))
  }

  function TextField(name: string, s: string): Field {
    Field(name, Str(s))
  }

  /** How a message names its type and its fields. */
  datatype Labels = Labels(
    kind: string, tag: string, reqId: string, num: string, nonce: string, ciphertext: string, aad: string,
    done: string, chunk: string)

  function Named(kind: string): Labels {
    Labels(kind, "type", "req_id", "seq", "nonce", "ciphertext", "aad_version", "done", "chunk")
  }

  const STREAM_CHUNK := Named("encryptedproxystreamchunk")
  const REQUEST_CHUNK := Named("encryptedproxyrequestchunk")
  const PLAIN_REQUEST_CHUNK := Named("proxyrequestchunk")
  const PLAIN_RESPONSE_CHUNK := Named("proxyresponsechunk")

  function TagFields(l: Labels): seq<Field> {
    [TextField(l.tag, l.kind)]
  }

  function NumberedFields(l: Labels, reqId: string, num: U32): seq<Field> {
    [TextField(l.reqId, reqId), NumField(l.num, num)]
  }

  function BoxFields(l: Labels, nonce: seq<Byte>, ciphertext: seq<Byte>, aad: Byte): seq<Field> {
    [BytesField(l.nonce, nonce), BytesField(l.ciphertext, ciphertext), NumField(l.aad, aad)]
  }

  /** `EncryptedProxyRequestChunk`, and `EncryptedProxyStreamChunk` up to its flag. */
  function SealedMessage(l: Labels, reqId: string, num: U32, nonce: seq<Byte>, ciphertext: seq<Byte>, aad: Byte): seq<Field> {
    TagFields(l) + NumberedFields(l, reqId, num) + BoxFields(l, nonce, ciphertext, aad)
  }

  /** `EncryptedProxyStreamChunk` */
  function FlaggedMessage(l: Labels, reqId: string, num: U32, nonce: seq<Byte>, ciphertext: seq<Byte>, aad: Byte,
                          done: bool): seq<Field> {
    SealedMessage(l, reqId, num, nonce, ciphertext, aad) + [Field(l.done, Bool(done))]
  }

  /** `ProxyRequestChunk` */
  function PlainRequestMessage(l: Labels, reqId: string, num: U32, chunk: string): seq<Field> {
    TagFields(l) + NumberedFields(l, reqId, num) + [TextField(l.chunk, chunk)]
  }

  /** `ProxyResponseChunk` */
  function PlainResponseMessage(l: Labels, reqId: string, chunk: string): seq<Field> {
    TagFields(l) + [TextField(l.reqId, reqId)] + [TextField(l.chunk, chunk)]
  }

  function WireBytes(message: seq<Field>): nat {
    ByteLen(Serialize(Object(message)))
  }

  // ---- Lengths ----

  /** Characters that are printed as they are, in one byte. */
  predicate IsPlain(s: string) {
    forall i :: 0 <= i < |s| ==> 0x20 <= s[i] as int < 0x80 && s[i] != '"' && s[i] != '\\'
  }

  lemma {:induction false} AsciiBytes(s: string)
    requires forall i :: 0 <= i < |s| ==> s[i] as int < 0x80
    ensures ByteLen(s) == |s|
  {
    if s != "" { AsciiBytes(s[1..]); }
  }

  lemma {:induction false} EscapePlain(s: string)
    requires IsPlain(s)
    ensures Escape(s) == s
  {
    if s != "" { EscapePlain(s[1..]); }
  }

  function EscapedBytes(s: string): nat {
    ByteLen(Escape(s))
  }

  lemma QuoteBytes(s: string)
    ensures ByteLen(Quote(s)) == EscapedBytes(s) + 2
  {
    AsciiBytes("\"");
    ByteLenConcat("\"", Escape(s));
    ByteLenConcat("\"" + Escape(s), "\"");
  }

  lemma PlainQuoteBytes(s: string)
    requires IsPlain(s)
    ensures ByteLen(Quote(s)) == |s| + 2
  {
    QuoteBytes(s);
    EscapePlain(s);
    AsciiBytes(s);
  }

  function FieldBytes(f: Field): nat {
    ByteLen(Quote(f.name)) + 1 + ByteLen(Serialize(f.value))
  }

  function FieldsBytes(fields: seq<Field>): nat {
    if fields == [] then 0
    else FieldBytes(fields[0]) + if |fields| == 1 then 0 else 1 + FieldsBytes(fields[1..])
  }

  lemma {:induction false} SerializedFieldsBytes(fields: seq<Field>)
    ensures ByteLen(SerializeFields(fields)) == FieldsBytes(fields)
  {
    if fields != [] {
      var name, value := Quote(fields[0].name), Serialize(fields[0].value);
      AsciiBytes(":");
      AsciiBytes(",");
      ByteLenConcat(name, ":");
      ByteLenConcat(name + ":", value);
      if |fields| > 1 {
        var more := SerializeFields(fields[1..]);
        SerializedFieldsBytes(fields[1..]);
        ByteLenConcat(",", more);
        ByteLenConcat(name + ":" + value, "," + more);
      } else {
        assert name + ":" + value + "" == name + ":" + value;
      }
    }
  }

  lemma ObjectBytes(message: seq<Field>)
    ensures WireBytes(message) == 2 + FieldsBytes(message)
  {
    var text := SerializeFields(message);
    SerializedFieldsBytes(message);
    AsciiBytes("{");
    AsciiBytes("}");
    ByteLenConcat("{", text);
    ByteLenConcat("{" + text, "}");
  }

  lemma TextFieldBytes(name: string, s: string)
    requires IsPlain(name)
    ensures FieldBytes(TextField(name, s)) == |name| + 5 + EscapedBytes(s)
  {
    PlainQuoteBytes(name);
    QuoteBytes(s);
  }

  lemma DecimalDigits(n: nat)
    ensures ByteLen(Decimal(n)) == |Decimal(n)|
  {
    AsciiBytes(Decimal(n));
  }

  function Power(k: nat): nat {
    if k == 0 then 1 else 10 * Power(k - 1)
  }

  /** Numbers below `10^k` have at most `k` digits. */
  lemma {:induction false} DecimalBelow(n: nat, k: nat)
    requires 1 <= k && n < Power(k)
    ensures 1 <= |Decimal(n)| <= k
  {
    if 10 <= n {
      assert k > 1;
      DecimalBelow(n / 10, k - 1);
    }
  }

  lemma {:induction false} DecimalAbove(n: nat, k: nat)
    requires Power(k) <= n
    ensures k < |Decimal(n)|
  {
    if k > 0 { DecimalAbove(n / 10, k - 1); }
  }

  lemma U32Decimal(n: U32)
    ensures 1 <= |Decimal(n)| <= 10
    ensures 1_000_000_000 <= n ==> |Decimal(n)| == 10
  {
    PowerOf9();
    DecimalBelow(n, 10);
    if 1_000_000_000 <= n { DecimalAbove(n, 9); }
  }

  lemma PowerOf9()
    ensures Power(9) == 1_000_000_000 && Power(10) == 10_000_000_000
  {
  }

  lemma ByteDecimal(b: Byte)
    ensures 1 <= |Decimal(b)| <= 3 && (100 <= b ==> |Decimal(b)| == 3)
  {
    assert Power(3) == 1000 && Power(2) == 100;
    DecimalBelow(b, 3);
    if 100 <= b { DecimalAbove(b, 2); }
  }

  function ItemsBytes(items: seq<Value>): nat {
    if items == [] then 0
    else ByteLen(Serialize(items[0])) + if |items| == 1 then 0 else 1 + ItemsBytes(items[1..])
  }

  lemma {:induction false} SerializedItemsBytes(items: seq<Value>)
    ensures ByteLen(SerializeItems(items)) == ItemsBytes(items)
  {
    if items != [] {
      var first := Serialize(items[0]);
      if |items| > 1 {
        var more := SerializeItems(items[1..]);
        SerializedItemsBytes(items[1..]);
        AsciiBytes(",");
        ByteLenConcat(",", more);
        ByteLenConcat(first, "," + more);
      } else {
        assert first + "" == first;
      }
    }
  }

  predicate AllWide(bytes: seq<Byte>) {
    forall i :: 0 <= i < |bytes| ==> 100 <= bytes[i]
  }

  lemma {:induction false} ByteItems(bytes: seq<Byte>)
    requires bytes != []
    ensures ItemsBytes(ByteArray(bytes)) <= 4 * |bytes| - 1
    ensures AllWide(bytes) ==> ItemsBytes(ByteArray(bytes)) == 4 * |bytes| - 1
  {
    var items := ByteArray(bytes);
    ByteDecimal(bytes[0]);
    DecimalDigits(bytes[0]);
    assert items[1..] == ByteArray(bytes[1..]);
    if |bytes| > 1 { ByteItems(bytes[1..]); }
  }

  /** A byte array takes at most four characters a byte and one more; exactly that many when every
      byte has three digits. */
  lemma BytesFieldBytes(name: string, bytes: seq<Byte>)
    requires IsPlain(name) && bytes != []
    ensures var n := FieldBytes(BytesField(name, bytes));
      n <= |name| + 4 + 4 * |bytes| && (AllWide(bytes) ==> n == |name| + 4 + 4 * |bytes|)
  {
    var text := SerializeItems(ByteArray(bytes));
    PlainQuoteBytes(name);
    SerializedItemsBytes(ByteArray(bytes));
    ByteItems(bytes);
    AsciiBytes("[");
    AsciiBytes("]");
    ByteLenConcat("[", text);
    ByteLenConcat("[" + text, "]");
  }

  lemma NumFieldBytes(name: string, n: nat)
    requires IsPlain(name)
    ensures FieldBytes(NumField(name, n)) == |name| + 3 + |Decimal(n)|
  {
    PlainQuoteBytes(name);
    DecimalDigits(n);
  }

  lemma BoolFieldBytes(name: string, b: bool)
    requires IsPlain(name)
    ensures FieldBytes(Field(name, Bool(b))) == |name| + 3 + if b then 4 else 5
  {
    PlainQuoteBytes(name);
    AsciiBytes("true");
    AsciiBytes("false");
  }

  // ---- Whole messages ----

  predicate ArePlain(l: Labels) {
    && IsPlain(l.kind) && IsPlain(l.tag) && IsPlain(l.reqId) && IsPlain(l.num) && IsPlain(l.nonce)
    && IsPlain(l.ciphertext) && IsPlain(l.aad) && IsPlain(l.done) && IsPlain(l.chunk)
  }

  /** The lengths of all labels of an encrypted message but its kind. */
  function SealedLabels(l: Labels): nat {
    |l.tag| + |l.reqId| + |l.num| + |l.nonce| + |l.ciphertext| + |l.aad|
  }

  lemma LabelLengths(kind: string)
    requires IsPlain(kind)
    ensures var l := Named(kind);
      ArePlain(l) && SealedLabels(l) == 39 && |l.done| == 4 && |l.tag| + |l.reqId| + |l.num| + |l.chunk| == 18 && |l.num| == 3
  {
  }

  lemma {:induction false} FieldsBytesConcat(a: seq<Field>, b: seq<Field>)
    requires a != [] && b != []
    ensures FieldsBytes(a + b) == FieldsBytes(a) + 1 + FieldsBytes(b)
  {
    if |a| == 1 {
      assert (a + b)[1..] == b;
    } else {
      assert (a + b)[1..] == a[1..] + b;
      FieldsBytesConcat(a[1..], b);
    }
  }

  lemma TwoFieldsBytes(f: Field, g: Field)
    ensures FieldsBytes([f, g]) == FieldBytes(f) + 1 + FieldBytes(g)
  {
  }

  lemma ThreeFieldsBytes(f: Field, g: Field, h: Field)
    ensures FieldsBytes([f, g, h]) == FieldBytes(f) + 1 + FieldBytes(g) + 1 + FieldBytes(h)
  {
    assert [f, g, h][1..] == [g, h];
    TwoFieldsBytes(g, h);
  }

  lemma TagBytes(l: Labels)
    requires ArePlain(l)
    ensures FieldsBytes(TagFields(l)) == |l.tag| + 5 + |l.kind|
  {
    TextFieldBytes(l.tag, l.kind);
    EscapePlain(l.kind);
    AsciiBytes(l.kind);
  }

  lemma NumberedBytes(l: Labels, reqId: string, num: U32)
    requires ArePlain(l)
    ensures var n, most := FieldsBytes(NumberedFields(l, reqId, num)), |l.reqId| + |l.num| + 19 + EscapedBytes(reqId);
      n <= most && (1_000_000_000 <= num ==> n == most)
  {
    TwoFieldsBytes(TextField(l.reqId, reqId), NumField(l.num, num));
    TextFieldBytes(l.reqId, reqId);
    NumFieldBytes(l.num, num);
    U32Decimal(num);
  }

  lemma BoxBytes(l: Labels, nonce: seq<Byte>, ciphertext: seq<Byte>, aad: Byte)
    requires ArePlain(l) && nonce != [] && ciphertext != []
    ensures var n, most := FieldsBytes(BoxFields(l, nonce, ciphertext, aad)),
                           |l.nonce| + |l.ciphertext| + |l.aad| + 16 + 4 * (|nonce| + |ciphertext|);
      n <= most && (AllWide(nonce) && AllWide(ciphertext) && 100 <= aad ==> n == most)
  {
    ThreeFieldsBytes(BytesField(l.nonce, nonce), BytesField(l.ciphertext, ciphertext), NumField(l.aad, aad));
    BytesFieldBytes(l.nonce, nonce);
    BytesFieldBytes(l.ciphertext, ciphertext);
    NumFieldBytes(l.aad, aad);
    ByteDecimal(aad);
  }

  /** The values that print longest. */
  predicate Widest(num: U32, nonce: seq<Byte>, ciphertext: seq<Byte>, aad: Byte) {
    1_000_000_000 <= num && AllWide(nonce) && AllWide(ciphertext) && 100 <= aad
  }

  lemma SealedBytes(l: Labels, reqId: string, num: U32, nonce: seq<Byte>, ciphertext: seq<Byte>, aad: Byte)
    requires ArePlain(l) && nonce != [] && ciphertext != []
    ensures var n, most := FieldsBytes(SealedMessage(l, reqId, num, nonce, ciphertext, aad)),
                           |l.kind| + SealedLabels(l) + 42 + EscapedBytes(reqId) + 4 * (|nonce| + |ciphertext|);
      n <= most && (Widest(num, nonce, ciphertext, aad) ==> n == most)
  {
    FieldsBytesConcat(TagFields(l), NumberedFields(l, reqId, num));
    FieldsBytesConcat(TagFields(l) + NumberedFields(l, reqId, num), BoxFields(l, nonce, ciphertext, aad));
    TagBytes(l);
    NumberedBytes(l, reqId, num);
    BoxBytes(l, nonce, ciphertext, aad);
  }

  lemma FlaggedBytes(l: Labels, reqId: string, num: U32, nonce: seq<Byte>, ciphertext: seq<Byte>, aad: Byte, done: bool)
    requires ArePlain(l) && nonce != [] && ciphertext != []
    ensures var n, most := FieldsBytes(FlaggedMessage(l, reqId, num, nonce, ciphertext, aad, done)),
              |l.kind| + SealedLabels(l) + |l.done| + 51 + EscapedBytes(reqId) + 4 * (|nonce| + |ciphertext|);
      n <= most && (Widest(num, nonce, ciphertext, aad) && !done ==> n == most)
  {
    FieldsBytesConcat(SealedMessage(l, reqId, num, nonce, ciphertext, aad), [Field(l.done, Bool(done))]);
    SealedBytes(l, reqId, num, nonce, ciphertext, aad);
    BoolFieldBytes(l.done, done);
  }

  // ---- Encrypted chunks ----

  predicate FitsWire(message: seq<Field>) {
    WireBytes(message) <= MAX_DC_WIRE_BYTES
  }

  lemma FitsByFields(message: seq<Field>)
    ensures FitsWire(message) <==> FieldsBytes(message) <= MAX_DC_WIRE_BYTES - 2
  {
    ObjectBytes(message);
  }

  /** What encryption gives for at most 1024 bytes of plaintext. */
  predicate IsSealed(nonce: seq<Byte>, ciphertext: seq<Byte>) {
    |nonce| == NONCE_BYTES && TAG_BYTES <= |ciphertext| <= MAX_E2EE_PLAINTEXT_CHUNK_BYTES + TAG_BYTES
  }

  /** Bytes that the request identifier may take once it is escaped. */
  const REQ_ID_ROOM := 3863

  /** Every encrypted response chunk fits, whatever the ciphertext, exactly for request identifiers
      of at most `REQ_ID_ROOM` escaped bytes. */
  lemma StreamChunksFit(reqId: string)
    ensures EscapedBytes(reqId) <= REQ_ID_ROOM <==>
      forall num: U32, nonce, ciphertext, aad: Byte, done :: IsSealed(nonce, ciphertext) ==>
        FitsWire(FlaggedMessage(STREAM_CHUNK, reqId, num, nonce, ciphertext, aad, done))
  {
    LabelLengths("encryptedproxystreamchunk");
    if EscapedBytes(reqId) <= REQ_ID_ROOM {
      forall num: U32, nonce, ciphertext, aad: Byte, done | IsSealed(nonce, ciphertext)
        ensures FitsWire(FlaggedMessage(STREAM_CHUNK, reqId, num, nonce, ciphertext, aad, done))
      {
        StreamChunkFits(STREAM_CHUNK, reqId, num, nonce, ciphertext, aad, done);
      }
    } else {
      var num, nonce, ciphertext := WidestChunk(STREAM_CHUNK, reqId);
      assert IsSealed(nonce, ciphertext);
    }
  }

  predicate IsStreamLabels(l: Labels) {
    ArePlain(l) && |l.kind| + SealedLabels(l) + |l.done| == 68
  }

  lemma StreamChunkFits(l: Labels, reqId: string, num: U32, nonce: seq<Byte>, ciphertext: seq<Byte>, aad: Byte, done: bool)
    requires IsStreamLabels(l) && IsSealed(nonce, ciphertext) && EscapedBytes(reqId) <= REQ_ID_ROOM
    ensures FitsWire(FlaggedMessage(l, reqId, num, nonce, ciphertext, aad, done))
  {
    FlaggedBytes(l, reqId, num, nonce, ciphertext, aad, done);
    FitsByFields(FlaggedMessage(l, reqId, num, nonce, ciphertext, aad, done));
  }

  lemma WidestChunk(l: Labels, reqId: string) returns (num: U32, nonce: seq<Byte>, ciphertext: seq<Byte>)
    requires IsStreamLabels(l) && REQ_ID_ROOM < EscapedBytes(reqId)
    ensures IsSealed(nonce, ciphertext)
    ensures !FitsWire(FlaggedMessage(l, reqId, num, nonce, ciphertext, 255, false))
  {
    num := 4_000_000_000;
    nonce, ciphertext := Wide(NONCE_BYTES), Wide(MAX_E2EE_PLAINTEXT_CHUNK_BYTES + TAG_BYTES);
    FlaggedBytes(l, reqId, num, nonce, ciphertext, 255, false);
    FitsByFields(FlaggedMessage(l, reqId, num, nonce, ciphertext, 255, false));
  }

  function Wide(n: nat): (bytes: seq<Byte>)
    ensures |bytes| == n && AllWide(bytes)
  {
    seq(n, _ => 255)
  }

  /** So does every encrypted request chunk. */
  lemma RequestChunkFits(reqId: string, num: U32, nonce: seq<Byte>, ciphertext: seq<Byte>, aad: Byte)
    requires IsSealed(nonce, ciphertext) && EscapedBytes(reqId) <= REQ_ID_ROOM
    ensures FitsWire(SealedMessage(REQUEST_CHUNK, reqId, num, nonce, ciphertext, aad))
  {
    LabelLengths("encryptedproxyrequestchunk");
    SealedBytes(REQUEST_CHUNK, reqId, num, nonce, ciphertext, aad);
    FitsByFields(SealedMessage(REQUEST_CHUNK, reqId, num, nonce, ciphertext, aad));
  }

  /** Escaping takes at most six bytes for one. */
  lemma {:induction false} EscapeAtMostSixfold(s: string)
    ensures EscapedBytes(s) <= 6 * ByteLen(s)
  {
    if s != "" {
      EscapeAtMostSixfold(s[1..]);
      EscapeCharBytes(s[0]);
      ByteLenConcat(EscapeChar(s[0]), Escape(s[1..]));
    }
  }

  lemma EscapeCharBytes(c: char)
    ensures ByteLen(EscapeChar(c)) <= if TwoCharEscapes([c]) then 2 * Width(c) else 6 * Width(c)
  {
    var e := EscapeChar(c);
    if e != [c] { AsciiBytes(e); } else { assert [c][1..] == ""; }
    assert [c][0] == c;
  }

  /** A request identifier of up to 643 bytes leaves room for every chunk. */
  lemma ShortIdsFit(reqId: string)
    requires ByteLen(reqId) <= 643
    ensures EscapedBytes(reqId) <= REQ_ID_ROOM
  {
    EscapeAtMostSixfold(reqId);
  }

  // ---- Plain chunks ----

  /** No character needs the six-byte escape. */
  predicate TwoCharEscapes(s: string) {
    forall i :: 0 <= i < |s| ==> 0x20 <= s[i] as int || s[i] as int in {0x08, 0x09, 0x0A, 0x0C, 0x0D}
  }

  lemma {:induction false} EscapeAtMostTwofold(s: string)
    requires TwoCharEscapes(s)
    ensures EscapedBytes(s) <= 2 * ByteLen(s)
  {
    if s != "" {
      EscapeAtMostTwofold(s[1..]);
      EscapeCharBytes(s[0]);
      ByteLenConcat(EscapeChar(s[0]), Escape(s[1..]));
    }
  }

  lemma PlainResponseBytes(l: Labels, reqId: string, chunk: string)
    requires ArePlain(l)
    ensures FieldsBytes(PlainResponseMessage(l, reqId, chunk))
         == |l.kind| + |l.tag| + |l.reqId| + |l.chunk| + 17 + EscapedBytes(reqId) + EscapedBytes(chunk)
  {
    FieldsBytesConcat(TagFields(l), [TextField(l.reqId, reqId)]);
    FieldsBytesConcat(TagFields(l) + [TextField(l.reqId, reqId)], [TextField(l.chunk, chunk)]);
    TagBytes(l);
    TextFieldBytes(l.reqId, reqId);
    TextFieldBytes(l.chunk, chunk);
  }

  lemma PlainRequestBytes(l: Labels, reqId: string, num: U32, chunk: string)
    requires ArePlain(l)
    ensures FieldsBytes(PlainRequestMessage(l, reqId, num, chunk))
         <= |l.kind| + |l.tag| + |l.reqId| + |l.num| + |l.chunk| + 31 + EscapedBytes(reqId) + EscapedBytes(chunk)
  {
    FieldsBytesConcat(TagFields(l), NumberedFields(l, reqId, num));
    FieldsBytesConcat(TagFields(l) + NumberedFields(l, reqId, num), [TextField(l.chunk, chunk)]);
    TagBytes(l);
    NumberedBytes(l, reqId, num);
    TextFieldBytes(l.chunk, chunk);
  }

  /** A response chunk fits exactly when identifier and text have room once they are escaped. */
  lemma PlainResponseFits(reqId: string, chunk: string)
    ensures FitsWire(PlainResponseMessage(PLAIN_RESPONSE_CHUNK, reqId, chunk))
       <==> EscapedBytes(reqId) + EscapedBytes(chunk) <= 8140
  {
    LabelLengths("proxyresponsechunk");
    PlainResponseBytes(PLAIN_RESPONSE_CHUNK, reqId, chunk);
    FitsByFields(PlainResponseMessage(PLAIN_RESPONSE_CHUNK, reqId, chunk));
  }

  /** Of a text without six-byte escapes, every chunk fits. */
  lemma ResponseChunksFit(reqId: string, text: string, i: nat)
    requires EscapedBytes(reqId) <= 1980 && TwoCharEscapes(text)
    requires i < |Chunking.Chunks(text, MAX_DC_CHUNK_BYTES)|
    ensures FitsWire(PlainResponseMessage(PLAIN_RESPONSE_CHUNK, reqId, Chunking.Chunks(text, MAX_DC_CHUNK_BYTES)[i]))
  {
    var chunk := Chunking.Chunks(text, MAX_DC_CHUNK_BYTES)[i];
    Chunking.ChunkSizes(text, MAX_DC_CHUNK_BYTES);
    ChunkEscapes(text, MAX_DC_CHUNK_BYTES, i);
    EscapeAtMostTwofold(chunk);
    PlainResponseFits(reqId, chunk);
  }

  /** Control characters are not covered: a chunk of them is too long for the wire, and the sender
      gives up. */
  lemma ControlCharactersDoNotFit(reqId: string, n: nat)
    requires 1357 <= n
    ensures !FitsWire(PlainResponseMessage(PLAIN_RESPONSE_CHUNK, reqId, Bells(n)))
  {
    BellBytes(n);
    PlainResponseFits(reqId, Bells(n));
  }

  const BELL: char := 7 as char

  function Bells(n: nat): string {
    if n == 0 then "" else [BELL] + Bells(n - 1)
  }

  lemma {:induction false} BellBytes(n: nat)
    ensures EscapedBytes(Bells(n)) == 6 * n && ByteLen(Bells(n)) == n
  {
    if n > 0 {
      BellBytes(n - 1);
      var e := EscapeChar(BELL);
      AsciiBytes(e);
      assert |e| == 6;
      assert Bells(n)[1..] == Bells(n - 1);
      ByteLenConcat(e, Escape(Bells(n - 1)));
    }
  }

  /** Every piece of a text consists of characters of the text. */
  lemma {:induction false} ChunksOfText(s: string, limit: nat, i: nat)
    requires i < |Chunking.Chunks(s, limit)|
    ensures forall c :: c in Chunking.Chunks(s, limit)[i] ==> c in s
    decreases |s|
  {
    if i > 0 {
      ChunksOfText(s[Chunking.Take(s, limit)..], limit, i - 1);
    }
  }

  lemma ChunkEscapes(s: string, limit: nat, i: nat)
    requires TwoCharEscapes(s) && i < |Chunking.Chunks(s, limit)|
    ensures TwoCharEscapes(Chunking.Chunks(s, limit)[i])
  {
    var chunk := Chunking.Chunks(s, limit)[i];
    ChunksOfText(s, limit, i);
    forall k | 0 <= k < |chunk| ensures chunk[k] in s { assert chunk[k] in chunk; }
  }

  /** Whatever the body is, every chunk of a request fits: serialised JSON has no control characters. */
  lemma RequestBodiesFit(reqId: string, num: U32, body: Value, i: nat)
    requires EscapedBytes(reqId) <= 1980
    requires i < |Chunking.Chunks(Serialize(body), MAX_DC_CHUNK_BYTES)|
    ensures var chunk := Chunking.Chunks(Serialize(body), MAX_DC_CHUNK_BYTES)[i];
      FitsWire(PlainRequestMessage(PLAIN_REQUEST_CHUNK, reqId, num, chunk))
  {
    var text := Serialize(body);
    SerializeHasNoControl(body);
    Chunking.ChunkSizes(text, MAX_DC_CHUNK_BYTES);
    ChunkEscapes(text, MAX_DC_CHUNK_BYTES, i);
    PlainRequestFits(reqId, num, Chunking.Chunks(text, MAX_DC_CHUNK_BYTES)[i]);
  }

  lemma PlainRequestFits(reqId: string, num: U32, chunk: string)
    requires EscapedBytes(reqId) <= 1980 && TwoCharEscapes(chunk) && ByteLen(chunk) <= MAX_DC_CHUNK_BYTES
    ensures FitsWire(PlainRequestMessage(PLAIN_REQUEST_CHUNK, reqId, num, chunk))
  {
    LabelLengths("proxyrequestchunk");
    EscapeAtMostTwofold(chunk);
    PlainRequestBytes(PLAIN_REQUEST_CHUNK, reqId, num, chunk);
    FitsByFields(PlainRequestMessage(PLAIN_REQUEST_CHUNK, reqId, num, chunk));
  }
}
