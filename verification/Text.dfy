/** Rust strings: sequences of Unicode scalar values that are indexed by byte.

    A `string` here is a sequence of scalar values; `ByteLen` is its length in UTF-8 and
    byte offsets are only meaningful where `IsCharBoundary` holds, as for `str`. */
module Text {
  import opened Options

  const NEWLINE: char := '\n'

  /** A character of two bytes. */
  const E_ACUTE: char := '\U{00E9}'

  /** Bytes taken by one scalar value in UTF-8 (section 3 of RFC 3629). */
  function Width(c: char): (w: nat)
    ensures 1 <= w <= 4
  {
    if c as int < 0x80 then 1 else if c as int < 0x800 then 2 else if c as int < 0x10000 then 3 else 4
  }

  function ByteLen(s: string): nat {
    if s == "" then 0 else Width(s[0]) + ByteLen(s[1..])
  }

  lemma {:induction false} ByteLenConcat(a: string, b: string)
    ensures ByteLen(a + b) == ByteLen(a) + ByteLen(b)
  {
    if a == "" {
      assert a + b == b;
    } else {
      assert (a + b)[1..] == a[1..] + b;
      ByteLenConcat(a[1..], b);
    }
  }

  lemma {:induction false} ByteLenBounds(s: string)
    ensures |s| <= ByteLen(s) <= 4 * |s|
  {
    if s != "" { ByteLenBounds(s[1..]); }
  }

  /** Byte offset `i` of `s` starts a character or is the end of `s`. */
  predicate IsCharBoundary(s: string, i: nat) {
    i == 0 || (s != "" && Width(s[0]) <= i && IsCharBoundary(s[1..], i - Width(s[0])))
  }

  /** The number of characters before byte offset `i`. */
  function CharsBefore(s: string, i: nat): (k: nat)
    requires IsCharBoundary(s, i)
    ensures k <= |s|
  {
    if i == 0 then 0 else 1 + CharsBefore(s[1..], i - Width(s[0]))
  }

  /** `&s[start..end]` with byte offsets. */
  function ByteSlice(s: string, start: nat, end: nat): string
    requires start <= end && IsCharBoundary(s, start) && IsCharBoundary(s, end)
  {
    var i, j := CharsBefore(s, start), CharsBefore(s, end);
    if i <= j then s[i..j] else ""
  }

  /** The largest number of leading characters that fit in `limit` bytes. */
  function Fit(s: string, limit: nat): (k: nat)
    ensures k <= |s|
  {
    if s == "" || limit < Width(s[0]) then 0 else 1 + Fit(s[1..], limit - Width(s[0]))
  }

  /** `Fit` is the greatest count that fits, and leaves at most three bytes of the limit unused
      when the text is longer. */
  lemma {:induction false} FitIsMaximal(s: string, limit: nat)
    ensures ByteLen(s[..Fit(s, limit)]) <= limit
    ensures Fit(s, limit) < |s| ==> limit < ByteLen(s[..Fit(s, limit) + 1])
    ensures limit <= ByteLen(s) ==> limit < ByteLen(s[..Fit(s, limit)]) + 4
    ensures ByteLen(s) <= limit ==> Fit(s, limit) == |s|
  {
    if s == "" {
    } else if limit < Width(s[0]) {
      assert s[..1][1..] == "";
    } else {
      var k := Fit(s[1..], limit - Width(s[0]));
      FitIsMaximal(s[1..], limit - Width(s[0]));
      assert s[..k + 1][1..] == s[1..][..k];
      if k + 1 < |s| { assert s[..k + 2][1..] == s[1..][..k + 1]; }
    }
  }

  /** Only the bytes up to the limit decide where a text is cut. */
  lemma {:induction false} FitIsLocal(a: string, b: string, limit: nat)
    requires limit <= ByteLen(a)
    ensures Fit(a + b, limit) == Fit(a, limit)
  {
    if a == "" {
      if b != "" { assert (a + b)[0] == b[0]; }
    } else if Width(a[0]) <= limit {
      assert (a + b)[1..] == a[1..] + b;
      FitIsLocal(a[1..], b, limit - Width(a[0]));
    }
  }

  /** Every character prefix ends on a boundary. */
  lemma {:induction false} PrefixIsBoundary(s: string, k: nat)
    requires k <= |s|
    ensures IsCharBoundary(s, ByteLen(s[..k])) && CharsBefore(s, ByteLen(s[..k])) == k
  {
    if k > 0 {
      assert s[..k][1..] == s[1..][..k - 1];
      PrefixIsBoundary(s[1..], k - 1);
    }
  }

  lemma {:induction false} BytesBefore(s: string, i: nat)
    requires IsCharBoundary(s, i)
    ensures ByteLen(s[..CharsBefore(s, i)]) == i
  {
    if i > 0 {
      BytesBefore(s[1..], i - Width(s[0]));
      assert s[..CharsBefore(s, i)][1..] == s[1..][..CharsBefore(s, i) - 1];
    }
  }

  /** No boundary lies strictly between the cut and the limit. */
  lemma {:induction false} NoBoundaryAfterFit(s: string, limit: nat, i: nat)
    requires IsCharBoundary(s, i) && i <= limit
    ensures i <= ByteLen(s[..Fit(s, limit)])
  {
    if i > 0 {
      var k := Fit(s[1..], limit - Width(s[0]));
      NoBoundaryAfterFit(s[1..], limit - Width(s[0]), i - Width(s[0]));
      assert s[..k + 1][1..] == s[1..][..k];
    }
  }

  /** Boundaries of a suffix are the boundaries of the whole text, shifted. */
  lemma {:induction false} BoundaryShift(s: string, k: nat, i: nat)
    requires k <= |s|
    ensures IsCharBoundary(s, ByteLen(s[..k]) + i) <==> IsCharBoundary(s[k..], i)
  {
    if k > 0 {
      assert s[..k][1..] == s[1..][..k - 1];
      assert s[1..][k - 1..] == s[k..];
      BoundaryShift(s[1..], k - 1, i);
    } else {
      assert s[..0] == "" && s[0..] == s;
    }
  }

  /** The backward walk to a boundary that both chunkers and both flush loops make. From
      `start + reach` it stops where `Fit` cuts the text that begins at `start`. */
  method FloorCharBoundary(s: string, start: nat, reach: nat) returns (end: nat)
    requires IsCharBoundary(s, start) && start + reach <= ByteLen(s)
    ensures var rest := s[CharsBefore(s, start)..]; end == start + ByteLen(rest[..Fit(rest, reach)])
    ensures IsCharBoundary(s, end)
  {
    ghost var k := CharsBefore(s, start);
    BytesBefore(s, start);
    FitIsMaximal(s[k..], reach);
    ghost var rest := s[k..];
    ghost var cut := ByteLen(rest[..Fit(rest, reach)]);
    PrefixIsBoundary(rest, Fit(rest, reach));
    BoundaryShift(s, k, cut);
    end := start + reach;
    while end > start && !IsCharBoundary(s, end)
      invariant start + cut <= end <= start + reach
      invariant forall i :: end < i <= start + reach ==> !IsCharBoundary(s, i)
    {
      end := end - 1;
    }
    BoundaryShift(s, k, end - start);
    NoBoundaryAfterFit(rest, reach, end - start);
  }

  /** The Unicode `White_Space` property, which `char::is_whitespace` follows. */
  predicate IsWhitespace(c: char) {
    var u := c as int;
    || 0x09 <= u <= 0x0D || u == 0x20 || u == 0x85 || u == 0xA0 || u == 0x1680 || 0x2000 <= u <= 0x200A
    || u == 0x2028 || u == 0x2029 || u == 0x202F || u == 0x205F || u == 0x3000
  }

  predicate AllWhitespace(s: string) {
    forall i :: 0 <= i < |s| ==> IsWhitespace(s[i])
  }

  function TrimStart(s: string): (r: string)
    ensures |r| <= |s|
  {
    if s != "" && IsWhitespace(s[0]) then TrimStart(s[1..]) else s
  }

  function TrimEnd(s: string): (r: string)
    ensures |r| <= |s|
  {
    if s != "" && IsWhitespace(s[|s| - 1]) then TrimEnd(s[..|s| - 1]) else s
  }

  /** The white space that trimming removes, and where it stops. */
  lemma {:induction false} TrimStartShape(s: string) returns (ws: string)
    ensures s == ws + TrimStart(s) && AllWhitespace(ws)
    ensures TrimStart(s) != "" ==> !IsWhitespace(TrimStart(s)[0])
    ensures TrimStart(TrimStart(s)) == TrimStart(s)
  {
    if s != "" && IsWhitespace(s[0]) {
      ws := TrimStartShape(s[1..]);
      assert s == [s[0]] + s[1..];
      ws := [s[0]] + ws;
    } else {
      ws := "";
    }
  }

  lemma {:induction false} TrimEndShape(s: string) returns (ws: string)
    ensures s == TrimEnd(s) + ws && AllWhitespace(ws)
    ensures TrimEnd(s) != "" ==> !IsWhitespace(TrimEnd(s)[|TrimEnd(s)| - 1])
  {
    if s != "" && IsWhitespace(s[|s| - 1]) {
      ws := TrimEndShape(s[..|s| - 1]);
      assert s == s[..|s| - 1] + [s[|s| - 1]];
      ws := ws + [s[|s| - 1]];
    } else {
      ws := "";
    }
  }

  function Trim(s: string): string {
    TrimEnd(TrimStart(s))
  }

  /** `s.trim().is_empty()` */
  predicate IsBlank(s: string)
  {
    Trim(s) == ""
  }

  lemma {:induction false} BlankIsAllWhitespace(s: string)
    ensures IsBlank(s) <==> AllWhitespace(s)
  {
    if s != "" {
      if IsWhitespace(s[0]) {
        BlankIsAllWhitespace(s[1..]);
        assert s == [s[0]] + s[1..];
      } else {
        var ws := TrimEndShape(s);
        assert TrimEnd(s) == "" ==> s == ws;
      }
    }
  }

  /** Trimming takes the outermost non-blank characters, however much white space surrounds them. */
  lemma {:induction false} TrimStartSkips(ws: string, s: string)
    requires AllWhitespace(ws)
    ensures TrimStart(ws + s) == TrimStart(s)
  {
    if ws == "" {
      assert ws + s == s;
    } else {
      assert (ws + s)[1..] == ws[1..] + s;
      TrimStartSkips(ws[1..], s);
    }
  }

  lemma {:induction false} TrimEndSkips(s: string, ws: string)
    requires AllWhitespace(ws)
    ensures TrimEnd(s + ws) == TrimEnd(s)
  {
    if ws == "" {
      assert s + ws == s;
    } else {
      assert (s + ws)[..|s + ws| - 1] == s + ws[..|ws| - 1];
      TrimEndSkips(s, ws[..|ws| - 1]);
    }
  }

  /** A text whose ends are not white space is its own trimming. */
  lemma TrimKeeps(s: string)
    requires s != "" ==> !IsWhitespace(s[0]) && !IsWhitespace(s[|s| - 1])
    ensures Trim(s) == s
  {
  }

  /** The result of trimming has no white space at its ends. */
  lemma TrimEnds(s: string)
    ensures Trim(s) != "" ==> !IsWhitespace(Trim(s)[0]) && !IsWhitespace(Trim(s)[|Trim(s)| - 1])
    ensures Trim(Trim(s)) == Trim(s)
  {
    var t, r := TrimStart(s), Trim(s);
    var ws1 := TrimStartShape(s);
    var ws2 := TrimEndShape(t);
    if r != "" { assert r[0] == t[0]; }
    TrimKeeps(r);
  }

  /** What trimming removes on either side is white space. */
  lemma TrimSandwich(a: string, m: string, b: string)
    requires AllWhitespace(a) && AllWhitespace(b)
    requires m != "" && !IsWhitespace(m[0]) && !IsWhitespace(m[|m| - 1])
    ensures Trim(a + m + b) == m
  {
    assert a + m + b == a + (m + b);
    TrimStartSkips(a, m + b);
    assert TrimStart(m + b) == m + b by { assert (m + b)[0] == m[0]; }
    TrimEndSkips(m, b);
  }

  lemma {:induction false} TrimIgnoresEnd(m: string, ws: string)
    requires AllWhitespace(ws)
    ensures Trim(m + ws) == Trim(m)
  {
    if m == "" {
      assert m + ws == ws;
      BlankIsAllWhitespace(ws);
    } else if IsWhitespace(m[0]) {
      assert (m + ws)[1..] == m[1..] + ws;
      TrimIgnoresEnd(m[1..], ws);
    } else {
      assert TrimStart(m + ws) == m + ws && TrimStart(m) == m;
      TrimEndSkips(m, ws);
    }
  }

  /** The value of a string of decimal digits. */
  function DigitsValue(s: string): Option<nat>
    decreases |s|
  {
    if s == "" then Some(0) else
      var before, c := DigitsValue(s[..|s| - 1]), s[|s| - 1];
      if before.Some? && '0' <= c <= '9' then Some(10 * before.value + (c - '0') as int) else None
  }

  function Join(parts: seq<string>): string {
    if parts == [] then "" else parts[0] + Join(parts[1..])
  }

  lemma JoinCons(x: string, rest: seq<string>)
    ensures Join([x] + rest) == x + Join(rest)
  {
    assert ([x] + rest)[1..] == rest;
  }

  lemma {:induction false} JoinConcat(a: seq<string>, b: seq<string>)
    ensures Join(a + b) == Join(a) + Join(b)
  {
    if a == [] {
      assert a + b == b;
    } else {
      assert (a + b)[1..] == a[1..] + b;
      JoinConcat(a[1..], b);
    }
  }

  lemma JoinOne(x: string)
    ensures Join([x]) == x
  {
    assert [x][1..] == [] && x + "" == x;
  }

  lemma JoinAppend(a: seq<string>, x: string)
    ensures Join(a + [x]) == Join(a) + x
  {
    JoinConcat(a, [x]);
    assert Join([x]) == x + Join([]);
  }
}
