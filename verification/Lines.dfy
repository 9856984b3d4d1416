/** Cutting a growing buffer into lines, as the stream consumer and the SSE driver do. */
module Lines {
  import opened Text

  /** The index of the first line feed, or the length. */
  function LineFeed(s: string): (i: nat)
    ensures i <= |s|
    ensures i < |s| ==> s[i] == NEWLINE
    ensures forall j :: 0 <= j < i ==> s[j] != NEWLINE
  {
    if s == "" || s[0] == NEWLINE then 0 else 1 + LineFeed(s[1..])
  }

  /** The complete lines of `s`, each with its line feed. */
  function Complete(s: string): seq<string>
    decreases |s|
  {
    var i := LineFeed(s);
    if i == |s| then [] else [s[..i + 1]] + Complete(s[i + 1..])
  }

  /** What follows the last line feed. */
  function Rest(s: string): string
    decreases |s|
  {
    var i := LineFeed(s);
    if i == |s| then s else Rest(s[i + 1..])
  }

  lemma LineFeedAt(s: string, i: nat)
    requires i < |s| && s[i] == NEWLINE && forall j :: 0 <= j < i ==> s[j] != NEWLINE
    ensures LineFeed(s) == i
  {
  }

  lemma LineFeedConcat(a: string, b: string)
    ensures LineFeed(a) < |a| ==> LineFeed(a + b) == LineFeed(a)
  {
    var i := LineFeed(a);
    if i < |a| {
      assert forall j :: 0 <= j <= i ==> (a + b)[j] == a[j];
      LineFeedAt(a + b, i);
    }
  }

  /** The first line of a text does not depend on what follows it. */
  lemma FirstLine(a: string, b: string)
    requires LineFeed(a) < |a|
    ensures var i := LineFeed(a) + 1;
      && Complete(a + b) == [a[..i]] + Complete(a[i..] + b)
      && Rest(a + b) == Rest(a[i..] + b)
  {
    LineFeedConcat(a, b);
    var i := LineFeed(a) + 1;
    assert (a + b)[..i] == a[..i] && (a + b)[i..] == a[i..] + b;
  }

  /** Cutting can be resumed: only the unfinished line of the first part matters. */
  lemma {:induction false} CutResumes(a: string, b: string)
    ensures Complete(a + b) == Complete(a) + Complete(Rest(a) + b)
    ensures Rest(a + b) == Rest(Rest(a) + b)
    decreases |a|
  {
    var i := LineFeed(a) + 1;
    if i <= |a| {
      var first, rest := a[..i], a[i..];
      FirstLine(a, b);
      CutResumes(rest, b);
      assert Complete(a) == [first] + Complete(rest) && Rest(a) == Rest(rest);
      Reassociate(first, Complete(rest), Complete(Rest(a) + b));
    } else {
      assert [] + Complete(a + b) == Complete(a + b);
    }
  }

  lemma Reassociate(first: string, lines: seq<string>, more: seq<string>)
    ensures [first] + (lines + more) == ([first] + lines) + more
  {
  }

  lemma TakeFirst(lines: seq<string>, first: string, more: seq<string>)
    ensures lines + ([first] + more) == (lines + [first]) + more
  {
  }

  lemma KeepsFirst(x: string, more: seq<string>, rest: string, text: string)
    requires Join(more) + rest == text
    ensures Join([x] + more) + rest == x + text
  {
  }

  /** No line feed is left over, and nothing is lost. */
  lemma {:induction false} CutKeepsText(s: string)
    ensures Join(Complete(s)) + Rest(s) == s
    ensures NEWLINE !in Rest(s)
    decreases |s|
  {
    if LineFeed(s) < |s| {
      var first, more := CutOne(s);
      CutKeepsText(more);
      KeepsFirst(first, Complete(more), Rest(more), more);
    }
  }

  /** What one turn of the cutting loop does. */
  lemma CutOne(s: string) returns (first: string, more: string)
    requires LineFeed(s) < |s|
    ensures first == s[..LineFeed(s) + 1] && more == s[LineFeed(s) + 1..] && s == first + more
    ensures Complete(s) == [first] + Complete(more) && Rest(s) == Rest(more)
  {
    first, more := s[..LineFeed(s) + 1], s[LineFeed(s) + 1..];
  }

  /** A line: text without line feeds, and then one. */
  predicate IsLine(s: string) {
    s != "" && LineFeed(s) == |s| - 1
  }

  lemma {:induction false} CompleteAreLines(s: string)
    ensures forall i :: 0 <= i < |Complete(s)| ==> IsLine(Complete(s)[i])
    decreases |s|
  {
    var i := LineFeed(s);
    if i < |s| {
      CompleteAreLines(s[i + 1..]);
      var first := s[..i + 1];
      assert first[i] == NEWLINE;
      LineFeedAt(first, i);
    }
  }

  lemma OneLineFirst(x: string, more: string)
    requires IsLine(x)
    ensures Complete(x + more) == [x] + Complete(more) && Rest(x + more) == Rest(more)
  {
    var i := LineFeed(x) + 1;
    FirstLine(x, more);
    assert x[..i] == x && x[i..] == "";
    assert x[i..] + more == more;
  }

  /** Joined lines come apart into the same lines. */
  lemma {:induction false} JoinedLinesComeApart(lines: seq<string>)
    requires forall i :: 0 <= i < |lines| ==> IsLine(lines[i])
    ensures Complete(Join(lines)) == lines && Rest(Join(lines)) == ""
  {
    if lines != [] {
      var x, more := lines[0], Join(lines[1..]);
      JoinedLinesComeApart(lines[1..]);
      OneLineFirst(x, more);
    }
  }

  /** The consumer drops blank lines. */
  function NonBlank(lines: seq<string>): seq<string> {
    if lines == [] then []
    else if IsBlank(lines[0]) then NonBlank(lines[1..])
    else [lines[0]] + NonBlank(lines[1..])
  }

  lemma {:induction false} NonBlankConcat(a: seq<string>, b: seq<string>)
    ensures NonBlank(a + b) == NonBlank(a) + NonBlank(b)
  {
    if a == [] {
      assert a + b == b;
    } else {
      assert (a + b)[1..] == a[1..] + b;
      NonBlankConcat(a[1..], b);
    }
  }

  lemma {:induction false} NonBlankAreLines(lines: seq<string>)
    requires forall i :: 0 <= i < |lines| ==> IsLine(lines[i])
    ensures forall i :: 0 <= i < |NonBlank(lines)| ==> IsLine(NonBlank(lines)[i])
  {
    if lines != [] { NonBlankAreLines(lines[1..]); }
  }

  /** The lines a text gives the caller while more may follow. */
  function Delivered(text: string): seq<string> {
    NonBlank(Complete(text))
  }

  /** The line made of an unterminated tail. */
  function Tail(rest: string): seq<string> {
    if IsBlank(rest) then [] else [rest + [NEWLINE]]
  }

  /** The lines a finished text gives the caller. */
  function AllLines(text: string): seq<string> {
    Delivered(text) + Tail(Rest(text))
  }

  lemma DeliveredResumes(a: string, b: string)
    ensures Delivered(a + b) == Delivered(a) + Delivered(Rest(a) + b)
  {
    CutResumes(a, b);
    NonBlankConcat(Complete(a), Complete(Rest(a) + b));
  }

  lemma AllLinesAreLines(text: string)
    ensures forall i :: 0 <= i < |AllLines(text)| ==> IsLine(AllLines(text)[i])
  {
    CompleteAreLines(text);
    NonBlankAreLines(Complete(text));
    CutKeepsText(text);
    var tail := Rest(text) + [NEWLINE];
    LineFeedAt(tail, |tail| - 1);
  }

  // ---- Line by line ----

  /** Texts that each end with a line feed. */
  function Fed(texts: seq<string>): string {
    if texts == [] then "" else texts[0] + ([NEWLINE] + Fed(texts[1..]))
  }

  predicate AreSingle(texts: seq<string>) {
    forall i :: 0 <= i < |texts| ==> NEWLINE !in texts[i]
  }

  /** Those of the texts that are not all white space, each with a line feed. */
  function Visible(texts: seq<string>): seq<string> {
    if texts == [] then []
    else (if AllWhitespace(texts[0]) then [] else [texts[0] + [NEWLINE]]) + Visible(texts[1..])
  }

  lemma FedLine(x: string)
    requires NEWLINE !in x
    ensures IsLine(x + [NEWLINE]) && (IsBlank(x + [NEWLINE]) <==> AllWhitespace(x))
  {
    var line := x + [NEWLINE];
    LineFeedAt(line, |line| - 1);
    BlankIsAllWhitespace(line);
    assert AllWhitespace(line) ==> forall i :: 0 <= i < |x| ==> IsWhitespace(line[i]) && line[i] == x[i];
  }

  lemma {:induction false} FedIsDelivered(texts: seq<string>, last: string)
    requires AreSingle(texts) && NEWLINE !in last
    ensures Delivered(Fed(texts) + last) == Visible(texts) && Rest(Fed(texts) + last) == last
    decreases |texts|
  {
    if texts == [] {
      assert Fed(texts) + last == last;
      assert LineFeed(last) == |last|;
    } else {
      var line, more := texts[0] + [NEWLINE], Fed(texts[1..]) + last;
      assert Fed(texts) + last == line + more;
      FedLine(texts[0]);
      OneLineFirst(line, more);
      FedIsDelivered(texts[1..], last);
      assert ([line] + Complete(more))[1..] == Complete(more);
    }
  }

  lemma {:induction false} VisibleConcat(a: seq<string>, b: seq<string>)
    ensures Visible(a + b) == Visible(a) + Visible(b)
  {
    if a == [] {
      assert a + b == b;
    } else {
      assert (a + b)[1..] == a[1..] + b;
      VisibleConcat(a[1..], b);
    }
  }

  /** A finished text gives the caller each of its lines that is not blank, whole and in order, the last
      one with a line feed if it had none. */
  lemma EachLineIsGiven(texts: seq<string>, last: string)
    requires AreSingle(texts) && NEWLINE !in last
    ensures AllLines(Fed(texts) + last) == Visible(texts + [last])
  {
    FedIsDelivered(texts, last);
    VisibleConcat(texts, [last]);
    BlankIsAllWhitespace(last);
    assert [last][1..] == [];
  }

  /** The loop `while let Some(pos) = line_buf.find('\n')` with its `drain(..=pos)`. */
  method DrainLines(buf: string) returns (lines: seq<string>, rest: string)
    ensures lines == Complete(buf) && rest == Rest(buf)
  {
    lines, rest := [], buf;
    var pos := LineFeed(rest);
    while pos < |rest|
      invariant pos == LineFeed(rest)
      invariant lines + Complete(rest) == Complete(buf) && Rest(rest) == Rest(buf)
      decreases |rest|
    {
      ghost var first, more := CutOne(rest);
      TakeFirst(lines, first, Complete(more));
      lines := lines + [rest[..pos + 1]];
      rest := rest[pos + 1..];
      pos := LineFeed(rest);
    }
  }
}
