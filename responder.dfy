/** `generate_response`: the context handed to the model (the query and, when
    quotes were fetched, one line per symbol), and the model's reply or an
    apology when the model call raises. */
module Responder {
  import opened Outcomes
  import opened PyJson
  import opened Quotes

  const QueryLead: string := "User Query: "
  const DataLead: string := "Stock Data:\n"
  const ProcessingApology: string :=
    "I apologize, but I encountered an error while processing your request: "

  /** The line shown for one entry of the quote dict: it starts with the
      symbol as printed and ends with the error text or with the price. */
  function Line(symbol: Json, record: Record): (r: string)
    requires Hashable(symbol)
    ensures |Display(symbol)| <= |r| && r[..|Display(symbol)|] == Display(symbol)
    ensures record.Failed? ==>
      |record.error| <= |r| && r[|r| - |record.error|..] == record.error
    ensures record.Quote? ==>
      |record.price| <= |r| && r[|r| - |record.price|..] == record.price
  {
    match record
    case Failed(error) => Display(symbol) + ": " + error
    case Quote(price, name, currency) => Display(symbol) + " (" + name + "): " + currency + " " + price
  }

  /** The lines of the dict's entries, in its key order. */
  function Lines(t: Table): (lines: seq<string>)
    requires t.Valid()
    ensures |lines| == |t.keys|
  {
    seq(|t.keys|, k requires 0 <= k < |t.keys| => Line(t.keys[k], t.records[t.keys[k]]))
  }

  /** The total length of the parts. */
  function TotalLength(parts: seq<string>): nat {
    if parts == [] then 0 else TotalLength(parts[..|parts| - 1]) + |parts[|parts| - 1]|
  }

  /** `sep.join(parts)`: the parts with one separator between each two. */
  function Join(parts: seq<string>, sep: string): (r: string)
    ensures parts != [] ==> |r| == TotalLength(parts) + (|parts| - 1) * |sep|
    ensures parts == [] ==> r == []
  {
    if parts == [] then ""
    else if |parts| == 1 then parts[0]
    else Join(parts[..|parts| - 1], sep) + sep + parts[|parts| - 1]
  }

  /** Where the `k`-th part starts in `sep.join(parts)`. */
  function JoinOffset(parts: seq<string>, sep: string, k: nat): nat
    requires k <= |parts|
  {
    if k == 0 then 0 else |Join(parts[..k], sep)| + |sep|
  }

  /** In `sep.join(parts)` every part stands at its offset, followed by the
      separator, except the last, which ends the text. */
  lemma {:induction false} JoinAt(parts: seq<string>, sep: string, k: nat)
    requires k < |parts|
    ensures JoinOffset(parts, sep, k) + |parts[k]| <= |Join(parts, sep)|
    ensures Join(parts, sep)[JoinOffset(parts, sep, k)..JoinOffset(parts, sep, k) + |parts[k]|] == parts[k]
    ensures k + 1 < |parts| ==>
      && JoinOffset(parts, sep, k) + |parts[k]| + |sep| <= |Join(parts, sep)|
      && Join(parts, sep)[JoinOffset(parts, sep, k) + |parts[k]|..JoinOffset(parts, sep, k) + |parts[k]| + |sep|] == sep
      && JoinOffset(parts, sep, k + 1) == JoinOffset(parts, sep, k) + |parts[k]| + |sep|
    ensures k + 1 == |parts| ==> JoinOffset(parts, sep, k) + |parts[k]| == |Join(parts, sep)|
  {
    JoinPartAt(parts, sep, k);
    if k + 1 < |parts| {
      JoinSeparatorAfter(parts, sep, k);
    } else {
      assert parts[..k + 1] == parts;
    }
  }

  /** The `k`-th part stands at its offset, ending where joining the first
      `k + 1` parts ends. */
  lemma JoinPartAt(parts: seq<string>, sep: string, k: nat)
    requires k < |parts|
    ensures |Join(parts[..k + 1], sep)| == JoinOffset(parts, sep, k) + |parts[k]|
    ensures JoinOffset(parts, sep, k) + |parts[k]| <= |Join(parts, sep)|
    ensures Join(parts, sep)[JoinOffset(parts, sep, k)..JoinOffset(parts, sep, k) + |parts[k]|] == parts[k]
  {
    var o := JoinOffset(parts, sep, k);
    var upto := Join(parts[..k + 1], sep);
    JoinPrefix(parts, sep, k + 1);
    if k == 0 {
      assert parts[..1] == [parts[0]];
      SliceOfPrefix(upto, Join(parts, sep), 0, |parts[0]|);
    } else {
      JoinStep(parts, sep, k);
      SuffixSlice(Join(parts[..k], sep) + sep, parts[k]);
      SliceOfPrefix(upto, Join(parts, sep), o, o + |parts[k]|);
    }
  }

  /** After every part but the last comes the separator, and the next part
      starts right after it. */
  lemma JoinSeparatorAfter(parts: seq<string>, sep: string, k: nat)
    requires k + 1 < |parts|
    ensures |Join(parts[..k + 1], sep)| + |sep| <= |Join(parts, sep)|
    ensures Join(parts, sep)[|Join(parts[..k + 1], sep)|..|Join(parts[..k + 1], sep)| + |sep|] == sep
    ensures JoinOffset(parts, sep, k + 1) == |Join(parts[..k + 1], sep)| + |sep|
  {
    var upto := Join(parts[..k + 1], sep);
    JoinStep(parts, sep, k + 1);
    JoinPrefix(parts, sep, k + 2);
    MiddleSlice(upto, sep, parts[k + 1], 0, |sep|);
    assert sep[0..|sep|] == sep;
    SliceOfPrefix(Join(parts[..k + 2], sep), Join(parts, sep), |upto|, |upto| + |sep|);
  }

  /** Joining one more part appends the separator and that part. */
  lemma JoinStep(parts: seq<string>, sep: string, m: nat)
    requires 1 <= m < |parts|
    ensures Join(parts[..m + 1], sep) == Join(parts[..m], sep) + sep + parts[m]
  {
    assert parts[..m + 1][..m] == parts[..m];
  }

  /** Joining the first `m` parts gives a prefix of joining them all. */
  lemma {:induction false} JoinPrefix(parts: seq<string>, sep: string, m: nat)
    requires 1 <= m <= |parts|
    ensures Join(parts[..m], sep) <= Join(parts, sep)
  {
    var n := |parts|;
    if m == n {
      assert parts[..m] == parts;
    } else {
      var front := parts[..n - 1];
      JoinPrefix(front, sep, m);
      assert front[..m] == parts[..m];
      PrefixGrows(Join(parts[..m], sep), Join(front, sep), sep);
      PrefixGrows(Join(parts[..m], sep), Join(front, sep) + sep, parts[n - 1]);
    }
  }

  /** A prefix stays a prefix when more is appended. */
  lemma PrefixGrows(a: string, b: string, c: string)
    requires a <= b
    ensures a <= b + c
  {
  }

  /** A slice within a prefix is the same slice of the whole. */
  lemma SliceOfPrefix(a: string, t: string, i: nat, j: nat)
    requires a <= t && i <= j <= |a|
    ensures t[i..j] == a[i..j]
  {
  }

  /** The second part of a concatenation is its slice after the first. */
  lemma SuffixSlice(a: string, b: string)
    ensures (a + b)[|a|..|a| + |b|] == b
  {
  }

  /** `header`, then the lines joined by line breaks, then a line break. */
  function Framed(header: string, lines: seq<string>): string {
    header + Join(lines, "\n") + "\n"
  }

  /** The context of `generate_response`: the query line, then, when the
      quote dict is present and not empty, its lines under a heading. It
      always ends with a line break. */
  function ContextOf(query: string, data: Option<Table>): (r: string)
    requires data.Some? ==> data.value.Valid()
    ensures |r| > 0 && r[|r| - 1] == '\n'
  {
    var header := QueryLead + query + "\n";
    if data.Some? && data.value.keys != [] then Framed(header + DataLead, Lines(data.value))
    else header
  }

  /** Where the `k`-th symbol's line starts in the context. */
  function LineOffset(query: string, t: Table, k: nat): nat
    requires t.Valid() && k < |t.keys|
  {
    |QueryLead + query + "\n"| + |DataLead| + JoinOffset(Lines(t), "\n", k)
  }

  /** The context always starts with the query line, is nothing more
      exactly when there is no quote dict or it is empty, and otherwise
      continues with the `Stock Data:` heading. */
  lemma {:induction false} ContextHeader(query: string, data: Option<Table>)
    requires data.Some? ==> data.value.Valid()
    ensures QueryLead + query + "\n" <= ContextOf(query, data)
    ensures ContextOf(query, data) == QueryLead + query + "\n" <==> data.None? || data.value.records == map[]
    ensures data.Some? && data.value.keys != [] ==>
      QueryLead + query + "\n" + DataLead <= ContextOf(query, data)
  {
    if data.Some? && data.value.keys != [] {
      assert data.value.keys[0] in data.value.records;
      var heading := QueryLead + query + "\n" + DataLead;
      assert ContextOf(query, data) == heading + Join(Lines(data.value), "\n") + "\n";
      PrefixGrows(heading, heading, Join(Lines(data.value), "\n"));
      PrefixGrows(heading, heading + Join(Lines(data.value), "\n"), "\n");
    }
  }

  /** A slice of the middle of a concatenation is a slice of the middle part. */
  lemma {:induction false} MiddleSlice(a: string, b: string, c: string, i: nat, j: nat)
    requires i <= j <= |b|
    ensures (a + b + c)[|a| + i..|a| + j] == b[i..j]
  {
  }

  /** `text` holds `line` at offset `o`, followed by a line break. */
  predicate LineStandsAt(text: string, o: nat, line: string) {
    o + |line| < |text| && text[o..o + |line|] == line && text[o + |line|] == '\n'
  }

  /** In `header + "\n".join(lines) + "\n"` every line stands at its
      offset and is followed by a line break. */
  lemma {:induction false} JoinedLineStands(header: string, lines: seq<string>, k: nat)
    requires k < |lines|
    ensures LineStandsAt(Framed(header, lines), |header| + JoinOffset(lines, "\n", k), lines[k])
    ensures k + 1 < |lines| ==>
      JoinOffset(lines, "\n", k + 1) == JoinOffset(lines, "\n", k) + |lines[k]| + 1
    ensures k + 1 == |lines| ==>
      |header| + JoinOffset(lines, "\n", k) + |lines[k]| + 1 == |Framed(header, lines)|
  {
    var joined := Join(lines, "\n");
    var text := header + joined + "\n";
    JoinAt(lines, "\n", k);
    var j := JoinOffset(lines, "\n", k);
    var line := lines[k];
    MiddleSlice(header, joined, "\n", j, j + |line|);
    if k + 1 < |lines| {
      assert text[|header| + j + |line|] == joined[j + |line|];
    } else {
      assert text[|header| + j + |line|] == "\n"[0];
    }
  }

  /** The entry for the `k`-th symbol of the dict appears in the context as
      its line, at the `k`-th position, and is followed by a line break, the
      next symbol's line starting right after it; the last line's break ends
      the context. */
  lemma {:induction false} ContextLineAt(query: string, t: Table, k: nat)
    requires t.Valid() && k < |t.keys|
    ensures LineStandsAt(ContextOf(query, Some(t)), LineOffset(query, t, k), Lines(t)[k])
    ensures Lines(t)[k] == Line(t.keys[k], t.records[t.keys[k]])
    ensures k + 1 < |t.keys| ==>
      LineOffset(query, t, k + 1) == LineOffset(query, t, k) + |Lines(t)[k]| + 1
    ensures k + 1 == |t.keys| ==>
      LineOffset(query, t, k) + |Lines(t)[k]| + 1 == |ContextOf(query, Some(t))|
  {
    var header := QueryLead + query + "\n" + DataLead;
    var o := |header| + JoinOffset(Lines(t), "\n", k);
    JoinedLineStands(header, Lines(t), k);
    assert ContextOf(query, Some(t)) == Framed(header, Lines(t));
    assert LineOffset(query, t, k) == o;
    StandsAtSame(Framed(header, Lines(t)), ContextOf(query, Some(t)), o, LineOffset(query, t, k), Lines(t)[k]);
  }

  /** Standing at an offset depends on the text and the offset alone. This
      carries the fact from the framed text to the context in
      `ContextLineAt` as a plain substitution; without it the solver expands
      both texts and the proof exceeds its resource budget. */
  lemma StandsAtSame(text: string, text': string, o: nat, o': nat, line: string)
    requires text == text' && o == o' && LineStandsAt(text, o, line)
    ensures LineStandsAt(text', o', line)
  {
  }

  /** The text `generate_response` returns: the model's reply to the prompt
      built from the context (`responder` is the model applied to that
      prompt), or the apology carrying the exception's message. */
  function Respond(responder: string -> Reply, query: string, data: Option<Table>): (r: string)
    requires data.Some? ==> data.value.Valid()
    ensures responder(ContextOf(query, data)).Generated? ==>
      r == responder(ContextOf(query, data)).text
    ensures responder(ContextOf(query, data)).Raised? ==>
      && |r| == |ProcessingApology| + |responder(ContextOf(query, data)).message|
      && r[..|ProcessingApology|] == ProcessingApology
      && r[|ProcessingApology|..] == responder(ContextOf(query, data)).message
  {
    match responder(ContextOf(query, data))
    case Generated(text) => text
    case Raised(message) => ProcessingApology + message
  }

  /** Building the context: one formatted line per entry, appended in turn. */
  method BuildContext(query: string, data: Option<Table>) returns (context: string)
    requires data.Some? ==> data.value.Valid()
    ensures context == ContextOf(query, data)
  {
    context := QueryLead + query + "\n";
    if data.Some? && data.value.keys != [] {
      var t := data.value;
      var formatted: seq<string> := [];
      var i := 0;
      while i < |t.keys|
        invariant 0 <= i <= |t.keys|
        invariant formatted == Lines(t)[..i]
      {
        var symbol := t.keys[i];
        formatted := formatted + [Line(symbol, t.records[symbol])];
        i := i + 1;
      }
      assert formatted == Lines(t);
      context := context + DataLead + Join(formatted, "\n") + "\n";
    }
  }

  /** `generate_response(query, data)`: never raises. */
  method GenerateResponse(responder: string -> Reply, query: string, data: Option<Table>) returns (text: string)
    requires data.Some? ==> data.value.Valid()
    ensures text == Respond(responder, query, data)
    ensures responder(ContextOf(query, data)).Raised? ==>
      text == ProcessingApology + responder(ContextOf(query, data)).message
  {
    var context := BuildContext(query, data);
    match responder(context)
    case Generated(reply) => text := reply;
    case Raised(message) => text := ProcessingApology + message;
  }
}
