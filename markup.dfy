/** The last step of the chat handler: every line break of the reply becomes
    an HTML break tag, so that the page shows the reply's lines. */
module Markup {

  const Break: string := "<br>"

  /** What one character of the reply becomes in the page. */
  function Piece(c: char): string {
    if c == '\n' then Break else [c]
  }

  /** `s.replace("\n", "<br>")`: never shorter than `s`, and empty only
      when `s` is. */
  function ReplaceNewlines(s: string): (r: string)
    ensures |r| >= |s|
    ensures r == [] <==> s == []
  {
    if s == [] then [] else Piece(s[0]) + ReplaceNewlines(s[1..])
  }

  /** How many line breaks `s` holds. */
  function NewlineCount(s: string): nat {
    if s == [] then 0 else (if s[0] == '\n' then 1 else 0) + NewlineCount(s[1..])
  }

  /** Whether the text `<br>` occurs in `s`. */
  predicate ContainsBreak(s: string) {
    |s| >= 4 && (s[..4] == Break || ContainsBreak(s[1..]))
  }

  /** `t.replace("<br>", "\n")`: the inverse substitution, scanning from the
      left and resuming after each replaced tag. */
  function RestoreNewlines(t: string): string
    decreases |t|
  {
    if t == [] then []
    else if |t| >= 4 && t[..4] == Break then "\n" + RestoreNewlines(t[4..])
    else [t[0]] + RestoreNewlines(t[1..])
  }

  /** No line break survives the substitution. */
  lemma {:induction false} NoNewlineRemains(s: string)
    ensures '\n' !in ReplaceNewlines(s)
  {
    if s != [] {
      NoNewlineRemains(s[1..]);
    }
  }

  /** Each line break grows the text by three characters. */
  lemma {:induction false} ReplacedLength(s: string)
    ensures |ReplaceNewlines(s)| == |s| + 3 * NewlineCount(s)
  {
    if s != [] {
      ReplacedLength(s[1..]);
    }
  }

  /** The substitution works piece by piece: splitting the reply anywhere
      and substituting the halves gives the same text. */
  lemma {:induction false} ReplaceDistributes(a: string, b: string)
    ensures ReplaceNewlines(a + b) == ReplaceNewlines(a) + ReplaceNewlines(b)
  {
    if a == [] {
      assert a + b == b;
    } else {
      assert (a + b)[1..] == a[1..] + b;
      ReplaceDistributes(a[1..], b);
    }
  }

  /** The character at position `i` becomes its own piece, in place: what
      precedes it and what follows it are substituted independently, so
      every other character is kept and keeps its order. */
  lemma {:induction false} ReplacedAt(s: string, i: nat)
    requires i < |s|
    ensures ReplaceNewlines(s) ==
      ReplaceNewlines(s[..i]) + Piece(s[i]) + ReplaceNewlines(s[i + 1..])
  {
    var front, tail := s[..i], [s[i]] + s[i + 1..];
    assert s == front + tail;
    ReplaceDistributes(front, tail);
    assert tail[1..] == s[i + 1..];
    assert ReplaceNewlines(tail) == Piece(s[i]) + ReplaceNewlines(s[i + 1..]);
  }

  /** A text without line breaks is left exactly as it is. */
  lemma {:induction false} NoNewlineUnchanged(s: string)
    requires '\n' !in s
    ensures ReplaceNewlines(s) == s
  {
    if s != [] {
      NoNewlineUnchanged(s[1..]);
    }
  }

  /** If the substituted text starts with a prefix free of '<', the original
      text starts with the same prefix (only a line break produces a '<'
      that was not there). */
  lemma {:induction false} PrefixWithoutAngle(u: string, p: string)
    requires '<' !in p
    requires |p| <= |ReplaceNewlines(u)| && ReplaceNewlines(u)[..|p|] == p
    ensures |p| <= |u| && u[..|p|] == p
  {
    if p != [] {
      assert u != [];
      assert ReplaceNewlines(u)[0] == p[0];
      assert u[0] != '\n';
      var rest := ReplaceNewlines(u[1..]);
      assert ReplaceNewlines(u) == [u[0]] + rest;
      assert rest[..|p| - 1] == p[1..];
      PrefixWithoutAngle(u[1..], p[1..]);
    }
  }

  /** Round trip: a reply that does not itself contain `<br>` is recovered
      from the page text, so the substitution loses nothing. */
  lemma {:induction false} RestoreAfterReplace(s: string)
    requires !ContainsBreak(s)
    ensures RestoreNewlines(ReplaceNewlines(s)) == s
  {
    if s != [] {
      var rest := ReplaceNewlines(s[1..]);
      assert !ContainsBreak(s[1..]);
      RestoreAfterReplace(s[1..]);
      if s[0] == '\n' {
        assert ReplaceNewlines(s) == Break + rest;
        assert (Break + rest)[..4] == Break && (Break + rest)[4..] == rest;
      } else {
        var t := ReplaceNewlines(s);
        assert t == [s[0]] + rest;
        if |t| >= 4 && t[..4] == Break {
          assert rest[..3] == t[1..4] == "br>";
          PrefixWithoutAngle(s[1..], "br>");
          assert false;
        }
        assert t[1..] == rest;
      }
    }
  }
}
