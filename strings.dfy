/** The JavaScript string operations the tools rely on: `trim()` for input
    validation and `Array.prototype.join` for copy text, plus a splitter at
    the first blank line that reads copy text back. */
module Strings {
  import opened Types

  /** The whitespace `trim()` removes, reduced to space, tab, CR and LF. */
  predicate IsWhitespace(c: char) {
    c == ' ' || c == '\t' || c == '\r' || c == '\n'
  }

  predicate AllWhitespace(s: string) {
    forall i :: 0 <= i < |s| ==> IsWhitespace(s[i])
  }

  /** How many whitespace characters `s` starts with. */
  function LeadingWhitespace(s: string): (n: nat)
    ensures n <= |s|
    ensures forall i :: 0 <= i < n ==> IsWhitespace(s[i])
    ensures n == |s| || !IsWhitespace(s[n])
  {
    if s != [] && IsWhitespace(s[0]) then
      var n := LeadingWhitespace(s[1..]);
      assert forall i :: 1 <= i < n + 1 ==> s[i] == s[1..][i - 1];
      n + 1
    else 0
  }

  /** Where the whitespace `s` ends with begins. */
  function TrailingWhitespaceStart(s: string): (n: nat)
    ensures n <= |s|
    ensures forall i :: n <= i < |s| ==> IsWhitespace(s[i])
    ensures n == 0 || !IsWhitespace(s[n - 1])
  {
    if s != [] && IsWhitespace(s[|s| - 1]) then
      var n := TrailingWhitespaceStart(s[..|s| - 1]);
      assert forall i :: n <= i < |s| - 1 ==> s[i] == s[..|s| - 1][i];
      n
    else |s|
  }

  /** `s.trim()`: whitespace removed from both ends. The result is the
      slice of `s` that starts after its leading whitespace; only whitespace
      lies outside it. */
  function Trim(s: string): (r: string)
    ensures var a := LeadingWhitespace(s);
            && a + |r| <= |s| && r == s[a..a + |r|]
            && AllWhitespace(s[..a]) && AllWhitespace(s[a + |r|..])
    ensures r == [] || (!IsWhitespace(r[0]) && !IsWhitespace(r[|r| - 1]))
  {
    var t := s[LeadingWhitespace(s)..];
    t[..TrailingWhitespaceStart(t)]
  }

  /** `!s.trim()`: the input a tool refuses to send. */
  predicate IsBlank(s: string) {
    Trim(s) == []
  }

  /** A string is blank exactly when every character in it is whitespace. */
  lemma {:induction false} BlankIffAllWhitespace(s: string)
    ensures IsBlank(s) <==> AllWhitespace(s)
  {
    var a := LeadingWhitespace(s);
    var t := s[a..];
    var b := TrailingWhitespaceStart(t);
    assert IsBlank(s) <==> b == 0;
    if a < |s| {
      assert t[0] == s[a];
      assert !AllWhitespace(s);
      assert b != 0;
    }
  }

  /** `parts.join(sep)`. */
  function Join(parts: seq<string>, sep: string): (r: string)
    ensures |r| == TotalLength(parts) + (if parts == [] then 0 else (|parts| - 1) * |sep|)
  {
    if parts == [] then []
    else if |parts| == 1 then parts[0]
    else parts[0] + sep + Join(parts[1..], sep)
  }

  /** The sum of the lengths of the strings in `parts`. */
  function TotalLength(parts: seq<string>): nat {
    if parts == [] then 0 else |parts[0]| + TotalLength(parts[1..])
  }

  /** Joining one more part appends the separator and that part. */
  lemma {:induction false} JoinSnoc(parts: seq<string>, sep: string, last: string)
    requires parts != []
    ensures Join(parts + [last], sep) == Join(parts, sep) + sep + last
  {
    if |parts| == 1 {
      assert parts + [last] == [parts[0], last];
    } else {
      JoinSnoc(parts[1..], sep, last);
      assert (parts + [last])[1..] == parts[1..] + [last];
    }
  }

  /** The index of the first `"\n\n"` in `s`, if any. */
  function FindBlankLine(s: string): (r: Option<nat>)
    ensures r.Some? ==> r.value + 1 < |s| && s[r.value] == '\n' && s[r.value + 1] == '\n'
    ensures r.Some? ==> forall i :: 0 <= i < r.value ==> !(s[i] == '\n' && s[i + 1] == '\n')
    ensures r.None? ==> forall i :: 0 <= i < |s| - 1 ==> !(s[i] == '\n' && s[i + 1] == '\n')
  {
    if |s| < 2 then None
    else if s[0] == '\n' && s[1] == '\n' then Some(0)
    else
      match FindBlankLine(s[1..])
      case None => None
      case Some(k) => Some(k + 1)
  }

  /** `s` cut at its first blank line: the text before and the text after
      the `"\n\n"`. */
  function SplitAtBlankLine(s: string): (r: Option<(string, string)>)
    ensures r.Some? ==> s == r.value.0 + "\n\n" + r.value.1
    ensures r.None? <==> FindBlankLine(s).None?
  {
    match FindBlankLine(s)
    case None => None
    case Some(k) => Some((s[..k], s[k + 2..]))
  }

  predicate HasNoNewline(s: string) {
    forall i :: 0 <= i < |s| ==> s[i] != '\n'
  }

  /** `s` holds no `"\n\n"` and does not end with a newline, so a blank line
      placed after it is the first one. */
  predicate EndsBeforeBlankLine(s: string) {
    && (forall i :: 0 <= i < |s| - 1 ==> !(s[i] == '\n' && s[i + 1] == '\n'))
    && (s == [] || s[|s| - 1] != '\n')
  }

  /** A head that ends before its blank line is recovered exactly from the
      text it begins, whatever follows the blank line. */
  lemma SplitAfterHead(head: string, tail: string)
    requires EndsBeforeBlankLine(head)
    ensures SplitAtBlankLine(head + "\n\n" + tail) == Some((head, tail))
  {
    var s := head + "\n\n" + tail;
    assert s[|head|] == '\n' && s[|head| + 1] == '\n';
    assert forall i :: 0 <= i < |head| ==> s[i] == head[i];
    var k := FindBlankLine(s).value;
    assert s[..k] == head;
    assert s[k + 2..] == tail;
  }

  /** Two single-line strings make a single-line string, which in turn ends
      before any blank line placed after it. */
  lemma SingleLineConcat(a: string, b: string)
    requires HasNoNewline(a) && HasNoNewline(b)
    ensures HasNoNewline(a + b) && EndsBeforeBlankLine(a + b)
  {
    assert forall i :: 0 <= i < |a + b| ==> (a + b)[i] == if i < |a| then a[i] else b[i - |a|];
  }

  /** `s` without the leading `prefix`, if it starts with it. */
  function StripPrefix(prefix: string, s: string): (r: Option<string>)
    ensures r.Some? <==> |prefix| <= |s| && s[..|prefix|] == prefix
    ensures r.Some? ==> s == prefix + r.value
  {
    if |prefix| <= |s| && s[..|prefix|] == prefix then
      assert s == prefix + s[|prefix|..];
      Some(s[|prefix|..])
    else None
  }

  lemma StripPrefixOfConcat(prefix: string, rest: string)
    ensures StripPrefix(prefix, prefix + rest) == Some(rest)
  {
    assert (prefix + rest)[..|prefix|] == prefix;
  }
}
