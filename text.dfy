/** Rust's string operations that the core relies on, with their Rust semantics:
    `starts_with`, `ends_with`, `contains`, `str::lines`, `str::split(char)`,
    `join`, `trim`, `to_lowercase` (ASCII part) and decimal formatting of integers. */
module Text {

  predicate StartsWith(s: string, prefix: string) {
    |prefix| <= |s| && s[..|prefix|] == prefix
  }

  predicate EndsWith(s: string, suffix: string) {
    |suffix| <= |s| && s[|s| - |suffix|..] == suffix
  }

  /** `s.contains(sub)` */
  predicate Contains(s: string, sub: string) {
    exists i :: 0 <= i <= |s| && StartsWith(s[i..], sub)
  }

  /** Index of the first occurrence of `c` in `s`, or `|s|` when there is none. */
  function IndexOf(s: string, c: char): (i: nat)
    ensures i <= |s|
    ensures i < |s| ==> s[i] == c
    ensures forall j :: 0 <= j < i ==> s[j] != c
  {
    if s == [] then 0
    else if s[0] == c then 0
    else 1 + IndexOf(s[1..], c)
  }

  predicate NoChar(s: string, c: char) {
    forall i :: 0 <= i < |s| ==> s[i] != c
  }

  /** Drops one trailing carriage return (the `\r` of a `\r\n` line ending). */
  function StripCR(line: string): string {
    if |line| > 0 && line[|line| - 1] == '\r' then line[..|line| - 1] else line
  }

  /** `str::lines`: lines end at `\n` or `\r\n`; the final line ending is optional,
      so a trailing `\n` does not produce an empty last line, and a `\r` that is not
      followed by `\n` stays in the line. */
  function Lines(s: string): seq<string>
    decreases |s|
  {
    if s == [] then []
    else
      var i := IndexOf(s, '\n');
      if i == |s| then [s] else [StripCR(s[..i])] + Lines(s[i + 1..])
  }

  /** `str::split(c)`: the pieces between occurrences of `c`; always at least one. */
  function SplitOn(s: string, c: char): (pieces: seq<string>)
    ensures |pieces| >= 1
    decreases |s|
  {
    var i := IndexOf(s, c);
    if i == |s| then [s] else [s[..i]] + SplitOn(s[i + 1..], c)
  }

  /** No piece of a split holds the separator. */
  lemma {:induction false} SplitOnPiecesLackSeparator(s: string, c: char)
    ensures forall k :: 0 <= k < |SplitOn(s, c)| ==> NoChar(SplitOn(s, c)[k], c)
    decreases |s|
  {
    var i := IndexOf(s, c);
    if i < |s| {
      SplitOnPiecesLackSeparator(s[i + 1..], c);
      assert SplitOn(s, c) == [s[..i]] + SplitOn(s[i + 1..], c);
    }
  }

  /** `parts.join(sep)` */
  function Join(parts: seq<string>, sep: string): string {
    if parts == [] then ""
    else if |parts| == 1 then parts[0]
    else parts[0] + sep + Join(parts[1..], sep)
  }

  /** `parts.concat()`, `join("")`, or repeated `push_str` onto an empty string. */
  function Concat(parts: seq<string>): string {
    if parts == [] then "" else parts[0] + Concat(parts[1..])
  }

  lemma {:induction false} ConcatAppend(parts: seq<string>, last: string)
    ensures Concat(parts + [last]) == Concat(parts) + last
  {
    if parts == [] {
      assert parts + [last] == [last];
    } else {
      assert (parts + [last])[1..] == parts[1..] + [last];
      ConcatAppend(parts[1..], last);
    }
  }

  /** Joining the pieces of a split with the separator gives back the string. */
  lemma {:induction false} JoinSplitOn(s: string, c: char)
    ensures Join(SplitOn(s, c), [c]) == s
    decreases |s|
  {
    var i := IndexOf(s, c);
    if i < |s| {
      var rest := SplitOn(s[i + 1..], c);
      JoinSplitOn(s[i + 1..], c);
      assert SplitOn(s, c) == [s[..i]] + rest;
      assert Join(SplitOn(s, c), [c]) == s[..i] + [c] + Join(rest, [c]);
      assert s == s[..i] + [c] + s[i + 1..];
    }
  }

  lemma {:induction false} IndexOfAppend(s: string, t: string, c: char)
    ensures IndexOf(s + t, c) == if IndexOf(s, c) < |s| then IndexOf(s, c) else |s| + IndexOf(t, c)
  {
    if s == [] {
      assert s + t == t;
    } else if s[0] != c {
      assert (s + t)[1..] == s[1..] + t;
      IndexOfAppend(s[1..], t, c);
    }
  }

  /** The lines of `s + "\n" + t` are the `\n`-pieces of `s` followed by `t`, when
      there is no carriage return and `t` is a non-empty single line. */
  lemma {:induction false} LinesOfNewlineJoin(s: string, t: string)
    requires NoChar(s, '\r')
    requires |t| > 0 && NoChar(t, '\n') && NoChar(t, '\r')
    ensures Lines(s + "\n" + t) == SplitOn(s, '\n') + [t]
    decreases |s|
  {
    var i := IndexOf(s, '\n');
    if i < |s| {
      var head, rest := s[..i], s[i + 1..];
      assert s == head + "\n" + rest;
      assert s + "\n" + t == head + "\n" + (rest + "\n" + t);
      LinesOfFirstLine(head, rest + "\n" + t);
      assert !(|head| > 0 && head[|head| - 1] == '\r');
      LinesOfNewlineJoin(rest, t);
    } else {
      LinesOfFirstLine(s, t);
      assert !(|s| > 0 && s[|s| - 1] == '\r');
      assert IndexOf(t, '\n') == |t|;
    }
  }

  /** A first line without a newline is the first element of `lines()`. */
  lemma LinesOfFirstLine(a: string, b: string)
    requires NoChar(a, '\n')
    ensures Lines(a + "\n" + b) == [StripCR(a)] + Lines(b)
  {
    var u := a + "\n" + b;
    assert u == a + ("\n" + b);
    IndexOfAppend(a, "\n" + b, '\n');
    assert IndexOf("\n" + b, '\n') == 0;
    assert u[..|a|] == a && u[|a| + 1..] == b;
  }

  /** `char::is_whitespace` (the Unicode White_Space property). */
  predicate IsWhitespace(c: char) {
    c == ' ' || ('\t' <= c <= '\r') || c == '\U{85}' || c == '\U{A0}' || c == '\U{1680}'
    || ('\U{2000}' <= c <= '\U{200A}') || c == '\U{2028}' || c == '\U{2029}' || c == '\U{202F}'
    || c == '\U{205F}' || c == '\U{3000}'
  }

  function TrimStart(s: string): string {
    if |s| > 0 && IsWhitespace(s[0]) then TrimStart(s[1..]) else s
  }

  function TrimEnd(s: string): string {
    if |s| > 0 && IsWhitespace(s[|s| - 1]) then TrimEnd(s[..|s| - 1]) else s
  }

  /** `str::trim` */
  function Trim(s: string): string {
    TrimEnd(TrimStart(s))
  }

  /** What `trim_start` leaves does not start with whitespace. */
  lemma {:induction false} TrimStartLeavesNoWhitespace(s: string)
    ensures |TrimStart(s)| > 0 ==> !IsWhitespace(TrimStart(s)[0])
    decreases |s|
  {
    if |s| > 0 && IsWhitespace(s[0]) {
      TrimStartLeavesNoWhitespace(s[1..]);
    }
  }

  /** What `trim_end` leaves is a prefix that does not end with whitespace. */
  lemma {:induction false} TrimEndIsTrimmedPrefix(s: string)
    ensures |TrimEnd(s)| <= |s| && TrimEnd(s) == s[..|TrimEnd(s)|]
    ensures |TrimEnd(s)| > 0 ==> !IsWhitespace(TrimEnd(s)[|TrimEnd(s)| - 1])
    decreases |s|
  {
    if |s| > 0 && IsWhitespace(s[|s| - 1]) {
      TrimEndIsTrimmedPrefix(s[..|s| - 1]);
      assert s[..|s| - 1][..|TrimEnd(s)|] == s[..|TrimEnd(s)|];
    }
  }

  /** A trimmed string neither starts nor ends with whitespace. */
  lemma TrimLeavesNoWhitespace(s: string)
    ensures var t := Trim(s); |t| > 0 ==> !IsWhitespace(t[0]) && !IsWhitespace(t[|t| - 1])
  {
    TrimStartLeavesNoWhitespace(s);
    TrimEndIsTrimmedPrefix(TrimStart(s));
  }

  function LowerChar(c: char): char {
    if 'A' <= c <= 'Z' then (c as int + 32) as char else c
  }

  /** `to_lowercase` on the ASCII letters; other characters are kept. */
  function ToLower(s: string): (r: string)
    ensures |r| == |s|
    ensures forall i :: 0 <= i < |s| ==> r[i] == LowerChar(s[i])
  {
    if s == [] then "" else [LowerChar(s[0])] + ToLower(s[1..])
  }

  /** Lower-casing works character by character, so it distributes over
      concatenation. */
  lemma ToLowerAppend(s: string, t: string)
    ensures ToLower(s + t) == ToLower(s) + ToLower(t)
  {
    forall i | 0 <= i < |s + t| ensures ToLower(s + t)[i] == (ToLower(s) + ToLower(t))[i] {
      if i < |s| {
        assert (s + t)[i] == s[i];
      } else {
        assert (s + t)[i] == t[i - |s|];
      }
    }
  }

  /** Lower-casing twice is lower-casing once. */
  lemma ToLowerIdempotent(s: string)
    ensures ToLower(ToLower(s)) == ToLower(s)
  {
    var l := ToLower(s);
    forall i | 0 <= i < |l| ensures LowerChar(l[i]) == l[i] {
      assert l[i] == LowerChar(s[i]);
    }
  }

  function DigitChar(d: nat): char
    requires d < 10
  {
    "0123456789"[d]
  }

  /** Decimal rendering of a natural number (`n.to_string()`). */
  function NatToString(n: nat): (r: string)
    ensures |r| >= 1
    decreases n
  {
    if n < 10 then [DigitChar(n)] else NatToString(n / 10) + [DigitChar(n % 10)]
  }
}
