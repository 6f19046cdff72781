/**
 * The pieces of Rust's `str` API that the chat client relies on, written
 * over `seq<char>`: `trim`, `trim_start`, `trim_matches`, `lines`, `split`,
 * `join`, `starts_with`, `contains` and ASCII case mapping.
 */
module Strings {
  import opened Wrappers

  /**
   * Rust's `char::is_whitespace`: the Unicode White_Space property, that is
   * tab to carriage return, space, U+0085, U+00A0, U+1680, U+2000 to U+200A,
   * U+2028, U+2029, U+202F, U+205F and U+3000.
   */
  predicate IsWhitespace(c: char)
  {
    ('\t' <= c <= '\r') || c == ' ' || c == '\U{85}' || c == '\U{A0}' || c == '\U{1680}'
    || ('\U{2000}' <= c <= '\U{200A}') || c == '\U{2028}' || c == '\U{2029}' || c == '\U{202F}'
    || c == '\U{205F}' || c == '\U{3000}'
  }

  predicate IsAsciiLetter(c: char)
  {
    ('a' <= c <= 'z') || ('A' <= c <= 'Z')
  }

  predicate AllAsciiLetters(s: string)
  {
    forall i :: 0 <= i < |s| ==> IsAsciiLetter(s[i])
  }

  predicate StartsWith(s: string, prefix: string)
  {
    |prefix| <= |s| && s[..|prefix|] == prefix
  }

  predicate EndsWith(s: string, suffix: string)
  {
    |suffix| <= |s| && s[|s| - |suffix|..] == suffix
  }

  /** `pat` occurs in `s` starting at index `i`. */
  predicate OccursAt(s: string, pat: string, i: int)
  {
    0 <= i && i + |pat| <= |s| && s[i..i + |pat|] == pat
  }

  /** Rust's `str::contains` with a string pattern. */
  predicate Contains(s: string, pat: string)
  {
    exists i :: 0 <= i <= |s| - |pat| && OccursAt(s, pat, i)
  }

  /** Index of the first occurrence of `c` in `s`. */
  function IndexOf(s: string, c: char): (r: Option<nat>)
    ensures r.None? <==> c !in s
    ensures r.Some? ==> r.value < |s| && s[r.value] == c && c !in s[..r.value]
  {
    if s == [] then None
    else if s[0] == c then Some(0)
    else match IndexOf(s[1..], c)
      case None => None
      case Some(k) => assert s[1..][..k] == s[1..k + 1]; Some(k + 1)
  }

  /** Rust's `str::trim_start`. */
  function TrimStart(s: string): (r: string)
    ensures |r| <= |s| && r == s[|s| - |r|..]
    ensures forall i :: 0 <= i < |s| - |r| ==> IsWhitespace(s[i])
    ensures r == [] || !IsWhitespace(r[0])
  {
    if s != [] && IsWhitespace(s[0]) then TrimStart(s[1..]) else s
  }

  /** Rust's `str::trim_end`. */
  function TrimEnd(s: string): (r: string)
    ensures |r| <= |s| && r == s[..|r|]
    ensures forall i :: |r| <= i < |s| ==> IsWhitespace(s[i])
    ensures r == [] || !IsWhitespace(r[|r| - 1])
  {
    if s != [] && IsWhitespace(s[|s| - 1]) then TrimEnd(s[..|s| - 1]) else s
  }

  /** Rust's `str::trim`: no whitespace is left at either end, and only whitespace was removed. */
  function Trim(s: string): (r: string)
    ensures |r| <= |s|
    ensures exists i :: OccursAt(s, r, i)
    ensures r == [] || (!IsWhitespace(r[0]) && !IsWhitespace(r[|r| - 1]))
  {
    var t := TrimStart(s);
    var r := TrimEnd(t);
    assert r == t[..|r|];
    assert t[..|r|] == s[|s| - |t|..|s| - |t| + |r|];
    assert OccursAt(s, r, |s| - |t|);
    r
  }

  /** Rust's `str::trim_start_matches` with a one-character pattern. */
  function TrimStartChar(s: string, c: char): (r: string)
    ensures |r| <= |s| && r == s[|s| - |r|..]
    ensures forall i :: 0 <= i < |s| - |r| ==> s[i] == c
    ensures r == [] || r[0] != c
  {
    if s != [] && s[0] == c then TrimStartChar(s[1..], c) else s
  }

  /** Rust's `str::trim_end_matches` with a one-character pattern. */
  function TrimEndChar(s: string, c: char): (r: string)
    ensures |r| <= |s| && r == s[..|r|]
    ensures forall i :: |r| <= i < |s| ==> s[i] == c
    ensures r == [] || r[|r| - 1] != c
  {
    if s != [] && s[|s| - 1] == c then TrimEndChar(s[..|s| - 1], c) else s
  }

  /** Rust's `str::trim_matches` with a one-character pattern. */
  function TrimChar(s: string, c: char): string
  {
    TrimEndChar(TrimStartChar(s, c), c)
  }

  /** Drops one `'\r'` at the end of a line, as `str::lines` does before a `'\n'`. */
  function StripCr(line: string): string
  {
    if line != [] && line[|line| - 1] == '\r' then line[..|line| - 1] else line
  }

  /**
   * Rust's `str::lines`: split at every `'\n'`, drop a `'\r'` just before it,
   * and produce no empty final line for a trailing `'\n'`. A last line without
   * a `'\n'` keeps a final `'\r'`.
   */
  function Lines(s: string): (r: seq<string>)
    ensures s == [] <==> r == []
    ensures forall i :: 0 <= i < |r| ==> '\n' !in r[i]
    decreases |s|
  {
    if s == [] then []
    else match IndexOf(s, '\n')
      case None => [s]
      case Some(k) =>
        assert '\n' !in StripCr(s[..k]);
        [StripCr(s[..k])] + Lines(s[k + 1..])
  }

  /** `parts` joined with `sep` in between, as `[T]::join`. */
  function Join(parts: seq<string>, sep: string): string
  {
    if parts == [] then ""
    else if |parts| == 1 then parts[0]
    else parts[0] + sep + Join(parts[1..], sep)
  }

  /** Rust's `str::split` with a one-character pattern: always at least one piece. */
  function Split(s: string, c: char): (r: seq<string>)
    ensures |r| >= 1
    ensures forall i :: 0 <= i < |r| ==> c !in r[i]
    decreases |s|
  {
    match IndexOf(s, c)
      case None => [s]
      case Some(k) => [s[..k]] + Split(s[k + 1..], c)
  }

  function LowerChar(c: char): char
  {
    if 'A' <= c <= 'Z' then (c as int + 32) as char else c
  }

  function UpperChar(c: char): char
  {
    if 'a' <= c <= 'z' then (c as int - 32) as char else c
  }

  /** ASCII lower-casing (Rust's `to_lowercase` restricted to ASCII letters). */
  function Lower(s: string): (r: string)
    ensures |r| == |s|
    ensures forall i :: 0 <= i < |s| ==> r[i] == LowerChar(s[i])
  {
    seq(|s|, i requires 0 <= i < |s| => LowerChar(s[i]))
  }

  /** A concatenation starts with its first part and ends with its last. */
  lemma ConcatEnds(a: string, b: string, c: string)
    ensures StartsWith(a + b + c, a) && StartsWith(a + b + c, a + b) && EndsWith(a + b + c, c)
  {
    assert (a + b + c)[..|a|] == a;
    assert (a + b + c)[..|a + b|] == a + b;
    assert (a + b + c)[|a + b + c| - |c|..] == c;
  }

  lemma Assoc<T>(x: seq<T>, y: seq<T>, z: seq<T>)
    ensures x + y + z == x + (y + z)
  {
  }

  lemma Assoc4<T>(w: seq<T>, x: seq<T>, y: seq<T>, z: seq<T>)
    ensures w + x + y + z == w + (x + y + z)
  {
  }

  /** Every line is followed by a `'\n'`, as the table and header passes append them. */
  function Terminated(lines: seq<string>): string
  {
    if lines == [] then "" else lines[0] + "\n" + Terminated(lines[1..])
  }

  /** A character is absent from a concatenation exactly when it is absent from both parts. */
  lemma LacksConcat(a: string, b: string, c: char)
    ensures c !in a + b <==> c !in a && c !in b
  {
    if c in a {
      var i :| 0 <= i < |a| && a[i] == c;
      assert (a + b)[i] == c;
    }
    if c in b {
      var i :| 0 <= i < |b| && b[i] == c;
      assert (a + b)[|a| + i] == c;
    }
  }

  /** Joining a first part onto further parts puts one separator between them. */
  lemma JoinCons(x: string, parts: seq<string>, sep: string)
    requires parts != []
    ensures Join([x] + parts, sep) == x + sep + Join(parts, sep)
  {
    assert ([x] + parts)[1..] == parts;
  }

  lemma TerminatedCons(x: string, lines: seq<string>)
    ensures Terminated([x] + lines) == x + "\n" + Terminated(lines)
  {
    assert ([x] + lines)[1..] == lines;
  }

  /** A text with a `'\n'` is its first line, that `'\n'`, and the rest. */
  lemma SplitFirstLine(s: string) returns (a: string, rest: string)
    requires '\n' in s
    ensures s == a + "\n" + rest && '\n' !in a
    ensures Lines(s) == [StripCr(a)] + Lines(rest)
    ensures forall c :: c !in s ==> c !in a && c !in rest
    ensures rest == [] ==> s[|s| - 1] == '\n'
    ensures rest != [] ==> rest[|rest| - 1] == s[|s| - 1]
  {
    var k := IndexOf(s, '\n').value;
    a, rest := s[..k], s[k + 1..];
    assert s == a + "\n" + rest;
    forall c | c !in s
      ensures c !in a && c !in rest
    {
      LacksConcat(a + "\n", rest, c);
      LacksConcat(a, "\n", c);
    }
    LinesCons(a, rest);
  }

  /**
   * A `'\r'`-free text with a `'\n'` is its first line, that `'\n'`, and the
   * rest; the first line is the first element of `lines`.
   */
  lemma SplitAtNewline(s: string) returns (a: string, rest: string)
    requires '\n' in s && '\r' !in s
    ensures s == a + "\n" + rest
    ensures '\n' !in a && '\r' !in a && '\r' !in rest
    ensures Lines(s) == [a] + Lines(rest)
    ensures rest == [] ==> s[|s| - 1] == '\n'
    ensures rest != [] ==> rest[|rest| - 1] == s[|s| - 1]
  {
    a, rest := SplitFirstLine(s);
    assert '\r' !in a;
    assert a == [] || a[|a| - 1] != '\r';
  }

  /** `lines` followed by `join("\n")` gives back a text that has no `'\r'` and no final `'\n'`. */
  lemma {:induction false} JoinLines(s: string)
    requires '\r' !in s
    requires s == [] || s[|s| - 1] != '\n'
    ensures Join(Lines(s), "\n") == s
    decreases |s|
  {
    if s != [] && '\n' !in s {
      assert Lines(s) == [s];
    } else if s != [] {
      var a, rest := SplitAtNewline(s);
      JoinLines(rest);
      JoinCons(a, Lines(rest), "\n");
    }
  }

  /**
   * Re-terminating the lines of a `'\r'`-free text gives the text back, with a
   * `'\n'` added when its last line had none.
   */
  lemma {:induction false} TerminatedLines(s: string)
    requires '\r' !in s
    ensures Terminated(Lines(s)) == if s == [] || s[|s| - 1] == '\n' then s else s + "\n"
    decreases |s|
  {
    if s != [] && '\n' !in s {
      assert Lines(s) == [s];
      TerminatedCons(s, []);
    } else if s != [] {
      var a, rest := SplitAtNewline(s);
      TerminatedLines(rest);
      TerminatedCons(a, Lines(rest));
      if rest != [] && rest[|rest| - 1] != '\n' {
        Assoc(a + "\n", rest, "\n");
      }
    }
  }

  /** The first line of `a + "\n" + b` is `a` (less a final `'\r'`); the rest are the lines of `b`. */
  lemma LinesCons(a: string, b: string)
    requires '\n' !in a
    ensures Lines(a + "\n" + b) == [StripCr(a)] + Lines(b)
  {
    var s := a + "\n" + b;
    assert s[|a|] == '\n';
    assert s[..|a|] == a;
    assert s[|a| + 1..] == b;
    assert IndexOf(s, '\n') == Some(|a|);
  }
  /** In `a + [c] + b` with no `c` in `a`, the first `c` is the one after `a`. */
  lemma {:induction false} IndexOfAfter(a: string, c: char, b: string)
    requires c !in a
    ensures IndexOf(a + [c] + b, c) == Some(|a|)
    decreases |a|
  {
    var s := a + [c] + b;
    if a != [] {
      assert s[0] == a[0];
      assert s[1..] == a[1..] + [c] + b;
      IndexOfAfter(a[1..], c, b);
    }
  }

  /** Splitting at the first separator: the part before it, then the split of the rest. */
  lemma SplitCons(x: string, c: char, rest: string)
    requires c !in x
    ensures Split(x + [c] + rest, c) == [x] + Split(rest, c)
  {
    var s := x + [c] + rest;
    IndexOfAfter(x, c, rest);
    assert s[..|x|] == x;
    assert s[|x| + 1..] == rest;
  }

  /** Splitting a join at its one-character separator gives the parts back when no part holds it. */
  lemma {:induction false} SplitJoin(parts: seq<string>, c: char)
    requires parts != []
    requires forall i :: 0 <= i < |parts| ==> c !in parts[i]
    ensures Split(Join(parts, [c]), c) == parts
    decreases |parts|
  {
    if |parts| == 1 {
      assert IndexOf(parts[0], c).None?;
    } else {
      SplitCons(parts[0], c, Join(parts[1..], [c]));
      SplitJoin(parts[1..], c);
      assert parts == [parts[0]] + parts[1..];
    }
  }
}
