/**
 * The text passes that turn the non-code parts of a chat message into HTML:
 * tag escaping, inline code, bold, line breaks, headers and pipe tables.
 *
 * Each regex of the original is modelled as an explicit left-to-right
 * scanner with the regex engine's semantics: the leftmost match wins, lazy
 * repetitions take the shortest body, `.` does not cross `'\n'`, matches do
 * not overlap and scanning resumes right after a match.
 */
module Markdown {
  import opened Wrappers
  import opened Strings

  const CODE_SPAN_OPEN := "<span" + " class=\"bg-gray2 text-codefontcolor text-sm rounded-xs font-mono px-1\">"
  const BOLD_OPEN := "<span" + " class=\"font-bold\">"
  const SPAN_CLOSE := "</span>"
  const TABLE_OPEN := "<table class=\"border-collapse my-2 text-sm\">"
  const TABLE_CLOSE := "</tbody></table>"
  const TH_OPEN := "<th class=\"border border-gray-600 px-3 py-1 font-bold bg-gray-700\">"
  const TD_OPEN := "<td class=\"border border-gray-600 px-3 py-1\">"

  // ---------------------------------------------------------------------------
  // Reversing a pass: every inserted marker is mapped back to the text it replaced.
  // ---------------------------------------------------------------------------

  /**
   * Scans `r` left to right and replaces each occurrence of `a` by `a0` and of
   * `b` by `b0`. Used to state that a pass loses no text.
   */
  function Restore(r: string, a: string, a0: string, b: string, b0: string): string
    requires |a| > 0 && |b| > 0
    decreases |r|
  {
    if r == [] then []
    else if StartsWith(r, a) then a0 + Restore(r[|a|..], a, a0, b, b0)
    else if StartsWith(r, b) then b0 + Restore(r[|b|..], a, a0, b, b0)
    else [r[0]] + Restore(r[1..], a, a0, b, b0)
  }

  lemma HeadTail(x: string, y: string)
    requires x != []
    ensures [x[0]] + (x[1..] + y) == x + y
  {
  }

  /** A text is its four slices at `i`, `j` and `k` put back together. */
  lemma Reassemble(s: string, i: nat, j: nat, k: nat)
    requires i <= j <= k <= |s|
    ensures s == s[..i] + s[i..j] + s[j..k] + s[k..]
  {
  }

  /** Text that holds neither marker's first character goes through `Restore` unchanged. */
  lemma {:induction false} RestorePlain(m: string, y: string, a: string, a0: string, b: string, b0: string)
    requires |a| > 0 && |b| > 0
    requires forall k :: 0 <= k < |m| ==> m[k] != a[0] && m[k] != b[0]
    ensures Restore(m + y, a, a0, b, b0) == m + Restore(y, a, a0, b, b0)
    decreases |m|
  {
    if m != [] {
      var my := m + y;
      assert my[0] == m[0];
      assert !StartsWith(my, a) && !StartsWith(my, b);
      assert my[1..] == m[1..] + y;
      RestorePlain(m[1..], y, a, a0, b, b0);
      assert Restore(my, a, a0, b, b0) == [m[0]] + Restore(m[1..] + y, a, a0, b, b0);
      HeadTail(m, Restore(y, a, a0, b, b0));
    } else {
      assert m + y == y;
    }
  }

  /** A marker `a` followed by `x` restores to `a0` followed by the restored `x`. */
  lemma RestoreFirst(x: string, a: string, a0: string, b: string, b0: string)
    requires |a| > 0 && |b| > 0
    ensures Restore(a + x, a, a0, b, b0) == a0 + Restore(x, a, a0, b, b0)
  {
    assert (a + x)[..|a|] == a;
    assert (a + x)[|a|..] == x;
  }

  /** A marker `b` followed by `x` restores to `b0` followed by the restored `x`, when `b` cannot be read as `a`. */
  lemma RestoreSecond(x: string, a: string, a0: string, b: string, b0: string)
    requires |a| >= 2 && |b| >= 2 && a[1] != b[1]
    ensures Restore(b + x, a, a0, b, b0) == b0 + Restore(x, a, a0, b, b0)
  {
    var bx := b + x;
    assert bx[..|b|] == b;
    assert bx[|b|..] == x;
    assert bx[1] == b[1];
    assert |a| <= |bx| ==> bx[..|a|][1] == b[1];
  }

  /**
   * A match `a + mid + b` whose body holds neither marker's first character
   * restores to `a0 + mid + b0`.
   */
  lemma RestoreMatch(mid: string, x: string, a: string, a0: string, b: string, b0: string)
    requires |a| >= 2 && |b| >= 2 && a[1] != b[1]
    requires forall k :: 0 <= k < |mid| ==> mid[k] != a[0] && mid[k] != b[0]
    ensures Restore(a + mid + b + x, a, a0, b, b0) == a0 + mid + b0 + Restore(x, a, a0, b, b0)
  {
    assert a + mid + b + x == a + (mid + (b + x));
    RestoreFirst(mid + (b + x), a, a0, b, b0);
    RestorePlain(mid, b + x, a, a0, b, b0);
    RestoreSecond(x, a, a0, b, b0);
  }

  /** The first two characters of the span markers. */
  lemma MarkerFacts()
    ensures |CODE_SPAN_OPEN| >= 2 && CODE_SPAN_OPEN[0] == '<' && CODE_SPAN_OPEN[1] == 's'
    ensures |BOLD_OPEN| >= 2 && BOLD_OPEN[0] == '<' && BOLD_OPEN[1] == 's'
    ensures |SPAN_CLOSE| >= 2 && SPAN_CLOSE[0] == '<' && SPAN_CLOSE[1] == '/'
  {
  }

  /** One character that starts neither marker restores to itself. */
  lemma RestoreOther(c: char, x: string, a: string, a0: string, b: string, b0: string)
    requires |a| > 0 && |b| > 0 && c != a[0] && c != b[0]
    ensures Restore([c] + x, a, a0, b, b0) == [c] + Restore(x, a, a0, b, b0)
  {
    assert ([c] + x)[1..] == x;
  }

  // ---------------------------------------------------------------------------
  // escape_html_tags: `<([^<>]+)>` replaced by `&lt;$1&gt;`
  // ---------------------------------------------------------------------------

  /** First index at or after `from` that holds `'<'` or `'>'`. */
  function NextAngle(s: string, from: nat): (r: Option<nat>)
    ensures r.Some? ==> from <= r.value < |s| && (s[r.value] == '<' || s[r.value] == '>')
    ensures forall k :: from <= k < |s| && (r.None? || k < r.value) ==> s[k] != '<' && s[k] != '>'
    decreases |s| - from
  {
    if from >= |s| then None
    else if s[from] == '<' || s[from] == '>' then Some(from)
    else NextAngle(s, from + 1)
  }

  /** Where the tag opened by `s[0] == '<'` closes, if `<[^<>]+>` matches at index 0. */
  function TagClose(s: string): (r: Option<nat>)
    requires s != [] && s[0] == '<'
    ensures r.Some? ==> 1 < r.value < |s| && s[r.value] == '>'
                        && forall k :: 1 <= k < r.value ==> s[k] != '<' && s[k] != '>'
  {
    match NextAngle(s, 1)
    case Some(q) => if s[q] == '>' && q > 1 then Some(q) else None
    case None => None
  }

  /** `escape_html_tags`. */
  function EscapeHtmlTags(s: string): string
    decreases |s|
  {
    if s == [] then []
    else if s[0] == '<' && TagClose(s).Some? then
      var q := TagClose(s).value;
      "&lt;" + s[1..q] + "&gt;" + EscapeHtmlTags(s[q + 1..])
    else [s[0]] + EscapeHtmlTags(s[1..])
  }

  /** Escaping loses nothing: on text without `'&'`, turning `&lt;`/`&gt;` back into `<`/`>` gives the input. */
  lemma {:induction false} EscapeRoundTrip(s: string)
    requires '&' !in s
    ensures Restore(EscapeHtmlTags(s), "&lt;", "<", "&gt;", ">") == s
    decreases |s|
  {
    if s != [] {
      if s[0] == '<' && TagClose(s).Some? {
        var q := TagClose(s).value;
        EscapeRoundTrip(s[q + 1..]);
        EscapeTagRestored(s, q);
      } else {
        EscapeRoundTrip(s[1..]);
        RestoreOther(s[0], EscapeHtmlTags(s[1..]), "&lt;", "<", "&gt;", ">");
        assert s == [s[0]] + s[1..];
      }
    }
  }

  /** One escaped tag restores to the tag, given that what follows it does. */
  lemma EscapeTagRestored(s: string, q: nat)
    requires s != [] && s[0] == '<' && TagClose(s) == Some(q) && '&' !in s
    requires Restore(EscapeHtmlTags(s[q + 1..]), "&lt;", "<", "&gt;", ">") == s[q + 1..]
    ensures Restore(EscapeHtmlTags(s), "&lt;", "<", "&gt;", ">") == s
  {
    assert EscapeHtmlTags(s) == "&lt;" + s[1..q] + "&gt;" + EscapeHtmlTags(s[q + 1..]);
    assert s[..1] == "<" && s[q..q + 1] == ">";
    SpanRestored(s, 1, q, q + 1, EscapeHtmlTags(s), EscapeHtmlTags(s[q + 1..]), "&lt;", "<", "&gt;", ">");
  }


  /** A text with no `'<'` is left as it is. */
  lemma {:induction false} EscapeWithoutTags(s: string)
    requires '<' !in s
    ensures EscapeHtmlTags(s) == s
    decreases |s|
  {
    if s != [] {
      EscapeWithoutTags(s[1..]);
      assert s == [s[0]] + s[1..];
    }
  }

  /** A tag `<t>` is written as `&lt;t&gt;`, and the pass goes on after it. */
  lemma EscapeTag(t: string, rest: string)
    requires t != [] && '<' !in t && '>' !in t
    ensures EscapeHtmlTags("<" + t + ">" + rest) == "&lt;" + t + "&gt;" + EscapeHtmlTags(rest)
  {
    var s := "<" + t + ">" + rest;
    var q := |t| + 1;
    assert s[q] == '>';
    assert forall k :: 1 <= k < q ==> s[k] == t[k - 1];
    assert NextAngle(s, 1) == Some(q);
    assert s[1..q] == t && s[q + 1..] == rest;
  }

  /** Text with no `'<'` before a tag is copied as it is, and the pass goes on after it. */
  lemma {:induction false} EscapePlainPrefix(x: string, rest: string)
    requires '<' !in x
    ensures EscapeHtmlTags(x + rest) == x + EscapeHtmlTags(rest)
    decreases |x|
  {
    if x != [] {
      var s := x + rest;
      assert s[0] == x[0] && s[1..] == x[1..] + rest;
      EscapePlainPrefix(x[1..], rest);
      HeadTail(x, EscapeHtmlTags(rest));
    } else {
      assert x + rest == rest;
    }
  }

  /** A tag in the middle of a line: `a<b>` is written `a&lt;b&gt;`. */
  lemma EscapeTagExample()
    ensures EscapeHtmlTags("a<b>") == "a&lt;b&gt;"
  {
    EscapeTag("b", "");
    assert "<" + "b" + ">" + "" == "<b>";
    assert EscapeHtmlTags("<b>") == "&lt;b&gt;" by {
      assert "&lt;" + "b" + "&gt;" + EscapeHtmlTags("") == "&lt;b&gt;";
    }
    EscapePlainPrefix("a", "<b>");
    assert "a" + "<b>" == "a<b>";
  }

  // ---------------------------------------------------------------------------
  // replace_backticks_with_span: `` `([^`]+)` `` replaced by a code span
  // ---------------------------------------------------------------------------

  /** `replace_backticks_with_span`. */
  function ReplaceBackticks(s: string): string
    decreases |s|
  {
    if s == [] then []
    else match (if s[0] == '`' then IndexOf(s[1..], '`') else None)
      case Some(k) =>
        if k > 0 then CODE_SPAN_OPEN + s[1..k + 1] + SPAN_CLOSE + ReplaceBackticks(s[k + 2..])
        else [s[0]] + ReplaceBackticks(s[1..])
      case None => [s[0]] + ReplaceBackticks(s[1..])
  }

  /** On text without `'<'`, turning each code span back into its backticks gives the input. */
  lemma {:induction false} BackticksRoundTrip(s: string)
    requires '<' !in s
    ensures Restore(ReplaceBackticks(s), CODE_SPAN_OPEN, "`", SPAN_CLOSE, "`") == s
    decreases |s|
  {
    if s != [] {
      var found := if s[0] == '`' then IndexOf(s[1..], '`') else None;
      if found.Some? && found.value > 0 {
        var k := found.value;
        BackticksRoundTrip(s[k + 2..]);
        CodeSpanRestored(s, k);
      } else {
        BackticksRoundTrip(s[1..]);
        MarkerFacts();
        RestoreOther(s[0], ReplaceBackticks(s[1..]), CODE_SPAN_OPEN, "`", SPAN_CLOSE, "`");
        assert s == [s[0]] + s[1..];
      }
    }
  }

  /** One code span restores to its backticks, given that what follows it does. */
  lemma CodeSpanRestored(s: string, k: nat)
    requires '<' !in s && s != [] && s[0] == '`' && IndexOf(s[1..], '`') == Some(k) && k > 0
    requires Restore(ReplaceBackticks(s[k + 2..]), CODE_SPAN_OPEN, "`", SPAN_CLOSE, "`") == s[k + 2..]
    ensures Restore(ReplaceBackticks(s), CODE_SPAN_OPEN, "`", SPAN_CLOSE, "`") == s
  {
    var c, rest := s[1..k + 1], s[k + 2..];
    var out := CODE_SPAN_OPEN + c + SPAN_CLOSE + ReplaceBackticks(rest);
    assert ReplaceBackticks(s) == out by {
      assert s[1..][..k] == c;
      assert s[..1] == "`" && s[k + 1..k + 2] == "`";
      Reassemble(s, 1, k + 1, k + 2);
      BackticksSpan(c, rest);
    }
    assert s[..1] == "`" && s[k + 1..k + 2] == "`";
    MarkerFacts();
    SpanRestored(s, 1, k + 1, k + 2, out, ReplaceBackticks(rest), CODE_SPAN_OPEN, "`", SPAN_CLOSE, "`");
  }

  /** A code span `` `c` `` is written as the span around `c`, and the pass goes on after it. */
  lemma BackticksSpan(c: string, rest: string)
    requires c != [] && '`' !in c
    ensures ReplaceBackticks("`" + c + "`" + rest) == CODE_SPAN_OPEN + c + SPAN_CLOSE + ReplaceBackticks(rest)
  {
    var s := "`" + c + "`" + rest;
    var k := |c|;
    assert s[1..][..k] == c && s[1..][k] == '`';
    assert IndexOf(s[1..], '`') == Some(k);
    assert s[1..k + 1] == c && s[k + 2..] == rest;
  }

  /** Text with no backtick before a span is copied as it is, and the pass goes on after it. */
  lemma {:induction false} BackticksPlainPrefix(x: string, rest: string)
    requires '`' !in x
    ensures ReplaceBackticks(x + rest) == x + ReplaceBackticks(rest)
    decreases |x|
  {
    if x != [] {
      var s := x + rest;
      assert s[0] == x[0] && s[1..] == x[1..] + rest;
      BackticksPlainPrefix(x[1..], rest);
      HeadTail(x, ReplaceBackticks(rest));
    } else {
      assert x + rest == rest;
    }
  }

  /**
   * The general step: `s` is `a0`, a body free of both markers' first
   * characters, `b0` and a tail; the pass wrote `a`, the body, `b` and
   * something that restores to the tail.
   */
  lemma SpanRestored(s: string, lo: nat, q: nat, hi: nat, out: string, x: string,
                     a: string, a0: string, b: string, b0: string)
    requires lo <= q <= hi <= |s| && s[..lo] == a0 && s[q..hi] == b0
    requires |a| >= 2 && |b| >= 2 && a[1] != b[1]
    requires forall j :: lo <= j < q ==> s[j] != a[0] && s[j] != b[0]
    requires out == a + s[lo..q] + b + x
    requires Restore(x, a, a0, b, b0) == s[hi..]
    ensures Restore(out, a, a0, b, b0) == s
  {
    var mid := s[lo..q];
    assert forall j :: 0 <= j < |mid| ==> mid[j] == s[lo + j];
    RestoreMatch(mid, x, a, a0, b, b0);
    Reassemble(s, lo, q, hi);
  }

  // ---------------------------------------------------------------------------
  // replace_bold_with_html: `\*\*(.*?)\*\*` replaced by a bold span
  // ---------------------------------------------------------------------------

  /**
   * The lazy `(.*?)\*\*` from index `k`: the first `"**"` at or after `k`,
   * provided no `'\n'` comes before it.
   */
  function BoldClose(s: string, k: nat): (r: Option<nat>)
    ensures r.Some? ==> k <= r.value && OccursAt(s, "**", r.value) && '\n' !in s[k..r.value]
    ensures r.Some? ==> forall j :: k <= j < r.value ==> !OccursAt(s, "**", j)
    decreases |s| - k
  {
    if k + 2 > |s| then None
    else if s[k] == '*' && s[k + 1] == '*' then Some(k)
    else if s[k] == '\n' then None
    else
      var r := BoldClose(s, k + 1);
      if r.Some? then
        assert s[k..r.value] == [s[k]] + s[k + 1..r.value];
        assert !OccursAt(s, "**", k) by {
          assert s[k..k + 2][0] == s[k] && s[k..k + 2][1] == s[k + 1];
        }
        r
      else r
  }

  /** `replace_bold_with_html`. */
  function ReplaceBold(s: string): (r: string)
    ensures '\n' !in s ==> '\n' !in r
    decreases |s|
  {
    if s == [] then []
    else match (if StartsWith(s, "**") then BoldClose(s, 2) else None)
      case Some(q) =>
        assert '\n' !in s[2..q];
        BOLD_OPEN + s[2..q] + SPAN_CLOSE + ReplaceBold(s[q + 2..])
      case None => [s[0]] + ReplaceBold(s[1..])
  }

  /** On text without `'<'`, turning each bold span back into `**…**` gives the input. */
  lemma {:induction false} BoldRoundTrip(s: string)
    requires '<' !in s
    ensures Restore(ReplaceBold(s), BOLD_OPEN, "**", SPAN_CLOSE, "**") == s
    decreases |s|
  {
    if s != [] {
      var found := if StartsWith(s, "**") then BoldClose(s, 2) else None;
      if found.Some? {
        var q := found.value;
        assert Restore(ReplaceBold(s), BOLD_OPEN, "**", SPAN_CLOSE, "**") == s by {
          BoldRoundTrip(s[q + 2..]);
          BoldSpanRestored(s, q);
        }
      } else {
        assert Restore(ReplaceBold(s), BOLD_OPEN, "**", SPAN_CLOSE, "**") == s by {
          BoldRoundTrip(s[1..]);
          MarkerFacts();
          RestoreOther(s[0], ReplaceBold(s[1..]), BOLD_OPEN, "**", SPAN_CLOSE, "**");
          assert s == [s[0]] + s[1..];
        }
      }
    }
  }

  /** One bold span restores to its `**…**`, given that what follows it does. */
  lemma BoldSpanRestored(s: string, q: nat)
    requires '<' !in s && StartsWith(s, "**") && BoldClose(s, 2) == Some(q)
    requires Restore(ReplaceBold(s[q + 2..]), BOLD_OPEN, "**", SPAN_CLOSE, "**") == s[q + 2..]
    ensures Restore(ReplaceBold(s), BOLD_OPEN, "**", SPAN_CLOSE, "**") == s
  {
    assert ReplaceBold(s) == BOLD_OPEN + s[2..q] + SPAN_CLOSE + ReplaceBold(s[q + 2..]);
    MarkerFacts();
    assert s[..2] == "**" && s[q..q + 2] == "**";
    SpanRestored(s, 2, q, q + 2, ReplaceBold(s), ReplaceBold(s[q + 2..]), BOLD_OPEN, "**", SPAN_CLOSE, "**");
  }


  /**
   * Every `'*'` of `x` is followed, inside `x`, by another character: no
   * `"**"` can start anywhere in `x + "**"` before its last two characters.
   */
  predicate LoneStars(x: string)
  {
    forall j :: 0 <= j < |x| && x[j] == '*' ==> j + 1 < |x| && x[j + 1] != '*'
  }

  /** Bold text `**x**` is written as the bold span around `x`, and the pass goes on after it. */
  lemma BoldSpan(x: string, rest: string)
    requires LoneStars(x) && '\n' !in x
    ensures ReplaceBold("**" + x + "**" + rest) == BOLD_OPEN + x + SPAN_CLOSE + ReplaceBold(rest)
  {
    var s := "**" + x + "**" + rest;
    var q := |x| + 2;
    assert s[..2] == "**";
    assert s[q] == '*' && s[q + 1] == '*';
    assert forall j :: 2 <= j < q ==> s[j] == x[j - 2];
    forall j | 2 <= j < q
      ensures s[j] != '\n' && !(s[j] == '*' && s[j + 1] == '*')
    {
      if s[j] == '*' {
        assert x[j - 2] == '*';
        assert s[j + 1] == x[j - 1];
      }
    }
    BoldCloseAt(s, 2, q);
    assert s[2..q] == x && s[q + 2..] == rest;
  }

  /** With no `"**"` and no `'\n'` starting between `k` and a `"**"` at `n`, the lazy body closes at `n`. */
  lemma {:induction false} BoldCloseAt(s: string, k: nat, n: nat)
    requires k <= n && n + 2 <= |s| && s[n] == '*' && s[n + 1] == '*'
    requires forall j :: k <= j < n ==> s[j] != '\n' && !(s[j] == '*' && s[j + 1] == '*')
    ensures BoldClose(s, k) == Some(n)
    decreases n - k
  {
    if k < n {
      BoldCloseAt(s, k + 1, n);
    }
  }

  /** Text with no `'*'` before a match is copied as it is, and the pass goes on after it. */
  lemma {:induction false} BoldPlainPrefix(x: string, rest: string)
    requires '*' !in x
    ensures ReplaceBold(x + rest) == x + ReplaceBold(rest)
    decreases |x|
  {
    if x != [] {
      var s := x + rest;
      assert s[0] == x[0] && s[1..] == x[1..] + rest;
      assert !StartsWith(s, "**");
      BoldPlainPrefix(x[1..], rest);
      HeadTail(x, ReplaceBold(rest));
    } else {
      assert x + rest == rest;
    }
  }

  /** `.` does not cross a line break: a `'\n'` between the two `"**"` prevents the match. */
  lemma BoldStopsAtNewline(x: string)
    requires '*' !in x
    ensures ReplaceBold("**" + x + "\n**") == "**" + x + "\n**"
  {
    var t := "*" + (x + "\n**");
    var s := "*" + t;
    assert s == "**" + x + "\n**";
    BoldLoneStar(x);
    BoldOpenBeforeNewline(x);
    assert s[1..] == t;
    assert ReplaceBold(s) == [s[0]] + ReplaceBold(t);
  }

  /** After an opening `"**"`, star-free text and then a `'\n'` hold no closing `"**"`. */
  lemma BoldOpenBeforeNewline(x: string)
    requires '*' !in x
    ensures BoldClose("**" + x + "\n**", 2) == None
  {
    var s := "**" + x + "\n**";
    assert forall j :: 2 <= j < |x| + 2 ==> s[j] == x[j - 2];
    assert s[|x| + 2] == '\n';
    BoldNoCloseBeforeNewline(s, 2, |x| + 2);
  }

  /** A lone `'*'` opens nothing: it is copied, and the star-free rest with it. */
  lemma BoldLoneStar(x: string)
    requires '*' !in x
    ensures ReplaceBold("*" + (x + "\n**")) == "*" + (x + "\n**")
  {
    var y := x + "\n**";
    var t := "*" + y;
    BoldFreeOfStars(x, "\n**");
    assert t[1] != '*' by {
      if x == [] {
        assert t[1] == '\n';
      } else {
        assert t[1] == x[0];
      }
    }
    assert t[..2][1] == t[1];
    assert !StartsWith(t, "**");
    assert t[1..] == y;
  }

  /** With no `"**"` before the first `'\n'` at index `n`, no closing is found. */
  lemma {:induction false} BoldNoCloseBeforeNewline(s: string, k: nat, n: nat)
    requires k <= n < |s| && s[n] == '\n'
    requires forall j :: k <= j < n ==> s[j] != '*'
    ensures BoldClose(s, k) == None
    decreases n - k
  {
    if k < n {
      BoldNoCloseBeforeNewline(s, k + 1, n);
    }
  }

  /** A star-free text followed by a lone `"\n**"` is copied unchanged. */
  lemma {:induction false} BoldFreeOfStars(x: string, y: string)
    requires '*' !in x
    requires y == "\n**"
    ensures ReplaceBold(x + y) == x + y
    decreases |x|
  {
    if x == [] {
      assert ReplaceBold("*") == "*";
      assert BoldClose("**", 2) == None;
      assert ReplaceBold("**") == "**";
      assert y[1..] == "**";
      assert ReplaceBold(y) == "\n" + ReplaceBold("**");
      assert x + y == y;
    } else {
      var xy := x + y;
      assert xy[0] == x[0];
      assert !StartsWith(xy, "**");
      assert xy[1..] == x[1..] + y;
      BoldFreeOfStars(x[1..], y);
      assert ReplaceBold(xy) == [x[0]] + ReplaceBold(x[1..] + y);
      HeadTail(x, y);
    }
  }

  // ---------------------------------------------------------------------------
  // replace_linebreaks_with_br
  // ---------------------------------------------------------------------------

  /** `replace_linebreaks_with_br`: every `'\n'` becomes `"<br>"`. */
  function ReplaceLinebreaks(s: string): (r: string)
    ensures '\n' !in r
    decreases |s|
  {
    if s == [] then []
    else (if s[0] == '\n' then "<br>" else [s[0]]) + ReplaceLinebreaks(s[1..])
  }

  /** Line breaks are replaced piecewise: the pass distributes over concatenation. */
  lemma {:induction false} LinebreaksAppend(x: string, y: string)
    ensures ReplaceLinebreaks(x + y) == ReplaceLinebreaks(x) + ReplaceLinebreaks(y)
    decreases |x|
  {
    if x != [] {
      var h := if x[0] == '\n' then "<br>" else [x[0]];
      var a, b := ReplaceLinebreaks(x[1..]), ReplaceLinebreaks(y);
      assert ReplaceLinebreaks(x + y) == h + ReplaceLinebreaks(x[1..] + y) by {
        assert (x + y)[0] == x[0];
        assert (x + y)[1..] == x[1..] + y;
      }
      LinebreaksAppend(x[1..], y);
      assert h + (a + b) == (h + a) + b;
    } else {
      assert x + y == y;
    }
  }

  /** A text without `'\n'` is left as it is. */
  lemma {:induction false} LinebreaksIdentity(s: string)
    requires '\n' !in s
    ensures ReplaceLinebreaks(s) == s
    decreases |s|
  {
    if s != [] {
      LinebreaksIdentity(s[1..]);
      assert s == [s[0]] + s[1..];
    }
  }

  // ---------------------------------------------------------------------------
  // replace_markdown_headers_with_html
  // ---------------------------------------------------------------------------

  /** The CSS class of a header level; any other level gets the empty class. */
  function HeaderClass(level: nat): string
  {
    match level
    case 1 => "text-4xl font-bold"
    case 2 => "text-3xl font-bold"
    case 3 => "text-2xl font-bold"
    case 4 => "text-xl font-bold"
    case 5 => "text-lg font-bold"
    case 6 => "text-base font-bold"
    case _ => ""
  }

  /** The number of `'#'` a line starts with. */
  function HeaderLevel(t: string): (n: nat)
    ensures n <= |t| && (forall k :: 0 <= k < n ==> t[k] == '#') && (n == |t| || t[n] != '#')
  {
    if t != [] && t[0] == '#' then 1 + HeaderLevel(t[1..]) else 0
  }

  /** What one line becomes: every line is wrapped in a span, headers with their level's class. */
  function HeaderLine(line: string): string
  {
    var t := TrimStart(line);
    var n := HeaderLevel(t);
    "<span class=\"" + HeaderClass(n) + "\">" + TrimStart(t[n..]) + "</span>\n"
  }

  /** The lines, each rewritten by `HeaderLine`, in order. */
  function HeaderLines(lines: seq<string>): string
  {
    if lines == [] then "" else HeaderLines(lines[..|lines| - 1]) + HeaderLine(lines[|lines| - 1])
  }

  lemma HeaderLineUnfold(line: string)
    ensures var t := TrimStart(line); var n := HeaderLevel(t);
            HeaderLine(line) == "<span class=\"" + HeaderClass(n) + "\">" + TrimStart(t[n..]) + "</span>\n"
  {
  }

  lemma HeaderLinesSnoc(lines: seq<string>, i: nat)
    requires i < |lines|
    ensures HeaderLines(lines[..i + 1]) == HeaderLines(lines[..i]) + HeaderLine(lines[i])
  {
    assert lines[..i + 1][..i] == lines[..i];
  }

  /** The loop of `replace_markdown_headers_with_html` that counts the leading `'#'`. */
  method CountHashes(t: string) returns (level: nat)
    ensures level == HeaderLevel(t)
  {
    level := 0;
    while level < |t| && t[level] == '#'
      invariant 0 <= level <= |t|
      invariant forall k :: 0 <= k < level ==> t[k] == '#'
    {
      level := level + 1;
    }
    HeaderLevelIs(t, level);
  }

  /** `replace_markdown_headers_with_html`. */
  method ReplaceMarkdownHeaders(text: string) returns (result: string)
    ensures result == HeaderLines(Lines(text))
  {
    var lines := Lines(text);
    result := "";
    var i := 0;
    while i < |lines|
      invariant 0 <= i <= |lines|
      invariant result == HeaderLines(lines[..i])
    {
      var piece := RewriteHeaderLine(lines[i]);
      HeaderLinesSnoc(lines, i);
      result := result + piece;
      i := i + 1;
    }
    assert lines[..i] == lines;
  }

  /** The body of the line loop of `replace_markdown_headers_with_html`. */
  method RewriteHeaderLine(line: string) returns (piece: string)
    ensures piece == HeaderLine(line)
  {
    var trimmed := TrimStart(line);
    var level := CountHashes(trimmed);
    var content := TrimStart(trimmed[level..]);
    piece := "<span class=\"" + HeaderClass(level) + "\">" + content + "</span>\n";
    HeaderLineUnfold(line);
  }

  /** A run of `'#'` ending at a non-`'#'` (or at the end) is the header level. */
  lemma {:induction false} HeaderLevelIs(t: string, n: nat)
    requires n <= |t| && (forall k :: 0 <= k < n ==> t[k] == '#') && (n == |t| || t[n] != '#')
    ensures HeaderLevel(t) == n
    decreases n
  {
    if n > 0 {
      HeaderLevelIs(t[1..], n - 1);
    }
  }

  /** `k` times `'#'`. */
  function Hashes(k: nat): (r: string)
    ensures |r| == k && forall j :: 0 <= j < k ==> r[j] == '#'
  {
    seq(k, _ => '#')
  }

  /**
   * A line of `k` hashes, a space and some text becomes a span with the class
   * of level `k` around the text, whatever indentation the line had.
   */
  lemma {:induction false} HeaderLineOf(indent: string, k: nat, content: string)
    requires k >= 1
    requires forall j :: 0 <= j < |indent| ==> IsWhitespace(indent[j])
    requires content == [] || !IsWhitespace(content[0])
    ensures HeaderLine(indent + Hashes(k) + " " + content)
            == "<span class=\"" + HeaderClass(k) + "\">" + content + "</span>\n"
  {
    var t := Hashes(k) + " " + content;
    assert indent + Hashes(k) + " " + content == indent + t;
    assert t[0] == '#';
    TrimStartOfPrefix(indent, t);
    HeaderLineTrimmed(indent + t, t);
    HashesThenContent(t, k, content);
  }

  lemma HeaderLineTrimmed(line: string, t: string)
    requires TrimStart(line) == t
    ensures HeaderLine(line) == "<span class=\"" + HeaderClass(HeaderLevel(t)) + "\">" + TrimStart(t[HeaderLevel(t)..]) + "</span>\n"
  {
  }

  lemma HashesThenContent(t: string, k: nat, content: string)
    requires k >= 1
    requires content == [] || !IsWhitespace(content[0])
    requires t == Hashes(k) + " " + content
    ensures HeaderLevel(t) == k && TrimStart(t[k..]) == content
  {
    assert t[k] == ' ';
    HeaderLevelIs(t, k);
    assert t[k..] == " " + content;
    TrimStartSpace(content);
  }

  lemma TrimStartSpace(content: string)
    requires content == [] || !IsWhitespace(content[0])
    ensures TrimStart(" " + content) == content
  {
    if content == [] {
      var sp := " ";
      assert IsWhitespace(sp[0]) && sp[1..] == [];
      assert TrimStart(sp) == TrimStart(sp[1..]) == [];
      assert sp + content == sp;
    } else {
      TrimStartOfPrefix(" ", content);
    }
  }

  /** Leading whitespace in front of a text that starts with a non-whitespace character is dropped exactly. */
  lemma {:induction false} TrimStartOfPrefix(ws: string, t: string)
    requires forall j :: 0 <= j < |ws| ==> IsWhitespace(ws[j])
    requires t != [] && !IsWhitespace(t[0])
    ensures TrimStart(ws + t) == t
    decreases |ws|
  {
    if ws != [] {
      assert (ws + t)[1..] == ws[1..] + t;
      TrimStartOfPrefix(ws[1..], t);
    }
  }

  // ---------------------------------------------------------------------------
  // is_table_separator, render_markdown_table, replace_markdown_tables_with_html
  // ---------------------------------------------------------------------------

  predicate IsSeparatorChar(c: char)
  {
    c == '|' || c == '-' || c == ':' || IsWhitespace(c)
  }

  predicate SeparatorChars(s: string)
  {
    forall k :: 0 <= k < |s| ==> IsSeparatorChar(s[k])
  }

  /** The character test of `is_table_separator`, one character at a time. */
  function AllSeparatorChars(s: string): (b: bool)
    ensures b <==> SeparatorChars(s)
  {
    if s == [] then true
    else if !IsSeparatorChar(s[0]) then false
    else AllSeparatorChars(s[1..])
  }

  /**
   * `is_table_separator`: the trimmed line starts or ends with `'|'`, holds
   * only `'|'`, `'-'`, `':'` and whitespace, and contains a `'-'`. Since
   * trimming only drops whitespace, the last two tests may as well be made on
   * the untrimmed line.
   */
  function IsTableSeparator(line: string): (b: bool)
    ensures b <==> (StartsWith(Trim(line), "|") || EndsWith(Trim(line), "|"))
                   && SeparatorChars(line) && '-' in line
  {
    var t := Trim(line);
    TrimOnlyWhitespace(line);
    if !StartsWith(t, "|") && !EndsWith(t, "|") then false
    else AllSeparatorChars(t) && '-' in t
  }

  /** Trimming drops only whitespace: non-whitespace characters and the all-separator test are unaffected. */
  lemma TrimOnlyWhitespace(s: string)
    ensures '-' in Trim(s) <==> '-' in s
    ensures SeparatorChars(Trim(s)) <==> SeparatorChars(s)
  {
    var t := TrimStart(s);
    assert Trim(s) == TrimEnd(t);
    TrimStartKeeps(s);
    TrimEndKeeps(t);
  }

  /** Dropping one whitespace character keeps the `'-'` test and the separator test. */
  lemma DropWhitespaceKeeps(s: string, rest: string, c: char)
    requires IsWhitespace(c) && (s == [c] + rest || s == rest + [c])
    ensures '-' in rest <==> '-' in s
    ensures SeparatorChars(rest) <==> SeparatorChars(s)
  {
    if SeparatorChars(rest) {
      forall k | 0 <= k < |s|
        ensures IsSeparatorChar(s[k])
      {
        if s == [c] + rest {
          if k > 0 { assert s[k] == rest[k - 1]; }
        } else if k < |rest| {
          assert s[k] == rest[k];
        }
      }
    }
    if SeparatorChars(s) {
      forall k | 0 <= k < |rest|
        ensures IsSeparatorChar(rest[k])
      {
        if s == [c] + rest { assert rest[k] == s[k + 1]; } else { assert rest[k] == s[k]; }
      }
    }
  }

  lemma {:induction false} TrimStartKeeps(s: string)
    ensures '-' in TrimStart(s) <==> '-' in s
    ensures SeparatorChars(TrimStart(s)) <==> SeparatorChars(s)
    decreases |s|
  {
    if s != [] && IsWhitespace(s[0]) {
      assert s == [s[0]] + s[1..];
      DropWhitespaceKeeps(s, s[1..], s[0]);
      TrimStartKeeps(s[1..]);
    }
  }

  lemma {:induction false} TrimEndKeeps(s: string)
    ensures '-' in TrimEnd(s) <==> '-' in s
    ensures SeparatorChars(TrimEnd(s)) <==> SeparatorChars(s)
    decreases |s|
  {
    if s != [] && IsWhitespace(s[|s| - 1]) {
      assert s == s[..|s| - 1] + [s[|s| - 1]];
      DropWhitespaceKeeps(s, s[..|s| - 1], s[|s| - 1]);
      TrimEndKeeps(s[..|s| - 1]);
    }
  }

  /** The trimmed cells of a table row: `line.trim().trim_matches('|').split('|')`, each trimmed. */
  function RowCells(line: string): (cells: seq<string>)
    ensures |cells| >= 1
  {
    TrimEach(Split(TrimChar(Trim(line), '|'), '|'))
  }

  /** Each piece trimmed, in order. */
  function TrimEach(pieces: seq<string>): (r: seq<string>)
    ensures |r| == |pieces| && forall k :: 0 <= k < |pieces| ==> r[k] == Trim(pieces[k])
  {
    if pieces == [] then [] else [Trim(pieces[0])] + TrimEach(pieces[1..])
  }

  /** The cells, each wrapped in `open` and `close`. */
  function CellsHtml(cells: seq<string>, open: string, close: string): string
  {
    if cells == [] then "" else CellsHtml(cells[..|cells| - 1], open, close) + open + cells[|cells| - 1] + close
  }

  /** What the row at index `idx` of a table contributes: a header, nothing (the separator) or a body row. */
  function RowHtml(idx: nat, line: string): string
  {
    if idx == 1 then ""
    else if idx == 0 then "<thead><tr>" + CellsHtml(RowCells(line), TH_OPEN, "</th>") + "</tr></thead><tbody>"
    else "<tr>" + CellsHtml(RowCells(line), TD_OPEN, "</td>") + "</tr>"
  }

  function RowsHtml(rows: seq<string>): string
  {
    if rows == [] then "" else RowsHtml(rows[..|rows| - 1]) + RowHtml(|rows| - 1, rows[|rows| - 1])
  }

  function TableHtml(rows: seq<string>): string
  {
    TABLE_OPEN + RowsHtml(rows) + TABLE_CLOSE
  }

  /** Appends each cell wrapped in `open` and `close`, as the loops over `cells` do. */
  method AppendCells(html: string, cells: seq<string>, open: string, close: string) returns (r: string)
    ensures r == html + CellsHtml(cells, open, close)
  {
    r := html;
    var c := 0;
    while c < |cells|
      invariant 0 <= c <= |cells|
      invariant r == html + CellsHtml(cells[..c], open, close)
    {
      assert cells[..c + 1][..c] == cells[..c];
      r := r + open + cells[c] + close;
      c := c + 1;
    }
    assert cells[..c] == cells;
  }

  /** `render_markdown_table`. */
  method RenderMarkdownTable(rows: seq<string>) returns (html: string)
    ensures html == TableHtml(rows)
  {
    html := TABLE_OPEN;
    var idx := 0;
    while idx < |rows|
      invariant 0 <= idx <= |rows|
      invariant html == TABLE_OPEN + RowsHtml(rows[..idx])
    {
      RowsSnoc(rows, idx);
      if idx == 1 {
        idx := idx + 1;
        continue;
      }
      html := AppendRow(html, idx, rows[idx]);
      Assoc(TABLE_OPEN, RowsHtml(rows[..idx]), RowHtml(idx, rows[idx]));
      idx := idx + 1;
    }
    assert rows[..idx] == rows;
    html := html + TABLE_CLOSE;
  }

  /** The body of the row loop of `render_markdown_table` for a row other than the separator. */
  method AppendRow(html: string, idx: nat, line: string) returns (r: string)
    requires idx != 1
    ensures r == html + RowHtml(idx, line)
  {
    var cells := RowCells(line);
    if idx == 0 {
      r := html + "<thead><tr>";
      r := AppendCells(r, cells, TH_OPEN, "</th>");
      r := r + "</tr></thead><tbody>";
      Assoc4(html, "<thead><tr>", CellsHtml(cells, TH_OPEN, "</th>"), "</tr></thead><tbody>");
    } else {
      r := html + "<tr>";
      r := AppendCells(r, cells, TD_OPEN, "</td>");
      r := r + "</tr>";
      Assoc4(html, "<tr>", CellsHtml(cells, TD_OPEN, "</td>"), "</tr>");
    }
  }

  lemma RowsSnoc(rows: seq<string>, idx: nat)
    requires idx < |rows|
    ensures RowsHtml(rows[..idx + 1]) == RowsHtml(rows[..idx]) + RowHtml(idx, rows[idx])
  {
    assert rows[..idx + 1][..idx] == rows[..idx];
  }

  /** The second row of a table is never looked at: it is the separator. */
  lemma {:induction false} SeparatorRowIgnored(rows: seq<string>, sep: string)
    requires |rows| >= 2
    ensures TableHtml(rows[1 := sep]) == TableHtml(rows)
  {
    var other := rows[1 := sep];
    RowsIgnoreSecond(rows, other, |rows|);
    assert rows[..|rows|] == rows;
    assert other[..|other|] == other;
    assert RowsHtml(other) == RowsHtml(rows);
  }

  lemma {:induction false} RowsIgnoreSecond(rows: seq<string>, other: seq<string>, n: nat)
    requires |rows| == |other| && n <= |rows|
    requires forall k :: 0 <= k < |rows| && k != 1 ==> rows[k] == other[k]
    ensures RowsHtml(rows[..n]) == RowsHtml(other[..n])
  {
    if n > 0 {
      RowsIgnoreSecond(rows, other, n - 1);
      RowsSnoc(rows, n - 1);
      RowsSnoc(other, n - 1);
      if n - 1 != 1 {
        assert rows[n - 1] == other[n - 1];
      }
    }
  }

  /** The first index at or after `from` whose line holds no `'|'` (or the end): where a table stops. */
  function TableEnd(lines: seq<string>, from: nat): (r: nat)
    requires from <= |lines|
    ensures from <= r <= |lines|
    ensures forall k :: from <= k < r ==> '|' in lines[k]
    ensures r == |lines| || '|' !in lines[r]
    decreases |lines| - from
  {
    if from == |lines| || '|' !in lines[from] then from else TableEnd(lines, from + 1)
  }

  /** A table starts at line `i` when it holds a `'|'` and the next line is a separator. */
  predicate TableStartsAt(lines: seq<string>, i: nat)
  {
    i + 1 < |lines| && '|' in lines[i]
    && '|' in lines[i + 1] && '-' in lines[i + 1] && IsTableSeparator(lines[i + 1])
  }

  /** Lines from `i` on, with tables rendered and every piece followed by `'\n'`. */
  function TablesFrom(lines: seq<string>, i: nat): string
    requires i <= |lines|
    decreases |lines| - i
  {
    if i == |lines| then ""
    else if TableStartsAt(lines, i) then
      var j := TableEnd(lines, i + 1);
      TableHtml(lines[i..j]) + "\n" + TablesFrom(lines, j)
    else lines[i] + "\n" + TablesFrom(lines, i + 1)
  }

  /** What `replace_markdown_tables_with_html` returns. */
  function TablesText(text: string): string
  {
    var r := TablesFrom(Lines(text), 0);
    if !EndsWith(text, "\n") && EndsWith(r, "\n") then r[..|r| - 1] else r
  }

  /** `replace_markdown_tables_with_html`. */
  method ReplaceMarkdownTables(text: string) returns (result: string)
    ensures result == TablesText(text)
  {
    var lines := Lines(text);
    result := "";
    var i := 0;
    while i < |lines|
      invariant 0 <= i <= |lines|
      invariant TablesFrom(lines, 0) == result + TablesFrom(lines, i)
      decreases |lines| - i
    {
      if '|' in lines[i] && i + 1 < |lines| {
        var nextLine := lines[i + 1];
        if '|' in nextLine && '-' in nextLine && IsTableSeparator(nextLine) {
          var tableLines, j := CollectTable(lines, i);
          var html := RenderMarkdownTable(tableLines);
          TablesFromTable(lines, i, j);
          Assoc4(result, html, "\n", TablesFrom(lines, j));
          result := result + html + "\n";
          i := j;
          continue;
        }
      }
      TablesFromLine(lines, i);
      Assoc4(result, lines[i], "\n", TablesFrom(lines, i + 1));
      result := result + lines[i] + "\n";
      i := i + 1;
    }
    assert TablesFrom(lines, i) == "";
    assert result + "" == result;
    if !EndsWith(text, "\n") && EndsWith(result, "\n") {
      result := result[..|result| - 1];
    }
  }

  /**
   * The inner loop of `replace_markdown_tables_with_html`: the table's lines
   * run from line `i` up to the first later line without a `'|'`.
   */
  method CollectTable(lines: seq<string>, i: nat) returns (tableLines: seq<string>, j: nat)
    requires i + 1 < |lines|
    ensures i + 1 <= j <= |lines| && tableLines == lines[i..j]
    ensures forall k :: i + 1 <= k < j ==> '|' in lines[k]
    ensures j == |lines| || '|' !in lines[j]
  {
    tableLines := [lines[i]];
    j := i + 1;
    while j < |lines| && '|' in lines[j]
      invariant i + 1 <= j <= |lines|
      invariant forall k :: i + 1 <= k < j ==> '|' in lines[k]
      invariant tableLines == lines[i..j]
    {
      assert lines[i..j + 1] == lines[i..j] + [lines[j]];
      tableLines := tableLines + [lines[j]];
      j := j + 1;
    }
  }

  /** A table starting at line `i` is rendered whole, and the pass resumes where it ends. */
  lemma TablesFromTable(lines: seq<string>, i: nat, j: nat)
    requires TableStartsAt(lines, i) && i + 1 <= j <= |lines|
    requires forall k :: i + 1 <= k < j ==> '|' in lines[k]
    requires j == |lines| || '|' !in lines[j]
    ensures TablesFrom(lines, i) == TableHtml(lines[i..j]) + "\n" + TablesFrom(lines, j)
  {
    assert j == TableEnd(lines, i + 1);
  }

  /** A line that does not start a table is copied with its `'\n'`. */
  lemma TablesFromLine(lines: seq<string>, i: nat)
    requires i < |lines| && !TableStartsAt(lines, i)
    ensures TablesFrom(lines, i) == lines[i] + "\n" + TablesFrom(lines, i + 1)
  {
  }

  /** Lines of a text have no character the text lacks. */
  lemma {:induction false} LinesLack(s: string, c: char)
    requires c !in s
    ensures forall k :: 0 <= k < |Lines(s)| ==> c !in Lines(s)[k]
    decreases |s|
  {
    if '\n' in s {
      var a, rest := SplitFirstLine(s);
      LinesLack(rest, c);
      assert c !in StripCr(a);
    } else if s != [] {
      assert Lines(s) == [s];
    }
  }

  lemma {:induction false} NoTablesFrom(lines: seq<string>, i: nat)
    requires i <= |lines|
    requires forall k :: 0 <= k < |lines| ==> '|' !in lines[k]
    ensures TablesFrom(lines, i) == Terminated(lines[i..])
    decreases |lines| - i
  {
    if i < |lines| {
      NoTablesFrom(lines, i + 1);
      assert lines[i..][1..] == lines[i + 1..];
    }
  }

  /** A text with no `'|'` (and no `'\r'`, which `lines` would drop) comes out of the table pass unchanged. */
  lemma TablesWithoutPipes(text: string)
    requires '|' !in text && '\r' !in text
    ensures TablesText(text) == text
  {
    var lines := Lines(text);
    LinesLack(text, '|');
    NoTablesFrom(lines, 0);
    assert lines[0..] == lines;
    TerminatedLines(text);
    DropAddedNewline(text, TablesFrom(lines, 0));
  }

  /** Dropping the final `'\n'` that was added to a text without one gives back the text. */
  lemma DropAddedNewline(text: string, r: string)
    requires r == if text == [] || text[|text| - 1] == '\n' then text else text + "\n"
    ensures (if !EndsWith(text, "\n") && EndsWith(r, "\n") then r[..|r| - 1] else r) == text
  {
    if text != [] && text[|text| - 1] != '\n' {
      assert r[..|r| - 1] == text;
    } else if text != [] {
      assert EndsWith(text, "\n");
    }
  }

  // ---------------------------------------------------------------------------
  // process_text
  // ---------------------------------------------------------------------------

  /** `process_text`: escape tags, inline code, tables, headers, line breaks, bold, in that order. */
  function ProcessText(text: string): string
  {
    var escaped := EscapeHtmlTags(text);
    var coded := ReplaceBackticks(escaped);
    var tabled := TablesText(coded);
    var headed := HeaderLines(Lines(tabled));
    var broken := ReplaceLinebreaks(headed);
    ReplaceBold(broken)
  }

  /** The rendered text of a text block is a single line: it contains no `'\n'`. */
  lemma ProcessTextIsOneLine(text: string)
    ensures '\n' !in ProcessText(text)
  {
  }
}
