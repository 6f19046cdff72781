/**
 * Splitting a chat message into its ordered text and code blocks.
 *
 * A code block is a match of the fence pattern ```` ```([a-zA-Z]*\n[\s\S]*?)``` ````,
 * found left to right without overlap; the text between fences is trimmed
 * and rendered by the text passes. Syntax highlighting is a library call
 * outside this model, so it is a parameter that may fail.
 */
module Render {
  import opened Wrappers
  import opened Strings
  import opened Types
  import opened Markdown

  const FENCE := "```"

  /** Renders `code` in `language` with a colour theme, or fails. */
  type Highlighter = (string, string, string) -> Result<string, string>

  // ---------------------------------------------------------------------------
  // The fence scanner
  // ---------------------------------------------------------------------------

  /**
   * One fence match: the opening backticks start at `start`, the letters of
   * the tag end at `tagEnd` (where the `'\n'` is), and the closing backticks
   * start at `bodyEnd`. Capture 1 is `s[start + 3..bodyEnd]`.
   */
  datatype Fence = Fence(start: nat, tagEnd: nat, bodyEnd: nat)

  /** Three backticks start at index `k` of `s`. */
  predicate BackticksAt(s: string, k: int)
  {
    0 <= k && k + 3 <= |s| && s[k] == '`' && s[k + 1] == '`' && s[k + 2] == '`'
  }

  lemma BackticksAtIsFence(s: string, k: int)
    ensures BackticksAt(s, k) <==> OccursAt(s, FENCE, k)
  {
    if OccursAt(s, FENCE, k) {
      assert s[k..k + 3][0] == s[k] && s[k..k + 3][1] == s[k + 1] && s[k..k + 3][2] == s[k + 2];
    }
  }

  /**
   * `f` is a match of the fence pattern in `s`: three backticks, ASCII letters,
   * a `'\n'`, then the shortest body that reaches three backticks.
   */
  predicate IsFence(s: string, f: Fence)
  {
    BackticksAt(s, f.start) && f.start + 3 <= f.tagEnd < f.bodyEnd
    && BackticksAt(s, f.bodyEnd)
    && (forall k :: f.start + 3 <= k < f.tagEnd ==> IsAsciiLetter(s[k]))
    && s[f.tagEnd] == '\n'
    && (forall k :: f.tagEnd < k < f.bodyEnd ==> !BackticksAt(s, k))
  }

  /** The first index at or after `from` where three backticks start. */
  function FindBackticks(s: string, from: nat): (r: Option<nat>)
    ensures r.Some? ==> from <= r.value && BackticksAt(s, r.value)
    ensures forall k :: from <= k && (r.None? || k < r.value) ==> !BackticksAt(s, k)
    decreases |s| - from
  {
    if from + 3 > |s| then None
    else if BackticksAt(s, from) then Some(from)
    else FindBackticks(s, from + 1)
  }

  /** The end of the run of ASCII letters that starts at `i`. */
  function LetterRunEnd(s: string, i: nat): (r: nat)
    requires i <= |s|
    ensures i <= r <= |s| && (forall k :: i <= k < r ==> IsAsciiLetter(s[k]))
    ensures r == |s| || !IsAsciiLetter(s[r])
    decreases |s| - i
  {
    if i == |s| || !IsAsciiLetter(s[i]) then i else LetterRunEnd(s, i + 1)
  }

  /** Where the parts of a match lie: the tag, then a body, then closing backticks inside `s`. */
  predicate FenceBounds(s: string, f: Fence)
  {
    f.start + 3 <= f.tagEnd < f.bodyEnd && f.bodyEnd + 3 <= |s|
  }

  /** The fence match that starts at `p`, if there is one. */
  function FenceAt(s: string, p: nat): (r: Option<Fence>)
    ensures r.Some? ==> r.value.start == p && FenceBounds(s, r.value)
  {
    if !BackticksAt(s, p) then None
    else
      var t := LetterRunEnd(s, p + 3);
      if t == |s| || s[t] != '\n' then None
      else match FindBackticks(s, t + 1)
        case None => None
        case Some(e) => Some(Fence(p, t, e))
  }

  /** What `FenceAt` finds is a match. */
  lemma FenceAtSound(s: string, p: nat)
    ensures FenceAt(s, p).Some? ==> IsFence(s, FenceAt(s, p).value)
  {
  }

  /** The tag of a match is the whole run of letters after its backticks. */
  lemma TagIsLetterRun(s: string, f: Fence)
    requires IsFence(s, f)
    ensures f.tagEnd == LetterRunEnd(s, f.start + 3)
  {
    assert !IsAsciiLetter(s[f.tagEnd]);
  }

  /** Every match is the one found at its start: the tag is maximal and the body shortest. */
  lemma FenceAtFinds(s: string, f: Fence)
    requires IsFence(s, f)
    ensures FenceAt(s, f.start) == Some(f)
  {
    TagIsLetterRun(s, f);
    var e := FindBackticks(s, f.tagEnd + 1);
    assert e.Some? && e.value <= f.bodyEnd;
    assert !(e.value < f.bodyEnd);
  }

  /** A fence match is determined by where it starts. */
  lemma FenceUnique(s: string, f: Fence, g: Fence)
    requires IsFence(s, f) && IsFence(s, g) && f.start == g.start
    ensures f == g
  {
    FenceAtFinds(s, f);
    FenceAtFinds(s, g);
  }

  /** The leftmost fence match that starts at or after `from`. */
  function NextFence(s: string, from: nat): (r: Option<Fence>)
    ensures r.Some? ==> from <= r.value.start && FenceBounds(s, r.value)
    decreases |s| - from
  {
    if from >= |s| then None
    else match FenceAt(s, from)
      case Some(f) => Some(f)
      case None => NextFence(s, from + 1)
  }

  /** What `NextFence` finds is a match. */
  lemma {:induction false} NextFenceSound(s: string, from: nat)
    ensures NextFence(s, from).Some? ==> IsFence(s, NextFence(s, from).value)
    decreases |s| - from
  {
    if from < |s| {
      FenceAtSound(s, from);
      if FenceAt(s, from).None? {
        NextFenceSound(s, from + 1);
      }
    }
  }

  /** No match starting at or after `from` is passed over. */
  lemma {:induction false} NextFenceIsLeftmost(s: string, from: nat, f: Fence)
    requires IsFence(s, f) && from <= f.start
    ensures NextFence(s, from).Some? && NextFence(s, from).value.start <= f.start
    decreases f.start - from
  {
    if FenceAt(s, from).None? {
      if from == f.start {
        FenceAtFinds(s, f);
      } else {
        NextFenceIsLeftmost(s, from + 1, f);
      }
    }
  }

  /** A match is what the scan finds when it starts at the match. */
  lemma NextFenceAtMatch(s: string, f: Fence)
    requires IsFence(s, f)
    ensures NextFence(s, f.start) == Some(f)
  {
    FenceAtFinds(s, f);
  }

  // ---------------------------------------------------------------------------
  // Blocks
  // ---------------------------------------------------------------------------

  /** Rust's `char::is_alphabetic` on the characters a fence tag can hold. */
  predicate IsAlphabetic(c: char)
  {
    IsAsciiLetter(c)
  }

  /**
   * The language and the code of a fence's capture: a non-empty alphabetic
   * first line is the language, lower-cased, and the remaining lines joined
   * by `'\n'` are the code; otherwise the language is `"plain"` and the code
   * is the capture without its leading `'\n'`s.
   */
  /** A first line that names a language: non-empty and alphabetic throughout. */
  predicate IsLanguageLine(line: string)
  {
    line != [] && forall k :: 0 <= k < |line| ==> IsAlphabetic(line[k])
  }

  function LanguageAndCode(codeWithLang: string): (string, string)
  {
    var lines := Lines(codeWithLang);
    var firstLine := if lines == [] then "" else lines[0];
    if IsLanguageLine(firstLine) then
      (Lower(firstLine), Join(lines[1..], "\n"))
    else
      ("plain", TrimStartChar(codeWithLang, '\n'))
  }

  /** The rendered code: the highlighter's output, or the code itself when highlighting fails. */
  function Highlighted(code: string, language: string, theme: string, highlight: Highlighter): string
  {
    match highlight(code, language, theme)
    case Ok(html) => html
    case Err(_) => code
  }

  /** The text block for the text between two fences. */
  function TextBlock(segment: string): MessageBlock
  {
    var raw := Trim(segment);
    MessageBlock(None, "text", None, raw, ProcessText(raw), Some(false))
  }

  /** The code block for a fence's capture. */
  function CodeBlock(codeWithLang: string, theme: string, highlight: Highlighter): MessageBlock
  {
    var (language, code) := LanguageAndCode(codeWithLang);
    MessageBlock(None, "code", Some(language), code, Highlighted(code, language, theme, highlight), Some(false))
  }

  /** A stretch of the message: text between fences, or a fence's capture. */
  datatype Piece = Text(segment: string) | Code(capture: string)

  /**
   * The pieces of `s` from index `last` on, as `render_message`'s scan meets
   * them: the text before the next fence match (when there is any), the
   * match's capture, then the pieces after the match; after the last match,
   * the rest of the text (when there is any).
   */
  function PiecesFrom(s: string, last: nat): seq<Piece>
    requires last <= |s|
    decreases |s| - last
  {
    match NextFence(s, last)
    case None => if last < |s| then [Text(s[last..])] else []
    case Some(f) => FencePieces(s, last, f) + PiecesFrom(s, f.bodyEnd + 3)
  }

  /** The text before match `f` (when there is any), then the match's capture. */
  function FencePieces(s: string, last: nat, f: Fence): seq<Piece>
    requires last <= f.start && f.start + 3 <= f.bodyEnd <= |s|
  {
    (if f.start > last then [Text(s[last..f.start])] else []) + [Code(s[f.start + 3..f.bodyEnd])]
  }

  /** How `render_message` splits a message. */
  function Pieces(message: string): seq<Piece>
  {
    PiecesFrom(message, 0)
  }

  /** The pieces from `last` on, when the next match is `f`. */
  lemma PiecesAtFence(s: string, last: nat, f: Fence)
    requires last <= |s| && NextFence(s, last) == Some(f)
    ensures last <= f.start && f.start + 3 <= f.bodyEnd && f.bodyEnd + 3 <= |s|
    ensures PiecesFrom(s, last) == FencePieces(s, last, f) + PiecesFrom(s, f.bodyEnd + 3)
  {
  }

  /** One step of the scan, for a caller that has found the next match `f`. */
  lemma PiecesStep(s: string, last: nat, f: Fence, whole: seq<Piece>, done: seq<Piece>, done': seq<Piece>)
    requires last <= |s| && NextFence(s, last) == Some(f)
    requires whole == done + PiecesFrom(s, last)
    requires done' == done + (if f.start > last then [Text(s[last..f.start])] else []) + [Code(s[f.start + 3..f.bodyEnd])]
    ensures last <= f.start && f.start + 3 <= f.bodyEnd && f.bodyEnd + 3 <= |s|
    ensures whole == done' + PiecesFrom(s, f.bodyEnd + 3)
  {
    PiecesAtFence(s, last, f);
    var text := if f.start > last then [Text(s[last..f.start])] else [];
    assert FencePieces(s, last, f) == text + [Code(s[f.start + 3..f.bodyEnd])];
    Assoc4(done, text, [Code(s[f.start + 3..f.bodyEnd])], PiecesFrom(s, f.bodyEnd + 3));
  }

  /** The block pushed for one piece. */
  function ToBlock(p: Piece, theme: string, highlight: Highlighter): MessageBlock
  {
    match p
    case Text(segment) => TextBlock(segment)
    case Code(capture) => CodeBlock(capture, theme, highlight)
  }

  /** One block per piece, in order. */
  function ToBlocks(pieces: seq<Piece>, theme: string, highlight: Highlighter): (r: seq<MessageBlock>)
    ensures |r| == |pieces|
    ensures forall i :: 0 <= i < |pieces| ==> r[i] == ToBlock(pieces[i], theme, highlight)
  {
    if pieces == [] then [] else [ToBlock(pieces[0], theme, highlight)] + ToBlocks(pieces[1..], theme, highlight)
  }

  /** Blocks that match the pieces one by one are the pieces' blocks. */
  lemma ToBlocksPointwise(blocks: seq<MessageBlock>, pieces: seq<Piece>, theme: string, highlight: Highlighter)
    requires BlocksOf(blocks, pieces, theme, highlight)
    ensures blocks == ToBlocks(pieces, theme, highlight)
  {
    var r := ToBlocks(pieces, theme, highlight);
    assert forall i :: 0 <= i < |r| ==> r[i] == blocks[i];
  }

  /** What `render_message` returns: one block per piece, in order. */
  function RenderedBlocks(message: string, theme: string, highlight: Highlighter): seq<MessageBlock>
  {
    ToBlocks(Pieces(message), theme, highlight)
  }

  /** `blocks` holds, one for one and in order, the blocks of `pieces`. */
  ghost predicate BlocksOf(blocks: seq<MessageBlock>, pieces: seq<Piece>, theme: string, highlight: Highlighter)
  {
    |blocks| == |pieces|
    && forall i {:trigger ToBlock(pieces[i], theme, highlight)} :: 0 <= i < |pieces| ==> blocks[i] == ToBlock(pieces[i], theme, highlight)
  }

  /** Pushing the block of one more piece keeps the blocks in step with the pieces. */
  lemma PushBlock(blocks: seq<MessageBlock>, pieces: seq<Piece>, b: MessageBlock, p: Piece, theme: string, highlight: Highlighter)
    requires BlocksOf(blocks, pieces, theme, highlight) && b == ToBlock(p, theme, highlight)
    ensures BlocksOf(blocks + [b], pieces + [p], theme, highlight)
  {
    forall i | 0 <= i < |pieces| + 1
      ensures (blocks + [b])[i] == ToBlock((pieces + [p])[i], theme, highlight)
    {
      if i < |pieces| {
        assert (pieces + [p])[i] == pieces[i];
        assert ToBlock(pieces[i], theme, highlight) == blocks[i];
      }
    }
  }

  /** `render_message`. */
  method RenderMessage(message: string, codeTheme: string, highlight: Highlighter)
    returns (blocks: seq<MessageBlock>)
    ensures blocks == RenderedBlocks(message, codeTheme, highlight)
  {
    ghost var whole := Pieces(message);
    ghost var done: seq<Piece> := [];
    blocks := [];
    var lastIndex := 0;
    var next := NextFence(message, 0);
    while next.Some?
      invariant lastIndex <= |message| && next == NextFence(message, lastIndex)
      invariant whole == done + PiecesFrom(message, lastIndex)
      invariant BlocksOf(blocks, done, codeTheme, highlight)
      decreases |message| - lastIndex
    {
      var cap := next.value;
      blocks, done, lastIndex := RenderFence(message, lastIndex, cap, codeTheme, highlight, blocks, done, whole);
      next := NextFence(message, lastIndex);
    }
    blocks := RenderTail(message, lastIndex, codeTheme, highlight, blocks, done, whole);
  }

  /** After the last match: the rest of the message (when there is any) becomes the last text block. */
  method RenderTail(message: string, lastIndex: nat, codeTheme: string, highlight: Highlighter,
                    blocks: seq<MessageBlock>, ghost done: seq<Piece>, ghost whole: seq<Piece>)
    returns (blocks': seq<MessageBlock>)
    requires lastIndex <= |message| && NextFence(message, lastIndex) == None
    requires BlocksOf(blocks, done, codeTheme, highlight) && whole == done + PiecesFrom(message, lastIndex)
    ensures blocks' == ToBlocks(whole, codeTheme, highlight)
  {
    blocks' := blocks;
    ghost var done' := done;
    if lastIndex < |message| {
      blocks', done' := PushTextBlock(message[lastIndex..], codeTheme, highlight, blocks', done');
    } else {
      assert done' + [] == done';
    }
    ToBlocksPointwise(blocks', whole, codeTheme, highlight);
  }

  /**
   * One turn of `render_message`'s loop: the text before the match (when there
   * is any), then the match's code block.
   */
  method RenderFence(message: string, lastIndex: nat, cap: Fence, codeTheme: string, highlight: Highlighter,
                     blocks: seq<MessageBlock>, ghost done: seq<Piece>, ghost whole: seq<Piece>)
    returns (blocks': seq<MessageBlock>, ghost done': seq<Piece>, resume: nat)
    requires lastIndex <= |message| && NextFence(message, lastIndex) == Some(cap)
    requires BlocksOf(blocks, done, codeTheme, highlight) && whole == done + PiecesFrom(message, lastIndex)
    ensures resume == cap.bodyEnd + 3 && lastIndex < resume <= |message|
    ensures BlocksOf(blocks', done', codeTheme, highlight) && whole == done' + PiecesFrom(message, resume)
  {
    PiecesAtFence(message, lastIndex, cap);
    var offset := cap.start;
    blocks', done' := blocks, done;
    if offset > lastIndex {
      blocks', done' := PushTextBlock(message[lastIndex..offset], codeTheme, highlight, blocks', done');
    } else {
      assert done' + [] == done';
    }
    blocks', done' := PushCodeBlock(message[offset + 3..cap.bodyEnd], codeTheme, highlight, blocks', done');
    PiecesStep(message, lastIndex, cap, whole, done, done');
    resume := cap.bodyEnd + 3;
  }

  /** Pushes the text block for the text between two fences, built as `render_message` builds it. */
  method PushTextBlock(segment: string, codeTheme: string, highlight: Highlighter,
                       blocks: seq<MessageBlock>, ghost done: seq<Piece>)
    returns (blocks': seq<MessageBlock>, ghost done': seq<Piece>)
    requires BlocksOf(blocks, done, codeTheme, highlight)
    ensures done' == done + [Text(segment)] && BlocksOf(blocks', done', codeTheme, highlight)
  {
    var rawContent := Trim(segment);
    var renderedContent := ProcessText(rawContent);
    var block := MessageBlock(None, "text", None, rawContent, renderedContent, Some(false));
    PushBlock(blocks, done, block, Text(segment), codeTheme, highlight);
    blocks', done' := blocks + [block], done + [Text(segment)];
  }

  /** Pushes the code block for a fence's capture, built as `render_message` builds it. */
  method PushCodeBlock(codeWithLang: string, codeTheme: string, highlight: Highlighter,
                       blocks: seq<MessageBlock>, ghost done: seq<Piece>)
    returns (blocks': seq<MessageBlock>, ghost done': seq<Piece>)
    requires BlocksOf(blocks, done, codeTheme, highlight)
    ensures done' == done + [Code(codeWithLang)] && BlocksOf(blocks', done', codeTheme, highlight)
  {
    var lines := Lines(codeWithLang);
    var firstLine := if lines == [] then "" else lines[0];
    var language, code;
    if IsLanguageLine(firstLine) {
      language, code := Lower(firstLine), Join(lines[1..], "\n");
    } else {
      language, code := "plain", TrimStartChar(codeWithLang, '\n');
    }
    assert (language, code) == LanguageAndCode(codeWithLang);
    var highlightedCode;
    match highlight(code, language, codeTheme) {
      case Ok(html) => highlightedCode := html;
      case Err(_) => highlightedCode := code;
    }
    assert highlightedCode == Highlighted(code, language, codeTheme, highlight);
    var block := MessageBlock(None, "code", Some(language), code, highlightedCode, Some(false));
    PushBlock(blocks, done, block, Code(codeWithLang), codeTheme, highlight);
    blocks', done' := blocks + [block], done + [Code(codeWithLang)];
  }

  // ---------------------------------------------------------------------------
  // Properties of the split
  // ---------------------------------------------------------------------------

  /**
   * The language of a fence is its tag lower-cased, or `"plain"` without a tag;
   * with a tag the code is the body's lines joined by `'\n'`, without one it
   * is the body less its leading `'\n'`s.
   */
  lemma FenceLanguageAndCode(s: string, f: Fence)
    requires IsFence(s, f)
    ensures var tag := s[f.start + 3..f.tagEnd];
            var body := s[f.tagEnd + 1..f.bodyEnd];
            LanguageAndCode(s[f.start + 3..f.bodyEnd])
            == if tag == [] then ("plain", TrimStartChar(body, '\n')) else (Lower(tag), Join(Lines(body), "\n"))
  {
    var tag := s[f.start + 3..f.tagEnd];
    var body := s[f.tagEnd + 1..f.bodyEnd];
    assert s[f.start + 3..f.bodyEnd] == tag + "\n" + body;
    assert AllAsciiLetters(tag);
    TaggedLanguageAndCode(tag, body);
  }

  /** The capture of a fence is its tag, a `'\n'` and its body. */
  lemma TaggedLanguageAndCode(tag: string, body: string)
    requires AllAsciiLetters(tag)
    ensures LanguageAndCode(tag + "\n" + body)
            == if tag == [] then ("plain", TrimStartChar(body, '\n')) else (Lower(tag), Join(Lines(body), "\n"))
  {
    var cwl := tag + "\n" + body;
    assert '\n' !in tag by {
      forall k | 0 <= k < |tag| ensures tag[k] != '\n' { assert IsAsciiLetter(tag[k]); }
    }
    LinesCons(tag, body);
    assert StripCr(tag) == tag by {
      if tag != [] { assert IsAsciiLetter(tag[|tag| - 1]); }
    }
    var lines := Lines(cwl);
    assert lines[0] == tag && lines[1..] == Lines(body);
    if tag == [] {
      assert cwl == "\n" + body;
      assert cwl[1..] == body;
      assert TrimStartChar(cwl, '\n') == TrimStartChar(body, '\n');
    } else {
      assert forall k :: 0 <= k < |tag| ==> IsAlphabetic(tag[k]);
    }
  }

  /** Every block is a text block or a code block, shaped as the two push sites build them. */
  predicate WellFormedBlock(b: MessageBlock, theme: string, highlight: Highlighter)
  {
    b.id.None? && b.copied == Some(false)
    && (
      (b.blockType == "text" && b.language.None? && b.rawContent == Trim(b.rawContent)
       && b.renderedContent == ProcessText(b.rawContent))
      || (b.blockType == "code" && b.language.Some?
          && b.renderedContent == Highlighted(b.rawContent, b.language.value, theme, highlight)))
  }

  lemma TrimIdempotent(s: string)
    ensures Trim(Trim(s)) == Trim(s)
  {
    var t := Trim(s);
    if t != [] {
      assert TrimStart(t) == t;
      assert TrimEnd(t) == t;
    }
  }

  /** A text block holds trimmed text and that text's rendering. */
  lemma TextBlockWellFormed(segment: string, theme: string, highlight: Highlighter)
    ensures WellFormedBlock(TextBlock(segment), theme, highlight)
  {
    TrimIdempotent(segment);
  }

  /**
   * Text blocks carry trimmed raw text and its rendering; code blocks carry a
   * language, and their rendering is the highlighter's output or, when it
   * fails, the raw code.
   */
  lemma RenderedBlocksWellFormed(message: string, theme: string, highlight: Highlighter)
    ensures forall b :: b in RenderedBlocks(message, theme, highlight) ==> WellFormedBlock(b, theme, highlight)
  {
    var ps := Pieces(message);
    var bs := RenderedBlocks(message, theme, highlight);
    forall i | 0 <= i < |bs|
      ensures WellFormedBlock(bs[i], theme, highlight)
    {
      match ps[i]
      case Text(segment) => TextBlockWellFormed(segment, theme, highlight);
      case Code(capture) =>
    }
  }

  /** The concatenation of the pieces, each fence written back around its capture. */
  function Flatten(pieces: seq<Piece>): string
  {
    if pieces == [] then ""
    else
      (match pieces[0]
       case Text(segment) => segment
       case Code(capture) => FENCE + capture + FENCE)
      + Flatten(pieces[1..])
  }

  lemma FlattenAppend(a: seq<Piece>, b: seq<Piece>)
    ensures Flatten(a + b) == Flatten(a) + Flatten(b)
  {
    if a == [] {
      assert a + b == b;
    } else {
      assert (a + b)[1..] == a[1..] + b;
      FlattenAppend(a[1..], b);
    }
  }

  /** The split loses nothing: the pieces put back together are the text they came from. */
  lemma {:induction false} PiecesCover(s: string, last: nat)
    requires last <= |s|
    ensures Flatten(PiecesFrom(s, last)) == s[last..]
    decreases |s| - last
  {
    match NextFence(s, last)
    case None =>
      if last < |s| {
        FlattenText(s[last..]);
      }
    case Some(f) =>
      PiecesAtFence(s, last, f);
      NextFenceSound(s, last);
      var text := if f.start > last then [Text(s[last..f.start])] else [];
      var code := [Code(s[f.start + 3..f.bodyEnd])];
      var rest := PiecesFrom(s, f.bodyEnd + 3);
      assert FencePieces(s, last, f) == text + code;
      PiecesCover(s, f.bodyEnd + 3);
      FlattenAppend(text + code, rest);
      FlattenAppend(text, code);
      FlattenCode(s[f.start + 3..f.bodyEnd]);
      FenceSpan(s, f);
      var fenced := FENCE + s[f.start + 3..f.bodyEnd] + FENCE;
      if f.start > last {
        FlattenText(s[last..f.start]);
        SliceSplit(s, last, f.start);
        Assoc(s[last..f.start], fenced, s[f.bodyEnd + 3..]);
      } else {
        assert Flatten(text) == [] && f.start == last;
        assert Flatten(text + code) == fenced;
      }
  }

  /** Every text piece of `pieces` holds some text. */
  predicate TextsNonEmpty(pieces: seq<Piece>)
  {
    forall i :: 0 <= i < |pieces| && pieces[i].Text? ==> pieces[i].segment != []
  }

  lemma TextsNonEmptyAppend(a: seq<Piece>, b: seq<Piece>)
    requires TextsNonEmpty(a) && TextsNonEmpty(b)
    ensures TextsNonEmpty(a + b)
  {
    forall i | 0 <= i < |a + b| && (a + b)[i].Text?
      ensures (a + b)[i].segment != []
    {
      if i >= |a| {
        assert (a + b)[i] == b[i - |a|];
      }
    }
  }

  /** A text piece is never empty: text is pushed only when there is some before a fence or after the last one. */
  lemma {:induction false} TextPiecesNonEmpty(s: string, last: nat)
    requires last <= |s|
    ensures TextsNonEmpty(PiecesFrom(s, last))
    decreases |s| - last
  {
    match NextFence(s, last)
    case None =>
    case Some(f) =>
      PiecesAtFence(s, last, f);
      TextPiecesNonEmpty(s, f.bodyEnd + 3);
      FencePiecesNonEmpty(s, last, f);
      TextsNonEmptyAppend(FencePieces(s, last, f), PiecesFrom(s, f.bodyEnd + 3));
  }

  lemma FencePiecesNonEmpty(s: string, last: nat, f: Fence)
    requires last <= f.start && f.start + 3 <= f.bodyEnd <= |s|
    ensures TextsNonEmpty(FencePieces(s, last, f))
  {
  }

  lemma FlattenText(t: string)
    ensures Flatten([Text(t)]) == t
  {
    assert Flatten([Text(t)]) == t + Flatten([]);
  }

  lemma FlattenCode(c: string)
    ensures Flatten([Code(c)]) == FENCE + c + FENCE
  {
    assert Flatten([Code(c)]) == FENCE + c + FENCE + Flatten([]);
  }

  /** A fence match is its opening backticks, its capture and its closing backticks. */
  lemma FenceSpan(s: string, f: Fence)
    requires BackticksAt(s, f.start) && BackticksAt(s, f.bodyEnd) && f.start + 3 <= f.bodyEnd
    ensures s[f.start..] == FENCE + s[f.start + 3..f.bodyEnd] + FENCE + s[f.bodyEnd + 3..]
  {
    BackticksAtIsFence(s, f.start);
    BackticksAtIsFence(s, f.bodyEnd);
    assert s[f.start..] == s[f.start..f.start + 3] + s[f.start + 3..f.bodyEnd] + s[f.bodyEnd..f.bodyEnd + 3] + s[f.bodyEnd + 3..];
  }

  lemma SliceSplit(s: string, i: nat, j: nat)
    requires i <= j <= |s|
    ensures s[i..] == s[i..j] + s[j..]
  {
  }

  /** A message is exactly its pieces put back together. */
  lemma MessageIsItsPieces(message: string)
    ensures Flatten(Pieces(message)) == message
  {
    PiecesCover(message, 0);
    assert message[0..] == message;
  }

  /** A message without a fence is one text block holding the trimmed message, or nothing when it is empty. */
  lemma NoFenceOneBlock(message: string, theme: string, highlight: Highlighter)
    requires NextFence(message, 0).None?
    ensures Pieces(message) == if message == [] then [] else [Text(message)]
    ensures RenderedBlocks(message, theme, highlight)
            == if message == [] then [] else [TextBlock(message)]
  {
    assert message[0..] == message;
  }

  /** No three backticks in a row means no fence. */
  lemma NoBackticksNoFence(message: string)
    requires !Contains(message, FENCE)
    ensures NextFence(message, 0).None?
  {
    if NextFence(message, 0).Some? {
      var f := NextFence(message, 0).value;
      NextFenceSound(message, 0);
      BackticksAtIsFence(message, f.start);
    }
  }

  /**
   * A message that is exactly one fenced block with a tag renders to exactly
   * one code block whose language is the tag lower-cased and whose code is the
   * body, when the body has no backtick, no `'\r'` and no final `'\n'`.
   */
  lemma SingleFence(tag: string, code: string, theme: string, highlight: Highlighter)
    requires tag != [] && AllAsciiLetters(tag)
    requires '`' !in code && '\r' !in code && (code == [] || code[|code| - 1] != '\n')
    ensures RenderedBlocks("```" + tag + "\n" + code + "```", theme, highlight)
            == [MessageBlock(None, "code", Some(Lower(tag)), code,
                             Highlighted(code, Lower(tag), theme, highlight), Some(false))]
  {
    var s := "```" + tag + "\n" + code + "```";
    var f := SingleFencePieces(tag, code);
    TaggedLanguageAndCode(tag, code);
    JoinLines(code);
    assert ToBlocks([Code(tag + "\n" + code)], theme, highlight)[0] == CodeBlock(tag + "\n" + code, theme, highlight);
  }

  /** The one fence of a message that is a single fenced block, and the one piece it makes. */
  lemma SingleFencePieces(tag: string, code: string) returns (f: Fence)
    requires AllAsciiLetters(tag) && '`' !in code
    ensures var s := "```" + tag + "\n" + code + "```";
            f == Fence(0, 3 + |tag|, 4 + |tag| + |code|) && IsFence(s, f)
            && Pieces(s) == [Code(tag + "\n" + code)]
  {
    var s := "```" + tag + "\n" + code + "```";
    f := Fence(0, 3 + |tag|, 4 + |tag| + |code|);
    assert s[..3] == FENCE;
    assert s[3..3 + |tag|] == tag;
    assert s[4 + |tag|..4 + |tag| + |code|] == code;
    assert s[4 + |tag| + |code|..] == FENCE;
    forall k | f.tagEnd < k < f.bodyEnd
      ensures !BackticksAt(s, k)
    {
      assert s[k] == code[k - 4 - |tag|];
    }
    assert IsFence(s, f);
    NextFenceAtMatch(s, f);
    assert PiecesFrom(s, |s|) == [];
    assert s[3..4 + |tag| + |code|] == tag + "\n" + code;
  }

  // ---------------------------------------------------------------------------
  // capitalize_first_letter
  // ---------------------------------------------------------------------------

  /** `capitalize_first_letter`: the first character upper-cased, the rest untouched. */
  function CapitalizeFirstLetter(word: string): (r: string)
    ensures |r| == |word|
    ensures word != [] ==> r[0] == UpperChar(word[0]) && r[1..] == word[1..]
  {
    if word == [] then word else [UpperChar(word[0])] + word[1..]
  }

  /** Capitalizing twice is capitalizing once. */
  lemma CapitalizeIdempotent(word: string)
    ensures CapitalizeFirstLetter(CapitalizeFirstLetter(word)) == CapitalizeFirstLetter(word)
  {
    if word != [] {
      var c := word[0];
      assert UpperChar(UpperChar(c)) == UpperChar(c);
    }
  }
}
