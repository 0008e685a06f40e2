/** Content helpers of `src/ai.rs`: the fenced code-block extractor (a two-state
    line parser), its matching formatter and the system-prompt template. */
module Ai {
  import opened Common
  import opened Text

  const Fence: string := "```"

  predicate IsFence(line: string) {
    StartsWith(line, Fence)
  }

  /** The parser's state between two lines: the finished blocks, whether a fence is
      open, and the block being collected. */
  datatype Scan = Scan(blocks: seq<string>, inBlock: bool, current: string)

  const Start: Scan := Scan([], false, "")

  /** One iteration of the loop over `content.lines()`. */
  function Step(st: Scan, line: string): Scan {
    if IsFence(line) then
      if st.inBlock then Scan(st.blocks + [st.current], false, "")
      else Scan(st.blocks, true, st.current)
    else if st.inBlock then
      Scan(st.blocks, true, (if st.current != "" then st.current + "\n" else st.current) + line)
    else st
  }

  function Run(st: Scan, lines: seq<string>): Scan
    decreases |lines|
  {
    if lines == [] then st else Run(Step(st, lines[0]), lines[1..])
  }

  /** `extract_code_blocks`: the contents of every closed fence pair, in order. */
  method ExtractCodeBlocks(content: string) returns (codeBlocks: seq<string>)
    ensures codeBlocks == Run(Start, Lines(content)).blocks
  {
    var lines := Lines(content);
    codeBlocks := [];
    var inCodeBlock := false;
    var currentBlock := "";
    var i := 0;
    while i < |lines|
      invariant 0 <= i <= |lines|
      invariant Run(Scan(codeBlocks, inCodeBlock, currentBlock), lines[i..]) == Run(Start, lines)
    {
      var line := lines[i];
      assert lines[i..][1..] == lines[i + 1..];
      if StartsWith(line, Fence) {
        if inCodeBlock {
          codeBlocks := codeBlocks + [currentBlock];
          currentBlock := "";
          inCodeBlock := false;
        } else {
          inCodeBlock := true;
        }
      } else if inCodeBlock {
        if currentBlock != "" {
          currentBlock := currentBlock + "\n";
        }
        currentBlock := currentBlock + line;
      }
      i := i + 1;
    }
  }

  function CountFences(lines: seq<string>): nat {
    if lines == [] then 0 else (if IsFence(lines[0]) then 1 else 0) + CountFences(lines[1..])
  }

  /** Each pair of fence lines closes one block; an odd last fence opens a block that
      is never closed and is discarded. */
  lemma {:induction false} RunBlockCount(st: Scan, lines: seq<string>)
    ensures |Run(st, lines).blocks|
            == |st.blocks| + (CountFences(lines) + (if st.inBlock then 1 else 0)) / 2
    decreases |lines|
  {
    if lines != [] {
      RunBlockCount(Step(st, lines[0]), lines[1..]);
    }
  }

  lemma BlockCountIsClosedPairs(content: string)
    ensures |Run(Start, Lines(content)).blocks| == CountFences(Lines(content)) / 2
  {
    RunBlockCount(Start, Lines(content));
  }

  /** No line of `s` (a piece between two newlines) is a fence line. */
  predicate NoFenceLine(s: string) {
    forall piece :: piece in SplitOn(s, '\n') ==> !IsFence(piece)
  }

  lemma {:induction false} SplitOnNewlineAppend(a: string, line: string)
    requires NoChar(line, '\n')
    ensures SplitOn(a + "\n" + line, '\n') == SplitOn(a, '\n') + [line]
    decreases |a|
  {
    var u := a + "\n" + line;
    assert u == a + ("\n" + line);
    IndexOfAppend(a, "\n" + line, '\n');
    var i := IndexOf(a, '\n');
    if i < |a| {
      assert u[..i] == a[..i];
      assert u[i + 1..] == a[i + 1..] + "\n" + line;
      assert SplitOn(u, '\n') == [a[..i]] + SplitOn(a[i + 1..] + "\n" + line, '\n');
      SplitOnNewlineAppend(a[i + 1..], line);
      AppendAssoc([a[..i]], SplitOn(a[i + 1..], '\n'), [line]);
    } else {
      assert u[..|a|] == a;
      assert u[|a| + 1..] == line;
      assert IndexOf(line, '\n') == |line|;
      assert SplitOn(u, '\n') == [a] + SplitOn(line, '\n');
    }
  }

  lemma {:induction false} LinesHaveNoNewline(s: string)
    ensures forall l :: l in Lines(s) ==> NoChar(l, '\n')
    decreases |s|
  {
    if s != [] {
      var i := IndexOf(s, '\n');
      if i < |s| {
        LinesHaveNoNewline(s[i + 1..]);
      }
    }
  }

  predicate WellFormed(st: Scan) {
    && (forall b :: b in st.blocks ==> NoFenceLine(b))
    && (st.current != "" ==> NoFenceLine(st.current))
  }

  lemma {:induction false} RunKeepsFencesOut(st: Scan, lines: seq<string>)
    requires WellFormed(st)
    requires forall l :: l in lines ==> NoChar(l, '\n')
    ensures WellFormed(Run(st, lines))
    decreases |lines|
  {
    if lines != [] {
      var line := lines[0];
      var next := Step(st, line);
      if !IsFence(line) && st.inBlock {
        if st.current != "" {
          SplitOnNewlineAppend(st.current, line);
        } else {
          assert line in lines;
          assert next.current == line;
          assert IndexOf(line, '\n') == |line|;
          assert SplitOn(line, '\n') == [line];
        }
      }
      assert WellFormed(next);
      RunKeepsFencesOut(next, lines[1..]);
    }
  }

  /** Lines that start with three backticks are never part of a block: no line of any
      returned block is a fence line. */
  lemma BlocksHoldNoFenceLine(content: string)
    ensures forall b :: b in Run(Start, Lines(content)).blocks ==> NoFenceLine(b)
  {
    LinesHaveNoNewline(content);
    RunKeepsFencesOut(Start, Lines(content));
  }

  /** Text outside any fence is ignored: without fence lines there are no blocks. */
  lemma NoFenceNoBlocks(content: string)
    requires CountFences(Lines(content)) == 0
    ensures Run(Start, Lines(content)).blocks == []
  {
    BlockCountIsClosedPairs(content);
  }

  /** What the collecting state makes of a run of non-fence lines. */
  function Collect(current: string, lines: seq<string>): string
    decreases |lines|
  {
    if lines == [] then current
    else Collect((if current != "" then current + "\n" else current) + lines[0], lines[1..])
  }

  lemma {:induction false} RunCollects(blocks: seq<string>, current: string, lines: seq<string>)
    requires forall l :: l in lines ==> !IsFence(l)
    ensures Run(Scan(blocks, true, current), lines) == Scan(blocks, true, Collect(current, lines))
    decreases |lines|
  {
    if lines != [] {
      RunCollects(blocks, (if current != "" then current + "\n" else current) + lines[0], lines[1..]);
    }
  }

  lemma {:induction false} CollectNonEmpty(current: string, lines: seq<string>)
    requires current != ""
    ensures Collect(current, lines) == Join([current] + lines, "\n")
    decreases |lines|
  {
    if lines != [] {
      var next := current + "\n" + lines[0];
      CollectNonEmpty(next, lines[1..]);
      assert ([current] + lines)[1..] == lines;
      if |lines| == 1 {
        assert Join([next] + lines[1..], "\n") == next;
      } else {
        assert ([next] + lines[1..])[1..] == lines[1..];
        assert Join(lines, "\n") == lines[0] + "\n" + Join(lines[1..], "\n");
      }
    }
  }

  /** `format_code_block`: the code between an opening fence carrying the optional
      language and a closing fence. */
  function FormatCodeBlock(code: string, language: Option<string>): (block: string)
    ensures StartsWith(block, Fence + language.GetOr("") + "\n") && EndsWith(block, "\n" + Fence)
    ensures |block| == |Fence + language.GetOr("")| + |code| + 2 + |Fence|
    ensures block[|Fence + language.GetOr("")| + 1..|block| - |Fence| - 1] == code
  {
    // Both arms of the source's `match` put the language, or nothing, after the fence.
    var head := Fence + language.GetOr("") + "\n";
    var block := head + code + ("\n" + Fence);
    assert block[..|head|] == head;
    assert block[|block| - |Fence| - 1..] == "\n" + Fence;
    assert block[|head|..|block| - |Fence| - 1] == code;
    block
  }

  lemma OpeningLineIsFence(lang: string)
    ensures IsFence(StripCR(Fence + lang))
  {
    var head := Fence + lang;
    if |head| > 0 && head[|head| - 1] == '\r' {
      assert |lang| > 0;
      assert StripCR(head)[..3] == Fence;
    } else {
      assert StripCR(head)[..3] == Fence;
    }
  }

  function OpeningLine(language: Option<string>): string {
    Fence + language.GetOr("")
  }

  lemma FormatSplitsAtOpeningLine(code: string, language: Option<string>)
    ensures FormatCodeBlock(code, language) == OpeningLine(language) + "\n" + (code + "\n" + Fence)
  {
    if language.None? {
      assert OpeningLine(language) == Fence;
    }
  }

  lemma OpeningLineIsOneLine(language: Option<string>)
    requires language.Some? ==> NoChar(language.value, '\n')
    ensures NoChar(OpeningLine(language), '\n')
  {
    var lang := language.GetOr("");
    var head := OpeningLine(language);
    forall i | 0 <= i < |head|
      ensures head[i] != '\n'
    {
      if i >= 3 {
        assert head[i] == lang[i - 3];
      }
    }
  }

  /** The lines of a formatted block: the opening fence line, the code's pieces,
      the closing fence. */
  lemma LinesOfFormatted(code: string, language: Option<string>)
    requires NoChar(code, '\r')
    requires language.Some? ==> NoChar(language.value, '\n')
    ensures IsFence(StripCR(OpeningLine(language)))
    ensures Lines(FormatCodeBlock(code, language))
            == [StripCR(OpeningLine(language))] + SplitOn(code, '\n') + [Fence]
  {
    LinesAfterOpening(code, language);
    LinesOfCodeThenFence(code);
    OpeningLineIsFence(language.GetOr(""));
    AppendAssoc([StripCR(OpeningLine(language))], SplitOn(code, '\n'), [Fence]);
  }

  /** The opening fence line is the first line of a formatted block. */
  lemma LinesAfterOpening(code: string, language: Option<string>)
    requires language.Some? ==> NoChar(language.value, '\n')
    ensures Lines(FormatCodeBlock(code, language)) == [StripCR(OpeningLine(language))] + Lines(code + "\n" + Fence)
  {
    FormatSplitsAtOpeningLine(code, language);
    OpeningLineIsOneLine(language);
    LinesOfFirstLine(OpeningLine(language), code + "\n" + Fence);
  }

  /** After the opening line come the code's pieces and the closing fence. */
  lemma LinesOfCodeThenFence(code: string)
    requires NoChar(code, '\r')
    ensures Lines(code + "\n" + Fence) == SplitOn(code, '\n') + [Fence]
  {
    assert NoChar(Fence, '\n') && NoChar(Fence, '\r');
    LinesOfNewlineJoin(code, Fence);
  }

  /** Collecting the pieces of the code gives back the code unless it begins with an
      empty line. */
  lemma CollectPieces(code: string)
    requires code == "" || code[0] != '\n'
    ensures Collect("", SplitOn(code, '\n')) == code
  {
    var pieces := SplitOn(code, '\n');
    if code == "" {
      assert pieces == [""];
    } else {
      assert IndexOf(code, '\n') > 0;
      assert pieces[0] != "";
      assert "" + pieces[0] == pieces[0];
      CollectNonEmpty(pieces[0], pieces[1..]);
      assert [pieces[0]] + pieces[1..] == pieces;
      JoinSplitOn(code, '\n');
    }
  }

  /** Extracting from a formatted block gives back exactly the code, provided the
      code has no fence line, no carriage return, and does not begin with an empty
      line (the extractor drops leading empty lines), and the language is one line. */
  lemma ExtractFormatted(code: string, language: Option<string>)
    requires NoFenceLine(code) && NoChar(code, '\r')
    requires code == "" || code[0] != '\n'
    requires language.Some? ==> NoChar(language.value, '\n')
    ensures Run(Start, Lines(FormatCodeBlock(code, language))).blocks == [code]
  {
    var head := StripCR(OpeningLine(language));
    var pieces := SplitOn(code, '\n');
    LinesOfFormatted(code, language);
    var openSt := Step(Start, head);
    assert openSt == Scan([], true, "");
    RunCollects([], "", pieces);
    RunAppend(openSt, pieces, [Fence]);
    assert [head] + pieces + [Fence] == [head] + (pieces + [Fence]);
    assert ([head] + (pieces + [Fence]))[1..] == pieces + [Fence];
    CollectPieces(code);
  }

  lemma {:induction false} RunAppend(st: Scan, xs: seq<string>, ys: seq<string>)
    ensures Run(st, xs + ys) == Run(Run(st, xs), ys)
    decreases |xs|
  {
    if xs == [] {
      assert xs + ys == ys;
    } else {
      assert (xs + ys)[1..] == xs[1..] + ys;
      RunAppend(Step(st, xs[0]), xs[1..], ys);
    }
  }

  const PromptPrefix: string := "You are an expert programming assistant integrated into Neovim. Your task is to "
  const PromptSuffix: string := ". Be concise and provide high-quality code."

  /** `create_system_prompt` (the Rust literal's line continuation removes the
      newline and the indentation between the two sentences).
      The task sits between the fixed prefix and suffix, so it can be read back. */
  function CreateSystemPrompt(task: string): (p: string)
    ensures StartsWith(p, PromptPrefix) && EndsWith(p, PromptSuffix)
    ensures |p| == |PromptPrefix| + |task| + |PromptSuffix| && p[|PromptPrefix|..|p| - |PromptSuffix|] == task
  {
    var p := PromptPrefix + task + PromptSuffix;
    assert p[..|PromptPrefix|] == PromptPrefix;
    assert p[|p| - |PromptSuffix|..] == PromptSuffix;
    assert p[|PromptPrefix|..|p| - |PromptSuffix|] == task;
    p
  }

  /** Different tasks give different system prompts. */
  lemma SystemPromptFramesTask(a: string, b: string)
    ensures CreateSystemPrompt(a) == CreateSystemPrompt(b) ==> a == b
  {
    var pa, pb := CreateSystemPrompt(a), CreateSystemPrompt(b);
    if pa == pb {
      assert pa[|PromptPrefix|..|pa| - |PromptSuffix|] == pb[|PromptPrefix|..|pb| - |PromptSuffix|];
    }
  }
}
