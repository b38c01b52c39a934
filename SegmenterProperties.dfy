/** What the segmentation guarantees: dense indices, no line lost and order
    kept, type-homogeneous blocks of the right shape, fenced code kept whole,
    and no block for blank input. Each is proved for every input by an
    invariant of the scan that every `Step` preserves. */
module SegmenterProperties {
  import opened Text
  import opened Segmenter

  /** Bookkeeping facts of a scan state between two lines. */
  ghost predicate Consistent(st: ScanState) {
    && st.kind != Heading && st.kind != Hr
    && (st.block == [] ==> st.kind == Para && !st.inCode)
    && (st.inCode <==> st.kind == Code)
    && st.idx == |st.paragraphs|
    && (forall k :: 0 <= k < |st.paragraphs| ==> st.paragraphs[k].index == k)
  }

  /** The shape of the buffer while it is still open. */
  ghost predicate OpenShape(kind: BlockType, lines: seq<string>) {
    match kind
    case Code =>
      && |lines| >= 1 && Classify(lines[0]) == FenceLine
      && (forall k :: 1 <= k < |lines| ==> Classify(lines[k]) != FenceLine)
    case List => AllOfClass(lines, ListLine)
    case Blockquote => AllOfClass(lines, QuoteLine)
    case Para => AllOfClass(lines, PlainLine)
    case _ => lines == []
  }

  /** Every line of `lines` is of class `c`. */
  ghost predicate AllOfClass(lines: seq<string>, c: LineKind) {
    forall k :: 0 <= k < |lines| ==> Classify(lines[k]) == c
  }

  /** The line class a growing block of type `kind` collects. */
  function ClassOf(kind: BlockType): LineKind {
    match kind
    case List => ListLine
    case Blockquote => QuoteLine
    case _ => PlainLine
  }

  /** The block types that collect consecutive lines of one class. */
  predicate Groupable(kind: BlockType) {
    kind == List || kind == Blockquote || kind == Para
  }

  lemma AllOfClassAppend(lines: seq<string>, c: LineKind, line: string)
    requires AllOfClass(lines, c) && Classify(line) == c
    ensures AllOfClass(lines + [line], c)
  {
  }

  /** Every emitted paragraph has the shape of its type, with code closed, and
      its text is the display text of its lines. */
  ghost predicate AllShaped(ps: seq<Paragraph>) {
    forall k :: 0 <= k < |ps| ==>
      && BlockShape(ps[k].blockType, Split(ps[k].raw), true)
      && ps[k].text == BlockText(ps[k])
  }

  /** The scan invariant after the lines `processed`. */
  ghost predicate Inv(st: ScanState, processed: seq<string>) {
    && Consistent(st)
    && NoNewlines(st.block)
    && OpenShape(st.kind, st.block)
    && st.inCode == InFence(processed)
    && RawLines(st.paragraphs) + st.block == Kept(processed)
    && AllShaped(st.paragraphs)
  }

  lemma RawLinesAppend(ps: seq<Paragraph>, p: Paragraph)
    ensures RawLines(ps + [p]) == RawLines(ps) + Split(p.raw)
  {
    assert (ps + [p])[..|ps|] == ps;
  }

  /** What `Flush` does to the emitted paragraphs and their lines. */
  lemma FlushFacts(st: ScanState)
    requires st.idx == |st.paragraphs|
    requires forall k :: 0 <= k < |st.paragraphs| ==> st.paragraphs[k].index == k
    requires NoNewlines(st.block)
    ensures Flush(st).idx == |Flush(st).paragraphs|
    ensures forall k :: 0 <= k < |Flush(st).paragraphs| ==> Flush(st).paragraphs[k].index == k
    ensures RawLines(Flush(st).paragraphs) + Flush(st).block == RawLines(st.paragraphs) + st.block
    ensures Flush(st).inCode == st.inCode && Flush(st).block == []
    ensures st.block == [] ==> Flush(st) == st
    ensures st.block != [] ==> Flush(st).kind == Para
    ensures st.block != [] ==>
      && Flush(st).paragraphs == st.paragraphs + [Flush(st).paragraphs[|st.paragraphs|]]
      && Flush(st).paragraphs[|st.paragraphs|].blockType == st.kind
      && Split(Flush(st).paragraphs[|st.paragraphs|].raw) == st.block
      && Flush(st).paragraphs[|st.paragraphs|].text == Strip(DisplayText(st.block, st.kind))
  {
    if st.block != [] {
      var p := MakeParagraph(st.idx, st.block, st.kind);
      SplitJoin(st.block);
      RawLinesAppend(st.paragraphs, p);
    }
  }

  lemma KeptStep(processed: seq<string>, line: string)
    ensures Kept(processed + [line]) ==
      Kept(processed) + (if !InFence(processed) && IsBlank(line) then [] else [line])
    ensures InFence(processed + [line]) ==
      (if IsFenceLine(line) then !InFence(processed) else InFence(processed))
  {
    assert (processed + [line])[..|processed|] == processed;
  }

  /** The two line classes the reference definitions use, read off `Classify`. */
  lemma ClassifyFacts(line: string)
    ensures Classify(line) == FenceLine <==> IsFenceLine(line)
    ensures Classify(line) == BlankLine <==> IsBlank(line)
  {
  }

  /** Flushing a consistent state whose buffer has a finished shape keeps the
      emitted paragraphs shaped. */
  lemma FlushShaped(st: ScanState, closed: bool)
    requires st.idx == |st.paragraphs|
    requires forall k :: 0 <= k < |st.paragraphs| ==> st.paragraphs[k].index == k
    requires NoNewlines(st.block) && AllShaped(st.paragraphs)
    requires st.block != [] ==> BlockShape(st.kind, st.block, true)
    ensures AllShaped(Flush(st).paragraphs)
  {
    FlushFacts(st);
  }

  /** What a step does to the bookkeeping and to the lines held, one case per
      kind of line: the lines gain `line`, except for a blank line outside
      fenced code. */
  ghost predicate StepOk(st: ScanState, st': ScanState, line: string, kept: bool) {
    && Consistent(st') && NoNewlines(st'.block)
    && RawLines(st'.paragraphs) + st'.block == RawLines(st.paragraphs) + st.block + (if kept then [line] else [])
  }

  lemma CloseFenceOk(st: ScanState, line: string)
    requires Consistent(st) && NoNewlines(st.block) && '\n' !in line && st.inCode
    ensures StepOk(st, CloseFence(st, line), line, true)
  {
    var s1 := Append(st, line).(inCode := false);
    AppendLines(st, line);
    FlushFacts(s1);
  }

  lemma OpenFenceOk(st: ScanState, line: string)
    requires Consistent(st) && NoNewlines(st.block) && '\n' !in line && !st.inCode
    ensures StepOk(st, OpenFence(st, line), line, true)
  {
    FlushFacts(st);
    AppendLines(Flush(st).(inCode := true, kind := Code), line);
  }

  lemma SingleLineOk(st: ScanState, kind: BlockType, line: string)
    requires Consistent(st) && NoNewlines(st.block) && '\n' !in line && !st.inCode
    ensures StepOk(st, SingleLine(st, kind, line), line, true)
  {
    FlushFacts(st);
    var s0 := Flush(st).(kind := kind);
    AppendLines(s0, line);
    FlushFacts(Append(s0, line));
  }

  lemma ExtendOk(st: ScanState, kind: BlockType, line: string)
    requires Consistent(st) && NoNewlines(st.block) && '\n' !in line && !st.inCode
    requires Groupable(kind)
    ensures StepOk(st, Extend(st, kind, line), line, true)
  {
    if st.kind != kind {
      FlushFacts(st);
      var s0 := Flush(st).(kind := kind);
      assert Extend(st, kind, line) == Append(s0, line);
      AppendLines(s0, line);
    } else {
      AppendLines(st, line);
    }
  }

  /** The paragraph case of the loop body is `Extend` with the paragraph type. */
  lemma ParaIsExtend(st: ScanState, line: string)
    ensures Append(if st.kind != Para then Flush(st) else st, line).(kind := Para) == Extend(st, Para, line)
  {
  }

  /** The bookkeeping facts survive every step, and the lines held gain the
      step's line unless it is a blank line outside fenced code. */
  lemma StepOnOk(st: ScanState, c: LineKind, line: string)
    requires Consistent(st) && NoNewlines(st.block) && '\n' !in line
    ensures StepOk(st, StepOn(st, c, line), line, st.inCode || c != BlankLine)
  {
    if c == FenceLine {
      if st.inCode { CloseFenceOk(st, line); } else { OpenFenceOk(st, line); }
    } else if st.inCode {
      AppendLines(st, line);
    } else if c == BlankLine {
      FlushFacts(st);
    } else if c == RuleLine {
      SingleLineOk(st, Hr, line);
    } else if c == HeadingLine {
      SingleLineOk(st, Heading, line);
    } else if c == ListLine {
      ExtendOk(st, List, line);
    } else if c == QuoteLine {
      ExtendOk(st, Blockquote, line);
    } else {
      ParaIsExtend(st, line);
      ExtendOk(st, Para, line);
    }
  }

  /** The fenced-code flag is the fence parity of the lines read so far. */
  lemma StepFence(st: ScanState, processed: seq<string>, line: string)
    requires Consistent(st) && NoNewlines(st.block) && st.inCode == InFence(processed)
    ensures Step(st, line).inCode == InFence(processed + [line])
  {
    KeptStep(processed, line);
    ClassifyFacts(line);
    StepOnInCode(st, Classify(line), line);
  }

  /** Only a fence line flips the fence flag. */
  lemma StepOnInCode(st: ScanState, c: LineKind, line: string)
    ensures StepOn(st, c, line).inCode == if c == FenceLine then !st.inCode else st.inCode
  {
    assert Flush(st).inCode == st.inCode;
    if c == FenceLine {
      assert Flush(Append(st, line).(inCode := false)).inCode == false;
    } else if !st.inCode && (c == RuleLine || c == HeadingLine) {
      var kind := if c == RuleLine then Hr else Heading;
      assert Flush(Append(Flush(st).(kind := kind), line)).inCode == st.inCode;
    }
  }

  /** A line that extends the open buffer adds exactly itself to the lines. */
  lemma AppendLines(st: ScanState, line: string)
    ensures RawLines(Append(st, line).paragraphs) + Append(st, line).block
         == RawLines(st.paragraphs) + st.block + [line]
  {
  }

  /** The emitted lines followed by the buffer are the kept lines read so far. */
  lemma StepLines(st: ScanState, processed: seq<string>, line: string)
    requires Consistent(st) && NoNewlines(st.block) && '\n' !in line
    requires st.inCode == InFence(processed)
    requires RawLines(st.paragraphs) + st.block == Kept(processed)
    ensures RawLines(Step(st, line).paragraphs) + Step(st, line).block == Kept(processed + [line])
  {
    KeptStep(processed, line);
    ClassifyFacts(line);
    StepOnOk(st, Classify(line), line);
  }

  /** Appending a line of the buffer's own class keeps the open shape. */
  lemma AppendShape(kind: BlockType, block: seq<string>, line: string)
    requires OpenShape(kind, block)
    requires kind == Code ==> block != [] && Classify(line) != FenceLine
    requires kind == List ==> Classify(line) == ListLine
    requires kind == Blockquote ==> Classify(line) == QuoteLine
    requires kind == Para ==> Classify(line) == PlainLine
    requires kind != Heading && kind != Hr
    ensures OpenShape(kind, block + [line])
  {
    assert (block + [line])[..|block|] == block;
  }

  /** Emitted paragraphs and the open buffer keep their shapes across a fence line. */
  lemma FenceShapes(st: ScanState, line: string)
    requires Consistent(st) && NoNewlines(st.block) && '\n' !in line && Classify(line) == FenceLine
    requires OpenShape(st.kind, st.block) && AllShaped(st.paragraphs)
    ensures OpenShape(Step(st, line).kind, Step(st, line).block) && AllShaped(Step(st, line).paragraphs)
  {
    FlushFacts(st);
    if st.inCode {
      var s1 := Append(st, line).(inCode := false);
      assert s1.block[..|st.block|] == st.block;
      assert BlockShape(Code, s1.block, true);
      FlushShaped(s1, true);
    } else {
      FlushShaped(st, true);
      assert Step(st, line).block == [line];
    }
  }

  /** Inside fenced code a line that is not a fence extends the buffer. */
  lemma CodeLineShapes(st: ScanState, line: string)
    requires Consistent(st) && NoNewlines(st.block) && '\n' !in line
    requires Classify(line) != FenceLine && st.inCode
    requires OpenShape(st.kind, st.block) && AllShaped(st.paragraphs)
    ensures OpenShape(Step(st, line).kind, Step(st, line).block) && AllShaped(Step(st, line).paragraphs)
  {
    AppendShape(st.kind, st.block, line);
  }

  /** A rule or a heading outside fenced code is a block of its own. */
  lemma SingleLineShapes(st: ScanState, line: string)
    requires Consistent(st) && NoNewlines(st.block) && '\n' !in line && !st.inCode
    requires Classify(line) == RuleLine || Classify(line) == HeadingLine
    requires OpenShape(st.kind, st.block) && AllShaped(st.paragraphs)
    ensures OpenShape(Step(st, line).kind, Step(st, line).block) && AllShaped(Step(st, line).paragraphs)
  {
    FlushFacts(st);
    FlushShaped(st, true);
    var s1 := Append(Flush(st).(kind := if Classify(line) == RuleLine then Hr else Heading), line);
    assert s1.block == [line];
    FlushShaped(s1, true);
  }

  /** A list, quote or plain line outside fenced code continues a block of its
      own class or starts one. */
  lemma GrowShapes(st: ScanState, line: string, k: BlockType)
    requires Consistent(st) && NoNewlines(st.block) && !st.inCode
    requires (k == List || k == Blockquote || k == Para) && Classify(line) == ClassOf(k)
    requires OpenShape(st.kind, st.block) && AllShaped(st.paragraphs)
    ensures var s1 := Append(if st.kind != k then Flush(st).(kind := k) else st, line);
      OpenShape(s1.kind, s1.block) && AllShaped(s1.paragraphs)
  {
    FlushFacts(st);
    if st.kind != k {
      FlushShaped(st, true);
      AllOfClassAppend([], ClassOf(k), line);
    } else {
      AllOfClassAppend(st.block, ClassOf(k), line);
    }
  }

  /** Emitted paragraphs and the open buffer keep their shapes. */
  lemma StepShapes(st: ScanState, line: string)
    requires Consistent(st) && NoNewlines(st.block) && '\n' !in line
    requires OpenShape(st.kind, st.block) && AllShaped(st.paragraphs)
    ensures OpenShape(Step(st, line).kind, Step(st, line).block) && AllShaped(Step(st, line).paragraphs)
  {
    var c := Classify(line);
    if c == FenceLine {
      FenceShapes(st, line);
    } else if st.inCode {
      CodeLineShapes(st, line);
    } else if c == BlankLine {
      FlushFacts(st);
      FlushShaped(st, true);
    } else if c == RuleLine || c == HeadingLine {
      SingleLineShapes(st, line);
    } else if c == ListLine {
      GrowShapes(st, line, List);
    } else if c == QuoteLine {
      GrowShapes(st, line, Blockquote);
    } else {
      GrowShapes(st, line, Para);
      ParaIsExtend(st, line);
    }
  }

  /** Every step of the scan preserves the invariant. */
  lemma StepPreserves(st: ScanState, processed: seq<string>, line: string)
    requires Inv(st, processed) && '\n' !in line
    ensures Inv(Step(st, line), processed + [line])
  {
    StepOnOk(st, Classify(line), line);
    StepFence(st, processed, line);
    StepLines(st, processed, line);
    StepShapes(st, line);
  }

  /** The invariant holds after every prefix of the input. */
  lemma {:induction false} RunInv(lines: seq<string>)
    requires NoNewlines(lines)
    ensures Inv(Run(lines), lines)
  {
    if lines != [] {
      var prefix := lines[..|lines| - 1];
      assert NoNewlines(prefix) by {
        forall k | 0 <= k < |prefix| ensures '\n' !in prefix[k] { assert prefix[k] == lines[k]; }
      }
      RunInv(prefix);
      RunInvStep(prefix, lines[|lines| - 1]);
      DropLast(lines);
    }
  }

  /** Reading one more line keeps the invariant. */
  lemma RunInvStep(prefix: seq<string>, last: string)
    requires Inv(Run(prefix), prefix) && '\n' !in last
    ensures Inv(Run(prefix + [last]), prefix + [last])
  {
    RunAppend(prefix, last);
    StepPreserves(Run(prefix), prefix, last);
  }

  /** Scanning one more line is one more step. */
  lemma RunAppend(prefix: seq<string>, last: string)
    ensures Run(prefix + [last]) == Step(Run(prefix), last)
  {
    assert (prefix + [last])[..|prefix|] == prefix;
  }

  // The segmentation theorems.

  /** The final flush turns the open buffer into the last paragraph; that one is
      an unclosed code block exactly when a fence is still open. */
  lemma FinalFlush(st: ScanState, lines: seq<string>)
    requires Inv(st, lines)
    ensures var r := Flush(st).paragraphs;
      && (forall k :: 0 <= k < |r| ==> r[k].index == k)
      && RawLines(r) == Kept(lines)
      && (forall k :: 0 <= k < |r| ==>
            && BlockShape(r[k].blockType, Split(r[k].raw), !(InFence(lines) && k == |r| - 1))
            && r[k].text == BlockText(r[k]))
      && (InFence(lines) ==> r != [] && r[|r| - 1].blockType == Code)
  {
    FlushFacts(st);
    if st.block != [] {
      if st.inCode {
        assert BlockShape(Code, st.block, false);
      } else {
        assert BlockShape(st.kind, st.block, true);
      }
    }
  }

  /** The scan invariant, completed by the final flush, for any content. */
  lemma SegmentationInv(content: string)
    ensures var lines := Split(content);
      var r := Segmentation(content);
      && (forall k :: 0 <= k < |r| ==> r[k].index == k)
      && RawLines(r) == Kept(lines)
      && (forall k :: 0 <= k < |r| ==>
            && BlockShape(r[k].blockType, Split(r[k].raw), !(InFence(lines) && k == |r| - 1))
            && r[k].text == BlockText(r[k]))
      && (InFence(lines) ==> r != [] && r[|r| - 1].blockType == Code)
  {
    RunInv(Split(content));
    FinalFlush(Run(Split(content)), Split(content));
  }

  /** Paragraph indices are 0, 1, 2, ... in order. */
  lemma DenseIndices(content: string)
    ensures var r := Segmentation(content); forall k :: 0 <= k < |r| ==> r[k].index == k
  {
    SegmentationInv(content);
  }

  /** No line is lost and the order is kept: the lines of the paragraphs, in
      order, are the lines of the content without the blank lines outside
      fenced code. */
  lemma NoLineLost(content: string)
    ensures RawLines(Segmentation(content)) == Kept(Split(content))
  {
    SegmentationInv(content);
  }

  /** Every paragraph has the shape of its type: a heading or a rule is one line
      of its class, a list, quote or plain paragraph holds lines of its class
      only, and a code block starts with a fence and holds no other fence except
      a closing last line, which only the last block may lack, and only when a
      fence is left open at the end of the content. */
  lemma BlockShapes(content: string)
    ensures var lines := Split(content);
      var r := Segmentation(content);
      forall k :: 0 <= k < |r| ==> BlockShape(r[k].blockType, Split(r[k].raw), !(InFence(lines) && k == |r| - 1))
  {
    SegmentationInv(content);
  }

  /** An unclosed fence runs to the end of the content: the last paragraph is
      then a code block. */
  lemma UnclosedFence(content: string)
    requires InFence(Split(content))
    ensures var r := Segmentation(content); r != [] && r[|r| - 1].blockType == Code
  {
    SegmentationInv(content);
  }

  /** Every paragraph's text is the stripped display text of its own lines, so
      it never starts or ends with white space. */
  lemma TextIsDisplayText(content: string)
    ensures var r := Segmentation(content);
      forall k :: 0 <= k < |r| ==> r[k].text == BlockText(r[k]) && IsTrimmed(r[k].text, IsPySpace)
  {
    SegmentationInv(content);
    var r := Segmentation(content);
    forall k | 0 <= k < |r| ensures IsTrimmed(r[k].text, IsPySpace) {
      StripFacts(DisplayText(Split(r[k].raw), r[k].blockType));
    }
  }

  /** A paragraph starts with a line that is not blank, and only code blocks
      hold blank lines. */
  lemma NonBlankBlocks(content: string)
    ensures var r := Segmentation(content);
      forall k :: 0 <= k < |r| ==>
        && !IsBlank(Split(r[k].raw)[0])
        && (forall j :: 0 <= j < |Split(r[k].raw)| && IsBlank(Split(r[k].raw)[j]) ==> r[k].blockType == Code)
  {
    BlockShapes(content);
    var r := Segmentation(content);
    forall k | 0 <= k < |r|
      ensures !IsBlank(Split(r[k].raw)[0])
      ensures forall j :: 0 <= j < |Split(r[k].raw)| && IsBlank(Split(r[k].raw)[j]) ==> r[k].blockType == Code
    {
      ShapedNonBlank(r[k].blockType, Split(r[k].raw), !(InFence(Split(content)) && k == |r| - 1));
    }
  }

  /** A block of a shaped type starts with a non-blank line, and holds blank
      lines only if it is code. */
  lemma ShapedNonBlank(kind: BlockType, lines: seq<string>, closed: bool)
    requires BlockShape(kind, lines, closed)
    ensures !IsBlank(lines[0])
    ensures forall j :: 0 <= j < |lines| && IsBlank(lines[j]) ==> kind == Code
  {
    forall j | 0 <= j < |lines| ensures IsBlank(lines[j]) ==> kind == Code || Classify(lines[j]) == BlankLine {
      ClassifyFacts(lines[j]);
    }
    ClassifyFacts(lines[0]);
  }

  lemma {:induction false} RawLinesEmpty(ps: seq<Paragraph>)
    ensures RawLines(ps) == [] <==> ps == []
  {
    if ps != [] {
      assert |Split(ps[|ps| - 1].raw)| >= 1;
    }
  }

  /** A blank line is never a fence line. */
  lemma BlankNotFence(line: string)
    requires IsBlank(line)
    ensures !IsFenceLine(line)
  {
  }

  /** Content made only of blank lines never opens a fence. */
  lemma {:induction false} BlankNoFence(lines: seq<string>)
    requires forall i :: 0 <= i < |lines| ==> IsBlank(lines[i])
    ensures !InFence(lines)
  {
    if lines != [] {
      BlankNoFence(lines[..|lines| - 1]);
      BlankNotFence(lines[|lines| - 1]);
    }
  }

  /** Blank-only lines are all dropped. */
  lemma {:induction false} BlankDropped(lines: seq<string>)
    requires forall i :: 0 <= i < |lines| ==> IsBlank(lines[i])
    ensures Kept(lines) == []
  {
    if lines != [] {
      var prefix := lines[..|lines| - 1];
      assert forall i :: 0 <= i < |prefix| ==> IsBlank(prefix[i]) by {
        forall i | 0 <= i < |prefix| ensures IsBlank(prefix[i]) { assert prefix[i] == lines[i]; }
      }
      BlankDropped(prefix);
      BlankNoFence(prefix);
    }
  }

  /** When nothing is kept, every line was blank. */
  lemma {:induction false} NothingKeptBlank(lines: seq<string>)
    requires Kept(lines) == []
    ensures forall i :: 0 <= i < |lines| ==> IsBlank(lines[i])
  {
    if lines != [] {
      var prefix := lines[..|lines| - 1];
      var last := lines[|lines| - 1];
      var dropped := !InFence(prefix) && IsBlank(last);
      assert Kept(prefix) == [] && dropped by {
        assert Kept(lines) == Kept(prefix) + (if dropped then [] else [last]);
        assert |Kept(prefix)| == 0;
      }
      NothingKeptBlank(prefix);
      assert lines == prefix + [last];
      forall i | 0 <= i < |lines| ensures IsBlank(lines[i]) {
        if i < |prefix| { assert lines[i] == prefix[i]; } else { assert lines[i] == last; }
      }
    }
  }

  /** No line is kept exactly when every line is blank. */
  lemma KeptEmpty(lines: seq<string>)
    ensures Kept(lines) == [] <==> forall i :: 0 <= i < |lines| ==> IsBlank(lines[i])
  {
    if Kept(lines) == [] {
      NothingKeptBlank(lines);
    }
    if forall i :: 0 <= i < |lines| ==> IsBlank(lines[i]) {
      BlankDropped(lines);
    }
  }

  /** There are no paragraphs exactly when every line of the content is blank;
      in particular empty content has none. */
  lemma EmptyIffBlank(content: string)
    ensures Segmentation(content) == [] <==> AllBlank(content)
  {
    NoLineLost(content);
    RawLinesEmpty(Segmentation(content));
    KeptEmpty(Split(content));
  }

  /** One more line of the scan is one more step. */
  lemma RunPrefix(lines: seq<string>, i: nat)
    requires i < |lines|
    ensures Run(lines[..i + 1]) == Step(Run(lines[..i]), lines[i])
  {
    assert lines[..i + 1][..i] == lines[..i];
  }

  /** A list, quote or plain line outside fenced code joins a block of its own
      type or starts one. */
  lemma GrowStep(st: ScanState, line: string, kind: BlockType)
    requires !st.inCode && Groupable(kind) && Classify(line) == ClassOf(kind)
    ensures Step(st, line) == Append(if st.kind != kind then Flush(st).(kind := kind) else st, line)
  {
    GrowStepOn(st, Classify(line), line, kind);
  }

  /** `GrowStep` on the line's class. */
  lemma GrowStepOn(st: ScanState, c: LineKind, line: string, kind: BlockType)
    requires !st.inCode && Groupable(kind) && c == ClassOf(kind)
    ensures StepOn(st, c, line) == Extend(st, kind, line)
  {
    ParaIsExtend(st, line);
  }

  /** `^(-{3,}|\*{3,}|_{3,})$` on the stripped line: three or more characters,
      all the same one of `-`, `*` and `_`. */
  lemma RuleMatch(stripped: string)
    ensures IsHorizontalRule(stripped) <==>
      && |stripped| >= 3
      && (stripped[0] == '-' || stripped[0] == '*' || stripped[0] == '_')
      && forall i :: 0 <= i < |stripped| ==> stripped[i] == stripped[0]
  {
  }

  /** `^#{1,6}\s` on the stripped line: some run of one to six `#` followed by a
      white-space character (a seventh `#` is not white space, so the run can
      be taken to be the whole leading run). */
  lemma HeadingMatch(stripped: string)
    ensures IsHeadingMarker(stripped) <==>
      exists n :: 1 <= n <= 6 && n < |stripped| && (forall i :: 0 <= i < n ==> stripped[i] == '#') && IsPySpace(stripped[n])
  {
    var m := LeadingCount(stripped, '#');
    if !IsHeadingMarker(stripped) {
      forall n | 1 <= n <= 6 && n < |stripped| && (forall i :: 0 <= i < n ==> stripped[i] == '#')
        ensures !IsPySpace(stripped[n])
      {
        if n < m {
          assert stripped[n] == '#';
        }
      }
    }
  }

  /** The first `n` characters of `s` are white space. */
  predicate SpacesBefore(s: string, n: nat)
    requires n <= |s|
  {
    forall k :: 0 <= k < n ==> IsPySpace(s[k])
  }

  /** The characters of `s` from `n` up to `m` are decimal digits. */
  predicate DigitsBetween(s: string, n: nat, m: nat)
    requires n <= m <= |s|
  {
    forall k :: n <= k < m ==> IsDigit(s[k])
  }

  /** The first alternative of `^(\s*[-*+]|\s*\d+\.)\s`, with `\s*` taking the
      first `n` characters: a bullet at `n`, then white space. */
  predicate BulletMatch(line: string, n: nat) {
    && n + 1 < |line| && SpacesBefore(line, n)
    && (line[n] == '-' || line[n] == '*' || line[n] == '+') && IsPySpace(line[n + 1])
  }

  /** The second alternative, with `\s*` taking the first `n` characters and
      `\d+` the ones up to `m`: digits, a dot at `m`, then white space. */
  predicate NumberMatch(line: string, n: nat, m: nat) {
    && n < m && m + 1 < |line| && SpacesBefore(line, n) && DigitsBetween(line, n, m)
    && line[m] == '.' && IsPySpace(line[m + 1])
  }

  /** The regex read with backtracking: some split of the line fits one of the
      two alternatives. */
  ghost predicate ListRegex(line: string) {
    (exists n: nat :: BulletMatch(line, n)) || (exists n: nat, m: nat :: NumberMatch(line, n, m))
  }

  /** A marker that starts after white space starts after all of it. */
  lemma MarkerAfterSpaces(line: string, n: nat)
    requires n < |line| && SpacesBefore(line, n) && !IsPySpace(line[n])
    ensures LeadingSpaces(line) == n
  {
    var l := LeadingSpaces(line);
  }

  /** A bullet after a white-space prefix is a list item. */
  lemma BulletListItem(line: string, n: nat)
    requires BulletMatch(line, n)
    ensures IsListItem(line)
  {
    MarkerAfterSpaces(line, n);
    var rest := line[n..];
    assert rest[0] == line[n] && rest[1] == line[n + 1];
  }

  /** A run of digits that ends before a non-digit is the whole leading run. */
  lemma DigitRun(s: string, e: nat)
    requires e < |s| && !IsDigit(s[e])
    requires forall k :: 0 <= k < e ==> IsDigit(s[k])
    ensures LeadingDigits(s) == e
  {
  }

  /** Digits and a dot after a white-space prefix make a list item. */
  lemma NumberListItem(line: string, n: nat, m: nat)
    requires NumberMatch(line, n, m)
    ensures IsListItem(line)
  {
    assert IsDigit(line[n]);
    MarkerAfterSpaces(line, n);
    var rest := line[n..];
    forall k | 0 <= k < m - n ensures IsDigit(rest[k]) {
      assert rest[k] == line[n + k];
    }
    assert rest[m - n] == line[m] && rest[m - n + 1] == line[m + 1];
    DigitRun(rest, m - n);
  }

  /** A list item matches the regex with the whole leading white space. */
  lemma ListItemMatches(line: string)
    requires IsListItem(line)
    ensures ListRegex(line)
  {
    var l := LeadingSpaces(line);
    var rest := line[l..];
    var d := LeadingDigits(rest);
    assert SpacesBefore(line, l);
    if |rest| >= 2 && (rest[0] == '-' || rest[0] == '*' || rest[0] == '+') && IsPySpace(rest[1]) {
      assert rest[0] == line[l] && rest[1] == line[l + 1];
      assert BulletMatch(line, l);
    } else {
      assert rest[d] == line[l + d] && rest[d + 1] == line[l + d + 1];
      assert DigitsBetween(line, l, l + d) by {
        forall k | l <= k < l + d ensures IsDigit(line[k]) { assert line[k] == rest[k - l]; }
      }
      assert NumberMatch(line, l, l + d);
    }
  }

  /** The list test, which takes all of the leading white space and all of the
      digits, accepts exactly the lines the backtracking regex matches. */
  lemma ListMatch(line: string)
    ensures IsListItem(line) <==> ListRegex(line)
  {
    if IsListItem(line) {
      ListItemMatches(line);
    } else if exists n: nat :: BulletMatch(line, n) {
      var n: nat :| BulletMatch(line, n);
      BulletListItem(line, n);
    } else if exists n: nat, m: nat :: NumberMatch(line, n, m) {
      var n: nat, m: nat :| NumberMatch(line, n, m);
      NumberListItem(line, n, m);
    }
  }
}
