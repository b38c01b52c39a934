/** The segmenter groups consecutive lines: two neighbouring list, quote or
    plain lines outside fenced code land in one block, and two neighbouring
    blocks of one such type were always separated by a blank line. */
module SegmenterGrouping {
  import opened Text
  import opened Segmenter
  import opened SegmenterProperties

  /** Neighbouring blocks that only a blank line can have separated. */
  predicate SameGroup(a: Paragraph, b: Paragraph) {
    a.blockType == b.blockType && Groupable(a.blockType)
  }

  lemma PrefixNoNewlines(lines: seq<string>, i: nat)
    requires NoNewlines(lines) && i <= |lines|
    ensures NoNewlines(lines[..i])
  {
    forall k | 0 <= k < i ensures '\n' !in lines[..i][k] { assert lines[..i][k] == lines[k]; }
  }

  /** A line of a groupable class outside fenced code leaves an open block of
      that type ending with the line. */
  lemma GrowOpens(st: ScanState, line: string, kind: BlockType)
    requires !st.inCode && Groupable(kind) && Classify(line) == ClassOf(kind)
    ensures var s := Step(st, line);
      && !s.inCode && s.kind == kind && s.block != [] && s.block[|s.block| - 1] == line
  {
    GrowStep(st, line, kind);
  }

  /** A second line of the open block's class is appended to it. */
  lemma GrowJoins(st: ScanState, line: string, kind: BlockType)
    requires !st.inCode && st.kind == kind && Groupable(kind) && Classify(line) == ClassOf(kind)
    ensures Step(st, line) == st.(block := st.block + [line])
  {
    GrowStep(st, line, kind);
  }

  /** `parse_markdown_paragraphs` groups consecutive lines: when lines `i` and
      `i + 1` are both list items, both quote lines or both plain text, outside
      fenced code, then line `i` ends the open block, of the matching type, and
      line `i + 1` is appended to that same block; nothing is emitted between. */
  lemma ConsecutiveLinesJoin(content: string, i: nat, kind: BlockType)
    requires i + 1 < |Split(content)| && Groupable(kind)
    requires Classify(Split(content)[i]) == ClassOf(kind) && Classify(Split(content)[i + 1]) == ClassOf(kind)
    requires !InFence(Split(content)[..i])
    ensures var lines := Split(content);
      var before := Run(lines[..i + 1]);
      var after := Run(lines[..i + 2]);
      && before.kind == kind && before.block != [] && before.block[|before.block| - 1] == lines[i]
      && after == before.(block := before.block + [lines[i + 1]])
  {
    var lines := Split(content);
    PrefixNoNewlines(lines, i);
    RunBasics(lines[..i]);
    RunPrefix(lines, i);
    GrowOpens(Run(lines[..i]), lines[i], kind);
    var before := Run(lines[..i + 1]);
    RunPrefix(lines, i + 1);
    assert Run(lines[..i + 2]) == Step(before, lines[i + 1]);
    GrowJoins(before, lines[i + 1], kind);
  }

  /** Some blank line outside fenced code among `processed` was read with
      exactly `ps` emitted and nothing buffered. */
  ghost predicate BlankAfter(processed: seq<string>, ps: seq<Paragraph>) {
    exists j :: 0 <= j < |processed| && IsBlank(processed[j]) && !InFence(processed[..j])
      && Run(processed[..j + 1]).paragraphs == ps && Run(processed[..j + 1]).block == []
  }

  /** Every two neighbouring emitted blocks of one groupable type have a blank
      line between them. */
  ghost predicate Separated(processed: seq<string>, ps: seq<Paragraph>) {
    forall k :: 0 <= k < |ps| - 1 && SameGroup(ps[k], ps[k + 1]) ==> BlankAfter(processed, ps[..k + 1])
  }

  /** When the last emitted block is groupable and the next one, once started,
      could have its type, a blank line came after it. */
  ghost predicate OpenGap(st: ScanState, processed: seq<string>) {
    var ps := st.paragraphs;
    (ps != [] && Groupable(ps[|ps| - 1].blockType) && (st.block == [] || st.kind == ps[|ps| - 1].blockType))
    ==> BlankAfter(processed, ps)
  }

  ghost predicate GapInv(st: ScanState, processed: seq<string>) {
    Separated(processed, st.paragraphs) && OpenGap(st, processed)
  }

  lemma BlankAfterGrow(processed: seq<string>, line: string, ps: seq<Paragraph>)
    requires BlankAfter(processed, ps)
    ensures BlankAfter(processed + [line], ps)
  {
    var j :| 0 <= j < |processed| && IsBlank(processed[j]) && !InFence(processed[..j])
      && Run(processed[..j + 1]).paragraphs == ps && Run(processed[..j + 1]).block == [];
    var longer := processed + [line];
    assert longer[j] == processed[j] && longer[..j] == processed[..j] && longer[..j + 1] == processed[..j + 1];
  }

  lemma SeparatedGrow(processed: seq<string>, line: string, ps: seq<Paragraph>)
    requires Separated(processed, ps)
    ensures Separated(processed + [line], ps)
  {
    forall k | 0 <= k < |ps| - 1 && SameGroup(ps[k], ps[k + 1]) ensures BlankAfter(processed + [line], ps[..k + 1]) {
      BlankAfterGrow(processed, line, ps[..k + 1]);
    }
  }

  lemma SeparatedAppend(processed: seq<string>, ps: seq<Paragraph>, p: Paragraph)
    requires Separated(processed, ps)
    requires ps != [] && SameGroup(ps[|ps| - 1], p) ==> BlankAfter(processed, ps)
    ensures Separated(processed, ps + [p])
  {
    var qs := ps + [p];
    forall k | 0 <= k < |qs| - 1 && SameGroup(qs[k], qs[k + 1]) ensures BlankAfter(processed, qs[..k + 1]) {
      if k < |ps| - 1 {
        assert qs[..k + 1] == ps[..k + 1] && qs[k] == ps[k] && qs[k + 1] == ps[k + 1];
      } else {
        assert qs[..k + 1] == ps;
      }
    }
  }

  /** A flush emits the open block; if it shares the last block's groupable
      type, the gap before it is already on record. */
  lemma FlushGap(st: ScanState, processed: seq<string>)
    requires GapInv(st, processed)
    ensures Separated(processed, Flush(st).paragraphs)
  {
    if st.block != [] {
      SeparatedAppend(processed, st.paragraphs, MakeParagraph(st.idx, st.block, st.kind));
    }
  }

  /** The gap facts move from the lines read to one more line. */
  lemma GapInvGrow(st: ScanState, processed: seq<string>, line: string)
    requires GapInv(st, processed)
    ensures GapInv(st, processed + [line])
  {
    SeparatedGrow(processed, line, st.paragraphs);
    if st.paragraphs != [] && BlankAfter(processed, st.paragraphs) {
      BlankAfterGrow(processed, line, st.paragraphs);
    }
  }

  /** A blank line outside fenced code is itself the gap after what it flushes. */
  lemma BlankGap(prefix: seq<string>, line: string, st: ScanState)
    requires IsBlank(line) && !InFence(prefix)
    requires Run(prefix + [line]) == Flush(st)
    ensures BlankAfter(prefix + [line], Flush(st).paragraphs)
  {
    var lines := prefix + [line];
    var j := |prefix|;
    assert lines[j] == line && lines[..j] == prefix && lines[..j + 1] == lines;
  }

  /** Fence lines and the lines inside fenced code: the blocks they emit or
      buffer are code, which never groups. */
  lemma CodeStepGap(st: ScanState, lines: seq<string>, line: string)
    requires Consistent(st) && GapInv(st, lines)
    requires Classify(line) == FenceLine || st.inCode
    ensures GapInv(Step(st, line), lines)
  {
    var c := Classify(line);
    if c == FenceLine && st.inCode {
      var s1 := Append(st, line).(inCode := false);
      FlushGap(s1, lines);
    } else if c == FenceLine {
      FlushGap(st, lines);
    }
  }

  /** A rule or a heading: the blocks it emits never group. */
  lemma SingleStepGap(st: ScanState, lines: seq<string>, line: string, kind: BlockType)
    requires Consistent(st) && GapInv(st, lines)
    requires kind == Hr || kind == Heading
    ensures GapInv(SingleLine(st, kind, line), lines)
  {
    FlushGap(st, lines);
    var s2 := Append(Flush(st).(kind := kind), line);
    FlushGap(s2, lines);
  }

  /** A list, quote or plain line outside fenced code. */
  lemma GrowStepGap(st: ScanState, lines: seq<string>, line: string, kind: BlockType)
    requires Consistent(st) && GapInv(st, lines) && Groupable(kind)
    ensures GapInv(Append(if st.kind != kind then Flush(st).(kind := kind) else st, line), lines)
  {
    if st.kind != kind {
      FlushGap(st, lines);
    }
  }

  /** Every step keeps the gap facts. */
  lemma StepGap(st: ScanState, prefix: seq<string>, line: string)
    requires Consistent(st) && st.inCode == InFence(prefix) && GapInv(st, prefix)
    requires Run(prefix + [line]) == Step(st, line)
    ensures GapInv(Step(st, line), prefix + [line])
  {
    var lines := prefix + [line];
    GapInvGrow(st, prefix, line);
    var c := Classify(line);
    if c == FenceLine || st.inCode {
      CodeStepGap(st, lines, line);
    } else if c == BlankLine {
      FlushGap(st, lines);
      ClassifyFacts(line);
      BlankGap(prefix, line, st);
    } else if c == RuleLine {
      SingleStepGap(st, lines, line, Hr);
    } else if c == HeadingLine {
      SingleStepGap(st, lines, line, Heading);
    } else if c == ListLine {
      GrowStepGap(st, lines, line, List);
    } else if c == QuoteLine {
      GrowStepGap(st, lines, line, Blockquote);
    } else {
      ParaIsExtend(st, line);
      GrowStepGap(st, lines, line, Para);
    }
  }

  /** The gap facts hold after every prefix of the input. */
  lemma {:induction false} RunGap(lines: seq<string>)
    requires NoNewlines(lines)
    ensures GapInv(Run(lines), lines)
    decreases |lines|
  {
    if lines != [] {
      var n := |lines| - 1;
      PrefixNoNewlines(lines, n);
      RunGap(lines[..n]);
      RunGapStep(lines[..n], lines[n]);
      DropLast(lines);
    }
  }

  /** The facts of the scan invariant that the gap argument uses. */
  lemma RunBasics(lines: seq<string>)
    requires NoNewlines(lines)
    ensures Consistent(Run(lines)) && Run(lines).inCode == InFence(lines)
  {
    RunInv(lines);
  }

  /** Reading one more line keeps the gap facts. */
  lemma RunGapStep(prefix: seq<string>, line: string)
    requires NoNewlines(prefix) && GapInv(Run(prefix), prefix)
    ensures GapInv(Run(prefix + [line]), prefix + [line])
  {
    RunBasics(prefix);
    assert (prefix + [line])[..|prefix|] == prefix;
    StepGap(Run(prefix), prefix, line);
  }

  /** Blocks are maximal: two neighbouring blocks that are both lists, both
      quotes or both plain paragraphs were separated by a blank line outside
      fenced code, read when exactly the blocks up to the first of them had been
      emitted and nothing of the second was buffered. */
  lemma SameTypeBlocksSeparated(content: string, k: nat)
    requires k + 1 < |Segmentation(content)|
    requires SameGroup(Segmentation(content)[k], Segmentation(content)[k + 1])
    ensures BlankAfter(Split(content), Segmentation(content)[..k + 1])
  {
    var lines := Split(content);
    RunGap(lines);
    FlushGap(Run(lines), lines);
  }
}
