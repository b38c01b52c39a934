/** Segmenting again the blocks' source texts, separated by blank lines, gives
    back the same blocks: the same indices, types, source lines and display
    texts. A blank line outside fenced code ends any block, and every block's
    lines, read from a clean state, rebuild exactly that block. */
module SegmenterRoundTrip {
  import opened Text
  import opened Segmenter
  import opened SegmenterProperties

  /** `"\n\n".join(p.raw for p in ps)`: the blocks' source texts with a blank
      line between neighbours. */
  function Rejoin(ps: seq<Paragraph>): string
    decreases |ps|
  {
    if ps == [] then ""
    else if |ps| == 1 then ps[0].raw
    else Rejoin(ps[..|ps| - 1]) + "\n\n" + ps[|ps| - 1].raw
  }

  /** The lines of `Rejoin(ps)`: each block's lines, with one empty line between
      neighbours. */
  function Gapped(ps: seq<Paragraph>): seq<string>
    requires ps != []
    decreases |ps|
  {
    if |ps| == 1 then Split(ps[0].raw)
    else Gapped(ps[..|ps| - 1]) + [""] + Split(ps[|ps| - 1].raw)
  }

  lemma SplitGap(a: string, b: string)
    ensures Split(a + "\n\n" + b) == Split(a) + [""] + Split(b)
  {
    assert a + "\n\n" + b == a + "\n" + ("" + "\n" + b);
    SplitConcat(a, "" + "\n" + b);
    SplitConcat("", b);
  }

  lemma {:induction false} SplitRejoin(ps: seq<Paragraph>)
    requires ps != []
    ensures Split(Rejoin(ps)) == Gapped(ps)
    decreases |ps|
  {
    if |ps| > 1 {
      SplitRejoin(ps[..|ps| - 1]);
      SplitGap(Rejoin(ps[..|ps| - 1]), ps[|ps| - 1].raw);
    }
  }

  /** The scan continued from `st` over `lines`. */
  function RunFrom(st: ScanState, lines: seq<string>): ScanState
    decreases |lines|
  {
    if lines == [] then st else Step(RunFrom(st, lines[..|lines| - 1]), lines[|lines| - 1])
  }

  lemma {:induction false} RunIsRunFrom(lines: seq<string>)
    ensures Run(lines) == RunFrom(Initial, lines)
    decreases |lines|
  {
    if lines != [] {
      RunIsRunFrom(lines[..|lines| - 1]);
    }
  }

  /** Scanning two pieces of input in turn is scanning their concatenation. */
  lemma {:induction false} RunFromAppend(st: ScanState, xs: seq<string>, ys: seq<string>)
    ensures RunFrom(st, xs + ys) == RunFrom(RunFrom(st, xs), ys)
    decreases |ys|
  {
    if ys == [] {
      assert xs + ys == xs;
    } else {
      var n := |ys| - 1;
      assert xs + ys == (xs + ys[..n]) + [ys[n]];
      RunFromSnoc(st, xs + ys[..n], ys[n]);
      RunFromAppend(st, xs, ys[..n]);
      DropLast(ys);
      RunFromSnoc(RunFrom(st, xs), ys[..n], ys[n]);
    }
  }

  lemma RunFromSnoc(st: ScanState, xs: seq<string>, y: string)
    ensures RunFrom(st, xs + [y]) == Step(RunFrom(st, xs), y)
  {
    assert (xs + [y])[..|xs|] == xs;
  }

  /** The state between two blocks: `ps` emitted, nothing buffered, outside
      fenced code. */
  function Clean(ps: seq<Paragraph>): ScanState {
    ScanState(ps, [], Para, false, |ps|)
  }

  /** The empty line outside fenced code flushes. */
  lemma GapStep(st: ScanState)
    requires !st.inCode
    ensures Step(st, "") == Flush(st)
  {
    assert Strip("") == "";
    assert !StartsWith("", Fence);
  }

  /** The lines of a list, quote or plain block, read from a clean state, are
      all buffered in one block of that type. */
  lemma {:induction false} GrowRun(ps: seq<Paragraph>, lines: seq<string>, kind: BlockType)
    requires Groupable(kind)
    requires |lines| >= 1 && AllOfClass(lines, ClassOf(kind))
    ensures RunFrom(Clean(ps), lines) == ScanState(ps, lines, kind, false, |ps|)
    decreases |lines|
  {
    var n := |lines| - 1;
    var prefix := lines[..n];
    RunFromSnoc(Clean(ps), prefix, lines[n]);
    DropLast(lines);
    var before := if n == 0 then Clean(ps) else ScanState(ps, prefix, kind, false, |ps|);
    if n == 0 {
      assert prefix == [];
    } else {
      assert AllOfClass(prefix, ClassOf(kind)) by {
        forall k | 0 <= k < |prefix| ensures Classify(prefix[k]) == ClassOf(kind) { assert prefix[k] == lines[k]; }
      }
      GrowRun(ps, prefix, kind);
    }
    assert Classify(lines[n]) == ClassOf(kind);
    GrowStep(before, lines[n], kind);
    assert Append(if before.kind != kind then Flush(before).(kind := kind) else before, lines[n])
      == ScanState(ps, prefix + [lines[n]], kind, false, |ps|);
  }

  /** A fence line outside fenced code starts a code block. */
  lemma OpenStep(st: ScanState, line: string)
    requires !st.inCode && Classify(line) == FenceLine
    ensures Step(st, line) == OpenFence(st, line)
  {
  }

  /** Inside fenced code a line that is not a fence is buffered. */
  lemma CodeStep(st: ScanState, line: string)
    requires st.inCode && Classify(line) != FenceLine
    ensures Step(st, line) == Append(st, line)
  {
  }

  /** The opening fence line, read from a clean state, starts the code block. */
  lemma CodeRunFirst(ps: seq<Paragraph>, lines: seq<string>)
    requires 1 <= |lines| && Classify(lines[0]) == FenceLine
    ensures RunFrom(Clean(ps), lines[..1]) == ScanState(ps, lines[..1], Code, true, |ps|)
  {
    RunFromSnoc(Clean(ps), [], lines[0]);
    assert lines[..1] == [] + [lines[0]];
    OpenStep(Clean(ps), lines[0]);
  }

  /** One more line that is not a fence joins the open code block. */
  lemma CodeRunNext(ps: seq<Paragraph>, lines: seq<string>, m: nat)
    requires 2 <= m <= |lines| && Classify(lines[m - 1]) != FenceLine
    requires RunFrom(Clean(ps), lines[..m - 1]) == ScanState(ps, lines[..m - 1], Code, true, |ps|)
    ensures RunFrom(Clean(ps), lines[..m]) == ScanState(ps, lines[..m], Code, true, |ps|)
  {
    RunFromSnoc(Clean(ps), lines[..m - 1], lines[m - 1]);
    assert lines[..m - 1] + [lines[m - 1]] == lines[..m];
    CodeStep(ScanState(ps, lines[..m - 1], Code, true, |ps|), lines[m - 1]);
  }

  /** Inside a code block opened by its first line, every later line that is
      not a fence is buffered. */
  lemma {:induction false} CodeRun(ps: seq<Paragraph>, lines: seq<string>, m: nat)
    requires 1 <= m <= |lines| && Classify(lines[0]) == FenceLine
    requires forall k :: 1 <= k < m ==> Classify(lines[k]) != FenceLine
    ensures RunFrom(Clean(ps), lines[..m]) == ScanState(ps, lines[..m], Code, true, |ps|)
    decreases m
  {
    if m == 1 {
      CodeRunFirst(ps, lines);
    } else {
      CodeRun(ps, lines, m - 1);
      CodeRunNext(ps, lines, m);
    }
  }

  /** A fence line inside fenced code closes the block. */
  lemma CloseStep(st: ScanState, line: string)
    requires st.inCode && Classify(line) == FenceLine
    ensures Step(st, line) == Flush(Append(st, line).(inCode := false))
  {
  }

  /** A closed code block read from a clean state is emitted by its last line. */
  lemma ClosedCodeRun(ps: seq<Paragraph>, lines: seq<string>)
    requires |lines| >= 2 && Classify(lines[0]) == FenceLine
    requires forall k :: 1 <= k < |lines| - 1 ==> Classify(lines[k]) != FenceLine
    requires Classify(lines[|lines| - 1]) == FenceLine
    ensures RunFrom(Clean(ps), lines) == Clean(ps + [MakeParagraph(|ps|, lines, Code)])
  {
    var n := |lines| - 1;
    CodeRun(ps, lines, n);
    RunFromSnoc(Clean(ps), lines[..n], lines[n]);
    DropLast(lines);
    var open := ScanState(ps, lines[..n], Code, true, |ps|);
    CloseStep(open, lines[n]);
    assert Append(open, lines[n]).(inCode := false) == ScanState(ps, lines, Code, false, |ps|);
  }

  /** An unclosed code block read from a clean state is still buffered. */
  lemma OpenCodeRun(ps: seq<Paragraph>, lines: seq<string>)
    requires |lines| >= 1 && Classify(lines[0]) == FenceLine
    requires forall k :: 1 <= k < |lines| ==> Classify(lines[k]) != FenceLine
    ensures RunFrom(Clean(ps), lines) == ScanState(ps, lines, Code, true, |ps|)
  {
    CodeRun(ps, lines, |lines|);
    assert lines[..|lines|] == lines;
  }

  /** In an unclosed code block no line after the first is a fence. */
  lemma UnclosedCodeLines(lines: seq<string>)
    requires BlockShape(Code, lines, false)
    ensures forall k :: 1 <= k < |lines| ==> Classify(lines[k]) != FenceLine
  {
    var last := |lines| - 1;
    forall k | 1 <= k < |lines| ensures Classify(lines[k]) != FenceLine {
      if k == last {
        assert !(|lines| >= 2 && Classify(lines[last]) == FenceLine);
      }
    }
  }

  /** A code block read from a clean state: emitted once its closing fence is
      read, otherwise still open at the end. */
  lemma CodeBlockRun(ps: seq<Paragraph>, lines: seq<string>, closed: bool, p: Paragraph)
    requires BlockShape(Code, lines, closed) && p == MakeParagraph(|ps|, lines, Code)
    ensures var s := RunFrom(Clean(ps), lines);
      && Flush(s) == ScanState(ps + [p], [], Para, s.inCode, |ps| + 1)
      && (closed ==> !s.inCode)
  {
    if closed {
      ClosedCodeRun(ps, lines);
      assert Flush(Clean(ps + [p])) == Clean(ps + [p]);
    } else {
      UnclosedCodeLines(lines);
      OpenCodeRun(ps, lines);
      assert Flush(ScanState(ps, lines, Code, true, |ps|)) == ScanState(ps + [p], [], Para, true, |ps| + 1);
    }
  }

  /** A heading or a rule read from a clean state is emitted at once. */
  lemma SingleBlockRun(ps: seq<Paragraph>, lines: seq<string>, kind: BlockType)
    requires kind == Heading || kind == Hr
    requires BlockShape(kind, lines, true)
    ensures RunFrom(Clean(ps), lines) == Clean(ps + [MakeParagraph(|ps|, lines, kind)])
  {
    assert lines == [] + [lines[0]];
    RunFromSnoc(Clean(ps), [], lines[0]);
    SingleStep(Clean(ps), lines[0], kind);
    assert Flush(Clean(ps)).(kind := kind) == ScanState(ps, [], kind, false, |ps|);
    assert Append(ScanState(ps, [], kind, false, |ps|), lines[0]) == ScanState(ps, lines, kind, false, |ps|);
  }

  /** A rule or heading line outside fenced code is emitted on its own. */
  lemma SingleStep(st: ScanState, line: string, kind: BlockType)
    requires !st.inCode
    requires (kind == Heading && Classify(line) == HeadingLine) || (kind == Hr && Classify(line) == RuleLine)
    ensures Step(st, line) == SingleLine(st, kind, line)
  {
  }

  /** Any block's lines, read from a clean state and flushed, append exactly
      that block; the scan ends outside fenced code unless it is an unclosed
      code block. */
  lemma BlockRun(ps: seq<Paragraph>, lines: seq<string>, kind: BlockType, closed: bool, p: Paragraph)
    requires BlockShape(kind, lines, closed) && p == MakeParagraph(|ps|, lines, kind)
    ensures var s := RunFrom(Clean(ps), lines);
      && Flush(s) == ScanState(ps + [p], [], Para, s.inCode, |ps| + 1)
      && (closed || kind != Code ==> !s.inCode)
  {
    if kind == Code {
      CodeBlockRun(ps, lines, closed, p);
    } else if kind == Heading || kind == Hr {
      SingleBlockRun(ps, lines, kind);
    } else {
      GrowRun(ps, lines, kind);
    }
  }

  /** Blocks that are the paragraphs of their own lines, each of its shape;
      only the last may be an unclosed code block. */
  ghost predicate Rebuildable(ps: seq<Paragraph>, lastClosed: bool) {
    forall k :: 0 <= k < |ps| ==>
      && ps[k] == MakeParagraph(k, Split(ps[k].raw), ps[k].blockType)
      && BlockShape(ps[k].blockType, Split(ps[k].raw), k < |ps| - 1 || lastClosed)
  }

  /** The blocks before the last are rebuildable with every block closed. */
  lemma RebuildablePrefix(ps: seq<Paragraph>, lastClosed: bool)
    requires |ps| >= 2 && Rebuildable(ps, lastClosed)
    ensures Rebuildable(ps[..|ps| - 1], true)
  {
    var q := ps[..|ps| - 1];
    forall k | 0 <= k < |q|
      ensures q[k] == MakeParagraph(k, Split(q[k].raw), q[k].blockType)
      ensures BlockShape(q[k].blockType, Split(q[k].raw), k < |q| - 1 || true)
    {
      assert q[k] == ps[k];
    }
  }

  /** After the blank separator, the last block's lines append that block. */
  lemma GapThenBlock(ps: seq<Paragraph>, lastClosed: bool)
    requires |ps| >= 2
    requires var q := ps[..|ps| - 1];
      Flush(RunFrom(Initial, Gapped(q))) == Clean(q) && !RunFrom(Initial, Gapped(q)).inCode
    requires var p := ps[|ps| - 1];
      && p == MakeParagraph(|ps| - 1, Split(p.raw), p.blockType)
      && BlockShape(p.blockType, Split(p.raw), lastClosed)
    ensures var s := RunFrom(Initial, Gapped(ps));
      && Flush(s) == ScanState(ps, [], Para, s.inCode, |ps|)
      && (lastClosed ==> !s.inCode)
  {
    var q := ps[..|ps| - 1];
    var p := ps[|ps| - 1];
    DropLast(ps);
    var lines := Split(p.raw);
    var g := Gapped(q) + [""];
    assert RunFrom(Initial, g) == Clean(q) by {
      RunFromSnoc(Initial, Gapped(q), "");
      GapStep(RunFrom(Initial, Gapped(q)));
    }
    var s := RunFrom(Clean(q), lines);
    assert RunFrom(Initial, Gapped(ps)) == s by {
      assert Gapped(ps) == g + lines;
      RunFromAppend(Initial, g, lines);
    }
    assert Flush(s) == ScanState(q + [p], [], Para, s.inCode, |q| + 1) && (lastClosed ==> !s.inCode) by {
      BlockRun(q, lines, p.blockType, lastClosed, p);
    }
  }

  /** The last block of rebuildable blocks. */
  lemma LastRebuildable(ps: seq<Paragraph>, lastClosed: bool)
    requires ps != [] && Rebuildable(ps, lastClosed)
    ensures var p := ps[|ps| - 1];
      && p == MakeParagraph(|ps| - 1, Split(p.raw), p.blockType)
      && BlockShape(p.blockType, Split(p.raw), lastClosed)
  {
  }

  /** A single block's lines, scanned from the start and flushed, give it back. */
  lemma FirstBlock(p: Paragraph, lastClosed: bool)
    requires p == MakeParagraph(0, Split(p.raw), p.blockType)
    requires BlockShape(p.blockType, Split(p.raw), lastClosed)
    ensures var s := RunFrom(Initial, Gapped([p]));
      && Flush(s) == ScanState([p], [], Para, s.inCode, 1)
      && (lastClosed ==> !s.inCode)
  {
    assert Initial == Clean([]);
    BlockRun([], Split(p.raw), p.blockType, lastClosed, p);
    assert [] + [p] == [p];
  }

  /** Scanning the gapped lines of rebuildable blocks and flushing gives the
      blocks back. */
  lemma {:induction false} RejoinRun(ps: seq<Paragraph>, lastClosed: bool)
    requires ps != [] && Rebuildable(ps, lastClosed)
    ensures var s := RunFrom(Initial, Gapped(ps));
      && Flush(s) == ScanState(ps, [], Para, s.inCode, |ps|)
      && (lastClosed ==> !s.inCode)
    decreases |ps|
  {
    if |ps| == 1 {
      RejoinOne(ps, lastClosed);
    } else {
      RebuildablePrefix(ps, lastClosed);
      RejoinRun(ps[..|ps| - 1], true);
      RejoinStep(ps, lastClosed);
    }
  }

  /** The base case: one rebuildable block. */
  lemma RejoinOne(ps: seq<Paragraph>, lastClosed: bool)
    requires |ps| == 1 && Rebuildable(ps, lastClosed)
    ensures var s := RunFrom(Initial, Gapped(ps));
      && Flush(s) == ScanState(ps, [], Para, s.inCode, |ps|)
      && (lastClosed ==> !s.inCode)
  {
    LastRebuildable(ps, lastClosed);
    assert ps == [ps[0]];
    FirstBlock(ps[0], lastClosed);
  }

  /** The inductive step: the blocks before the last are rebuilt, then the gap
      and the last block's lines append it. */
  lemma RejoinStep(ps: seq<Paragraph>, lastClosed: bool)
    requires |ps| >= 2 && Rebuildable(ps, lastClosed)
    requires var s := RunFrom(Initial, Gapped(ps[..|ps| - 1]));
      && Flush(s) == ScanState(ps[..|ps| - 1], [], Para, s.inCode, |ps| - 1)
      && !s.inCode
    ensures var s := RunFrom(Initial, Gapped(ps));
      && Flush(s) == ScanState(ps, [], Para, s.inCode, |ps|)
      && (lastClosed ==> !s.inCode)
  {
    LastRebuildable(ps, lastClosed);
    GapThenBlock(ps, lastClosed);
  }

  /** The blocks of any content are rebuildable; only the last block may be
      an unclosed code block, and only when a fence is left open. */
  lemma SegmentationRebuildable(content: string)
    ensures Rebuildable(Segmentation(content), !InFence(Split(content)))
  {
    var r := Segmentation(content);
    SegmentationInv(content);
    forall k | 0 <= k < |r|
      ensures r[k] == MakeParagraph(k, Split(r[k].raw), r[k].blockType)
    {
      JoinSplit(r[k].raw);
    }
  }

  /** Idempotence: segmenting the blocks' source texts again, joined with
      blank lines, gives the same blocks, with the same indices, types, source
      text and display text. */
  lemma SegmentationIdempotent(content: string)
    ensures Segmentation(Rejoin(Segmentation(content))) == Segmentation(content)
  {
    var r := Segmentation(content);
    if r == [] {
      assert Split("") == [""];
      assert [""][..0] == [];
      GapStep(Initial);
    } else {
      SegmentationRebuildable(content);
      SplitRejoin(r);
      RunIsRunFrom(Gapped(r));
      RejoinRun(r, !InFence(Split(content)));
    }
  }
}
