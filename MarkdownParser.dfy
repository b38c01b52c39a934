/** `parse_markdown_paragraphs`: the line-by-line scan with its local state and
    the nested `flush`, proved to compute `Segmenter.Segmentation`, and through
    it the segmentation theorems. */
module MarkdownParser {
  import opened Text
  import opened Segmenter
  import SegmenterProperties

  /** The nested `flush()`: emits the buffer as the next paragraph unless it is
      empty, then empties the buffer and resets its type. */
  method FlushBlock(paragraphs: seq<Paragraph>, currentBlock: seq<string>, currentType: BlockType, idx: nat,
                    ghost inCodeBlock: bool)
    returns (paragraphs': seq<Paragraph>, currentBlock': seq<string>, currentType': BlockType, idx': nat)
    ensures ScanState(paragraphs', currentBlock', currentType', inCodeBlock, idx')
         == Flush(ScanState(paragraphs, currentBlock, currentType, inCodeBlock, idx))
  {
    if currentBlock == [] {
      return paragraphs, currentBlock, currentType, idx;
    }
    var raw := Join(currentBlock);
    var text := raw;
    if currentType == Heading {
      text := HeadingText(text);
    } else if currentType == Code {
      var codeLines := currentBlock;
      if |codeLines| > 0 && StartsWith(codeLines[0], Fence) {
        codeLines := codeLines[1..];
      }
      if |codeLines| > 0 && StartsWith(codeLines[|codeLines| - 1], Fence) {
        codeLines := codeLines[..|codeLines| - 1];
      }
      text := Join(codeLines);
    } else if currentType == Blockquote {
      text := QuoteText(text, true);
    }
    assert text == DisplayText(currentBlock, currentType);
    paragraphs' := paragraphs + [Paragraph(idx, Strip(text), raw, currentType)];
    idx' := idx + 1;
    currentBlock' := [];
    currentType' := Para;
  }

  /** One iteration of the loop of `parse_markdown_paragraphs` on `line`:
      the branches test the line in the order of `Classify`. */
  method ScanLine(paragraphs0: seq<Paragraph>, currentBlock0: seq<string>, currentType0: BlockType,
                  inCodeBlock0: bool, idx0: nat, line: string)
    returns (paragraphs: seq<Paragraph>, currentBlock: seq<string>, currentType: BlockType, inCodeBlock: bool, idx: nat)
    ensures ScanState(paragraphs, currentBlock, currentType, inCodeBlock, idx)
         == Step(ScanState(paragraphs0, currentBlock0, currentType0, inCodeBlock0, idx0), line)
  {
    ghost var before := ScanState(paragraphs0, currentBlock0, currentType0, inCodeBlock0, idx0);
    paragraphs, currentBlock, currentType, inCodeBlock, idx := paragraphs0, currentBlock0, currentType0, inCodeBlock0, idx0;
    var stripped := Strip(line);
    if StartsWith(stripped, Fence) {
      assert Classify(line) == FenceLine;
      if inCodeBlock {
        currentBlock := currentBlock + [line];
        inCodeBlock := false;
        paragraphs, currentBlock, currentType, idx := FlushBlock(paragraphs, currentBlock, currentType, idx, inCodeBlock);
        assert ScanState(paragraphs, currentBlock, currentType, inCodeBlock, idx) == CloseFence(before, line);
      } else {
        paragraphs, currentBlock, currentType, idx := FlushBlock(paragraphs, currentBlock, currentType, idx, inCodeBlock);
        inCodeBlock := true;
        currentType := Code;
        currentBlock := currentBlock + [line];
        assert ScanState(paragraphs, currentBlock, currentType, inCodeBlock, idx) == OpenFence(before, line);
      }
    } else if inCodeBlock {
      currentBlock := currentBlock + [line];
      assert ScanState(paragraphs, currentBlock, currentType, inCodeBlock, idx) == StepOn(before, Classify(line), line);
    } else if stripped == "" {
      assert Classify(line) == BlankLine;
      paragraphs, currentBlock, currentType, idx := FlushBlock(paragraphs, currentBlock, currentType, idx, inCodeBlock);
      assert ScanState(paragraphs, currentBlock, currentType, inCodeBlock, idx) == Flush(before);
    } else if IsHorizontalRule(stripped) {
      assert Classify(line) == RuleLine;
      paragraphs, currentBlock, currentType, idx := FlushBlock(paragraphs, currentBlock, currentType, idx, inCodeBlock);
      currentBlock := currentBlock + [line];
      currentType := Hr;
      paragraphs, currentBlock, currentType, idx := FlushBlock(paragraphs, currentBlock, currentType, idx, inCodeBlock);
      assert ScanState(paragraphs, currentBlock, currentType, inCodeBlock, idx) == SingleLine(before, Hr, line);
    } else if IsHeadingMarker(stripped) {
      assert Classify(line) == HeadingLine;
      paragraphs, currentBlock, currentType, idx := FlushBlock(paragraphs, currentBlock, currentType, idx, inCodeBlock);
      currentBlock := currentBlock + [line];
      currentType := Heading;
      paragraphs, currentBlock, currentType, idx := FlushBlock(paragraphs, currentBlock, currentType, idx, inCodeBlock);
      assert ScanState(paragraphs, currentBlock, currentType, inCodeBlock, idx) == SingleLine(before, Heading, line);
    } else if IsListItem(line) {
      assert Classify(line) == ListLine;
      if currentType != List {
        paragraphs, currentBlock, currentType, idx := FlushBlock(paragraphs, currentBlock, currentType, idx, inCodeBlock);
        currentType := List;
      }
      currentBlock := currentBlock + [line];
      assert ScanState(paragraphs, currentBlock, currentType, inCodeBlock, idx) == Extend(before, List, line);
    } else if StartsWith(stripped, ">") {
      assert Classify(line) == QuoteLine;
      if currentType != Blockquote {
        paragraphs, currentBlock, currentType, idx := FlushBlock(paragraphs, currentBlock, currentType, idx, inCodeBlock);
        currentType := Blockquote;
      }
      currentBlock := currentBlock + [line];
      assert ScanState(paragraphs, currentBlock, currentType, inCodeBlock, idx) == Extend(before, Blockquote, line);
    } else {
      assert Classify(line) == PlainLine;
      if currentType != Para {
        paragraphs, currentBlock, currentType, idx := FlushBlock(paragraphs, currentBlock, currentType, idx, inCodeBlock);
      }
      currentBlock := currentBlock + [line];
      currentType := Para;
      assert ScanState(paragraphs, currentBlock, currentType, inCodeBlock, idx) == Extend(before, Para, line);
      SegmenterProperties.ParaIsExtend(before, line);
    }
  }

  /** The scan over `content.split('\n')` and the final flush. */
  method ParseMarkdownParagraphs(content: string) returns (paragraphs: seq<Paragraph>)
    ensures paragraphs == Segmentation(content)
    ensures forall k :: 0 <= k < |paragraphs| ==> paragraphs[k].index == k
    ensures RawLines(paragraphs) == Kept(Split(content))
    ensures paragraphs == [] <==> AllBlank(content)
  {
    paragraphs := [];
    var lines := Split(content);
    var currentBlock: seq<string> := [];
    var currentType := Para;
    var inCodeBlock := false;
    var idx: nat := 0;

    var i := 0;
    while i < |lines|
      invariant 0 <= i <= |lines|
      invariant ScanState(paragraphs, currentBlock, currentType, inCodeBlock, idx) == Run(lines[..i])
    {
      SegmenterProperties.RunPrefix(lines, i);
      paragraphs, currentBlock, currentType, inCodeBlock, idx :=
        ScanLine(paragraphs, currentBlock, currentType, inCodeBlock, idx, lines[i]);
      i := i + 1;
    }
    ghost var last := ScanState(paragraphs, currentBlock, currentType, inCodeBlock, idx);
    assert last == Run(lines) by {
      assert lines[..|lines|] == lines;
    }
    paragraphs, currentBlock, currentType, idx := FlushBlock(paragraphs, currentBlock, currentType, idx, inCodeBlock);
    assert paragraphs == Segmentation(content);

    assert forall k :: 0 <= k < |paragraphs| ==> paragraphs[k].index == k by {
      SegmenterProperties.DenseIndices(content);
    }
    assert RawLines(paragraphs) == Kept(Split(content)) by {
      SegmenterProperties.NoLineLost(content);
    }
    assert paragraphs == [] <==> AllBlank(content) by {
      SegmenterProperties.EmptyIffBlank(content);
    }
  }
}
