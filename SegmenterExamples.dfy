/** Worked inputs of the segmenter: a pair of fences with nothing between them
    is one code block whose text is empty; it still gets an index. */
module SegmenterExamples {
  import opened Text
  import opened Segmenter

  lemma FenceClass()
    ensures Classify(Fence) == FenceLine
  {
    TrimFacts(Fence, IsPySpace);
    assert Strip(Fence) == Fence;
  }

  lemma EmptyCodeParagraph()
    ensures MakeParagraph(0, [Fence, Fence], Code) == Paragraph(0, "", "```\n```", Code)
  {
    var lines := [Fence, Fence];
    assert lines[1..] == [Fence];
    assert CodeLines(lines) == [];
    assert Join(lines) == "```\n```" by {
      assert Join(lines) == Fence + "\n" + Fence;
    }
  }

  lemma RunOneFence()
    ensures Run([Fence]) == ScanState([], [Fence], Code, true, 0)
  {
    FenceClass();
    assert [Fence][..0] == [];
    assert Step(Initial, Fence) == OpenFence(Initial, Fence);
  }

  lemma RunTwoFences()
    ensures Run([Fence, Fence]) == CloseFence(ScanState([], [Fence], Code, true, 0), Fence)
  {
    var lines := [Fence, Fence];
    assert lines[..1] == [Fence];
    RunOneFence();
    FenceClass();
  }

  lemma SplitFences()
    ensures Split("```\n```") == [Fence, Fence]
  {
    SplitLine(Fence, Fence);
    SplitSingle(Fence);
    assert "```\n```" == Fence + "\n" + Fence;
  }

  lemma RunFences()
    ensures Run([Fence, Fence]) == ScanState([MakeParagraph(0, [Fence, Fence], Code)], [], Para, false, 1)
  {
    RunTwoFences();
    var s1 := ScanState([], [Fence], Code, true, 0);
    assert Append(s1, Fence).(inCode := false) == ScanState([], [Fence, Fence], Code, false, 0);
  }

  /** A fenced block with no content is still a paragraph, with empty text. */
  lemma FenceOnly()
    ensures Segmentation("```\n```") == [Paragraph(0, "", "```\n```", Code)]
  {
    SplitFences();
    RunFences();
    EmptyCodeParagraph();
  }
}
