/** What the display text of each block type is, in terms of the block's lines:
    the heading marker is dropped, code loses its two fence lines and keeps
    everything between them, and every quote line loses its `>` marker. */
module DisplayProperties {
  import opened Text
  import opened Segmenter

  /** Trimming the leading white space first does not change the strip. */
  lemma StripAfterTrimStart(s: string)
    ensures Strip(TrimStart(s, IsPySpace)) == Strip(s)
  {
    TrimStartFacts(s, IsPySpace);
    var r := TrimStart(s, IsPySpace);
    assert TrimStart(r, IsPySpace) == r;
  }

  /** The text of an unindented heading line is what follows its `#` run, stripped. */
  lemma HeadingDisplay(line: string)
    requires |line| > 0 && line[0] == '#'
    ensures Strip(DisplayText([line], Heading)) == Strip(line[LeadingCount(line, '#')..])
  {
    StripAfterTrimStart(line[LeadingCount(line, '#')..]);
  }

  /** An indented heading keeps its marker: only the surrounding white space goes. */
  lemma IndentedHeadingDisplay()
    ensures Strip(DisplayText(["  # Title"], Heading)) == "# Title"
  {
    assert Join(["  # Title"]) == "  # Title";
    var t := "  # Title";
    assert TrimStart(t, IsPySpace) == "# Title" by {
      assert t[0] == ' ' && t[1] == ' ' && t[2] == '#';
      assert t[1..][1..] == "# Title";
    }
    assert TrimEnd("# Title", IsPySpace) == "# Title";
  }

  /** A closed code block whose fences start their lines shows exactly the lines
      between the fences, blank ones included. */
  lemma CodeDisplay(lines: seq<string>)
    requires |lines| >= 2 && StartsWith(lines[0], Fence) && StartsWith(lines[|lines| - 1], Fence)
    ensures DisplayText(lines, Code) == Join(lines[1..|lines| - 1])
  {
    assert lines[1..][|lines| - 2] == lines[|lines| - 1];
    assert lines[1..][..|lines| - 2] == lines[1..|lines| - 1];
  }

  /** An indented closing fence is not removed: it stays in the code text. */
  lemma IndentedFenceDisplay()
    ensures DisplayText(["```", "x", "  ```"], Code) == "x\n  ```"
  {
    var lines := ["```", "x", "  ```"];
    assert StartsWith(lines[0], Fence);
    assert lines[1..] == ["x", "  ```"];
    assert !StartsWith("  ```", Fence) by { assert "  ```"[..3][0] == ' ' != Fence[0]; }
    assert Join(["x", "  ```"]) == "x" + "\n" + Join(["  ```"]);
  }

  /** One quote line with its marker removed: a leading `>` goes, and a single
      white-space character after it. */
  function DropQuote(line: string): string {
    if |line| > 0 && line[0] == '>' then
      if |line| > 1 && IsPySpace(line[1]) then line[2..] else line[1..]
    else line
  }

  /** The lines of a quote block after marker removal. A bare `>` line that is
      not the last one vanishes with its line break, because the white space
      the marker may take is the newline itself. */
  function QuoteLines(lines: seq<string>): (r: seq<string>)
    ensures |r| <= |lines|
    ensures lines != [] ==> r != [] && r[|r| - 1] == DropQuote(lines[|lines| - 1])
    ensures (forall k :: 0 <= k < |lines| - 1 ==> lines[k] != ">") ==>
      |r| == |lines| && forall k :: 0 <= k < |r| ==> r[k] == DropQuote(lines[k])
  {
    if lines == [] then []
    else if lines[0] == ">" && |lines| > 1 then QuoteLines(lines[1..])
    else [DropQuote(lines[0])] + QuoteLines(lines[1..])
  }

  /** Away from a line start the marker removal changes nothing. */
  lemma {:induction false} QuoteTextPlain(s: string)
    requires '\n' !in s
    ensures QuoteText(s, false) == s
  {
    if s != [] {
      assert '\n' !in s[1..] by {
        forall i | 0 <= i < |s[1..]| ensures s[1..][i] != '\n' { assert s[1..][i] == s[i + 1]; }
      }
      QuoteTextPlain(s[1..]);
      assert s == [s[0]] + s[1..];
    }
  }

  /** A suffix of a line is a line. */
  lemma NoNewlineTail(s: string, k: nat)
    requires '\n' !in s && k <= |s|
    ensures '\n' !in s[k..]
  {
    forall i | 0 <= i < |s[k..]| ensures s[k..][i] != '\n' { assert s[k..][i] == s[i + k]; }
  }

  /** On one line, the removal is `DropQuote`. */
  lemma QuoteTextLine(s: string)
    requires '\n' !in s
    ensures QuoteText(s, true) == DropQuote(s)
  {
    if |s| > 0 && s[0] == '>' {
      if |s| > 1 && IsPySpace(s[1]) {
        assert s[1] != '\n';
        assert QuoteText(s, true) == QuoteText(s[2..], false);
        NoNewlineTail(s, 2);
        QuoteTextPlain(s[2..]);
      } else {
        assert QuoteText(s, true) == QuoteText(s[1..], false);
        NoNewlineTail(s, 1);
        QuoteTextPlain(s[1..]);
      }
    } else if s != [] {
      assert s[0] != '\n';
      assert QuoteText(s, true) == [s[0]] + QuoteText(s[1..], false);
      NoNewlineTail(s, 1);
      QuoteTextPlain(s[1..]);
      assert s == [s[0]] + s[1..];
    }
  }

  /** Marker removal works line by line across a line break, unless the line is
      a bare `>` at a line start. */
  lemma {:induction false} QuoteTextBreak(s: string, rest: string, atLineStart: bool)
    requires '\n' !in s && !(atLineStart && s == ">")
    ensures QuoteText(s + "\n" + rest, atLineStart) == QuoteText(s, atLineStart) + "\n" + QuoteText(rest, true)
    decreases |s|
  {
    var t := s + "\n" + rest;
    if s == [] {
      assert t == "\n" + rest;
      assert t[1..] == rest;
    } else {
      assert t[0] == s[0];
      assert '\n' !in s[1..] by {
        forall i | 0 <= i < |s[1..]| ensures s[1..][i] != '\n' { assert s[1..][i] == s[i + 1]; }
      }
      if atLineStart && s[0] == '>' {
        assert |s| > 1;
        assert t[1] == s[1];
        if IsPySpace(s[1]) {
          assert '\n' !in s[2..] by {
            forall i | 0 <= i < |s[2..]| ensures s[2..][i] != '\n' { assert s[2..][i] == s[i + 2]; }
          }
          assert t[2..] == s[2..] + "\n" + rest;
          QuoteTextBreak(s[2..], rest, false);
        } else {
          assert t[1..] == s[1..] + "\n" + rest;
          QuoteTextBreak(s[1..], rest, false);
        }
      } else {
        assert t[1..] == s[1..] + "\n" + rest;
        QuoteTextBreak(s[1..], rest, false);
      }
    }
  }

  /** The quote display text is the join of the quote lines. */
  lemma {:induction false} QuoteDisplay(lines: seq<string>)
    requires NoNewlines(lines)
    ensures DisplayText(lines, Blockquote) == Join(QuoteLines(lines))
  {
    if |lines| == 1 {
      QuoteTextLine(lines[0]);
    } else if |lines| > 1 {
      var tail := lines[1..];
      assert NoNewlines(tail) by {
        forall k | 0 <= k < |tail| ensures '\n' !in tail[k] { assert tail[k] == lines[k + 1]; }
      }
      QuoteDisplay(tail);
      if lines[0] == ">" {
        QuoteBareStep(lines);
      } else {
        QuoteLineStep(lines);
      }
    }
  }

  /** A bare `>` line that is not the last one vanishes with its newline. */
  lemma QuoteBareStep(lines: seq<string>)
    requires |lines| > 1 && lines[0] == ">"
    ensures DisplayText(lines, Blockquote) == DisplayText(lines[1..], Blockquote)
    ensures QuoteLines(lines) == QuoteLines(lines[1..])
  {
    assert Join(lines) == ">" + "\n" + Join(lines[1..]);
    BareMarkerDrop(Join(lines[1..]));
  }

  /** At a line start, `>` and the newline after it are removed together. */
  lemma BareMarkerDrop(rest: string)
    ensures QuoteText(">" + "\n" + rest, true) == QuoteText(rest, true)
  {
    var t := ">" + "\n" + rest;
    assert t[0] == '>' && t[1] == '\n' && IsPySpace(t[1]);
    assert t[2..] == rest;
  }

  /** Any other first line loses its marker and keeps its line break. */
  lemma QuoteLineStep(lines: seq<string>)
    requires |lines| > 1 && lines[0] != ">" && '\n' !in lines[0]
    ensures DisplayText(lines, Blockquote) == DropQuote(lines[0]) + "\n" + DisplayText(lines[1..], Blockquote)
    ensures Join(QuoteLines(lines)) == DropQuote(lines[0]) + "\n" + Join(QuoteLines(lines[1..]))
  {
    QuoteTextBreak(lines[0], Join(lines[1..]), true);
    QuoteTextLine(lines[0]);
    var r := [DropQuote(lines[0])] + QuoteLines(lines[1..]);
    assert r[1..] == QuoteLines(lines[1..]);
  }

  /** A bare `>` line between two quote lines does not leave an empty line: the
      two lines around it are merged into consecutive lines. */
  lemma BareQuoteLineMerges()
    ensures DisplayText(["> a", ">", "> b"], Blockquote) == "a\nb"
  {
    var lines := ["> a", ">", "> b"];
    assert lines[1..] == [">", "> b"] && lines[1..][1..] == ["> b"];
    QuoteLineStep(lines);
    QuoteBareStep(lines[1..]);
    assert Join(["> b"]) == "> b";
    QuoteTextLine("> b");
    assert DropQuote("> a") == "a" by { assert "> a"[2..] == "a"; }
    assert DropQuote("> b") == "b" by { assert "> b"[2..] == "b"; }
  }
}
