/** The markdown block segmenter of the comment page, stated as functions:
    how one line is classified, how a finished block becomes a `Paragraph`,
    and the line-by-line scan as a fold of `Step` over the lines. The imperative
    form of the scan is `MarkdownParser.ParseMarkdownParagraphs`. */
module Segmenter {
  import opened Text

  /** The `block_type` tag of a paragraph. */
  datatype BlockType = Heading | Para | List | Code | Blockquote | Hr {
    /** The tag string the page receives. */
    function Name(): string {
      match this
      case Heading => "heading"
      case Para => "paragraph"
      case List => "list"
      case Code => "code"
      case Blockquote => "blockquote"
      case Hr => "hr"
    }
  }

  /** One block of the document: its position, display text, source text and type. */
  datatype Paragraph = Paragraph(index: nat, text: string, raw: string, blockType: BlockType)

  /** The fence marker of a fenced code region. */
  const Fence: string := "```"

  /** Length of the leading run of `c` in `s`. */
  function LeadingCount(s: string, c: char): (n: nat)
    ensures n <= |s|
    ensures forall i :: 0 <= i < n ==> s[i] == c
    ensures n < |s| ==> s[n] != c
  {
    if |s| > 0 && s[0] == c then 1 + LeadingCount(s[1..], c) else 0
  }

  /** Length of the leading run of white space in `s`. */
  function LeadingSpaces(s: string): (n: nat)
    ensures n <= |s|
    ensures forall i :: 0 <= i < n ==> IsPySpace(s[i])
    ensures n < |s| ==> !IsPySpace(s[n])
  {
    if |s| > 0 && IsPySpace(s[0]) then 1 + LeadingSpaces(s[1..]) else 0
  }

  predicate IsDigit(c: char) {
    '0' <= c <= '9'
  }

  /** Length of the leading run of decimal digits in `s`. */
  function LeadingDigits(s: string): (n: nat)
    ensures n <= |s|
    ensures forall i :: 0 <= i < n ==> IsDigit(s[i])
    ensures n < |s| ==> !IsDigit(s[n])
  {
    if |s| > 0 && IsDigit(s[0]) then 1 + LeadingDigits(s[1..]) else 0
  }

  /** `re.match(r'^(-{3,}|\*{3,}|_{3,})$', stripped)`: three or more of one of
      `-`, `*`, `_` and nothing else. */
  predicate IsHorizontalRule(stripped: string) {
    && |stripped| >= 3
    && (stripped[0] == '-' || stripped[0] == '*' || stripped[0] == '_')
    && LeadingCount(stripped, stripped[0]) == |stripped|
  }

  /** `re.match(r'^#{1,6}\s', stripped)`: one to six `#` and then white space. */
  predicate IsHeadingMarker(stripped: string) {
    var n := LeadingCount(stripped, '#');
    1 <= n <= 6 && n < |stripped| && IsPySpace(stripped[n])
  }

  /** `re.match(r'^(\s*[-*+]|\s*\d+\.)\s', line)` on the unstripped line: optional
      indentation, then `-`, `*`, `+` or digits and a dot, then white space. */
  predicate IsListItem(line: string) {
    var rest := line[LeadingSpaces(line)..];
    || (|rest| >= 2 && (rest[0] == '-' || rest[0] == '*' || rest[0] == '+') && IsPySpace(rest[1]))
    || (var d := LeadingDigits(rest);
        d >= 1 && d + 1 < |rest| && rest[d] == '.' && IsPySpace(rest[d + 1]))
  }

  /** The class of one line, in the order the scan tests them. */
  datatype LineKind = FenceLine | BlankLine | RuleLine | HeadingLine | ListLine | QuoteLine | PlainLine

  /** A line whose stripped form starts with the fence marker. */
  predicate IsFenceLine(line: string) {
    StartsWith(Strip(line), Fence)
  }

  /** A line that is empty once stripped. */
  predicate IsBlank(line: string) {
    Strip(line) == ""
  }

  /** Content all of whose lines are blank. */
  predicate AllBlank(content: string) {
    forall i :: 0 <= i < |Split(content)| ==> IsBlank(Split(content)[i])
  }

  function Classify(line: string): LineKind {
    var stripped := Strip(line);
    FirstMatch(StartsWith(stripped, Fence), stripped == "", IsHorizontalRule(stripped),
               IsHeadingMarker(stripped), IsListItem(line), StartsWith(stripped, ">"))
  }

  /** The first test that holds, in the scan's priority order. */
  function FirstMatch(fence: bool, blank: bool, rule: bool, heading: bool, list: bool, quote: bool): LineKind {
    if fence then FenceLine
    else if blank then BlankLine
    else if rule then RuleLine
    else if heading then HeadingLine
    else if list then ListLine
    else if quote then QuoteLine
    else PlainLine
  }

  /** `re.sub(r'^#+\s*', '', raw)`: the leading `#` run of the raw text and the
      white space after it (an indented heading keeps its marker). */
  function HeadingText(raw: string): string {
    if |raw| > 0 && raw[0] == '#' then TrimStart(raw[LeadingCount(raw, '#')..], IsPySpace) else raw
  }

  /** The lines of a code block without its fence lines: the first and the last
      line are dropped when they start (unstripped) with the fence marker. */
  function CodeLines(lines: seq<string>): seq<string> {
    var body := if |lines| > 0 && StartsWith(lines[0], Fence) then lines[1..] else lines;
    if |body| > 0 && StartsWith(body[|body| - 1], Fence) then body[..|body| - 1] else body
  }

  /** `re.sub(r'^>\s?', '', s, flags=re.MULTILINE)` on the joined text: at the
      start of every original line one `>` and at most one white-space character
      after it are removed; `atLineStart` says whether the scan is at such a start.
      The optional white space may be the newline ending a bare `>` line. */
  function QuoteText(s: string, atLineStart: bool): string
    decreases |s|
  {
    if s == [] then []
    else if atLineStart && s[0] == '>' then
      if |s| > 1 && IsPySpace(s[1]) then QuoteText(s[2..], s[1] == '\n')
      else QuoteText(s[1..], false)
    else [s[0]] + QuoteText(s[1..], s[0] == '\n')
  }

  /** The display text of a block before the final strip. */
  function DisplayText(lines: seq<string>, kind: BlockType): string {
    match kind
    case Heading => HeadingText(Join(lines))
    case Code => Join(CodeLines(lines))
    case Blockquote => QuoteText(Join(lines), true)
    case _ => Join(lines)
  }

  /** The text a paragraph shows: the display text of its source lines, stripped. */
  function BlockText(p: Paragraph): string {
    Strip(DisplayText(Split(p.raw), p.blockType))
  }

  /** The paragraph `flush()` appends for a non-empty block. */
  function MakeParagraph(index: nat, lines: seq<string>, kind: BlockType): (p: Paragraph)
    ensures p.index == index && p.blockType == kind && p.raw == Join(lines)
    ensures IsTrimmed(p.text, IsPySpace)
  {
    StripFacts(DisplayText(lines, kind));
    Paragraph(index, Strip(DisplayText(lines, kind)), Join(lines), kind)
  }

  /** The scan's state: emitted paragraphs, the line buffer, its provisional
      type, the fenced-code flag and the running index. */
  datatype ScanState = ScanState(paragraphs: seq<Paragraph>, block: seq<string>, kind: BlockType, inCode: bool, idx: nat)

  const Initial: ScanState := ScanState([], [], Para, false, 0)

  /** `flush()`: nothing when the buffer is empty; otherwise emit the buffer as
      the next paragraph, bump the index and reset buffer and type. */
  function Flush(st: ScanState): ScanState {
    if st.block == [] then st
    else ScanState(st.paragraphs + [MakeParagraph(st.idx, st.block, st.kind)], [], Para, st.inCode, st.idx + 1)
  }

  function Append(st: ScanState, line: string): ScanState {
    st.(block := st.block + [line])
  }

  /** One iteration of the scan's loop body. */
  function Step(st: ScanState, line: string): ScanState {
    StepOn(st, Classify(line), line)
  }

  /** The loop body for a line of class `c`. */
  function StepOn(st: ScanState, c: LineKind, line: string): ScanState {
    if c == FenceLine then
      if st.inCode then CloseFence(st, line) else OpenFence(st, line)
    else if st.inCode then Append(st, line)
    else if c == BlankLine then Flush(st)
    else if c == RuleLine then SingleLine(st, Hr, line)
    else if c == HeadingLine then SingleLine(st, Heading, line)
    else if c == ListLine then Extend(st, List, line)
    else if c == QuoteLine then Extend(st, Blockquote, line)
    else Append(if st.kind != Para then Flush(st) else st, line).(kind := Para)
  }

  /** A fence line inside fenced code: it ends the block, which is emitted. */
  function CloseFence(st: ScanState, line: string): ScanState {
    Flush(Append(st, line).(inCode := false))
  }

  /** A fence line outside fenced code: the open block is emitted and a code
      block starts with this line. */
  function OpenFence(st: ScanState, line: string): ScanState {
    Append(Flush(st).(inCode := true, kind := Code), line)
  }

  /** A rule or a heading: the open block is emitted, then the line on its own. */
  function SingleLine(st: ScanState, kind: BlockType, line: string): ScanState {
    Flush(Append(Flush(st).(kind := kind), line))
  }

  /** A list item or a quote line: it joins the open block when that has the same
      type, and otherwise starts a new one. */
  function Extend(st: ScanState, kind: BlockType, line: string): ScanState {
    Append(if st.kind != kind then Flush(st).(kind := kind) else st, line)
  }

  /** The state after scanning `lines` from the initial state. */
  function Run(lines: seq<string>): ScanState
    decreases |lines|
  {
    if lines == [] then Initial else Step(Run(lines[..|lines| - 1]), lines[|lines| - 1])
  }

  /** What `parse_markdown_paragraphs(content)` returns: the scan over the lines
      of `content` followed by the final flush. */
  function Segmentation(content: string): seq<Paragraph> {
    Flush(Run(Split(content))).paragraphs
  }

  // Reference definitions the segmentation is proved against.

  /** Whether a fence is open after `lines`: every fence line toggles it. */
  function InFence(lines: seq<string>): bool
    decreases |lines|
  {
    if lines == [] then false
    else
      var prefix := lines[..|lines| - 1];
      if IsFenceLine(lines[|lines| - 1]) then !InFence(prefix) else InFence(prefix)
  }

  /** The lines of `lines` that belong to some block: all of them except the
      blank lines outside fenced code. */
  function Kept(lines: seq<string>): seq<string>
    decreases |lines|
  {
    if lines == [] then []
    else
      var prefix := lines[..|lines| - 1];
      var last := lines[|lines| - 1];
      Kept(prefix) + (if !InFence(prefix) && IsBlank(last) then [] else [last])
  }

  /** The source lines of `ps`, in order: every paragraph's `raw.split('\n')`. */
  function RawLines(ps: seq<Paragraph>): seq<string>
    decreases |ps|
  {
    if ps == [] then [] else RawLines(ps[..|ps| - 1]) + Split(ps[|ps| - 1].raw)
  }

  /** The shape a finished block of each type has. A code block opens with a
      fence line and holds no other fence line except, when `closed`, a last one. */
  predicate BlockShape(kind: BlockType, lines: seq<string>, closed: bool) {
    && |lines| >= 1
    && match kind
       case Heading => |lines| == 1 && Classify(lines[0]) == HeadingLine
       case Hr => |lines| == 1 && Classify(lines[0]) == RuleLine
       case List => forall k :: 0 <= k < |lines| ==> Classify(lines[k]) == ListLine
       case Blockquote => forall k :: 0 <= k < |lines| ==> Classify(lines[k]) == QuoteLine
       case Para => forall k :: 0 <= k < |lines| ==> Classify(lines[k]) == PlainLine
       case Code =>
         && Classify(lines[0]) == FenceLine
         && (forall k :: 1 <= k < |lines| - 1 ==> Classify(lines[k]) != FenceLine)
         && (closed <==> |lines| >= 2 && Classify(lines[|lines| - 1]) == FenceLine)
  }
}
