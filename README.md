# Interactive document editor: a verified model

The document editor is an MCP server with two tools.

- `collect_comments` splits a markdown document into paragraph-level blocks. It shows them in a browser page where the user attaches an editing instruction to any block, and it returns the instructions.
- `review_changes` shows proposed replacements, one per paragraph. The user accepts or rejects each one, and the tool returns the decisions.

Each tool runs one *session*. The server resets a module-level result slot and its completion flag. It writes the page into a scratch directory and serves that directory over HTTP. Then it waits, up to two hours, for the page to POST its result to `/submit`, and returns what it got.

This project models three parts of the system:

- **The markdown segmenter (`parse_markdown_paragraphs`).** It is an imperative line scan with a buffer, a current block type, a fence flag and an index counter. Its nested `flush` emits a block.
  - `Segmenter` defines the scan as a function, one step per line.
  - `MarkdownParser.ParseMarkdownParagraphs` is the loop itself, proved to compute that function.
  - `SegmenterProperties` proves what the scan guarantees: dense indices, no line lost, block shapes, unclosed fences, the empty result, and the trimmed display text.
  - `SegmenterGrouping` proves the grouping: consecutive lines of one groupable class share a block, and neighbouring blocks of one such type were split by a blank line.
  - `SegmenterRoundTrip` proves that segmenting the blocks' source texts, joined with blank lines, gives back the same blocks.
  - `DisplayProperties` proves what the display text of each block type is.
- **The two pages' client-side state, without the DOM.**
  - `ReviewPage.ReviewPage` is the review page's decision array with its toggle and bulk operations, its badges and its submitted result.
  - `CommentPage.CommentPage` is the comment page's selection, comment box and `commentMap`.
- **The session logic of `server.py` (module `Server`).**
  - `EditorServer` holds the `_result`/`_result_event` globals and a ghost flag for the scratch directory.
  - `do_POST` is modelled as a method, and as the pure `Post` that specifies it.
  - The module also covers the session reset, the outcome selection, the two fast failures, the cleanup on every exit path, and the `call_tool` dispatch.

`Text` holds Python's `str.strip`, `split('\n')` and `'\n'.join`, JavaScript's `trim`, and number formatting. The whitespace sets are written out character by character. `Json` holds JSON values and member lookup.

Three behaviours worth knowing:

- **Overwrite.** Every accepted POST to `/submit` overwrites the result slot (server.py:63). A later submit replaces an earlier one. `Server.LastSubmitWins` proves that the slot holds the last accepted body.
- **Malformed body.** A body that does not parse is answered with status 500 and `{"error": ...}` (server.py:71-75).
- **Blocks with no display text.** `flush` refuses only an empty line list (web_ui.py:38-39). So a block whose display text strips to nothing still gets an index: "```\n```" becomes one `code` block with text `""` (`SegmenterExamples.FenceOnly`).

Three more behaviours of the code as written are modelled, not corrected.

- **A bare `>` quote line** removes its own line break, because `^>\s?` lets `\s` match the newline. The bare line then disappears from the display text, and the lines before and after it become neighbouring lines: `["> a", ">", "> b"]` shows `"a\nb"` (`DisplayProperties.BareQuoteLineMerges`).
- **An indented closing fence** (`"  ```"`) is recognised as closing the fence by the scan. It is not removed from the code's display text, because that test is `startswith('```')` on the unstripped line (`DisplayProperties.IndentedFenceDisplay`).
- **An indented heading** keeps its `#` in its display text, because `^#+` is applied to the unstripped raw line (`DisplayProperties.IndentedHeadingDisplay`).

## Model

| member | source | states |
|---|---|---|
| Text.TrimFacts | plugins/document-editor/mcp-server/web_ui.py:58 | Trimming leaves no white space at either end. The result is empty exactly when every character is white space. An already trimmed string is unchanged. |
| Text.StripFacts | plugins/document-editor/mcp-server/web_ui.py:67 | `strip()` leaves no white space at either end. It is empty exactly when the line is all white space. |
| Text.TrimStartFacts | plugins/document-editor/mcp-server/web_ui.py:58 | Left trimming removes a prefix of white space only, and stops at a non-white-space character. |
| Text.TrimEndFacts | plugins/document-editor/mcp-server/web_ui.py:58 | Right trimming removes a suffix of white space only, and stops at a non-white-space character. |
| Text.Split | plugins/document-editor/mcp-server/web_ui.py:30 | `split('\n')` gives at least one piece, and no piece contains a newline. |
| Text.JoinSplit | plugins/document-editor/mcp-server/web_ui.py:30 | Joining the pieces of a split with `'\n'` gives back the string. |
| Text.SplitJoin | plugins/document-editor/mcp-server/web_ui.py:40 | Splitting the join of a non-empty list of newline-free lines gives back the lines. This is what makes a block's `raw` carry its lines. |
| Text.SplitSingle | plugins/document-editor/mcp-server/web_ui.py:30 | A string without newlines splits into itself alone. |
| Text.SplitLine | plugins/document-editor/mcp-server/web_ui.py:30 | Splitting `a + "\n" + rest` gives `a` followed by the pieces of `rest`. |
| Text.SplitConcat | plugins/document-editor/mcp-server/web_ui.py:30 | Splitting `a + "\n" + b` gives the pieces of `a` followed by the pieces of `b`. |
| Text.IsPySpace | plugins/document-editor/mcp-server/web_ui.py:67 | The characters `str.isspace()` accepts, which `strip()` removes and `\s` matches: U+0009 to U+000D, U+001C to U+001F, space, U+0085, U+00A0, U+1680, U+2000 to U+200A, U+2028, U+2029, U+202F, U+205F and U+3000. |
| Text.IsJsSpace | plugins/document-editor/mcp-server/web_ui.py:755 | The characters `String.prototype.trim` removes: U+0009 to U+000D, space, U+00A0, U+1680, U+2000 to U+200A, U+2028, U+2029, U+202F, U+205F, U+3000 and U+FEFF. |
| Text.Strip | plugins/document-editor/mcp-server/web_ui.py:67 | Python's `str.strip()` with no argument: both ends trimmed of Python white space. `Text.StripFacts` states what it leaves. |
| Text.Trim | plugins/document-editor/mcp-server/web_ui.py:755 | Both-ends trimming over a given white-space class. With JavaScript's class it is `value.trim()` of the comment box; `Text.TrimFacts` states what it leaves. |
| Text.Join | plugins/document-editor/mcp-server/web_ui.py:40 | `'\n'.join(lines)`: the lines with one newline between neighbours. `Text.JoinSplit` and `Text.SplitJoin` make it the inverse of `Split`. |
| Text.StartsWith | plugins/document-editor/mcp-server/web_ui.py:70 | `s.startswith(prefix)`: the prefix is no longer than `s` and equals its first characters. The fence test, the code-fence tests (web_ui.py:48, 50) and the quote test (web_ui.py:117) use it. |
| Text.IntToString | plugins/document-editor/mcp-server/server.py:145 | Python's `str` of an `int`, as the f-string writes it: a minus sign exactly when the number is negative, then decimal digits. |
| Text.IntToStringValue | plugins/document-editor/mcp-server/server.py:145 | The string of a negative number is `-` followed by the numeral of its magnitude. The string of any other number is its numeral, denoting the number itself. |
| Text.NatToString | plugins/document-editor/mcp-server/web_ui.py:800 | A count is written as a non-empty string of decimal digits. `Text.NatToStringValue` proves which digits. |
| Text.NatToStringValue | plugins/document-editor/mcp-server/web_ui.py:800 | The digits denote the number (`DigitsValue(NatToString(n)) == n`), and the first digit is `0` exactly when the number is zero, so there is no leading zero. |
| Json.Truthy | plugins/document-editor/mcp-server/server.py:243 | Python truthiness of a decoded JSON value: `None`, `False`, `0`, `""`, `[]` and `{}` are false and everything else is true. This is the `not changes` test. |
| Json.GetObject2 | plugins/document-editor/mcp-server/server.py:143-146 | Both members of a two-key object literal are found. |
| Segmenter.BlockType.Name | plugins/document-editor/mcp-server/web_ui.py:21 | The six `block_type` tags: `heading`, `paragraph`, `list`, `code`, `blockquote` and `hr`, the strings the scan assigns at web_ui.py:32, 79, 96, 104, 112 and 120. |
| Segmenter.IsFenceLine | plugins/document-editor/mcp-server/web_ui.py:70 | A line whose stripped form starts with three backticks. |
| Segmenter.IsBlank | plugins/document-editor/mcp-server/web_ui.py:88 | A line that strips to the empty string. |
| Segmenter.AllBlank | plugins/document-editor/mcp-server/server.py:176-181 | Content every line of which is blank. `SegmenterProperties.EmptyIffBlank` proves these are the contents with no paragraphs, which is the `not paragraphs` test. |
| Segmenter.LeadingCount | plugins/document-editor/mcp-server/web_ui.py:44 | Gives the length of the maximal run of a character at the start of a line: `#+`, and the runs of `-`, `*` or `_` in a rule. |
| Segmenter.LeadingSpaces | plugins/document-editor/mcp-server/web_ui.py:109 | Gives the length of the maximal run of leading white space (`\s*` of the list regex). |
| Segmenter.LeadingDigits | plugins/document-editor/mcp-server/web_ui.py:109 | Gives the length of the maximal run of leading digits (`\d+` of the list regex). |
| Segmenter.IsHorizontalRule | plugins/document-editor/mcp-server/web_ui.py:93 | The rule regex on the stripped line: three or more characters, each the same one of `-`, `*` and `_`. `SegmenterProperties.RuleMatch` proves this reading. |
| SegmenterProperties.RuleMatch | plugins/document-editor/mcp-server/web_ui.py:93 | A stripped line is a rule exactly when it has at least three characters, all equal to its first, and the first is `-`, `*` or `_`. |
| Segmenter.IsHeadingMarker | plugins/document-editor/mcp-server/web_ui.py:101 | The heading regex on the stripped line: one to six `#`, then a white-space character. |
| SegmenterProperties.HeadingMatch | plugins/document-editor/mcp-server/web_ui.py:101 | A stripped line is a heading exactly when some run of one to six `#` at its start is followed by white space. The leading `#` run is that run, so measuring it loses no match. |
| Segmenter.IsListItem | plugins/document-editor/mcp-server/web_ui.py:109 | The list regex on the unstripped line: leading white space, then `-`, `*` or `+`, or digits and a dot, then one white-space character. The test takes all of the leading white space and all of the digits; `SegmenterProperties.ListMatch` proves that this loses no match. |
| SegmenterProperties.ListMatch | plugins/document-editor/mcp-server/web_ui.py:109 | A line is a list item exactly when some white-space prefix of it is followed by `-`, `*` or `+`, or by one or more digits and a dot, and then by a white-space character. This is the list regex read with backtracking. |
| Segmenter.Classify | plugins/document-editor/mcp-server/web_ui.py:67-128 | The class of a line, tested in the loop's order: fence (stripped line starts with three backticks), blank (strips to nothing), rule, heading, list item (on the raw line), quote (stripped line starts with `>`), and plain text otherwise. |
| Segmenter.HeadingText | plugins/document-editor/mcp-server/web_ui.py:44 | `re.sub(r'^#+\s*', '', raw)`: a raw text starting with `#` loses its `#` run and the white space after it. Any other text is unchanged, so an indented heading keeps its marker. |
| Segmenter.CodeLines | plugins/document-editor/mcp-server/web_ui.py:47-51 | The first line and then the last remaining line are dropped when they start, unstripped, with three backticks. |
| Segmenter.QuoteText | plugins/document-editor/mcp-server/web_ui.py:54 | The multi-line `^>\s?` substitution, scanned character by character: at each line start, one `>` and at most one white-space character after it are removed. That character may be the newline. |
| Segmenter.DisplayText | plugins/document-editor/mcp-server/web_ui.py:41-54 | A block's text before the final strip: headings lose their marker, code loses its fence lines, quotes lose their markers, and the other types keep their joined lines. |
| Segmenter.MakeParagraph | plugins/document-editor/mcp-server/web_ui.py:40-61 | An emitted block carries the given index and type. Its `raw` is the lines joined by newlines, and its text is trimmed. |
| Segmenter.Flush | plugins/document-editor/mcp-server/web_ui.py:36-64 | `flush()`: with an empty buffer nothing changes. Otherwise the buffer is appended as the block with the next index, the index goes up by one, and the buffer and type are reset to empty and `paragraph`. This is the specification of `MarkdownParser.FlushBlock`. |
| Segmenter.Step | plugins/document-editor/mcp-server/web_ui.py:66-128 | One loop iteration, on the class `Classify` gives the line. |
| Segmenter.StepOn | plugins/document-editor/mcp-server/web_ui.py:70-128 | The loop body by line class: a fence line closes or opens a fence, and inside a fence every line is buffered. A blank line flushes. A rule or heading is flushed on its own. A list item or quote joins a block of its type or starts one. Text does the same for `paragraph`. |
| Segmenter.CloseFence | plugins/document-editor/mcp-server/web_ui.py:71-75 | A fence line inside a fence is buffered, the fence closes, and the code block is emitted. |
| Segmenter.OpenFence | plugins/document-editor/mcp-server/web_ui.py:76-81 | A fence line outside a fence emits the open block, opens the fence and starts a code block with this line. |
| Segmenter.SingleLine | plugins/document-editor/mcp-server/web_ui.py:93-106 | A rule or heading line emits the open block, then is emitted alone as a block of its type. |
| Segmenter.Extend | plugins/document-editor/mcp-server/web_ui.py:109-122 | A list item or quote line joins the open block when it has the same type. Otherwise the open block is emitted and a new one of that type starts. |
| Segmenter.Run | plugins/document-editor/mcp-server/web_ui.py:66-128 | The scan's state after the loop has read a prefix of the lines, one step per line in order. |
| Segmenter.Segmentation | plugins/document-editor/mcp-server/web_ui.py:24-133 | `parse_markdown_paragraphs(content)`: the scan over `content.split('\n')` followed by the final flush. |
| Segmenter.InFence | plugins/document-editor/mcp-server/web_ui.py:70-81 | A fence is open after a run of lines exactly when the run holds an odd number of fence lines. Only fence lines change the fence flag. |
| Segmenter.Kept | plugins/document-editor/mcp-server/web_ui.py:66-90 | The lines that belong to some block: every line except the blank lines read outside a fence. |
| MarkdownParser.FlushBlock | plugins/document-editor/mcp-server/web_ui.py:36-64 | `flush()` on the scan's locals does what `Segmenter.Flush` specifies. An empty buffer changes nothing. Otherwise it emits one block with the next index, the joined raw text and the stripped display text, then empties the buffer and resets the type. |
| MarkdownParser.ScanLine | plugins/document-editor/mcp-server/web_ui.py:66-128 | One iteration of the loop, which tests the line in priority order (fence, inside a fence, blank, rule, heading, list, quote, text), equals one `Segmenter.Step`. |
| MarkdownParser.ParseMarkdownParagraphs | plugins/document-editor/mcp-server/web_ui.py:24-133 | The scan returns `Segmentation(content)`, with indices 0..N-1 and every kept line in order. It returns no block exactly when every line is blank. |
| SegmenterProperties.FlushFacts | plugins/document-editor/mcp-server/web_ui.py:36-64 | A flush keeps the indices dense and loses no buffered line. An empty buffer is left alone. A non-empty buffer becomes one block of the buffer's type, with its lines and its stripped display text. |
| SegmenterProperties.StepPreserves | plugins/document-editor/mcp-server/web_ui.py:66-128 | The scan invariant holds again after every line. The invariant covers dense indices, kept lines in order, the fence flag, the shape of the open buffer and of every emitted block, and the text of every emitted block. |
| SegmenterProperties.RunInv | plugins/document-editor/mcp-server/web_ui.py:66-128 | The scan invariant holds after any prefix of the lines. |
| SegmenterProperties.FinalFlush | plugins/document-editor/mcp-server/web_ui.py:130-131 | After the final flush the invariant's facts hold of the finished block list. An open fence ends in a `code` block. |
| SegmenterProperties.SegmentationInv | plugins/document-editor/mcp-server/web_ui.py:24-133 | Gives all segmentation guarantees together. |
| SegmenterProperties.DenseIndices | plugins/document-editor/mcp-server/web_ui.py:56-62 | Blocks carry the indices 0..N-1 in emission order. |
| SegmenterProperties.NoLineLost | plugins/document-editor/mcp-server/web_ui.py:66-131 | Concatenating the blocks' `raw.split('\n')` in order gives the input lines without the blank lines outside fences. |
| SegmenterProperties.BlockShapes | plugins/document-editor/mcp-server/web_ui.py:88-128 | Heading and rule blocks are exactly one line of their class. Every line of a list, quote or text block is of that class, so a change of class always began a new block. A code block opens with a fence, holds no other fence line, and ends with a fence unless it is the last block of an unclosed fence. |
| SegmenterProperties.UnclosedFence | plugins/document-editor/mcp-server/web_ui.py:130-131 | A fence still open at the end is emitted by the final flush as the last block, of type `code`. |
| SegmenterProperties.TextIsDisplayText | plugins/document-editor/mcp-server/web_ui.py:41-58 | Every block's text is its type's display text of its raw lines, stripped, so it is trimmed. |
| SegmenterProperties.NonBlankBlocks | plugins/document-editor/mcp-server/web_ui.py:88-90 | Every block has a non-empty line list whose first line is not blank. Only `code` blocks contain blank lines. |
| SegmenterProperties.ShapedNonBlank | plugins/document-editor/mcp-server/web_ui.py:88-90 | A block of any shape starts with a non-blank line. Only the code shape admits blank lines. |
| SegmenterProperties.KeptEmpty | plugins/document-editor/mcp-server/web_ui.py:88-90 | No line is kept exactly when every line is blank. |
| SegmenterProperties.BlankNoFence | plugins/document-editor/mcp-server/web_ui.py:70 | Blank lines never open a fence. |
| SegmenterProperties.EmptyIffBlank | plugins/document-editor/mcp-server/web_ui.py:38-39 | Empty or blank-only content yields no blocks. Any other content yields at least one. |
| SegmenterGrouping.ConsecutiveLinesJoin | plugins/document-editor/mcp-server/web_ui.py:109-128 | Two consecutive list items, two consecutive quote lines or two consecutive text lines outside a fence go into one block. After the first, the open block has that type and ends with it. The second is appended to the same block and nothing is emitted between them. |
| SegmenterGrouping.SameTypeBlocksSeparated | plugins/document-editor/mcp-server/web_ui.py:24-133 | Blocks are maximal. Two neighbouring blocks that are both lists, both quotes or both paragraphs were split by a blank line outside a fence. That line was read when exactly the blocks up to the first were emitted and nothing was buffered. |
| SegmenterRoundTrip.BlockRun | plugins/document-editor/mcp-server/web_ui.py:66-128 | The lines of one finished block, read from a clean state after the blocks before it, rebuild exactly that block with the next index. |
| SegmenterRoundTrip.SplitRejoin | plugins/document-editor/mcp-server/web_ui.py:30 | Splitting the blocks' `raw` texts joined with blank lines gives each block's lines with one empty line between neighbours. |
| SegmenterRoundTrip.RejoinRun | plugins/document-editor/mcp-server/web_ui.py:66-128 | Scanning the rejoined lines of blocks of the scan's own output rebuilds those same blocks. |
| SegmenterRoundTrip.SegmentationIdempotent | plugins/document-editor/mcp-server/web_ui.py:24-133 | Segmenting the blocks' `raw` texts joined with blank lines gives back the same blocks: the same indices, types, raw texts and display texts. |
| DisplayProperties.HeadingDisplay | plugins/document-editor/mcp-server/web_ui.py:43-44 | An unindented heading's text is what follows its `#` run, stripped. |
| DisplayProperties.IndentedHeadingDisplay | plugins/document-editor/mcp-server/web_ui.py:44 | An indented heading only loses its surrounding white space: `"  # Title"` shows `"# Title"`. |
| DisplayProperties.CodeDisplay | plugins/document-editor/mcp-server/web_ui.py:45-52 | A code block whose first and last lines start with three backticks shows exactly the lines between them. |
| DisplayProperties.IndentedFenceDisplay | plugins/document-editor/mcp-server/web_ui.py:50 | An indented closing fence stays in the code text. |
| DisplayProperties.QuoteDisplay | plugins/document-editor/mcp-server/web_ui.py:53-54 | A quote block's text is the join of its lines, each with one leading `>` and at most one white-space character after it removed; a bare `>` line that is not last vanishes. |
| DisplayProperties.QuoteLines | plugins/document-editor/mcp-server/web_ui.py:53-54 | A quote block's lines after marker removal. There are at most as many as in the block, and the last is the last line with its marker removed. With no bare `>` line before the last, every line keeps its place and just loses its marker. |
| DisplayProperties.QuoteTextBreak | plugins/document-editor/mcp-server/web_ui.py:54 | The multi-line marker removal works line by line across a line break after any line other than a bare `>` at a line start. |
| DisplayProperties.QuoteTextLine | plugins/document-editor/mcp-server/web_ui.py:54 | On one line the removal drops a leading `>` and one white-space character after it. |
| DisplayProperties.BareQuoteLineMerges | plugins/document-editor/mcp-server/web_ui.py:54 | `["> a", ">", "> b"]` shows `"a\nb"`. |
| SegmenterExamples.EmptyCodeParagraph | plugins/document-editor/mcp-server/web_ui.py:38-61 | A code block of two fence lines has the empty text and is still emitted with an index. |
| SegmenterExamples.FenceOnly | plugins/document-editor/mcp-server/web_ui.py:24-133 | "```\n```" segments into one `code` block with index 0, text `""` and the two fence lines as raw text. |
| ReviewPage.Decision.Name | plugins/document-editor/mcp-server/web_ui.py:1277-1278 | The three state strings: `'pending'`, `'accepted'` and `'rejected'`. |
| ReviewPage.Toggle | plugins/document-editor/mcp-server/web_ui.py:1319 | `setDecision`'s rule: choosing the state an entry already has makes it pending, and choosing any other state sets it. `ToggleResult` states the outcome. |
| ReviewPage.ToggleTwice | plugins/document-editor/mcp-server/web_ui.py:1319 | Pressing the same accept or reject button twice brings an entry back when it started pending or in the state that button sets. |
| ReviewPage.ToggleResult | plugins/document-editor/mcp-server/web_ui.py:1319 | `setDecision` lands on the chosen state exactly when the entry was not already in it. It lands on pending exactly when it was. |
| ReviewPage.CountsPartition | plugins/document-editor/mcp-server/web_ui.py:1339-1341 | The pending, accepted and rejected counts add up to the number of changes. |
| ReviewPage.Count | plugins/document-editor/mcp-server/web_ui.py:1339-1341 | `decisions.filter(d => d === x).length`: at most the number of entries, and zero exactly when no entry is `x`. |
| ReviewPage.CountUniform | plugins/document-editor/mcp-server/web_ui.py:1323-1336 | After a bulk operation every entry has the one value, and the other counts are zero. |
| ReviewPage.CountUpdate | plugins/document-editor/mcp-server/web_ui.py:1338-1341 | Changing one entry moves one unit from its old count to its new one. |
| ReviewPage.Submitted | plugins/document-editor/mcp-server/web_ui.py:1351-1356 | The submitted list has one entry per change, in input order. Each entry copies the change and is `accepted` exactly when its decision is accepted; a pending change counts as not accepted. |
| ReviewPage.SubmittedDecision.ToJson | plugins/document-editor/mcp-server/web_ui.py:1351-1356 | One submitted decision as the object `{paragraph_index, original, suggested, accepted}`. |
| ReviewPage.ReviewPage.constructor | plugins/document-editor/mcp-server/web_ui.py:1278 | The page starts with every change pending. |
| ReviewPage.ReviewPage.SetDecision | plugins/document-editor/mcp-server/web_ui.py:1318-1321 | Entry `index` toggles, and every other entry is unchanged. |
| ReviewPage.ReviewPage.AcceptAll | plugins/document-editor/mcp-server/web_ui.py:1323-1326 | Every entry becomes accepted. |
| ReviewPage.ReviewPage.RejectAll | plugins/document-editor/mcp-server/web_ui.py:1328-1331 | Every entry becomes rejected. |
| ReviewPage.ReviewPage.ResetAll | plugins/document-editor/mcp-server/web_ui.py:1333-1336 | Every entry becomes pending. |
| ReviewPage.ReviewPage.Badges | plugins/document-editor/mcp-server/web_ui.py:1338-1346 | The three badge counts add up to the number of changes. |
| ReviewPage.ReviewPage.BadgeLabels | plugins/document-editor/mcp-server/web_ui.py:1343-1345 | The three badges read the pending, accepted and rejected counts in decimal, each followed by the name of its state. |
| ReviewPage.ReviewPage.SubmitPayload | plugins/document-editor/mcp-server/web_ui.py:1348-1357 | The posted body has status `submitted`. Its `decisions` array holds, in change order, the JSON object of each `Submitted` entry, one per change. |
| ReviewPage.CancelPayload | plugins/document-editor/mcp-server/web_ui.py:1376 | The cancel body is exactly `{status: 'cancelled', decisions: []}`: those two members and no others. |
| ReviewPage.BulkSubmitted | plugins/document-editor/mcp-server/web_ui.py:1323-1356 | After accept-all every change is submitted as accepted. After reject-all or reset-all none is. |
| ReviewPage.SetDecisionSubmitted | plugins/document-editor/mcp-server/web_ui.py:1318-1356 | A toggle changes only its own change's submitted entry. |
| CommentPage.KeysBelow | plugins/document-editor/mcp-server/web_ui.py:808 | Gives the commented indices below a bound, strictly ascending, each exactly once. |
| CommentPage.AscendingUnique | plugins/document-editor/mcp-server/web_ui.py:808 | Two strictly ascending index lists with the same elements are equal, so the sorted order is unique. |
| CommentPage.SortedKeysUnique | plugins/document-editor/mcp-server/web_ui.py:853-860 | Any ascending listing of the commented indices, which is what the `sort` produces, equals the model's listing. |
| CommentPage.Entries | plugins/document-editor/mcp-server/web_ui.py:853-860 | For each listed index, in the listed order, the entry carries that index, that paragraph's `raw` text and its comment. |
| CommentPage.SubmittedComment.ToJson | plugins/document-editor/mcp-server/web_ui.py:855-859 | One submitted comment as the object `{paragraph_index, paragraph_text, instruction}`. |
| CommentPage.CancelPayload | plugins/document-editor/mcp-server/web_ui.py:884 | The cancel body is exactly `{status: 'cancelled', comments: []}`: those two members and no others. |
| CommentPage.SubmitBody | plugins/document-editor/mcp-server/web_ui.py:862-865 | The body has status `submitted`, and its `comments` array holds the JSON object of each entry in order. |
| CommentPage.CommentPage.constructor | plugins/document-editor/mcp-server/web_ui.py:700-702 | The page starts with no selection, no comments and the edit tab. |
| CommentPage.CommentPage.SelectParagraph | plugins/document-editor/mcp-server/web_ui.py:729-751 | Selects the paragraph and loads its comment, or nothing, into the comment box. Shows the edit tab. The comments are unchanged. |
| CommentPage.CommentPage.EditDraft | plugins/document-editor/mcp-server/web_ui.py:666 | Typing into the comment box changes its value and nothing else. |
| CommentPage.CommentPage.SaveComment | plugins/document-editor/mcp-server/web_ui.py:753-777 | Nothing changes with no selection or with a box that trims to nothing. Otherwise the trimmed text replaces that paragraph's comment, nothing else in the map changes, and the selection is cleared. Comments stay trimmed and non-empty. |
| CommentPage.CommentPage.CancelEdit | plugins/document-editor/mcp-server/web_ui.py:779-784 | Clears the selection and nothing else. |
| CommentPage.CommentPage.DeleteComment | plugins/document-editor/mcp-server/web_ui.py:786-796 | Removes that paragraph's comment, if any, and nothing else. |
| CommentPage.CommentPage.SwitchTab | plugins/document-editor/mcp-server/web_ui.py:831-850 | Changes the tab and nothing else. |
| CommentPage.CommentPage.SubmitEnabled | plugins/document-editor/mcp-server/web_ui.py:802 | Submit is enabled exactly when some paragraph has a comment. |
| CommentPage.CommentPage.CommentCount | plugins/document-editor/mcp-server/web_ui.py:799 | `Object.keys(commentMap).length`, which is zero exactly when there is no comment. |
| CommentPage.CommentPage.CountLabel | plugins/document-editor/mcp-server/web_ui.py:800 | The count badge is the count in decimal followed by ` comment`, and it ends in the plural `s` exactly when the count is not 1. |
| CommentPage.CommentList | plugins/document-editor/mcp-server/web_ui.py:805-829 | The comment list shows every comment once, with its index, in strictly ascending index order. |
| CommentPage.Submitted | plugins/document-editor/mcp-server/web_ui.py:852-860 | The submitted list has exactly one entry per comment, sorted ascending by `paragraph_index`. `paragraph_text` is the block's `raw` and `instruction` is the comment. |
| CommentPage.SubmittedCount | plugins/document-editor/mcp-server/web_ui.py:852-860 | The submitted list has exactly as many entries as there are comments. |
| CommentPage.AscendingCount | plugins/document-editor/mcp-server/web_ui.py:852-853 | A strictly ascending listing of a map's keys has as many entries as the map. |
| CommentPage.CommentPage.SubmitPayload | plugins/document-editor/mcp-server/web_ui.py:852-865 | The posted body has status `submitted`. Its `comments` array holds the JSON object of each `Submitted` entry, in ascending paragraph order, one per comment. |
| Server.Post | plugins/document-editor/mcp-server/server.py:54-78 | A parseable body on `/submit` replaces the slot, sets the flag and is answered 200 `{"status": "ok"}`. A malformed body is answered 500 with the error and changes nothing. Any other path is answered 404 and changes nothing. |
| Server.OkBody | plugins/document-editor/mcp-server/server.py:70 | The 200 answer to an accepted submit: `{"status": "ok"}`. |
| Server.ErrorBody | plugins/document-editor/mcp-server/server.py:75 | The 500 answer to a body that does not parse: `{"error": str(e)}`. |
| Server.IsSubmit | plugins/document-editor/mcp-server/server.py:58-64 | A request is accepted exactly when it is on `/submit` and its body parses. |
| Server.SlotAfter | plugins/document-editor/mcp-server/server.py:125-128 | The globals after the server thread has handled a run of requests in order, one `do_POST` each. |
| Server.SignalledAfter | plugins/document-editor/mcp-server/server.py:63-64 | After a run of requests the flag is set exactly when it was set before or some request was accepted. |
| Server.NoSubmitKeepsSlot | plugins/document-editor/mcp-server/server.py:71-78 | Requests none of which is accepted leave slot and flag unchanged. |
| Server.LastSubmitWins | plugins/document-editor/mcp-server/server.py:63 | Once a request was accepted, the slot holds the body of the last accepted one. |
| Server.Responses | plugins/document-editor/mcp-server/server.py:54-78 | Gives one response per request. |
| Server.ResponseCodes | plugins/document-editor/mcp-server/server.py:66-78 | Each response in a run is 200 for an accepted request, 500 with the error for a malformed body on `/submit`, and 404 for any other path, whatever came before. |
| Server.SlotAfterAppend | plugins/document-editor/mcp-server/server.py:54-78 | Serving two runs one after the other is serving their concatenation. |
| Server.SelectOutcome | plugins/document-editor/mcp-server/server.py:142-154 | Without the flag, the outcome is the two-member timeout result with the given message. With the flag and a `None` slot, it is the two-member error "No result received". Otherwise it is the slot verbatim. |
| Server.Outcome | plugins/document-editor/mcp-server/server.py:135-154 | A session's return value: the wait's flag is read after the requests before the wait returned, and the slot after all requests up to the shutdown. |
| Server.TimesOutWithoutSubmit | plugins/document-editor/mcp-server/server.py:135-146 | A session in which no POST was accepted before the wait ended times out, whatever arrived afterwards. |
| Server.ReturnsLastSubmit | plugins/document-editor/mcp-server/server.py:148-154 | Once a POST was accepted before the wait ended, the session returns the last body accepted before shutdown, or "No result received" if that body was `null`. |
| Server.SingleSubmit | plugins/document-editor/mcp-server/server.py:148-154 | A session whose only accepted POST carried `body` returns `body`, or the error for `null`. |
| Server.CancelPassesThrough | plugins/document-editor/mcp-server/server.py:154 | A page's cancel body (both pages) is returned unchanged as the session outcome. |
| Server.TimeoutMessage | plugins/document-editor/mcp-server/server.py:145 | "Timed out after N minutes", with N the timeout divided by 60 and rounded down. |
| Server.DefaultTimeoutMessage | plugins/document-editor/mcp-server/server.py:142-146 | With the default 7200 seconds `_serve_and_wait` reports "Timed out after 120 minutes". |
| Server.ErrorResult | plugins/document-editor/mcp-server/server.py:177-181 | The error result has exactly two members: status `error` and the message. It is used for both fast failures (server.py:244-247 too). |
| Server.EditorServer.constructor | plugins/document-editor/mcp-server/server.py:35-36 | The slot starts as `None` with the flag clear. |
| Server.EditorServer.Reset | plugins/document-editor/mcp-server/server.py:107-109 | A session start sets the slot to `None` and clears the flag; the two inline flows do the same at server.py:188-189 and 250-251. |
| Server.EditorServer.DoPost | plugins/document-editor/mcp-server/server.py:54-78 | The handler's effect on the globals and its response are those of `Post`. |
| Server.EditorServer.Serve | plugins/document-editor/mcp-server/server.py:125-128 | Serving a run of requests leaves the slot of `SlotAfter` and answers with `Responses`. |
| Server.EditorServer.RunSession | plugins/document-editor/mcp-server/server.py:107-161 | The state is reset first. Without a failure, the session returns `Outcome` of the requests of this session: one session runs at a time, and the reset discards any earlier result. A failure raises. After success, or any failure past the directory's creation, the directory is removed. |
| Server.EditorServer.ServeAndWait | plugins/document-editor/mcp-server/server.py:100-161 | `_serve_and_wait`: a session whose timeout message gives the wait in whole minutes. Without a failure, the globals end as the requests of the session left them. No tool calls it: `collect_comments_impl` (server.py:187-230) and `review_changes_impl` (server.py:249-292) each run their own inline copy of the same flow, modelled by `CollectComments` and `ReviewChanges`. |
| Server.EditorServer.CollectComments | plugins/document-editor/mcp-server/server.py:164-230 | Content without paragraphs returns "No paragraphs found in the content" before any reset or directory, and changes nothing. Otherwise the call is a session with the two-hour message: it returns the outcome and leaves the globals as the requests left them, or raises, and the directory is removed. |
| Server.EditorServer.ReviewChanges | plugins/document-editor/mcp-server/server.py:233-292 | A falsy change list returns "No changes provided" before any reset or directory, and changes nothing. Otherwise the call is a session with the two-hour message: it returns the outcome and leaves the globals as the requests left them, or raises, and the directory is removed. |
| Server.EditorServer.CallTool | plugins/document-editor/mcp-server/server.py:376-399 | An unknown name returns the unknown-tool error and changes nothing. Content that is not a string raises and changes nothing. Otherwise the dispatched tool's fast failure, which changes nothing, or its session is run, with the session's outcome, final globals, exception and cleanup. |
| Server.GetOr | plugins/document-editor/mcp-server/server.py:380-381 | `arguments.get(key, default)` gives the argument when present and the default otherwise. |
| Server.Dispatch | plugins/document-editor/mcp-server/server.py:379-399 | `collect_comments` and `review_changes` are dispatched with `content` defaulting to `""`, `title` to `"Document"` and `changes` to `[]`. Every other name is unknown. |
| Server.UnknownToolError | plugins/document-editor/mcp-server/server.py:396-399 | The unknown-tool result is exactly `{"error": "Unknown tool: <name>"}`, with that one member. |
| Server.MissingContentHasNoParagraphs | plugins/document-editor/mcp-server/server.py:379-382 | `collect_comments` without content gets `""`, which has no paragraphs, so it fails fast. |
| Server.MissingChangesIsFalsy | plugins/document-editor/mcp-server/server.py:388-390 | `review_changes` without changes gets `[]`, which is falsy, so it fails fast. |

## Left out

- **HTML and rendering.** The HTML/CSS templates of `generate_comment_html` and `generate_review_html` are not modelled. Neither are the DOM updates, `marked.parse`, `escapeHtml`, previews and focus: they are presentation or foreign code.
- **JSON text.** `json.dumps`, `JSON.stringify` and the text `call_tool` wraps in `TextContent` are not modelled. The model works on JSON values; their serialisation is a library call.
- **JSON numbers** are integers only. No core logic depends on fractional numbers.
- **HTTP and concurrency.**
  - Not modelled: the HTTP server and static file serving, `do_OPTIONS` and its CORS headers, and reading the `Content-Length` body.
  - A missing or bad `Content-Length` raises outside the `try` in `do_POST`. That case is not modelled (I/O plumbing).
  - Server.Post: always answers 200 to a body that parses. In `do_POST`, if sending that 200 response raises, the `except` sends a 500 instead, after `_result` and the event were already set (server.py:63-75). That send failure is I/O and is not modelled.
  - Overlapping sessions are not modelled. `_result` and `_result_event` are module globals shared by every `call_tool` (server.py:35-36, 107-109, 188-189, 250-251). A second session that starts while one is waiting resets and overwrites the first one's result. The model runs one session at a time, and `Server.EditorServer.RunSession`'s outcome depends only on its own requests under that assumption.
  - Threads, `serve_forever`/`shutdown` and the real clock are replaced by two request lists. One holds the requests served before the wait returned, the other those served between the wait and the shutdown. Any split is allowed, which over-approximates which interleavings can happen.
- **Files, ports and the browser.** `find_free_port`, `uuid`, `tempfile`, `mkdir`, `write_text`, `shutil.rmtree` and `webbrowser.open` are represented only by the ghost `scratchExists` flag. A `Failure` parameter says where setup raises.
  - `shutil.rmtree` is called with `ignore_errors=True` (server.py:159, 228, 290), so a failed removal goes unnoticed. The model treats removal as always succeeding.
  - After a failure once the server has started, the server thread keeps running, because nothing in the `finally` shuts it down. That thread is not modelled.
- **The MCP transport, signal handlers and the `list_tools` schema literal** are not modelled: they are plumbing and constant data.
- **Keyboard shortcuts** are not modelled. On the comment page (web_ui.py:892-918) they only call `saveComment`, `submitComments` and `cancelEdit` behind the same enabled checks. On the review page (web_ui.py:1384-1393), Cmd/Ctrl+Enter calls `submitReview` and Escape calls `cancelReview`.
- **Regular expressions.** Python regexes are written as predicates, not as a regex engine.
  - `\s` and `strip()` use Python's white-space set, and `trim()` uses JavaScript's.
  - `\d` is ASCII digits only; Python also accepts other Unicode decimal digits.
- **Non-string content.** In `call_tool`, content that is not a string is modelled as raising at once. In Python, `content.split` raises inside `collect_comments_impl` before any state changes, so the effect is the same.
- ReviewPage.ReviewPage.SetDecision: requires an index inside the list. The page only calls it from the buttons of existing changes. A JavaScript write past the end would extend the array.
- CommentPage.CommentPage.SelectParagraph: requires an index of a shown paragraph. The page only calls it from rendered blocks and list entries.
