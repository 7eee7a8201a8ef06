# fasternet text blocks, modelled in Dafny

fasternet renders markdown documents with webrender. This project models
the part of it that turns markdown into styled text and then into drawn
glyphs:

- the markdown front end (`fasternet_common/src/markdown.rs`). It walks the
  event stream of the markdown parser and builds text blocks. Each block
  is one string plus its chunks (styled byte ranges). A block either has
  no chunks or, when its text is shorter than 65536 bytes, chunks that
  cover it without gap or overlap.
- the document types (`fasternet_common/src/lib.rs`): `TextBlock`,
  `Chunk`, `TextKind` and the `TextBlock::example` fixture.
- the client's style side (`fasternet_client/src/style.rs`):
  - the default theme's style table;
  - the assembly of a text block into one glyph buffer with one built
    chunk per chunk;
  - drawing those chunks as text runs.

Modules, one file each:

- `Wrappers` (`wrappers.dfy`): `Option` and `Result`.
- `Document` (`document.dfy`):
  - the block and chunk types, with text as UTF-8 bytes and offsets as
    `u16`;
  - Rust's `as u16` truncation (`AsU16`);
  - the `Tiles` predicate: chunks follow each other without gap or
    overlap and cover `lo..hi`;
  - the fixture.
- `Markdown` (`markdown.dfy`):
  - `TagStyle`, `AddChunk` and `EndBlock`;
  - `ParseMarkdown`, an imperative loop over an event sequence. It is
    proved equal to the left fold `Run` of the one-event function `Step`.
  - what the loop keeps invariant, on every event stream and on
    well-nested ones.
- `Style` (`style.dfy`):
  - `NewTheme`;
  - `LayoutGlyphs` and `NewBuiltTextBlock`, proved against the
    specification functions `GlyphRun` and `BuildBlock`. `BuildBlock`
    returns the panic (`Panic`) where the source would panic.
  - `Draw` and `DrawChunk` over a `DisplayListBuilder` class, proved
    against `DrawRuns`.
- `Pipeline` (`pipeline.dfy`): from parsed blocks to drawn glyphs, end to
  end.

The markdown parser is an input: a sequence of `Text`, `Start(tag)`,
`End(tag)` and other events. The font's glyph lookup is a function
parameter, `GlyphLookup`. It stands for the renderer's lookup, which
gives one optional glyph index per character of the text it is handed;
the model does not constrain how many results it returns.

`TextKind` has seven variants here. `lib.rs:37-44` declares only five
(`Header1`, `Header2`, `Paragraph`, `ParagraphBold`, `Link`). But
`markdown.rs:20-21` also produces `ParagraphItalic` and `ParagraphCode`.
The model follows the code that produces the kinds.

## Model

| member | source | states |
|---|---|---|
| Document.AsU16 | fasternet_common/src/markdown.rs:29-30 | `as u16` keeps an offset below 65536 unchanged and any offset congruent to its result modulo 65536: only the low 16 bits are kept |
| Document.TilesBounds | fasternet_common/src/lib.rs:29-35 | every chunk of a tiling of `lo..hi` satisfies `lo <= start <= end <= hi` |
| Document.TilesExtend | fasternet_common/src/markdown.rs:28-34 | a chunk that starts where a tiling ends extends the tiling to its own end |
| Document.ExampleChunks | fasternet_common/src/lib.rs:47-59 | `Example`, the `TextBlock::example` fixture: its text is 189 bytes, so the `as u16` cast is lossless; its chunks are exactly 0..9, 9..16, 16..19 and 19..189, in that order, and they tile the text |
| Document.ExampleLinkIsFox | fasternet_common/src/lib.rs:48-53 | the only link chunk is the third, bytes 16..19, which are "fox"; every other chunk is a paragraph |
| Markdown.TagStyle | fasternet_common/src/markdown.rs:13-24 | each style, and no style, as an if-and-only-if over the tags: paragraph, code block and list give Paragraph; header level 1 gives Header1 and every other level Header2; link, strong, emphasis and code give Link, ParagraphBold, ParagraphItalic and ParagraphCode; items and all other tags give none |
| Markdown.EveryKindHasATag | fasternet_common/src/markdown.rs:13-24 | every one of the seven kinds is produced by some tag |
| Markdown.AddChunk | fasternet_common/src/markdown.rs:26-35 | with no open style the chunks and `last_chunk` are unchanged; otherwise exactly one chunk is appended, running from the old `last_chunk` to `len` (both cut to 16 bits) in the top style, and `last_chunk` becomes `len` |
| Markdown.EndBlock | fasternet_common/src/markdown.rs:5-11 | exactly one block is appended, holding the previous text and chunks; the earlier blocks are kept, and the text and chunk list are left empty |
| Markdown.Pop | fasternet_common/src/markdown.rs:76 | popping removes the top style, and an empty stack stays empty |
| Markdown.StartEvent | fasternet_common/src/markdown.rs:50-67 | the loop's arm for a start event changes the loop's variables exactly as `StartTag` says |
| Markdown.EndEvent | fasternet_common/src/markdown.rs:68-82 | the loop's arm for an end event changes the loop's variables exactly as `EndTag` says |
| Markdown.ParseMarkdown | fasternet_common/src/markdown.rs:37-89 | the loop returns the blocks of the event-by-event fold `Run`, and every block it returns has no chunks or chunks that tile its text (when it is shorter than 65536 bytes) |
| Markdown.StepKeepsConsistent | fasternet_common/src/markdown.rs:46-85 | each event keeps the loop state consistent: no chunks while no style is open; while one is open, `last_chunk` stays within the text and, while the text is shorter than 65536 bytes, the chunks tile `0..last_chunk`. An event adds at most one block, which has no chunks or, when its text is shorter than 65536 bytes, chunks that tile it |
| Markdown.StartKeepsConsistent | fasternet_common/src/markdown.rs:50-67 | a start event keeps the loop state consistent and emits no block |
| Markdown.PopStyleKeepsTiling | fasternet_common/src/markdown.rs:74-77 | closing and popping a style keeps the state consistent while a style stays open, and once none is open the chunks are empty or, when the text is shorter than 65536 bytes, tile it |
| Markdown.EndBlockKeepsConsistent | fasternet_common/src/markdown.rs:79-81 | ending the block with no style open adds one block, which has no chunks or, when its text is shorter than 65536 bytes, chunks that tile it, and leaves no chunks behind |
| Markdown.EndKeepsConsistent | fasternet_common/src/markdown.rs:68-82 | an end event keeps the loop state consistent and adds at most one block, which has no chunks or, when its text is shorter than 65536 bytes, chunks that tile it |
| Markdown.RunKeepsConsistent | fasternet_common/src/markdown.rs:46-85 | the same, over any sequence of events |
| Markdown.CloseChunkExtendsTiling | fasternet_common/src/markdown.rs:26-35 | closing a chunk while a style is open appends a chunk and moves `last_chunk` to the text length; while the text is shorter than 65536 bytes, the chunks then tile `0..last_chunk` |
| Markdown.ParsedBlocksTile | fasternet_common/src/markdown.rs:26-81 | for every event stream, well nested or not, every emitted block has no chunks, or chunks that start at 0, follow each other and end at its text length (text shorter than 65536 bytes) |
| Markdown.StartStyledTag | fasternet_common/src/markdown.rs:50-61 | a styled start with no style open drops the gathered text and chunks and restarts `last_chunk` at 0; inside a style it first closes a chunk in the enclosing style; either way it pushes the style |
| Markdown.UnstyledTagInsideStyle | fasternet_common/src/markdown.rs:51-77 | a tag that opens no style changes neither stack, chunks nor blocks, at its start or at its end inside a style |
| Markdown.EndEmitsBlockIff | fasternet_common/src/markdown.rs:68-82 | for every end event, nested or not: exactly one block is appended, the earlier ones kept and the text and chunks emptied, if and only if no style is open after it; otherwise the blocks are unchanged |
| Markdown.UnstyledCloseAtTopLevel | fasternet_common/src/markdown.rs:79-81 | an unstyled end other than `Item` with no style open still emits a block, with the text gathered since and no chunks |
| Markdown.StepStack | fasternet_common/src/markdown.rs:49-81 | a start pushes a style exactly when the tag has one, an end pops exactly then, and every other event keeps the stack |
| Markdown.OpenTagsLast | fasternet_common/src/markdown.rs:50-68 | in a well-nested stream a start opens its tag and an end closes the innermost open tag |
| Markdown.StylesLast | fasternet_common/src/markdown.rs:13-24 | the styles of the open tags grow by a tag's style exactly when it has one |
| Markdown.OpenStylesStep | fasternet_common/src/markdown.rs:51-77 | each event changes the styles of the open tags as it changes the stack |
| Markdown.StackMirrorsOpenStyles | fasternet_common/src/markdown.rs:51-77 | over a well-nested stream, the style stack is its earlier contents plus the styles of the currently open tags, so its depth counts the open styled tags |
| Markdown.NestedEventsOnlyAddText | fasternet_common/src/markdown.rs:49-81 | while a style stays open no block is emitted and the text grows by exactly the events' text, item markers and item line breaks |
| Markdown.RunLast | fasternet_common/src/markdown.rs:46 | running one more event is one more step of the loop |
| Markdown.RunThree | fasternet_common/src/markdown.rs:46 | running three events is three steps in order |
| Markdown.RunAppend | fasternet_common/src/markdown.rs:46 | running two event sequences one after the other is running their concatenation |
| Markdown.StyledTagYieldsOneBlock | fasternet_common/src/markdown.rs:50-81 | a styled tag opened at top level around a well-nested stream emits exactly one block: its text is the enclosed text, it has chunks, those chunks tile the text (shorter than 65536 bytes), and nothing is left open or gathered |
| Markdown.CloseOutermostStyle | fasternet_common/src/markdown.rs:74-81 | closing the only open style closes its last chunk and moves the text and all chunks into one new block |
| Markdown.SingleStyledTag | fasternet_common/src/markdown.rs:50-81 | a styled tag around one text, at top level, gives one block holding the text with one chunk from 0 to its length cut to 16 bits |
| Markdown.QuotedParagraphAddsEmptyBlock | fasternet_common/src/markdown.rs:79-81 | a paragraph of any length inside an unstyled tag gives its one-chunk block, the chunk ending at its length cut to 16 bits, followed by an empty block |
| Markdown.LongParagraphOffsetWraps | fasternet_common/src/markdown.rs:29-30 | a paragraph of 65540 bytes gets a chunk ending at offset 4, which does not tile its text |
| Style.FromColorU | fasternet_client/src/style.rs:61 | a colour from four bytes has every component between 0 and 1, and full alpha from 255 |
| Style.NewTheme | fasternet_client/src/style.rs:53-79 | the default theme styles exactly paragraphs, links and first-level headers, with the source's colours, sizes and font; every style's font index is within the font list |
| Style.GlyphRun | fasternet_client/src/style.rs:183-187 | one index per lookup result, in order: a found glyph's index, and `u32::MAX` for a missing one |
| Style.LayoutGlyphs | fasternet_client/src/style.rs:178-210 | the lookup's indices are appended in order, one per result, and the entries already there are unchanged |
| Style.NewBuiltTextBlock | fasternet_client/src/style.rs:155-176 | the loop returns `BuildBlock`: the assembled block, or the panic of the first chunk whose slice is out of range or whose kind has no style |
| Style.PanicPersists | fasternet_client/src/style.rs:160-173 | once a chunk panics, later chunks do not change the outcome |
| Style.BuildPrefixSucceedsIff | fasternet_client/src/style.rs:160-173 | assembling the first `n` chunks succeeds exactly when each of them has an in-range slice and a style |
| Style.BuildPrefixPanic | fasternet_client/src/style.rs:161-163 | a failed assembly reports the panic of the first chunk that cannot be assembled; the slice is checked before the style |
| Style.BuildPrefixShape | fasternet_client/src/style.rs:156-175 | a successful assembly of `n` chunks has one built chunk per chunk, in order, and its glyph buffer is their runs concatenated in order |
| Style.BuildOutcome | fasternet_client/src/style.rs:155-176 | for a whole block: it panics exactly when some chunk cannot be assembled, with the first such chunk's panic; otherwise one built chunk per chunk, with the range widened from `start..end`, the style's advance, font instance and colour, `newline` false, and the glyph runs concatenated in chunk order |
| Style.KindOutsideThemePanics | fasternet_client/src/style.rs:163 | with the default theme's three styles (`Theme::new`, lines 54-69), any chunk of another kind makes assembly panic; when it is the first chunk that cannot be assembled, the panic is its missing style |
| Style.PrefixGlyphCount | fasternet_client/src/style.rs:161-165 | when the font gives one glyph per byte of each chunk's slice, the first `n` chunks of a tiled block give as many glyphs as the `n`-th chunk's end offset |
| Style.BuiltRangesTileGlyphs | fasternet_client/src/style.rs:160-175 | when the font gives one glyph per byte of each chunk's slice and the chunks tile the text, the byte ranges kept in the built chunks tile the glyph buffer, which is as long as the text |
| Style.MultiByteCharOverrunsGlyphs | fasternet_client/src/style.rs:219-220 | a two-byte character that yields one glyph gives a buffer of one glyph and a range 0..2, which runs past it |
| Style.DisplayListBuilder.PushText | fasternet_client/src/style.rs:237-241 | pushing text appends exactly one text run and keeps the earlier items |
| Style.TiledRangesAreDrawReady | fasternet_client/src/style.rs:220 | ranges that tile the buffer are all in-range slices of it, so drawing does not panic |
| Style.RangeEndsAtMost | fasternet_client/src/style.rs:220 | in a tiling every range ends within the buffer |
| Style.PlaceGlyphs | fasternet_client/src/style.rs:223-229 | one placed glyph per glyph |
| Style.PlacedGlyphAt | fasternet_client/src/style.rs:223-229 | the `k`-th placed glyph is the `k`-th glyph, `k` character advances to the right of the pen, on the pen's line |
| Style.AdvanceFromNext | fasternet_client/src/style.rs:227 | advancing `n` times from one advance further is advancing `n + 1` times |
| Style.DrawChunk | fasternet_client/src/style.rs:219-243 | exactly one text run is pushed, holding the chunk's glyphs placed from the pen; the pen comes back one advance further per glyph |
| Style.Draw | fasternet_client/src/style.rs:212-217 | the chunks are drawn in order, each from where the previous one left the pen: the display list grows by exactly `DrawRuns` |
| Style.PenStaysOnLine | fasternet_client/src/style.rs:213-227 | the pen never leaves the origin's line |
| Style.DrawRunGlyphAt | fasternet_client/src/style.rs:219-229 | the `k`-th instance of chunk `i`'s run holds the glyph at offset `k` of its range, `k` advances from the chunk's pen, on the origin's line |
| Style.DrawRunsShape | fasternet_client/src/style.rs:219-229 | each chunk's run has one glyph instance per position of its range, holding the glyph found there, placed that many advances from the chunk's pen on the origin's line |
| Style.DrawRunAt | fasternet_client/src/style.rs:214-229 | the run drawn for chunk `i` places the glyphs of its range from the pen where the previous chunk left it |
| Style.RunIndices | fasternet_client/src/style.rs:220-229 | the run drawn for a chunk holds exactly the glyphs of its range |
| Style.DrawnIndicesLast | fasternet_client/src/style.rs:214-216 | the glyphs drawn by the first `n` runs are those of the first `n - 1` runs followed by the `n`-th run's |
| Style.DrawnPrefix | fasternet_client/src/style.rs:212-229 | with tiling ranges, the first `n` runs draw the buffer up to the `n`-th range's end |
| Style.DrawnAll | fasternet_client/src/style.rs:212-229 | runs that each draw exactly their chunk's range of a tiled buffer draw the whole buffer, in order |
| Style.DrawEmitsEachGlyphOnce | fasternet_client/src/style.rs:212-229 | with tiling ranges, drawing does not panic and draws every glyph of the buffer exactly once, in buffer order |
| Pipeline.TiledBlockBuilds | fasternet_client/src/style.rs:160-163 | a block whose chunks tile its text, all in styles of the theme, assembles without panicking |
| Pipeline.ParsedBlockDraws | fasternet_client/src/style.rs:155-243 | every block `parse_markdown` emits that is shorter than 65536 bytes and uses only the theme's styles assembles without panicking under a font that gives one glyph per byte of its chunks' slices, gets one glyph per byte when it has chunks, and is drawn glyph by glyph exactly once |
| Pipeline.SecondLevelHeaderPanics | fasternet_common/src/markdown.rs:17 | a parsed second-level header of any length is one block with one Header2 chunk from 0 to its length cut to 16 bits, and assembling it with the default theme panics on the missing style |

## Left out

- The markdown parser (pulldown_cmark) is not modelled. Its events are an input sequence. `Item` opens no style either (it falls in the `_` arm of `tag_style`), but it keeps a constructor of its own because the loop writes "- " at its start and "\n" at its end (`markdown.rs:64` and `markdown.rs:70`). Every other tag that `tag_style` does not name (rules, block quotes, tables, images, footnote definitions and the like) arrives as `Start`/`End` events of `OtherTag`: it opens no style, and an `End` of one with no style open still ends a block. Soft and hard breaks, block-level and inline HTML and footnote references are events other than text, start and end, and fall in the ignored `OtherEvent` arm, as in the source.
- Text is modelled as UTF-8 bytes, and any byte range can be sliced. Rust also panics when a `&str` slice boundary falls inside a character. That panic is not modelled.
- Markdown.AddChunk: the stack is an input only. The source passes it as `&mut` but only reads its top.
- Floating-point rounding is not modelled: colours, character widths and pen positions are `real`. The paragraph colour of the default theme is given as four reals, as in the source.
- `BuiltTheme::new`, `read_resource`, `load_font`, `add_font_instance` and `find_char_width` are not modelled. They read font files and talk to webrender. A built theme, with its font keys, instances and character widths, is an input to the lemmas.
- The glyph lookup of the renderer is a function parameter. It is not modelled beyond its signature. Lemmas that need one glyph per byte require it only on the slices a block's chunks pick out, in their styles' fonts (`OneGlyphPerByte`).
- The `size` argument of `layout_glyphs` is accepted and unused. Only commented-out code in the source used it, and that advances code is not modelled.
- Style.DisplayListBuilder.PushText keeps bounds, glyphs, font instance and colour. The glyph options (subpixel render mode) and the primitive info of webrender's `push_text` are dropped.
- Style.Draw: the panic of slicing the glyph buffer with a chunk's range is not an outcome of the model; it is the precondition `DrawReady` (every range is a slice of the buffer). `MultiByteCharOverrunsGlyphs` shows a block that assembles but is not `DrawReady`, so the panic can be reached.
- Style.DrawChunk: the same slice panic is the precondition that the chunk's range is a slice of the glyph buffer, not an outcome.
- `usize` overflow of text lengths is not modelled: lengths are unbounded naturals. Only the `as u16` casts truncate.
- `fasternet_client/src/main.rs`, `fasternet_client/src/app.rs`, the `Notifier` and the `parse_readme` test are not part of this model. They are window, event-loop and file I/O glue.
- There is no line wrapping in the source, and none in the model. Every built chunk has `newline` false.
