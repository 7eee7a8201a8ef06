/** From markdown events to drawn glyphs: what the client gets when it
    assembles and draws the blocks the front end produces. */
module Pipeline {
  import opened Wrappers
  import opened Document
  import opened Markdown
  import opened Style

  /** A block whose chunks tile its text, all in styles the theme has,
      assembles without panicking. */
  lemma TiledBlockBuilds(block: TextBlock, theme: BuiltTheme, lookup: GlyphLookup)
    requires ChunksTileContent(block) && |block.content| < 0x1_0000
    requires forall c :: c in block.chunks ==> c.kind in theme.styleMap
    ensures BuildBlock(block, theme, lookup).Ok?
  {
    BuildOutcome(block, theme, lookup);
    forall c | c in block.chunks
      ensures Buildable(block, theme, c)
    {
      var k :| 0 <= k < |block.chunks| && block.chunks[k] == c;
      TilesBounds(block.chunks, 0, |block.content|, k);
    }
  }

  /** Every block `parse_markdown` emits, if its text is shorter than 65536
      bytes, its styles are all in the theme and the font gives one glyph
      per byte of its chunks' text, assembles without panicking into a glyph buffer that
      drawing walks exactly once, in order; a block with chunks gets one
      glyph per byte of its text. */
  lemma ParsedBlockDraws(events: seq<Event>, i: nat, theme: BuiltTheme,
                         lookup: GlyphLookup, origin: Point)
    requires i < |Run(Initial, events).blocks|
    requires |Run(Initial, events).blocks[i].content| < 0x1_0000
    requires forall c :: c in Run(Initial, events).blocks[i].chunks ==> c.kind in theme.styleMap
    requires OneGlyphPerByte(Run(Initial, events).blocks[i], theme, lookup)
    ensures var b := Run(Initial, events).blocks[i];
      var r := BuildBlock(b, theme, lookup);
      && r.Ok?
      && (b.chunks != [] ==> |r.value.glyphs| == |b.content|)
      && DrawReady(r.value)
      && DrawnIndices(DrawRuns(r.value, origin)) == r.value.glyphs
  {
    var b := Run(Initial, events).blocks[i];
    ParsedBlocksTile(events);
    assert ChunksTileContent(b);
    TiledBlockBuilds(b, theme, lookup);
    var built := BuildBlock(b, theme, lookup).value;
    if b.chunks == [] {
      assert built == BuiltTextBlock([], []);
    } else {
      BuiltRangesTileGlyphs(b, theme, lookup);
    }
    DrawEmitsEachGlyphOnce(built, origin);
  }

  /** A second-level header, parsed, gives one block with one header chunk
      over its text; the default theme has no style for it, so assembling
      that block panics. */
  lemma SecondLevelHeaderPanics(txt: seq<u8>, theme: BuiltTheme, lookup: GlyphLookup)
    requires theme.styleMap.Keys == ThemeKinds
    ensures var blocks := Run(Initial, [Start(Header(2)), Text(txt), End(Header(2))]).blocks;
      && blocks == [TextBlock(txt, [Chunk(0, AsU16(|txt|), Header2)])]
      && BuildBlock(blocks[0], theme, lookup) == Err(MissingStyle(Header2))
  {
    SingleStyledTag(Initial, Header(2), Header2, txt);
    var block := TextBlock(txt, [Chunk(0, AsU16(|txt|), Header2)]);
    KindOutsideThemePanics(block, theme, lookup, 0);
  }
}
