/** The client's style table, and the assembly of a text block into one
    buffer of glyph indices with one built chunk per styled range, which is
    then drawn as text runs. */
module Style {
  import opened Wrappers
  import opened Document

  newtype u32 = x: int | 0 <= x < 0x1_0000_0000

  /** `u32::max_value()`, which stands for a glyph the font lacks. */
  const U32Max: u32 := 0xFFFF_FFFF

  /** A colour with components from 0 to 1. */
  datatype ColorF = ColorF(r: real, g: real, b: real, a: real)

  /** A colour given as four bytes, scaled to components from 0 to 1. */
  function FromColorU(r: u8, g: u8, b: u8, a: u8): (c: ColorF)
    ensures 0.0 <= c.r <= 1.0 && 0.0 <= c.g <= 1.0 && 0.0 <= c.b <= 1.0 && 0.0 <= c.a <= 1.0
    ensures a == 0xFF ==> c.a == 1.0
  {
    ColorF(r as real / 255.0, g as real / 255.0, b as real / 255.0, a as real / 255.0)
  }

  /** A font size in app units, of which a pixel has 60. */
  function AuFromPx(px: int): int
  {
    px * 60
  }

  datatype FontKey = FontKey(id: nat)
  datatype FontInstanceKey = FontInstanceKey(id: nat)

  /** A style as configured: colour, size and an index into the theme's
      font list. */
  datatype ChunkStyle = ChunkStyle(color: ColorF, size: int, font: nat)

  /** A style whose font is loaded: it has a font and a font instance, and
      the advance of one character. */
  datatype BuiltChunkStyle = BuiltChunkStyle(
    style: ChunkStyle,
    fontKey: FontKey,
    fontInstance: FontInstanceKey,
    charWidth: real)

  datatype Theme = Theme(
    bgColor: ColorF,
    fonts: seq<string>,
    styleMap: map<TextKind, ChunkStyle>)

  datatype BuiltTheme = BuiltTheme(
    bgColor: ColorF,
    fonts: seq<FontKey>,
    styleMap: map<TextKind, BuiltChunkStyle>)

  /** The kinds the default theme has a style for. */
  const ThemeKinds: set<TextKind> := {Paragraph, Link, Header1}

  /** `Theme::new`: the default theme, built by inserting a style for
      paragraphs, links and first-level headers. */
  method NewTheme() returns (theme: Theme)
    ensures theme.styleMap.Keys == ThemeKinds
    ensures forall k :: k in theme.styleMap ==> theme.styleMap[k].font < |theme.fonts|
    ensures theme.fonts == ["Roboto_Mono/RobotoMono-Regular.ttf"]
    ensures theme.styleMap[Paragraph] ==
      ChunkStyle(ColorF(0.39607, 0.48235, 0.5137, 1.0), AuFromPx(14), 0)
    ensures theme.styleMap[Link] == ChunkStyle(FromColorU(38, 139, 210, 255), AuFromPx(14), 0)
    ensures theme.styleMap[Header1] == ChunkStyle(FromColorU(88, 110, 117, 255), AuFromPx(20), 0)
    ensures theme.bgColor == FromColorU(253, 246, 227, 255)
  {
    var styleMap: map<TextKind, ChunkStyle> := map[];
    styleMap := styleMap[Paragraph :=
      ChunkStyle(ColorF(0.39607, 0.48235, 0.5137, 1.0), AuFromPx(14), 0)];
    styleMap := styleMap[Link :=
      ChunkStyle(FromColorU(38, 139, 210, 255), AuFromPx(14), 0)];
    styleMap := styleMap[Header1 :=
      ChunkStyle(FromColorU(88, 110, 117, 255), AuFromPx(20), 0)];
    theme := Theme(
      FromColorU(253, 246, 227, 255),
      ["Roboto_Mono/RobotoMono-Regular.ttf"],
      styleMap);
  }

  // ---------------------------------------------------------------------
  // Glyph lookup

  /** Stands for the font's glyph lookup, which gives one optional glyph
      index per character of the text it is given. It is not modelled
      beyond its signature: nothing constrains how many results it gives. */
  type GlyphLookup = (FontKey, seq<u8>) -> seq<Option<u32>>

  /** On the slices a block's chunks pick out, in their styles' fonts, the
      lookup gives exactly one glyph per byte, as it does for ASCII text. */
  ghost predicate OneGlyphPerByte(block: TextBlock, theme: BuiltTheme, lookup: GlyphLookup)
  {
    forall c :: c in block.chunks && c.start <= c.end && c.end as int <= |block.content|
                && c.kind in theme.styleMap ==>
      |lookup(theme.styleMap[c.kind].fontKey, block.content[c.start..c.end])| == c.end as int - c.start as int
  }

  function GlyphOrMax(found: Option<u32>): u32
  {
    match found
    case Some(index) => index
    case None => U32Max
  }

  /** The glyph indices of one lookup, a missing glyph stored as
      `u32::MAX`. */
  function GlyphRun(found: seq<Option<u32>>): (run: seq<u32>)
    ensures |run| == |found|
    ensures forall i :: 0 <= i < |found| ==>
      (found[i].Some? ==> run[i] == found[i].value) && (found[i].None? ==> run[i] == U32Max)
    decreases |found|
  {
    if found == [] then []
    else GlyphRun(found[..|found| - 1]) + [GlyphOrMax(found[|found| - 1])]
  }

  /** `layout_glyphs`: looks up the glyphs of `text` and appends their
      indices to `indicesOut`, leaving what was there unchanged. */
  method LayoutGlyphs(lookup: GlyphLookup, fontKey: FontKey, text: seq<u8>, size: int,
                      indicesOut: seq<u32>)
    returns (indicesOut': seq<u32>)
    ensures indicesOut' == indicesOut + GlyphRun(lookup(fontKey, text))
    ensures |indicesOut'| == |indicesOut| + |lookup(fontKey, text)|
    ensures indicesOut'[..|indicesOut|] == indicesOut
  {
    var found := lookup(fontKey, text);
    var indices: seq<u32> := [];
    for i := 0 to |found|
      invariant indices == GlyphRun(found[..i])
    {
      assert found[..i + 1][..i] == found[..i];
      indices := indices + [GlyphOrMax(found[i])];
    }
    assert found[..|found|] == found;
    indicesOut' := indicesOut + indices;
  }

  // ---------------------------------------------------------------------
  // Built text blocks

  /** A half-open range of positions, `start..end`. */
  datatype Range = Range(start: nat, end: nat)

  /** One drawable run: the range of glyphs it draws and how. `newline`
      would mark the start of a new line. */
  datatype BuiltChunk = BuiltChunk(
    range: Range,
    charWidth: real,
    fontInstance: FontInstanceKey,
    color: ColorF,
    newline: bool)

  datatype BuiltTextBlock = BuiltTextBlock(glyphs: seq<u32>, chunks: seq<BuiltChunk>)

  /** Why assembling a block panics: slicing the text out of range, or a
      kind the theme has no style for. */
  datatype Panic =
    | SliceOutOfRange(start: nat, end: nat, len: nat)
    | MissingStyle(kind: TextKind)

  /** Whether a chunk can be assembled: its range is a slice of the text and
      the theme has a style for its kind. */
  ghost predicate Buildable(block: TextBlock, theme: BuiltTheme, c: Chunk)
  {
    c.start <= c.end && c.end as int <= |block.content| && c.kind in theme.styleMap
  }

  /** The panic a chunk that cannot be assembled causes; the slice is taken
      before the style is looked up. */
  function PanicFor(block: TextBlock, c: Chunk): Panic
  {
    if c.start <= c.end && c.end as int <= |block.content| then MissingStyle(c.kind)
    else SliceOutOfRange(c.start as nat, c.end as nat, |block.content|)
  }

  /** The built chunk for a chunk: its text range, widened, and the style's
      character advance, font instance and colour; never a new line. */
  function BuiltChunkFor(c: Chunk, style: BuiltChunkStyle): BuiltChunk
  {
    BuiltChunk(Range(c.start as nat, c.end as nat), style.charWidth,
               style.fontInstance, style.style.color, false)
  }

  /** The glyphs of one chunk: a lookup of its slice of the text in its
      style's font. */
  function ChunkGlyphs(block: TextBlock, theme: BuiltTheme, lookup: GlyphLookup, c: Chunk): seq<u32>
    requires c.start <= c.end && c.end as int <= |block.content| && c.kind in theme.styleMap
  {
    GlyphRun(lookup(theme.styleMap[c.kind].fontKey, block.content[c.start..c.end]))
  }

  /** The block assembled from its first `n` chunks. */
  function BuildPrefix(block: TextBlock, theme: BuiltTheme, lookup: GlyphLookup, n: nat)
    : Result<BuiltTextBlock, Panic>
    requires n <= |block.chunks|
  {
    if n == 0 then Ok(BuiltTextBlock([], []))
    else
      match BuildPrefix(block, theme, lookup, n - 1)
      case Err(p) => Err(p)
      case Ok(built) =>
        var c := block.chunks[n - 1];
        if !(c.start <= c.end && c.end as int <= |block.content|) then
          Err(PanicFor(block, c))
        else if c.kind !in theme.styleMap then
          Err(PanicFor(block, c))
        else
          Ok(BuiltTextBlock(
            built.glyphs + ChunkGlyphs(block, theme, lookup, c),
            built.chunks + [BuiltChunkFor(c, theme.styleMap[c.kind])]))
  }

  function BuildBlock(block: TextBlock, theme: BuiltTheme, lookup: GlyphLookup)
    : Result<BuiltTextBlock, Panic>
  {
    BuildPrefix(block, theme, lookup, |block.chunks|)
  }

  lemma {:induction false} PanicPersists(block: TextBlock, theme: BuiltTheme, lookup: GlyphLookup,
                                         n: nat, m: nat)
    requires n <= m <= |block.chunks| && BuildPrefix(block, theme, lookup, n).Err?
    ensures BuildPrefix(block, theme, lookup, m) == BuildPrefix(block, theme, lookup, n)
    decreases m
  {
    if m > n {
      PanicPersists(block, theme, lookup, n, m - 1);
    }
  }

  /** `BuiltTextBlock::new`: one pass over the chunks, appending each one's
      glyphs to the buffer and its built chunk to the list. */
  method NewBuiltTextBlock(block: TextBlock, theme: BuiltTheme, lookup: GlyphLookup)
    returns (r: Result<BuiltTextBlock, Panic>)
    ensures r == BuildBlock(block, theme, lookup)
  {
    var indices: seq<u32> := [];
    var chunks: seq<BuiltChunk> := [];
    for i := 0 to |block.chunks|
      invariant BuildPrefix(block, theme, lookup, i) == Ok(BuiltTextBlock(indices, chunks))
    {
      var chunk := block.chunks[i];
      var range := Range(chunk.start as nat, chunk.end as nat);
      if !(range.start <= range.end <= |block.content|) {
        r := Err(SliceOutOfRange(range.start, range.end, |block.content|));
        PanicPersists(block, theme, lookup, i + 1, |block.chunks|);
        return;
      }
      var chunkStr := block.content[range.start..range.end];
      if chunk.kind !in theme.styleMap {
        r := Err(MissingStyle(chunk.kind));
        PanicPersists(block, theme, lookup, i + 1, |block.chunks|);
        return;
      }
      var style := theme.styleMap[chunk.kind];
      indices := LayoutGlyphs(lookup, style.fontKey, chunkStr, style.style.size, indices);
      chunks := chunks + [BuiltChunk(range, style.charWidth, style.fontInstance, style.style.color, false)];
    }
    r := Ok(BuiltTextBlock(indices, chunks));
  }

  // ---------------------------------------------------------------------
  // What assembly produces

  /** Concatenation of glyph runs, in order. */
  function Concat(runs: seq<seq<u32>>): (all: seq<u32>)
    decreases |runs|
  {
    if runs == [] then [] else Concat(runs[..|runs| - 1]) + runs[|runs| - 1]
  }

  /** The glyph runs of the first `n` chunks, one per chunk. */
  function ChunkRuns(block: TextBlock, theme: BuiltTheme, lookup: GlyphLookup, n: nat)
    : (runs: seq<seq<u32>>)
    requires n <= |block.chunks|
    requires forall i :: 0 <= i < n ==> Buildable(block, theme, block.chunks[i])
    ensures |runs| == n
    decreases n
  {
    if n == 0 then []
    else
      assert Buildable(block, theme, block.chunks[n - 1]);
      ChunkRuns(block, theme, lookup, n - 1) + [ChunkGlyphs(block, theme, lookup, block.chunks[n - 1])]
  }

  ghost predicate FirstUnbuildable(block: TextBlock, theme: BuiltTheme, i: nat)
    requires i < |block.chunks|
  {
    && !Buildable(block, theme, block.chunks[i])
    && forall j :: 0 <= j < i ==> Buildable(block, theme, block.chunks[j])
  }

  /** Assembly of the first `n` chunks succeeds exactly when each of them
      can be assembled. */
  lemma {:induction false} BuildPrefixSucceedsIff(block: TextBlock, theme: BuiltTheme,
                                                  lookup: GlyphLookup, n: nat)
    requires n <= |block.chunks|
    ensures BuildPrefix(block, theme, lookup, n).Ok? <==>
      forall i :: 0 <= i < n ==> Buildable(block, theme, block.chunks[i])
    decreases n
  {
    if n > 0 {
      BuildPrefixSucceedsIff(block, theme, lookup, n - 1);
    }
  }

  /** A panic while assembling the first `n` chunks is the panic of the
      first of them that cannot be assembled. */
  lemma {:induction false} BuildPrefixPanic(block: TextBlock, theme: BuiltTheme,
                                            lookup: GlyphLookup, n: nat)
    requires n <= |block.chunks| && BuildPrefix(block, theme, lookup, n).Err?
    ensures exists i :: (0 <= i < n && FirstUnbuildable(block, theme, i)
      && BuildPrefix(block, theme, lookup, n).error == PanicFor(block, block.chunks[i]))
    decreases n
  {
    if BuildPrefix(block, theme, lookup, n - 1).Err? {
      BuildPrefixPanic(block, theme, lookup, n - 1);
    } else {
      BuildPrefixSucceedsIff(block, theme, lookup, n - 1);
      assert FirstUnbuildable(block, theme, n - 1);
    }
  }

  /** Assembling the first `n` chunks, when it succeeds, gives one built
      chunk per chunk, in order, and a glyph buffer that is their glyph
      runs concatenated in order. */
  lemma {:induction false} BuildPrefixShape(block: TextBlock, theme: BuiltTheme,
                                            lookup: GlyphLookup, n: nat)
    requires n <= |block.chunks| && BuildPrefix(block, theme, lookup, n).Ok?
    ensures forall i :: 0 <= i < n ==> Buildable(block, theme, block.chunks[i])
    ensures var built := BuildPrefix(block, theme, lookup, n).value;
      && |built.chunks| == n
      && (forall i :: 0 <= i < n ==>
            && block.chunks[i].kind in theme.styleMap
            && built.chunks[i] == BuiltChunkFor(block.chunks[i], theme.styleMap[block.chunks[i].kind]))
      && built.glyphs == Concat(ChunkRuns(block, theme, lookup, n))
    decreases n
  {
    BuildPrefixSucceedsIff(block, theme, lookup, n);
    if n > 0 {
      BuildPrefixShape(block, theme, lookup, n - 1);
      var runs := ChunkRuns(block, theme, lookup, n);
      assert runs[..n - 1] == ChunkRuns(block, theme, lookup, n - 1);
    }
  }

  /** For the whole block: assembly panics exactly when some chunk cannot
      be assembled, with the panic of the first such chunk. Otherwise there
      is one built chunk per chunk, in order, each with the chunk's range
      widened to positions and its style's advance, font instance and colour,
      never starting a new line; and the glyph buffer is the chunks' glyph
      runs, concatenated in chunk order. */
  lemma BuildOutcome(block: TextBlock, theme: BuiltTheme, lookup: GlyphLookup)
    ensures var r := BuildBlock(block, theme, lookup);
      r.Ok? <==> forall c :: c in block.chunks ==> Buildable(block, theme, c)
    ensures var r := BuildBlock(block, theme, lookup);
      r.Err? ==> exists i :: (0 <= i < |block.chunks| && FirstUnbuildable(block, theme, i)
        && r.error == PanicFor(block, block.chunks[i]))
    ensures var r := BuildBlock(block, theme, lookup);
      r.Ok? ==>
        && |r.value.chunks| == |block.chunks|
        && (forall i :: 0 <= i < |block.chunks| ==>
              && block.chunks[i].kind in theme.styleMap
              && r.value.chunks[i].range == Range(block.chunks[i].start as nat, block.chunks[i].end as nat)
              && !r.value.chunks[i].newline
              && r.value.chunks[i].charWidth == theme.styleMap[block.chunks[i].kind].charWidth
              && r.value.chunks[i].fontInstance == theme.styleMap[block.chunks[i].kind].fontInstance
              && r.value.chunks[i].color == theme.styleMap[block.chunks[i].kind].style.color)
        && r.value.glyphs == Concat(ChunkRuns(block, theme, lookup, |block.chunks|))
  {
    var n := |block.chunks|;
    BuildPrefixSucceedsIff(block, theme, lookup, n);
    if BuildBlock(block, theme, lookup).Err? {
      BuildPrefixPanic(block, theme, lookup, n);
    } else {
      BuildPrefixShape(block, theme, lookup, n);
    }
  }

  /** With the default theme's three styles, a chunk of any other kind --
      a second-level header, bold, italic or inline code -- makes assembly
      panic, unless an earlier chunk already did. */
  lemma KindOutsideThemePanics(block: TextBlock, theme: BuiltTheme, lookup: GlyphLookup, i: nat)
    requires theme.styleMap.Keys == ThemeKinds
    requires i < |block.chunks| && block.chunks[i].kind !in ThemeKinds
    ensures BuildBlock(block, theme, lookup).Err?
    ensures (forall j :: 0 <= j < i ==> Buildable(block, theme, block.chunks[j]))
      && block.chunks[i].start <= block.chunks[i].end
      && block.chunks[i].end as int <= |block.content|
      ==> BuildBlock(block, theme, lookup) == Err(MissingStyle(block.chunks[i].kind))
  {
    BuildOutcome(block, theme, lookup);
    assert !Buildable(block, theme, block.chunks[i]);
    if BuildBlock(block, theme, lookup).Err? {
      var r := BuildBlock(block, theme, lookup);
      var f :| 0 <= f < |block.chunks| && FirstUnbuildable(block, theme, f)
        && r.error == PanicFor(block, block.chunks[f]);
      if (forall j :: 0 <= j < i ==> Buildable(block, theme, block.chunks[j])) {
        assert f == i;
      }
    }
  }

  // ---------------------------------------------------------------------
  // Text offsets against glyph positions

  /** The built chunks' ranges follow each other from 0 to the end of the
      glyph buffer, so each range picks out exactly its chunk's glyphs. */
  ghost predicate RangesTile(b: BuiltTextBlock)
  {
    && (b.chunks == [] ==> b.glyphs == [])
    && (b.chunks != [] ==>
          b.chunks[0].range.start == 0 && b.chunks[|b.chunks| - 1].range.end == |b.glyphs|)
    && (forall k :: 0 <= k < |b.chunks| ==> b.chunks[k].range.start <= b.chunks[k].range.end)
    && (forall k :: 0 <= k < |b.chunks| - 1 ==> b.chunks[k].range.end == b.chunks[k + 1].range.start)
  }

  lemma {:induction false} PrefixGlyphCount(block: TextBlock, theme: BuiltTheme,
                                            lookup: GlyphLookup, n: nat)
    requires OneGlyphPerByte(block, theme, lookup) && Tiles(block.chunks, 0, |block.content|)
    requires n <= |block.chunks| && BuildPrefix(block, theme, lookup, n).Ok?
    ensures |BuildPrefix(block, theme, lookup, n).value.glyphs| ==
      if n == 0 then 0 else block.chunks[n - 1].end as int
    decreases n
  {
    if n > 0 {
      PrefixGlyphCount(block, theme, lookup, n - 1);
      BuildPrefixSucceedsIff(block, theme, lookup, n);
      TilesBounds(block.chunks, 0, |block.content|, n - 1);
    }
  }

  /** When the lookup gives one glyph per byte, the text ranges that the
      built chunks keep are also positions in the glyph buffer: they tile
      it, and the buffer is exactly as long as the text. */
  lemma BuiltRangesTileGlyphs(block: TextBlock, theme: BuiltTheme, lookup: GlyphLookup)
    requires OneGlyphPerByte(block, theme, lookup) && Tiles(block.chunks, 0, |block.content|)
    requires BuildBlock(block, theme, lookup).Ok?
    ensures RangesTile(BuildBlock(block, theme, lookup).value)
    ensures |BuildBlock(block, theme, lookup).value.glyphs| == |block.content|
  {
    BuildOutcome(block, theme, lookup);
    PrefixGlyphCount(block, theme, lookup, |block.chunks|);
  }

  /** A character of two bytes for which the lookup gives one glyph: the
      built chunk keeps the byte range 0..2, but the glyph buffer has one
      entry, so the range runs past the buffer and drawing would panic. */
  lemma MultiByteCharOverrunsGlyphs(theme: BuiltTheme, lookup: GlyphLookup)
    requires Paragraph in theme.styleMap
    requires |lookup(theme.styleMap[Paragraph].fontKey, [0xC3, 0xA9])| == 1
    ensures var block := TextBlock([0xC3, 0xA9], [Chunk(0, 2, Paragraph)]);
      var r := BuildBlock(block, theme, lookup);
      && r.Ok? && |r.value.glyphs| == 1 && r.value.chunks[0].range == Range(0, 2)
      && !DrawReady(r.value)
  {
    var block := TextBlock([0xC3, 0xA9], [Chunk(0, 2, Paragraph)]);
    assert block.content[0..2] == [0xC3, 0xA9];
    assert BuildPrefix(block, theme, lookup, 0) == Ok(BuiltTextBlock([], []));
  }

  // ---------------------------------------------------------------------
  // Drawing

  datatype Point = Point(x: real, y: real)
  datatype LayoutRect = LayoutRect(x: real, y: real, width: real, height: real)

  /** The fixed bounds every text run is pushed with. */
  const TextBounds: LayoutRect := LayoutRect(0.0, 0.0, 500.0, 100.0)

  datatype GlyphInstance = GlyphInstance(index: u32, point: Point)

  datatype DisplayItem = TextRun(
    bounds: LayoutRect,
    glyphs: seq<GlyphInstance>,
    font: FontInstanceKey,
    color: ColorF)

  /** The display list being built; drawing only appends to it. */
  class DisplayListBuilder {
    var items: seq<DisplayItem>

    constructor ()
      ensures items == []
    {
      items := [];
    }

    method PushText(bounds: LayoutRect, glyphs: seq<GlyphInstance>,
                    font: FontInstanceKey, color: ColorF)
      modifies this
      ensures items == old(items) + [TextRun(bounds, glyphs, font, color)]
    {
      items := items + [TextRun(bounds, glyphs, font, color)];
    }
  }

  /** Every built chunk's range is a slice of the glyph buffer, so drawing
      does not panic. */
  ghost predicate DrawReady(b: BuiltTextBlock)
  {
    forall i :: 0 <= i < |b.chunks| ==>
      b.chunks[i].range.start <= b.chunks[i].range.end <= |b.glyphs|
  }

  lemma {:induction false} RangeEndsAtMost(b: BuiltTextBlock, k: nat)
    requires RangesTile(b) && k < |b.chunks|
    ensures b.chunks[k].range.end <= |b.glyphs|
    decreases |b.chunks| - k
  {
    if k + 1 < |b.chunks| {
      RangeEndsAtMost(b, k + 1);
    }
  }

  /** Ranges that tile the buffer are all slices of it. */
  lemma TiledRangesAreDrawReady(b: BuiltTextBlock)
    requires RangesTile(b)
    ensures DrawReady(b)
  {
    forall i | 0 <= i < |b.chunks|
      ensures b.chunks[i].range.start <= b.chunks[i].range.end <= |b.glyphs|
    {
      RangeEndsAtMost(b, i);
    }
  }

  /** The pen's x after `n` advances of `charWidth` from `x`. */
  function Advance(x: real, n: nat, charWidth: real): real
  {
    if n == 0 then x else Advance(x, n - 1, charWidth) + charWidth
  }

  lemma {:induction false} AdvanceFromNext(x: real, n: nat, charWidth: real)
    ensures Advance(x + charWidth, n, charWidth) == Advance(x, n + 1, charWidth)
  {
    if n > 0 {
      AdvanceFromNext(x, n - 1, charWidth);
    }
  }

  /** Glyphs placed from `pt` on, as the drawing closure moves the pen:
      the first at the pen, then one advance further for each next one. */
  function PlaceGlyphs(glyphs: seq<u32>, pt: Point, charWidth: real): (placed: seq<GlyphInstance>)
    ensures |placed| == |glyphs|
    decreases |glyphs|
  {
    if glyphs == [] then []
    else [GlyphInstance(glyphs[0], pt)] + PlaceGlyphs(glyphs[1..], Point(pt.x + charWidth, pt.y), charWidth)
  }

  /** The `k`-th placed glyph is the `k`-th glyph, `k` advances to the right
      of the starting pen on the same line. */
  lemma {:induction false} PlacedGlyphAt(glyphs: seq<u32>, pt: Point, charWidth: real, k: nat)
    requires k < |glyphs|
    ensures PlaceGlyphs(glyphs, pt, charWidth)[k] ==
      GlyphInstance(glyphs[k], Point(Advance(pt.x, k, charWidth), pt.y))
    decreases k
  {
    if k > 0 {
      PlacedGlyphAt(glyphs[1..], Point(pt.x + charWidth, pt.y), charWidth, k - 1);
      AdvanceFromNext(pt.x, k - 1, charWidth);
    }
  }

  /** The text run a chunk draws with the pen at `pt`. */
  function ChunkRun(glyphs: seq<u32>, pt: Point, chunk: BuiltChunk): DisplayItem
    requires chunk.range.start <= chunk.range.end <= |glyphs|
  {
    TextRun(TextBounds, PlaceGlyphs(glyphs[chunk.range.start..chunk.range.end], pt, chunk.charWidth),
            chunk.fontInstance, chunk.color)
  }

  /** Where the pen is after drawing a chunk: one advance further per glyph. */
  function PenAfter(pt: Point, chunk: BuiltChunk): Point
    requires chunk.range.start <= chunk.range.end
  {
    Point(Advance(pt.x, chunk.range.end - chunk.range.start, chunk.charWidth), pt.y)
  }

  /** Where the pen is when chunk `i` is drawn. */
  function PenBefore(b: BuiltTextBlock, origin: Point, i: nat): Point
    requires DrawReady(b) && i <= |b.chunks|
  {
    if i == 0 then origin else PenAfter(PenBefore(b, origin, i - 1), b.chunks[i - 1])
  }

  /** The text runs drawing a block appends, one per chunk. */
  function DrawRuns(b: BuiltTextBlock, origin: Point): (runs: seq<DisplayItem>)
    requires DrawReady(b)
    ensures |runs| == |b.chunks|
  {
    seq(|b.chunks|, i requires 0 <= i < |b.chunks| =>
      ChunkRun(b.glyphs, PenBefore(b, origin, i), b.chunks[i]))
  }

  /** `draw_chunk`: places the chunk's glyphs from the pen on, advancing
      the pen by the chunk's character width per glyph, pushes them as one
      text run and returns the moved pen. */
  method DrawChunk(b: BuiltTextBlock, builder: DisplayListBuilder, pt: Point, chunk: BuiltChunk)
    returns (pt': Point)
    requires chunk.range.start <= chunk.range.end <= |b.glyphs|
    modifies builder
    ensures builder.items == old(builder.items) + [ChunkRun(b.glyphs, pt, chunk)]
    ensures pt' == PenAfter(pt, chunk)
  {
    var glyphs := b.glyphs[chunk.range.start..chunk.range.end];
    var pen := pt;
    var placed: seq<GlyphInstance> := [];
    for i := 0 to |glyphs|
      invariant pen == Point(Advance(pt.x, i, chunk.charWidth), pt.y)
      invariant placed + PlaceGlyphs(glyphs[i..], pen, chunk.charWidth) == PlaceGlyphs(glyphs, pt, chunk.charWidth)
    {
      assert glyphs[i..][1..] == glyphs[i + 1..];
      assert PlaceGlyphs(glyphs[i..], pen, chunk.charWidth) == [GlyphInstance(glyphs[i], pen)]
        + PlaceGlyphs(glyphs[i + 1..], pen.(x := pen.x + chunk.charWidth), chunk.charWidth);
      placed := placed + [GlyphInstance(glyphs[i], pen)];
      pen := pen.(x := pen.x + chunk.charWidth);
    }
    assert glyphs[|glyphs|..] == [];
    assert placed == PlaceGlyphs(glyphs, pt, chunk.charWidth);
    builder.PushText(TextBounds, placed, chunk.fontInstance, chunk.color);
    pt' := pen;
  }

  /** `draw`: draws the chunks in order, each from where the last one left
      the pen. */
  method Draw(b: BuiltTextBlock, builder: DisplayListBuilder, origin: Point)
    requires DrawReady(b)
    modifies builder
    ensures builder.items == old(builder.items) + DrawRuns(b, origin)
  {
    var pt := origin;
    for i := 0 to |b.chunks|
      invariant pt == PenBefore(b, origin, i)
      invariant builder.items == old(builder.items) + DrawRuns(b, origin)[..i]
    {
      pt := DrawChunk(b, builder, pt, b.chunks[i]);
      assert DrawRuns(b, origin)[..i + 1] == DrawRuns(b, origin)[..i] + [DrawRuns(b, origin)[i]];
    }
    assert DrawRuns(b, origin)[..|b.chunks|] == DrawRuns(b, origin);
  }

  /** The glyph indices of placed glyphs. */
  function Indices(placed: seq<GlyphInstance>): seq<u32>
  {
    seq(|placed|, k requires 0 <= k < |placed| => placed[k].index)
  }

  /** The glyph indices a list of text runs draws, in order. */
  function DrawnIndices(runs: seq<DisplayItem>): seq<u32>
    decreases |runs|
  {
    if runs == [] then []
    else DrawnIndices(runs[..|runs| - 1]) + Indices(runs[|runs| - 1].glyphs)
  }

  /** The glyphs of the run drawn for chunk `i`. */
  lemma DrawRunAt(b: BuiltTextBlock, origin: Point, i: nat)
    requires DrawReady(b) && i < |b.chunks|
    ensures b.chunks[i].range.start <= b.chunks[i].range.end <= |b.glyphs|
    ensures DrawRuns(b, origin)[i].glyphs == PlaceGlyphs(
      b.glyphs[b.chunks[i].range.start..b.chunks[i].range.end],
      PenBefore(b, origin, i), b.chunks[i].charWidth)
  {
  }

  /** Drawing emits one glyph instance per position of each chunk's range,
      with the glyph found there, and keeps every glyph on the origin's
      line: nothing ever moves the pen down. */
  lemma DrawRunsShape(b: BuiltTextBlock, origin: Point)
    requires DrawReady(b)
    ensures forall i :: 0 <= i < |b.chunks| ==>
      |DrawRuns(b, origin)[i].glyphs| == b.chunks[i].range.end - b.chunks[i].range.start
    ensures forall i, k :: 0 <= i < |b.chunks| && 0 <= k < |DrawRuns(b, origin)[i].glyphs| ==>
      DrawRuns(b, origin)[i].glyphs[k] == GlyphInstance(
        b.glyphs[b.chunks[i].range.start + k],
        Point(Advance(PenBefore(b, origin, i).x, k, b.chunks[i].charWidth), origin.y))
  {
    forall i | 0 <= i < |b.chunks|
      ensures |DrawRuns(b, origin)[i].glyphs| == b.chunks[i].range.end - b.chunks[i].range.start
    {
      DrawRunAt(b, origin, i);
    }
    forall i, k | 0 <= i < |b.chunks| && 0 <= k < |DrawRuns(b, origin)[i].glyphs|
      ensures DrawRuns(b, origin)[i].glyphs[k] == GlyphInstance(
        b.glyphs[b.chunks[i].range.start + k],
        Point(Advance(PenBefore(b, origin, i).x, k, b.chunks[i].charWidth), origin.y))
    {
      DrawRunGlyphAt(b, origin, i, k);
    }
  }

  /** The `k`-th glyph instance of the run drawn for chunk `i`. */
  lemma DrawRunGlyphAt(b: BuiltTextBlock, origin: Point, i: nat, k: nat)
    requires DrawReady(b) && i < |b.chunks| && k < |DrawRuns(b, origin)[i].glyphs|
    ensures b.chunks[i].range.start + k < |b.glyphs|
    ensures DrawRuns(b, origin)[i].glyphs[k] == GlyphInstance(
      b.glyphs[b.chunks[i].range.start + k],
      Point(Advance(PenBefore(b, origin, i).x, k, b.chunks[i].charWidth), origin.y))
  {
    var c := b.chunks[i];
    DrawRunAt(b, origin, i);
    PenStaysOnLine(b, origin, i);
    PlacedGlyphAt(b.glyphs[c.range.start..c.range.end], PenBefore(b, origin, i), c.charWidth, k);
  }

  lemma {:induction false} PenStaysOnLine(b: BuiltTextBlock, origin: Point, i: nat)
    requires DrawReady(b) && i <= |b.chunks|
    ensures PenBefore(b, origin, i).y == origin.y
  {
    if i > 0 {
      PenStaysOnLine(b, origin, i - 1);
    }
  }

  /** The run drawn for chunk `i` draws exactly the glyphs of its range. */
  lemma RunIndices(b: BuiltTextBlock, origin: Point, i: nat)
    requires DrawReady(b) && i < |b.chunks|
    ensures Indices(DrawRuns(b, origin)[i].glyphs) ==
      b.glyphs[b.chunks[i].range.start..b.chunks[i].range.end]
  {
    var c := b.chunks[i];
    var slice := b.glyphs[c.range.start..c.range.end];
    var placed := PlaceGlyphs(slice, PenBefore(b, origin, i), c.charWidth);
    DrawRunAt(b, origin, i);
    forall k | 0 <= k < |slice|
      ensures Indices(placed)[k] == slice[k]
    {
      PlacedGlyphAt(slice, PenBefore(b, origin, i), c.charWidth, k);
    }
  }

  lemma DrawnIndicesLast(runs: seq<DisplayItem>, n: nat)
    requires 0 < n <= |runs|
    ensures DrawnIndices(runs[..n]) == DrawnIndices(runs[..n - 1]) + Indices(runs[n - 1].glyphs)
  {
    assert runs[..n][..n - 1] == runs[..n - 1];
  }

  /** Runs that each draw exactly their chunk's range of a tiled buffer
      draw, together, the buffer up to the last range's end. */
  lemma {:induction false} DrawnPrefix(b: BuiltTextBlock, runs: seq<DisplayItem>, n: nat)
    requires RangesTile(b) && |runs| == |b.chunks| && 0 < n <= |runs|
    requires forall i :: 0 <= i < |runs| ==>
      && b.chunks[i].range.start <= b.chunks[i].range.end <= |b.glyphs|
      && Indices(runs[i].glyphs) == b.glyphs[b.chunks[i].range.start..b.chunks[i].range.end]
    ensures DrawnIndices(runs[..n]) == b.glyphs[..b.chunks[n - 1].range.end]
    decreases n
  {
    var c := b.chunks[n - 1];
    DrawnIndicesLast(runs, n);
    if n == 1 {
      assert runs[..0] == [];
    } else {
      DrawnPrefix(b, runs, n - 1);
      assert b.glyphs[..c.range.end] == b.glyphs[..c.range.start] + b.glyphs[c.range.start..c.range.end];
    }
  }

  lemma {:induction false} DrawnAll(b: BuiltTextBlock, runs: seq<DisplayItem>)
    requires RangesTile(b) && |runs| == |b.chunks| && 0 < |runs|
    requires forall i :: 0 <= i < |runs| ==>
      && b.chunks[i].range.start <= b.chunks[i].range.end <= |b.glyphs|
      && Indices(runs[i].glyphs) == b.glyphs[b.chunks[i].range.start..b.chunks[i].range.end]
    ensures DrawnIndices(runs) == b.glyphs
  {
    DrawnPrefix(b, runs, |runs|);
    assert runs[..|runs|] == runs;
  }

  /** When the ranges tile the buffer, drawing emits every glyph of the
      buffer exactly once, in buffer order. */
  lemma DrawEmitsEachGlyphOnce(b: BuiltTextBlock, origin: Point)
    requires RangesTile(b)
    ensures DrawReady(b)
    ensures DrawnIndices(DrawRuns(b, origin)) == b.glyphs
  {
    TiledRangesAreDrawReady(b);
    var runs := DrawRuns(b, origin);
    if b.chunks != [] {
      forall i | 0 <= i < |runs|
        ensures Indices(runs[i].glyphs) == b.glyphs[b.chunks[i].range.start..b.chunks[i].range.end]
      {
        RunIndices(b, origin, i);
      }
      DrawnAll(b, runs);
    } else {
      assert |runs| == 0;
      assert b.glyphs == [];
    }
  }
}
