/** The markdown front end: walks the markdown parser's event stream and
    turns it into text blocks whose chunks record which style each byte
    range of the block's text was written in. */
module Markdown {
  import opened Wrappers
  import opened Document

  /** The parser's tags as far as the front end tells them apart. Every
      other tag of the parser (rules, block quotes, images, tables, table
      parts, footnote definitions) is an `OtherTag`. */
  datatype Tag =
    | Paragraph
    | Header(level: int)
    | CodeBlock(info: seq<u8>)
    | List(firstNumber: Option<nat>)
    | Item
    | Emphasis
    | Strong
    | Code
    | Link(dest: seq<u8>, title: seq<u8>)
    | OtherTag(name: seq<u8>)

  /** One event of the parser. HTML, breaks and footnote references are
      all `OtherEvent`: the front end ignores them. */
  datatype Event =
    | Text(text: seq<u8>)
    | Start(tag: Tag)
    | End(tag: Tag)
    | OtherEvent

  /** "- ", written when a list item opens. */
  const ItemMarker: seq<u8> := [0x2D, 0x20]
  /** "\n", written when a list item closes. */
  const ItemBreak: seq<u8> := [0x0A]

  /** The style a tag opens, if any. */
  function TagStyle(tag: Tag): (r: Option<TextKind>)
    ensures r == Some(TextKind.Paragraph) <==> tag.Paragraph? || tag.CodeBlock? || tag.List?
    ensures r == Some(Header1) <==> tag == Header(1)
    ensures r == Some(Header2) <==> tag.Header? && tag.level != 1
    ensures r == Some(TextKind.Link) <==> tag.Link?
    ensures r == Some(ParagraphBold) <==> tag == Strong
    ensures r == Some(ParagraphItalic) <==> tag == Emphasis
    ensures r == Some(ParagraphCode) <==> tag == Code
    ensures r == None <==> tag == Item || tag.OtherTag?
  {
    match tag
    case Paragraph | CodeBlock(_) | List(_) => Some(TextKind.Paragraph)
    case Header(level) => if level == 1 then Some(Header1) else Some(Header2)
    case Link(_, _) => Some(TextKind.Link)
    case Strong => Some(ParagraphBold)
    case Emphasis => Some(ParagraphItalic)
    case Code => Some(ParagraphCode)
    case Item | OtherTag(_) => None
  }

  /** Every style is opened by some tag. */
  lemma EveryKindHasATag(k: TextKind)
    ensures exists tag :: TagStyle(tag) == Some(k)
  {
    var tag := match k
      case Header1 => Header(1)
      case Header2 => Header(2)
      case Paragraph => Tag.Paragraph
      case ParagraphBold => Strong
      case ParagraphItalic => Emphasis
      case ParagraphCode => Code
      case Link => Tag.Link([], []);
    assert TagStyle(tag) == Some(k);
  }

  /** `add_chunk`: closes the byte range from `lastChunk` to `len` as a chunk
      in the style on top of the stack. With no style open it does nothing.
      The stack is only read. */
  method AddChunk(chunks: seq<Chunk>, stack: seq<TextKind>, lastChunk: nat, len: nat)
    returns (chunks': seq<Chunk>, lastChunk': nat)
    ensures stack == [] ==> chunks' == chunks && lastChunk' == lastChunk
    ensures stack != [] ==>
      && chunks' == chunks + [Chunk(AsU16(lastChunk), AsU16(len), stack[|stack| - 1])]
      && lastChunk' == len
  {
    if stack == [] {
      return chunks, lastChunk;
    }
    var chunk := Chunk(AsU16(lastChunk), AsU16(len), stack[|stack| - 1]);
    lastChunk' := len;
    chunks' := chunks + [chunk];
  }

  /** `end_block`: moves the text and chunks gathered so far into a new
      block and leaves both empty. */
  method EndBlock(blocks: seq<TextBlock>, curText: seq<u8>, chunks: seq<Chunk>)
    returns (blocks': seq<TextBlock>, curText': seq<u8>, chunks': seq<Chunk>)
    ensures |blocks'| == |blocks| + 1 && blocks'[..|blocks|] == blocks
    ensures blocks'[|blocks|] == TextBlock(curText, chunks)
    ensures curText' == [] && chunks' == []
  {
    var block := TextBlock(curText, chunks);
    curText', chunks' := [], [];
    blocks' := blocks + [block];
  }

  /** `Vec::pop`, whose result is dropped: an empty stack stays empty. */
  function Pop(stack: seq<TextKind>): (r: seq<TextKind>)
    ensures stack != [] ==> r + [stack[|stack| - 1]] == stack
    ensures stack == [] ==> r == []
  {
    if stack == [] then [] else stack[..|stack| - 1]
  }

  /** The five local variables of the event loop. */
  datatype ParseState = ParseState(
    blocks: seq<TextBlock>,
    curText: seq<u8>,
    chunks: seq<Chunk>,
    stack: seq<TextKind>,
    lastChunk: nat)

  const Initial: ParseState := ParseState([], [], [], [], 0)

  /** What `add_chunk` does to the loop's state. */
  function CloseChunk(s: ParseState): ParseState
  {
    if s.stack == [] then s
    else
      var chunk := Chunk(AsU16(s.lastChunk), AsU16(|s.curText|), s.stack[|s.stack| - 1]);
      s.(chunks := s.chunks + [chunk], lastChunk := |s.curText|)
  }

  /** One iteration of the event loop of `parse_markdown`. */
  function Step(s: ParseState, e: Event): ParseState
  {
    match e
    case Text(t) => s.(curText := s.curText + t)
    case Start(tag) => StartTag(s, tag)
    case End(tag) => EndTag(s, tag)
    case OtherEvent => s
  }

  /** A tag opens: a style it opens is pushed, after the text so far is
      dropped (no style open) or closed as a chunk (a style open). */
  function StartTag(s: ParseState, tag: Tag): ParseState
  {
    var pushed :=
      if TagStyle(tag).None? then s
      else
        var closed :=
          if s.stack == [] then s.(curText := [], chunks := [], stack := [], lastChunk := 0)
          else CloseChunk(s);
        closed.(stack := closed.stack + [TagStyle(tag).value]);
    if tag == Item then pushed.(curText := pushed.curText + ItemMarker) else pushed
  }

  /** A tag closes: a style it opened is closed as a chunk and popped, and
      once no style is open the block ends. */
  function EndTag(s: ParseState, tag: Tag): ParseState
  {
    var broken := if tag == Item then s.(curText := s.curText + ItemBreak) else s;
    var closed := if TagStyle(tag).Some? then PopStyle(broken) else broken;
    EndBlockIfNoneOpen(closed)
  }

  /** The text since `lastChunk` is closed as a chunk of the top style,
      which is then popped. */
  function PopStyle(s: ParseState): ParseState
  {
    var c := CloseChunk(s);
    c.(stack := Pop(c.stack))
  }

  /** With no style open, the text and chunks become a block. */
  function EndBlockIfNoneOpen(s: ParseState): ParseState
  {
    if s.stack == [] then
      s.(blocks := s.blocks + [TextBlock(s.curText, s.chunks)], curText := [], chunks := [])
    else s
  }

  /** The loop's state after the events `evs`, starting from `s`. */
  function Run(s: ParseState, evs: seq<Event>): ParseState
    decreases |evs|
  {
    if evs == [] then s else Step(Run(s, evs[..|evs| - 1]), evs[|evs| - 1])
  }

  /** The arm of the event loop for a start event. */
  method StartEvent(blocks: seq<TextBlock>, curText: seq<u8>, chunks: seq<Chunk>,
                    stack: seq<TextKind>, lastChunk: nat, tag: Tag)
    returns (curText': seq<u8>, chunks': seq<Chunk>, stack': seq<TextKind>, lastChunk': nat)
    ensures ParseState(blocks, curText', chunks', stack', lastChunk')
      == StartTag(ParseState(blocks, curText, chunks, stack, lastChunk), tag)
  {
    curText', chunks', stack', lastChunk' := curText, chunks, stack, lastChunk;
    var style := TagStyle(tag);
    if style.Some? {
      if stack' == [] {
        curText' := [];
        chunks' := [];
        stack' := [];
        lastChunk' := 0;
      } else {
        chunks', lastChunk' := AddChunk(chunks', stack', lastChunk', |curText'|);
      }
      stack' := stack' + [style.value];
    }
    if tag == Item {
      curText' := curText' + ItemMarker;
    }
  }

  /** The arm of the event loop for an end event. */
  method EndEvent(blocks: seq<TextBlock>, curText: seq<u8>, chunks: seq<Chunk>,
                  stack: seq<TextKind>, lastChunk: nat, tag: Tag)
    returns (blocks': seq<TextBlock>, curText': seq<u8>, chunks': seq<Chunk>,
             stack': seq<TextKind>, lastChunk': nat)
    ensures ParseState(blocks', curText', chunks', stack', lastChunk')
      == EndTag(ParseState(blocks, curText, chunks, stack, lastChunk), tag)
  {
    blocks', curText', chunks', stack', lastChunk' := blocks, curText, chunks, stack, lastChunk;
    if tag == Item {
      curText' := curText' + ItemBreak;
    }
    ghost var broken := ParseState(blocks', curText', chunks', stack', lastChunk');
    if TagStyle(tag).Some? {
      chunks', lastChunk' := AddChunk(chunks', stack', lastChunk', |curText'|);
      assert chunks' == CloseChunk(broken).chunks && lastChunk' == CloseChunk(broken).lastChunk;
      stack' := Pop(stack');
    }
    ghost var closed := ParseState(blocks', curText', chunks', stack', lastChunk');
    if stack' == [] {
      blocks', curText', chunks' := EndBlock(blocks', curText', chunks');
      assert blocks' == closed.blocks + [TextBlock(closed.curText, closed.chunks)];
    }
    assert ParseState(blocks', curText', chunks', stack', lastChunk') == EndBlockIfNoneOpen(closed);
  }

  /** `parse_markdown`, over the parser's events. */
  method ParseMarkdown(events: seq<Event>) returns (blocks: seq<TextBlock>)
    ensures blocks == Run(Initial, events).blocks
    ensures forall b :: b in blocks ==> ChunksTileContent(b)
  {
    blocks := [];
    var curText: seq<u8> := [];
    var lastChunk: nat := 0;
    var chunks: seq<Chunk> := [];
    var stack: seq<TextKind> := [];
    for i := 0 to |events|
      invariant ParseState(blocks, curText, chunks, stack, lastChunk) == Run(Initial, events[..i])
    {
      RunLast(Initial, events[..i], events[i]);
      assert events[..i] + [events[i]] == events[..i + 1];
      match events[i]
      case Text(t) =>
        curText := curText + t;
      case Start(tag) =>
        curText, chunks, stack, lastChunk := StartEvent(blocks, curText, chunks, stack, lastChunk, tag);
      case End(tag) =>
        blocks, curText, chunks, stack, lastChunk := EndEvent(blocks, curText, chunks, stack, lastChunk, tag);
      case OtherEvent =>
    }
    assert events[..|events|] == events;
    ParsedBlocksTile(events);
  }

  // ---------------------------------------------------------------------
  // The chunk invariant

  /** A block's chunks are either absent, or, when every offset of the
      block fits in 16 bits, they tile its whole text. */
  ghost predicate ChunksTileContent(b: TextBlock)
  {
    b.chunks == [] || (|b.content| < 0x1_0000 ==> Tiles(b.chunks, 0, |b.content|))
  }

  /** What holds of the loop's state between two events: with no style open
      there are no chunks; with a style open, `lastChunk` never passes the
      text, and the chunks tile `0..lastChunk` (while the offsets fit). */
  ghost predicate Consistent(s: ParseState)
  {
    && (s.stack == [] ==> s.chunks == [])
    && (s.stack != [] ==> s.lastChunk <= |s.curText|)
    && (s.stack != [] && |s.curText| < 0x1_0000 ==> Tiles(s.chunks, 0, s.lastChunk))
  }

  ghost predicate AddsTiledBlocks(before: seq<TextBlock>, after: seq<TextBlock>)
  {
    && |before| <= |after|
    && after[..|before|] == before
    && forall i :: |before| <= i < |after| ==> ChunksTileContent(after[i])
  }

  lemma CloseChunkExtendsTiling(s: ParseState)
    requires Consistent(s) && s.stack != []
    ensures var c := CloseChunk(s);
      && c.lastChunk == |c.curText| && c.chunks != []
      && (|c.curText| < 0x1_0000 ==> Tiles(c.chunks, 0, c.lastChunk))
  {
    if |s.curText| < 0x1_0000 {
      var chunk := Chunk(AsU16(s.lastChunk), AsU16(|s.curText|), s.stack[|s.stack| - 1]);
      TilesExtend(s.chunks, 0, chunk);
    }
  }

  lemma StartKeepsConsistent(s: ParseState, tag: Tag)
    requires Consistent(s)
    ensures Consistent(StartTag(s, tag)) && StartTag(s, tag).blocks == s.blocks
  {
    if TagStyle(tag).Some? && s.stack != [] {
      CloseChunkExtendsTiling(s);
    }
  }

  lemma PopStyleKeepsTiling(s: ParseState)
    requires Consistent(s)
    ensures var c := PopStyle(s);
      && c.blocks == s.blocks
      && (c.stack != [] ==> Consistent(c))
      && (c.stack == [] ==> ChunksTileContent(TextBlock(c.curText, c.chunks)))
  {
    if s.stack != [] {
      CloseChunkExtendsTiling(s);
    }
  }

  lemma EndBlockKeepsConsistent(s: ParseState)
    requires s.stack != [] ==> Consistent(s)
    requires s.stack == [] ==> ChunksTileContent(TextBlock(s.curText, s.chunks))
    ensures Consistent(EndBlockIfNoneOpen(s))
    ensures AddsTiledBlocks(s.blocks, EndBlockIfNoneOpen(s).blocks)
    ensures |EndBlockIfNoneOpen(s).blocks| <= |s.blocks| + 1
  {
  }

  lemma EndKeepsConsistent(s: ParseState, tag: Tag)
    requires Consistent(s)
    ensures Consistent(EndTag(s, tag))
    ensures AddsTiledBlocks(s.blocks, EndTag(s, tag).blocks)
    ensures |EndTag(s, tag).blocks| <= |s.blocks| + 1
  {
    var broken := if tag == Item then s.(curText := s.curText + ItemBreak) else s;
    assert Consistent(broken);
    if TagStyle(tag).Some? {
      PopStyleKeepsTiling(broken);
      EndBlockKeepsConsistent(PopStyle(broken));
    } else {
      EndBlockKeepsConsistent(broken);
    }
  }

  /** Every event keeps the state consistent and adds at most one block,
      which has no chunks or, when its text is shorter than 65536 bytes,
      chunks that tile it. */
  lemma StepKeepsConsistent(s: ParseState, e: Event)
    requires Consistent(s)
    ensures Consistent(Step(s, e))
    ensures AddsTiledBlocks(s.blocks, Step(s, e).blocks)
    ensures |Step(s, e).blocks| <= |s.blocks| + 1
  {
    match e
    case Text(t) =>
    case OtherEvent =>
    case Start(tag) =>
      StartKeepsConsistent(s, tag);
    case End(tag) =>
      EndKeepsConsistent(s, tag);
  }

  lemma {:induction false} RunKeepsConsistent(s: ParseState, evs: seq<Event>)
    requires Consistent(s)
    ensures Consistent(Run(s, evs))
    ensures AddsTiledBlocks(s.blocks, Run(s, evs).blocks)
    decreases |evs|
  {
    if evs != [] {
      var mid := Run(s, evs[..|evs| - 1]);
      RunKeepsConsistent(s, evs[..|evs| - 1]);
      StepKeepsConsistent(mid, evs[|evs| - 1]);
    }
  }

  /** Whatever the event stream, every block that `parse_markdown` emits
      either has no chunks, or has chunks that start at 0, follow each
      other without gap or overlap, and end at the length of its text --
      provided that text is shorter than 65536 bytes. */
  lemma ParsedBlocksTile(events: seq<Event>)
    ensures forall b :: b in Run(Initial, events).blocks ==> ChunksTileContent(b)
  {
    RunKeepsConsistent(Initial, events);
    forall b | b in Run(Initial, events).blocks
      ensures ChunksTileContent(b)
    {
      var i :| 0 <= i < |Run(Initial, events).blocks| && Run(Initial, events).blocks[i] == b;
    }
  }

  // ---------------------------------------------------------------------
  // Single events

  /** A tag that opens a style, seen with no style open, drops whatever
      text and chunks were gathered outside styled tags and restarts the
      offsets at 0; seen inside a style, it first closes the text since
      `lastChunk` as a chunk of the enclosing style. Either way the style
      is pushed and nothing else changes. */
  lemma StartStyledTag(s: ParseState, tag: Tag, k: TextKind)
    requires TagStyle(tag) == Some(k)
    ensures s.stack == [] ==>
      Step(s, Start(tag)) == ParseState(s.blocks, [], [], [k], 0)
    ensures s.stack != [] ==>
      Step(s, Start(tag)) == s.(
        chunks := s.chunks + [Chunk(AsU16(s.lastChunk), AsU16(|s.curText|), s.stack[|s.stack| - 1])],
        lastChunk := |s.curText|,
        stack := s.stack + [k])
  {
    assert tag != Item;
  }

  /** A tag that opens no style leaves the chunks, the stack and the blocks
      alone on both its start and (inside a style) its end. */
  lemma UnstyledTagInsideStyle(s: ParseState, tag: Tag)
    requires TagStyle(tag).None? && s.stack != []
    ensures var r := Step(s, Start(tag));
      r.stack == s.stack && r.chunks == s.chunks && r.blocks == s.blocks
    ensures var r := Step(s, End(tag));
      r.stack == s.stack && r.chunks == s.chunks && r.blocks == s.blocks
  {
  }

  /** A tag that opens no style, closing while no style is open, still ends
      a block: one block with the text gathered since the last one and no
      chunks at all (an empty block right after another block). */
  lemma UnstyledCloseAtTopLevel(s: ParseState, tag: Tag)
    requires Consistent(s) && s.stack == [] && TagStyle(tag).None? && tag != Item
    ensures Step(s, End(tag)).blocks == s.blocks + [TextBlock(s.curText, [])]
    ensures Step(s, End(tag)).curText == []
  {
  }

  /** Any end event, nested or not: it appends exactly one block, keeping
      the earlier ones and emptying the text and chunks, when no style is
      open after it, and leaves the blocks alone otherwise. */
  lemma EndEmitsBlockIff(s: ParseState, t: Tag)
    ensures var r := Step(s, End(t));
      && (r.stack == [] <==> |r.blocks| == |s.blocks| + 1)
      && (r.stack == [] ==> r.blocks[..|s.blocks|] == s.blocks && r.curText == [] && r.chunks == [])
      && (r.stack != [] ==> r.blocks == s.blocks)
  {
  }

  // ---------------------------------------------------------------------
  // Well-nested event streams

  /** The tags left open after `evs`, or None when an end event does not
      close the most recently opened tag. */
  function OpenTags(evs: seq<Event>): Option<seq<Tag>>
    decreases |evs|
  {
    if evs == [] then Some([])
    else
      match OpenTags(evs[..|evs| - 1])
      case None => None
      case Some(open) =>
        match evs[|evs| - 1]
        case Start(t) => Some(open + [t])
        case End(t) =>
          if open != [] && open[|open| - 1] == t then Some(open[..|open| - 1]) else None
        case _ => Some(open)
  }

  /** The styles of the open tags that open one, innermost last. */
  function Styles(open: seq<Tag>): seq<TextKind>
    decreases |open|
  {
    if open == [] then []
    else
      var rest := Styles(open[..|open| - 1]);
      match TagStyle(open[|open| - 1])
      case None => rest
      case Some(k) => rest + [k]
  }

  /** The bytes an event adds to the block's text: its text, or the marker
      and line break written around list items. */
  function EventText(e: Event): seq<u8>
  {
    match e
    case Text(t) => t
    case Start(tag) => if tag == Item then ItemMarker else []
    case End(tag) => if tag == Item then ItemBreak else []
    case OtherEvent => []
  }

  /** The bytes the events add to the block's text, in order. */
  function TextOf(evs: seq<Event>): seq<u8>
    decreases |evs|
  {
    if evs == [] then [] else TextOf(evs[..|evs| - 1]) + EventText(evs[|evs| - 1])
  }

  /** How one event moves the style stack. */
  lemma StepStack(s: ParseState, e: Event)
    ensures e.Start? && TagStyle(e.tag).Some? ==>
      Step(s, e).stack == s.stack + [TagStyle(e.tag).value]
    ensures e.End? && TagStyle(e.tag).Some? ==> Step(s, e).stack == Pop(s.stack)
    ensures !((e.Start? || e.End?) && TagStyle(e.tag).Some?) ==> Step(s, e).stack == s.stack
    ensures s.stack != [] && Step(s, e).stack != [] ==>
      Step(s, e).blocks == s.blocks && Step(s, e).curText == s.curText + EventText(e)
  {
  }

  /** How the last event moves the open tags. */
  lemma OpenTagsLast(evs: seq<Event>, open: seq<Tag>)
    requires evs != [] && OpenTags(evs) == Some(open)
    ensures OpenTags(evs[..|evs| - 1]).Some?
    ensures var e := evs[|evs| - 1]; var before := OpenTags(evs[..|evs| - 1]).value;
      && (e.Start? ==> open == before + [e.tag])
      && (e.End? ==> before == open + [e.tag])
      && (!e.Start? && !e.End? ==> open == before)
  {
    var e := evs[|evs| - 1];
    var before := OpenTags(evs[..|evs| - 1]).value;
    if e.End? {
      assert before != [] && before[|before| - 1] == e.tag && open == before[..|before| - 1];
      DropLastThenAppend(before);
    }
  }

  lemma DropLastThenAppend<T>(xs: seq<T>)
    requires xs != []
    ensures xs[..|xs| - 1] + [xs[|xs| - 1]] == xs
  {
  }

  lemma StylesLast(open: seq<Tag>, t: Tag)
    ensures Styles(open + [t]) ==
      Styles(open) + (if TagStyle(t).Some? then [TagStyle(t).value] else [])
  {
    assert (open + [t])[..|open + [t]| - 1] == open;
  }

  /** How one event moves the open tags, seen through their styles. */
  lemma OpenStylesStep(evs: seq<Event>, open: seq<Tag>)
    requires evs != [] && OpenTags(evs) == Some(open)
    ensures OpenTags(evs[..|evs| - 1]).Some?
    ensures var e := evs[|evs| - 1]; var before := Styles(OpenTags(evs[..|evs| - 1]).value);
      && (e.Start? && TagStyle(e.tag).Some? ==> Styles(open) == before + [TagStyle(e.tag).value])
      && (e.End? && TagStyle(e.tag).Some? ==> before == Styles(open) + [TagStyle(e.tag).value])
      && (!((e.Start? || e.End?) && TagStyle(e.tag).Some?) ==> Styles(open) == before)
  {
    var e := evs[|evs| - 1];
    OpenTagsLast(evs, open);
    var open' := OpenTags(evs[..|evs| - 1]).value;
    if e.Start? {
      StylesLast(open', e.tag);
    } else if e.End? {
      StylesLast(open, e.tag);
    }
  }

  /** The style stack always holds exactly the styles of the open tags
      that open one, on top of whatever it held before; so its depth grows
      by the number of open styled tags. */
  lemma {:induction false} StackMirrorsOpenStyles(s: ParseState, evs: seq<Event>, open: seq<Tag>)
    requires OpenTags(evs) == Some(open)
    ensures Run(s, evs).stack == s.stack + Styles(open)
    decreases |evs|
  {
    if evs != [] {
      var init := evs[..|evs| - 1];
      OpenStylesStep(evs, open);
      StackMirrorsOpenStyles(s, init, OpenTags(init).value);
      StepStack(Run(s, init), evs[|evs| - 1]);
    }
  }

  /** While a style stays open, no block is emitted and the text only
      grows, by exactly the events' text. */
  lemma {:induction false} NestedEventsOnlyAddText(s: ParseState, evs: seq<Event>, open: seq<Tag>)
    requires OpenTags(evs) == Some(open) && s.stack != []
    ensures Run(s, evs).blocks == s.blocks
    ensures Run(s, evs).curText == s.curText + TextOf(evs)
    decreases |evs|
  {
    if evs != [] {
      var init := evs[..|evs| - 1];
      var e := evs[|evs| - 1];
      OpenTagsLast(evs, open);
      NestedEventsOnlyAddText(s, init, OpenTags(init).value);
      StackMirrorsOpenStyles(s, init, OpenTags(init).value);
      StackMirrorsOpenStyles(s, evs, open);
      StepStack(Run(s, init), e);
    }
  }

  lemma {:induction false} RunAppend(s: ParseState, a: seq<Event>, b: seq<Event>)
    ensures Run(s, a + b) == Run(Run(s, a), b)
    decreases |b|
  {
    if b == [] {
      assert a + b == a;
    } else {
      assert (a + b)[..|a + b| - 1] == a + b[..|b| - 1];
      RunAppend(s, a, b[..|b| - 1]);
    }
  }

  /** A styled tag that opens at top level, encloses a well-nested stream
      and closes again produces exactly one block: its text is the text of
      the enclosed events, it has at least one chunk, and (when that text is
      shorter than 65536 bytes) its chunks tile the text from 0 to its
      length. Afterwards no style is open and nothing is left gathered. */
  lemma StyledTagYieldsOneBlock(s: ParseState, t: Tag, inner: seq<Event>)
    requires s.stack == [] && TagStyle(t).Some? && OpenTags(inner) == Some([])
    ensures var r := Run(s, [Start(t)] + inner + [End(t)]);
      && |r.blocks| == |s.blocks| + 1
      && r.blocks[..|s.blocks|] == s.blocks
      && r.blocks[|s.blocks|].content == TextOf(inner)
      && r.blocks[|s.blocks|].chunks != []
      && (|TextOf(inner)| < 0x1_0000 ==> Tiles(r.blocks[|s.blocks|].chunks, 0, |TextOf(inner)|))
      && r.stack == [] && r.curText == [] && r.chunks == []
  {
    var k := TagStyle(t).value;
    var s1 := Step(s, Start(t));
    assert Run(s, [Start(t)]) == s1 by {
      assert [Start(t)][..0] == [];
    }
    assert s1 == ParseState(s.blocks, [], [], [k], 0);
    assert Consistent(s1);
    StackMirrorsOpenStyles(s1, inner, []);
    NestedEventsOnlyAddText(s1, inner, []);
    RunKeepsConsistent(s1, inner);
    var s2 := Run(s1, inner);
    assert s2.stack == [k] && s2.blocks == s.blocks && s2.curText == TextOf(inner);
    RunAppend(s, [Start(t)], inner);
    RunAppend(s, [Start(t)] + inner, [End(t)]);
    assert Run(s2, [End(t)]) == Step(s2, End(t)) by {
      assert [End(t)][..0] == [];
    }
    CloseChunkExtendsTiling(s2);
    StepKeepsConsistent(s2, End(t));
  }

  // ---------------------------------------------------------------------
  // Scenarios

  /** Running one more event is one more step. */
  lemma RunLast(s: ParseState, evs: seq<Event>, e: Event)
    ensures Run(s, evs + [e]) == Step(Run(s, evs), e)
  {
    assert (evs + [e])[..|evs|] == evs;
  }

  /** A block quote around a paragraph: the paragraph becomes a block whose
      one chunk covers its text, and the block quote's end, which opens no
      style, adds an empty block after it. */
  lemma QuotedParagraphAddsEmptyBlock(quote: Tag, txt: seq<u8>)
    requires quote.OtherTag?
    ensures Run(Initial, [Start(quote), Start(Tag.Paragraph), Text(txt), End(Tag.Paragraph), End(quote)]).blocks
      == [TextBlock(txt, [Chunk(0, AsU16(|txt|), TextKind.Paragraph)]), TextBlock([], [])]
  {
    var inner := [Start(Tag.Paragraph), Text(txt), End(Tag.Paragraph)];
    var e1, e5 := Start(quote), End(quote);
    var block := TextBlock(txt, [Chunk(0, AsU16(|txt|), TextKind.Paragraph)]);
    RunLast(Initial, [], e1);
    assert Run(Initial, [e1]) == Initial by {
      assert [] + [e1] == [e1];
    }
    SingleStyledTag(Initial, Tag.Paragraph, TextKind.Paragraph, txt);
    RunAppend(Initial, [e1], inner);
    var s4 := Run(Initial, [e1] + inner);
    assert s4 == Run(Initial, inner);
    assert s4 == ParseState([block], [], [], [], |txt|);
    RunLast(Initial, [e1] + inner, e5);
    assert Step(s4, e5) == EndBlockIfNoneOpen(s4);
    assert Step(s4, e5).blocks == [block, TextBlock([], [])];
    assert [e1] + inner + [e5] == [Start(quote), Start(Tag.Paragraph), Text(txt), End(Tag.Paragraph), End(quote)];
  }

  /** Closing the only open style closes its last chunk and ends the
      block: the text and every chunk move into one new block. */
  lemma CloseOutermostStyle(s: ParseState, t: Tag, k: TextKind)
    requires s.stack == [k] && TagStyle(t) == Some(k)
    ensures Step(s, End(t)) ==
      s.(blocks := s.blocks + [TextBlock(s.curText, s.chunks + [Chunk(AsU16(s.lastChunk), AsU16(|s.curText|), k)])],
         curText := [], chunks := [], stack := [], lastChunk := |s.curText|)
  {
  }

  /** A styled tag around one text, opened with no style open, gives one
      block: the text, with one chunk from 0 to its length cut to 16 bits. */
  lemma SingleStyledTag(s: ParseState, t: Tag, k: TextKind, txt: seq<u8>)
    requires s.stack == [] && TagStyle(t) == Some(k)
    ensures Run(s, [Start(t), Text(txt), End(t)]) ==
      s.(blocks := s.blocks + [TextBlock(txt, [Chunk(0, AsU16(|txt|), k)])],
         curText := [], chunks := [], stack := [], lastChunk := |txt|)
  {
    var s1 := ParseState(s.blocks, [], [], [k], 0);
    var s2 := ParseState(s.blocks, txt, [], [k], 0);
    RunThree(s, Start(t), Text(txt), End(t));
    StartStyledTag(s, t, k);
    assert Step(s, Start(t)) == s1;
    assert Step(s1, Text(txt)) == s2;
    CloseOutermostStyle(s2, t, k);
    assert AsU16(0) == 0;
    assert s2.chunks + [Chunk(0, AsU16(|txt|), k)] == [Chunk(0, AsU16(|txt|), k)];
  }

  lemma RunThree(s: ParseState, e1: Event, e2: Event, e3: Event)
    ensures Run(s, [e1, e2, e3]) == Step(Step(Step(s, e1), e2), e3)
  {
    RunLast(s, [], e1);
    assert [] + [e1] == [e1];
    RunLast(s, [e1], e2);
    assert [e1] + [e2] == [e1, e2];
    RunLast(s, [e1, e2], e3);
    assert [e1, e2] + [e3] == [e1, e2, e3];
  }

  /** Offsets are stored with `as u16`: a paragraph of 65540 bytes gets
      one chunk that ends at offset 4, not at the end of its text. */
  lemma LongParagraphOffsetWraps(txt: seq<u8>)
    requires |txt| == 0x1_0004
    ensures var blocks := Run(Initial, [Start(Tag.Paragraph), Text(txt), End(Tag.Paragraph)]).blocks;
      && blocks == [TextBlock(txt, [Chunk(0, 4, TextKind.Paragraph)])]
      && !Tiles(blocks[0].chunks, 0, |blocks[0].content|)
  {
    SingleStyledTag(Initial, Tag.Paragraph, TextKind.Paragraph, txt);
    var chunks := [Chunk(0, AsU16(|txt|), TextKind.Paragraph)];
    assert Run(Initial, [Start(Tag.Paragraph), Text(txt), End(Tag.Paragraph)]).blocks
      == [TextBlock(txt, chunks)];
    assert AsU16(|txt|) == 4;
    assert chunks[|chunks| - 1].end as int != |txt|;
  }
}
