/** The document types that the markdown front end produces and the client
    lays out: a text block is one string of UTF-8 bytes together with the
    styled byte ranges (chunks) that cover it. */
module Document {

  newtype u8 = x: int | 0 <= x < 0x100
  newtype u16 = x: int | 0 <= x < 0x1_0000

  /** Rust's `n as u16` on a `usize`: only the low 16 bits are kept. */
  function AsU16(n: nat): (r: u16)
    ensures n < 0x1_0000 ==> r as int == n
    ensures (n - r as int) % 0x1_0000 == 0
  {
    (n % 0x1_0000) as u16
  }

  /** The style of a chunk. The markdown front end uses seven kinds; see the
      README for the five-variant declaration it disagrees with. */
  datatype TextKind =
    | Header1
    | Header2
    | Paragraph
    | ParagraphBold
    | ParagraphItalic
    | ParagraphCode
    | Link

  /** A styled byte range `start..end` of its block's content. */
  datatype Chunk = Chunk(start: u16, end: u16, kind: TextKind)

  datatype TextBlock = TextBlock(content: seq<u8>, chunks: seq<Chunk>)

  /** The chunks are contiguous and in order, each well formed, and together
      cover exactly the offsets `lo..hi`. */
  ghost predicate Tiles(cs: seq<Chunk>, lo: int, hi: int)
  {
    && (cs == [] ==> lo == hi)
    && (cs != [] ==> cs[0].start as int == lo && cs[|cs| - 1].end as int == hi)
    && (forall k :: 0 <= k < |cs| ==> cs[k].start <= cs[k].end)
    && (forall k :: 0 <= k < |cs| - 1 ==> cs[k].end == cs[k + 1].start)
  }

  /** Adding a chunk that starts where a tiling ends extends the tiling. */
  lemma TilesExtend(cs: seq<Chunk>, lo: int, c: Chunk)
    requires Tiles(cs, lo, c.start as int) && c.start <= c.end
    ensures Tiles(cs + [c], lo, c.end as int)
  {
    var cs' := cs + [c];
    forall k | 0 <= k < |cs'| - 1
      ensures cs'[k].end == cs'[k + 1].start
    {
      if k < |cs| - 1 {
        assert cs'[k] == cs[k] && cs'[k + 1] == cs[k + 1];
      }
    }
  }

  /** Every chunk of a tiling lies inside the tiled offsets. */
  lemma {:induction false} TilesBounds(cs: seq<Chunk>, lo: int, hi: int, k: nat)
    requires Tiles(cs, lo, hi) && k < |cs|
    ensures lo <= cs[k].start as int <= cs[k].end as int <= hi
    decreases |cs| - k
  {
    if k + 1 < |cs| {
      TilesBounds(cs, lo, hi, k + 1);
      StartsAfter(cs, lo, hi, k);
    } else {
      StartsAfter(cs, lo, hi, k);
    }
  }

  lemma {:induction false} StartsAfter(cs: seq<Chunk>, lo: int, hi: int, k: nat)
    requires Tiles(cs, lo, hi) && k < |cs|
    ensures lo <= cs[k].start as int
  {
    if k > 0 {
      StartsAfter(cs, lo, hi, k - 1);
    }
  }

  /** The UTF-8 bytes of an ASCII string: one byte per character, equal to
      the character's code. Only applied to the ASCII literals below. */
  function Ascii(s: string): (b: seq<u8>)
    ensures |b| == |s|
    ensures forall i :: 0 <= i < |s| && s[i] as int < 0x80 ==> b[i] as int == s[i] as int
  {
    seq(|s|, i requires 0 <= i < |s| => (s[i] as int % 0x100) as u8)
  }

  /** The bytes of the fixture's text, an ASCII sentence of 189 bytes.
      The literal is split into short pieces only so that the verifier can
      read it character by character; the pieces concatenate to the
      original sentence. */
  function ExampleText(): (b: seq<u8>)
  {
    Ascii("the quick") + Ascii(" brown ") + Ascii("fox") + ExampleTail()
  }

  /** The fixture's text after "fox". */
  function ExampleTail(): (b: seq<u8>)
  {
    Ascii(" jumps over the lazy dog!") + Ascii(" Even though the dog was")
    + Ascii(" testing the text wrapping") + Ascii(" at the time. The text wr")
    + Ascii("apping was working pretty") + Ascii(" well by the way, in case")
    + Ascii(" you were wondering.")
  }

  /** The fixture block: four chunks, the third of them a link. */
  function Example(): (b: TextBlock)
  {
    var txt := ExampleText();
    var chunks := [
      Chunk(0, 9, Paragraph),
      Chunk(9, 16, Paragraph),
      Chunk(16, 19, Link),
      Chunk(19, AsU16(|txt|), Paragraph)
    ];
    TextBlock(txt, chunks)
  }

  /** The fixture's chunks are 0..9, 9..16, 16..19 and 19..189, its text of
      189 bytes fits the 16-bit offsets, and the chunks tile the text. */
  lemma ExampleChunks()
    ensures |Example().content| == 189 < 0x1_0000
    ensures Example().chunks == [
      Chunk(0, 9, Paragraph),
      Chunk(9, 16, Paragraph),
      Chunk(16, 19, Link),
      Chunk(19, 189, Paragraph)
    ]
    ensures Tiles(Example().chunks, 0, |Example().content|)
  {
  }

  /** The only link chunk of the fixture is the word "fox"; all other chunks
      are plain paragraph text. */
  lemma ExampleLinkIsFox()
    ensures forall k :: 0 <= k < |Example().chunks| ==>
      (Example().chunks[k].kind == Link <==> k == 2)
    ensures forall k :: 0 <= k < |Example().chunks| && k != 2 ==>
      Example().chunks[k].kind == Paragraph
    ensures Example().content[16..19] == Ascii("fox")
  {
    ExampleChunks();
    var head := Ascii("the quick") + Ascii(" brown ");
    var fox := Ascii("fox");
    assert Example().content == head + fox + ExampleTail();
    SliceOfMiddle(head, fox, ExampleTail());
  }

  lemma SliceOfMiddle(a: seq<u8>, b: seq<u8>, c: seq<u8>)
    ensures (a + b + c)[|a|..|a| + |b|] == b
  {
  }
}
