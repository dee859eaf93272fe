/** source/Irrlicht/CImageLoaderWAL.cpp: the Half-Life (WAL2) and Quake 2
    (WAL) texture loaders. The decoded header and the file's bytes are
    inputs; the host is little-endian, so the bytes that file->read stores
    into a u32 buffer are that word's bytes from least to most significant.
    The colour conversions (CColorConverter) are not modelled: an image
    here is the format, size, palette and raw texels they are handed.
    Colours are A8R8G8B8 words, alpha in the top byte. */
module ImageLoaderWal {
  import opened IrrTypes

  datatype ColorFormat = ECF_R8G8B8 | ECF_A8R8G8B8

  /** The fields of miptex_halflife / miptex_quake2 the loaders use. */
  datatype MipTex = MipTex(width: u32, height: u32, mipmap0: u32)

  /** What loadImage hands to the colour conversion. */
  datatype WalImage = WalImage(format: ColorFormat, width: u32, height: u32,
                               palette: seq<u32>, texels: seq<u8>)

  // ---------------------------------------------------------------------
  // Words and their bytes

  /** Byte k of a word, k = 0 the least significant. */
  function ByteOf(w: u32, k: nat): u8
    requires k < 4
  {
    if k == 0 then w % 0x100
    else if k == 1 then (w / 0x100) % 0x100
    else if k == 2 then (w / 0x1_0000) % 0x100
    else w / 0x100_0000
  }

  /** The word a little-endian store of four bytes makes. */
  function PackWord(b0: u8, b1: u8, b2: u8, b3: u8): u32
  {
    b0 + 0x100 * b1 + 0x1_0000 * b2 + 0x100_0000 * b3
  }

  lemma SplitByte(lo: u8, hi: nat)
    ensures (lo + 0x100 * hi) % 0x100 == lo
    ensures (lo + 0x100 * hi) / 0x100 == hi
  {
  }

  /** Storing four bytes as a word and reading them back gives them back. */
  lemma {:induction false} WordBytes(b0: u8, b1: u8, b2: u8, b3: u8)
    ensures ByteOf(PackWord(b0, b1, b2, b3), 0) == b0
    ensures ByteOf(PackWord(b0, b1, b2, b3), 1) == b1
    ensures ByteOf(PackWord(b0, b1, b2, b3), 2) == b2
    ensures ByteOf(PackWord(b0, b1, b2, b3), 3) == b3
  {
    var w := PackWord(b0, b1, b2, b3);
    var h1 := b1 + 0x100 * (b2 + 0x100 * b3);
    var h2 := b2 + 0x100 * b3;
    assert w == b0 + 0x100 * h1;
    SplitByte(b0, h1);
    SplitByte(b1, h2);
    SplitByte(b2, b3);
    assert w == (b0 + 0x100 * b1) + 0x1_0000 * h2;
    assert w / 0x1_0000 == h2;
    assert w == (b0 + 0x100 * b1 + 0x1_0000 * b2) + 0x100_0000 * b3;
    assert w / 0x100_0000 == b3;
  }

  /** Every word is the little-endian packing of its four bytes. */
  lemma WordIsPackOfBytes(w: u32)
    ensures w == PackWord(ByteOf(w, 0), ByteOf(w, 1), ByteOf(w, 2), ByteOf(w, 3))
  {
    var q1, q2 := w / 0x100, w / 0x1_0000;
    assert w == w % 0x100 + 0x100 * q1;
    assert q1 == q1 % 0x100 + 0x100 * (q1 / 0x100);
    assert q1 / 0x100 == q2;
    assert q2 == q2 % 0x100 + 0x100 * (w / 0x100_0000);
  }

  /** The bytes an array of words holds, in memory order. */
  function BytesOfWords(ws: seq<u32>): seq<u8>
  {
    seq(4 * |ws|, k requires 0 <= k < 4 * |ws| => ByteOf(ws[k / 4], k % 4))
  }

  // ---------------------------------------------------------------------
  // Colour channels

  function Alpha(c: u32): u8 { ByteOf(c, 3) }
  function Red(c: u32): u8 { ByteOf(c, 2) }
  function Green(c: u32): u8 { ByteOf(c, 1) }
  function Blue(c: u32): u8 { ByteOf(c, 0) }

  // ---------------------------------------------------------------------
  // colormap_pcx, the Quake 2 palette, as eight rows of 32 entries

  const COLORMAP_ROW0: seq<u32> := [
    0xFF000000, 0xFF0F0F0F, 0xFF1F1F1F, 0xFF2F2F2F, 0xFF3F3F3F, 0xFF4B4B4B, 0xFF5B5B5B, 0xFF6B6B6B,
    0xFF7B7B7B, 0xFF8B8B8B, 0xFF9B9B9B, 0xFFABABAB, 0xFFBBBBBB, 0xFFCBCBCB, 0xFFDBDBDB, 0xFFEBEBEB,
    0xFF634B23, 0xFF5B431F, 0xFF533F1F, 0xFF4F3B1B, 0xFF47371B, 0xFF3F2F17, 0xFF3B2B17, 0xFF332713,
    0xFF2F2313, 0xFF2B1F13, 0xFF271B0F, 0xFF23170F, 0xFF1B130B, 0xFF170F0B, 0xFF130F07, 0xFF0F0B07
  ]

  const COLORMAP_ROW1: seq<u32> := [
    0xFF5F5F6F, 0xFF5B5B67, 0xFF5B535F, 0xFF574F5B, 0xFF534B53, 0xFF4F474B, 0xFF473F43, 0xFF3F3B3B,
    0xFF3B3737, 0xFF332F2F, 0xFF2F2B2B, 0xFF272727, 0xFF232323, 0xFF1B1B1B, 0xFF171717, 0xFF131313,
    0xFF8F7753, 0xFF7B6343, 0xFF735B3B, 0xFF674F2F, 0xFFCF974B, 0xFFA77B3B, 0xFF8B672F, 0xFF6F5327,
    0xFFEB9F27, 0xFFCB8B23, 0xFFAF771F, 0xFF93631B, 0xFF774F17, 0xFF5B3B0F, 0xFF3F270B, 0xFF231707
  ]

  const COLORMAP_ROW2: seq<u32> := [
    0xFFA73B2B, 0xFF9F2F23, 0xFF972B1B, 0xFF8B2713, 0xFF7F1F0F, 0xFF73170B, 0xFF671707, 0xFF571300,
    0xFF4B0F00, 0xFF430F00, 0xFF3B0F00, 0xFF330B00, 0xFF2B0B00, 0xFF230B00, 0xFF1B0700, 0xFF130700,
    0xFF7B5F4B, 0xFF735743, 0xFF6B533F, 0xFF674F3B, 0xFF5F4737, 0xFF574333, 0xFF533F2F, 0xFF4B372B,
    0xFF433327, 0xFF3F2F23, 0xFF37271B, 0xFF2F2317, 0xFF271B13, 0xFF1F170F, 0xFF170F0B, 0xFF0F0B07
  ]

  const COLORMAP_ROW3: seq<u32> := [
    0xFF6F3B17, 0xFF5F3717, 0xFF532F17, 0xFF432B17, 0xFF372313, 0xFF271B0F, 0xFF1B130B, 0xFF0F0B07,
    0xFFB35B4F, 0xFFBF7B6F, 0xFFCB9B93, 0xFFD7BBB7, 0xFFCBD7DF, 0xFFB3C7D3, 0xFF9FB7C3, 0xFF87A7B7,
    0xFF7397A7, 0xFF5B879B, 0xFF47778B, 0xFF2F677F, 0xFF17536F, 0xFF134B67, 0xFF0F435B, 0xFF0B3F53,
    0xFF07374B, 0xFF072F3F, 0xFF072733, 0xFF001F2B, 0xFF00171F, 0xFF000F13, 0xFF00070B, 0xFF000000
  ]

  const COLORMAP_ROW4: seq<u32> := [
    0xFF8B5757, 0xFF834F4F, 0xFF7B4747, 0xFF734343, 0xFF6B3B3B, 0xFF633333, 0xFF5B2F2F, 0xFF572B2B,
    0xFF4B2323, 0xFF3F1F1F, 0xFF331B1B, 0xFF2B1313, 0xFF1F0F0F, 0xFF130B0B, 0xFF0B0707, 0xFF000000,
    0xFF979F7B, 0xFF8F9773, 0xFF878B6B, 0xFF7F8363, 0xFF777B5F, 0xFF737357, 0xFF6B6B4F, 0xFF636347,
    0xFF5B5B43, 0xFF4F4F3B, 0xFF434333, 0xFF37372B, 0xFF2F2F23, 0xFF23231B, 0xFF171713, 0xFF0F0F0B
  ]

  const COLORMAP_ROW5: seq<u32> := [
    0xFF9F4B3F, 0xFF934337, 0xFF8B3B2F, 0xFF7F3727, 0xFF772F23, 0xFF6B2B1B, 0xFF632317, 0xFF571F13,
    0xFF4F1B0F, 0xFF43170B, 0xFF37130B, 0xFF2B0F07, 0xFF1F0B07, 0xFF170700, 0xFF0B0000, 0xFF000000,
    0xFF777BCF, 0xFF6F73C3, 0xFF676BB7, 0xFF6363A7, 0xFF5B5B9B, 0xFF53578F, 0xFF4B4F7F, 0xFF474773,
    0xFF3F3F67, 0xFF373757, 0xFF2F2F4B, 0xFF27273F, 0xFF231F2F, 0xFF1B1723, 0xFF130F17, 0xFF0B0707
  ]

  const COLORMAP_ROW6: seq<u32> := [
    0xFF9BAB7B, 0xFF8F9F6F, 0xFF879763, 0xFF7B8B57, 0xFF73834B, 0xFF677743, 0xFF5F6F3B, 0xFF576733,
    0xFF4B5B27, 0xFF3F4F1B, 0xFF374313, 0xFF2F3B0B, 0xFF232F07, 0xFF1B2300, 0xFF131700, 0xFF0B0F00,
    0xFF00FF00, 0xFF23E70F, 0xFF3FD31B, 0xFF53BB27, 0xFF5FA72F, 0xFF5F8F33, 0xFF5F7B33, 0xFFFFFFFF,
    0xFFFFFFD3, 0xFFFFFFA7, 0xFFFFFF7F, 0xFFFFFF53, 0xFFFFFF27, 0xFFFFEB1F, 0xFFFFD717, 0xFFFFBF0F
  ]

  const COLORMAP_ROW7: seq<u32> := [
    0xFFFFAB07, 0xFFFF9300, 0xFFEF7F00, 0xFFE36B00, 0xFFD35700, 0xFFC74700, 0xFFB73B00, 0xFFAB2B00,
    0xFF9B1F00, 0xFF8F1700, 0xFF7F0F00, 0xFF730700, 0xFF5F0000, 0xFF470000, 0xFF2F0000, 0xFF1B0000,
    0xFFEF0000, 0xFF3737FF, 0xFFFF0000, 0xFF0000FF, 0xFF2B2B23, 0xFF1B1B17, 0xFF13130F, 0xFFEB977F,
    0xFFC37353, 0xFF9F5733, 0xFF7B3F1B, 0xFFEBD3C7, 0xFFC7AB9B, 0xFFA78B77, 0xFF876B57, 0x009F5B53
  ]
  const COLORMAP_PCX: seq<u32> :=
    COLORMAP_ROW0 + COLORMAP_ROW1 + COLORMAP_ROW2 + COLORMAP_ROW3 +
    COLORMAP_ROW4 + COLORMAP_ROW5 + COLORMAP_ROW6 + COLORMAP_ROW7

  /** Full alpha: the top byte is 0xFF. */
  predicate Opaque(c: u32) { c >= 0xFF00_0000 }

  predicate RowOpaque(row: seq<u32>)
  {
    forall i :: 0 <= i < |row| ==> Opaque(row[i])
  }

  lemma Row0Opaque() ensures |COLORMAP_ROW0| == 32 && RowOpaque(COLORMAP_ROW0) {}
  lemma Row1Opaque() ensures |COLORMAP_ROW1| == 32 && RowOpaque(COLORMAP_ROW1) {}
  lemma Row2Opaque() ensures |COLORMAP_ROW2| == 32 && RowOpaque(COLORMAP_ROW2) {}
  lemma Row3Opaque() ensures |COLORMAP_ROW3| == 32 && RowOpaque(COLORMAP_ROW3) {}
  lemma Row4Opaque() ensures |COLORMAP_ROW4| == 32 && RowOpaque(COLORMAP_ROW4) {}
  lemma Row5Opaque() ensures |COLORMAP_ROW5| == 32 && RowOpaque(COLORMAP_ROW5) {}
  lemma Row6Opaque() ensures |COLORMAP_ROW6| == 32 && RowOpaque(COLORMAP_ROW6) {}
  lemma Row7OpaqueButLast()
    ensures |COLORMAP_ROW7| == 32 && RowOpaque(COLORMAP_ROW7[..31])
    ensures COLORMAP_ROW7[31] == 0x009F_5B53
  {
  }

  lemma ConcatOpaque(a: seq<u32>, b: seq<u32>)
    requires RowOpaque(a) && RowOpaque(b)
    ensures RowOpaque(a + b)
  {
    forall i | 0 <= i < |a + b|
      ensures Opaque((a + b)[i])
    {
      if i >= |a| {
        assert (a + b)[i] == b[i - |a|];
      }
    }
  }

  /** Entry i of the table, read from its row. */
  lemma ColormapRows(i: nat)
    requires i < 256
    ensures |COLORMAP_PCX| == 256
    ensures i < 255 ==> Opaque(COLORMAP_PCX[i])
    ensures i == 255 ==> COLORMAP_PCX[i] == 0x009F_5B53
  {
    Row0Opaque(); Row1Opaque(); Row2Opaque(); Row3Opaque();
    Row4Opaque(); Row5Opaque(); Row6Opaque(); Row7OpaqueButLast();
    var front := COLORMAP_ROW0 + COLORMAP_ROW1 + COLORMAP_ROW2 + COLORMAP_ROW3 +
                 COLORMAP_ROW4 + COLORMAP_ROW5 + COLORMAP_ROW6;
    ConcatOpaque(COLORMAP_ROW0, COLORMAP_ROW1);
    ConcatOpaque(COLORMAP_ROW0 + COLORMAP_ROW1, COLORMAP_ROW2);
    ConcatOpaque(COLORMAP_ROW0 + COLORMAP_ROW1 + COLORMAP_ROW2, COLORMAP_ROW3);
    ConcatOpaque(COLORMAP_ROW0 + COLORMAP_ROW1 + COLORMAP_ROW2 + COLORMAP_ROW3, COLORMAP_ROW4);
    ConcatOpaque(COLORMAP_ROW0 + COLORMAP_ROW1 + COLORMAP_ROW2 + COLORMAP_ROW3 + COLORMAP_ROW4, COLORMAP_ROW5);
    ConcatOpaque(COLORMAP_ROW0 + COLORMAP_ROW1 + COLORMAP_ROW2 + COLORMAP_ROW3 + COLORMAP_ROW4 + COLORMAP_ROW5, COLORMAP_ROW6);
    ConcatOpaque(front, COLORMAP_ROW7[..31]);
    assert COLORMAP_PCX == (front + COLORMAP_ROW7[..31]) + [COLORMAP_ROW7[31]];
  }

  /** An opaque word has alpha 0xFF. */
  lemma OpaqueAlpha(c: u32)
    requires Opaque(c)
    ensures Alpha(c) == 0xFF
  {
  }

  /** colormap_pcx has 256 entries; entries 0 to 254 are opaque and entry
      255 is fully transparent, keeping its colour 0x9F5B53. */
  lemma ColormapAlpha(i: nat)
    requires i < 256
    ensures |COLORMAP_PCX| == 256
    ensures i < 255 ==> Alpha(COLORMAP_PCX[i]) == 0xFF
    ensures i == 255 ==> Alpha(COLORMAP_PCX[i]) == 0 && COLORMAP_PCX[i] == 0x009F_5B53
  {
    ColormapRows(i);
    if i < 255 {
      OpaqueAlpha(COLORMAP_PCX[i]);
    }
  }

  // ---------------------------------------------------------------------
  // The Half-Life palette

  /** Words of the `pal` buffer: 192 words the file's palette bytes are read
      into, then the 256 palette entries. */
  const PAL_WORDS: nat := 192 + 256

  /** `0xFF000000 | s[0] << 16 | s[1] << 8 | s[2]` with s at byte 3i: the
      four fields occupy disjoint bits, so the ors are sums. */
  function PaletteEntry(bytes: seq<u8>, i: nat): (c: u32)
    requires |bytes| == 768 && i < 256
  {
    0xFF00_0000 + 0x1_0000 * (bytes[3 * i] as int) + 0x100 * (bytes[3 * i + 1] as int) + bytes[3 * i + 2] as int
  }

  /** An entry is opaque and carries the RGB triple read at byte 3i. */
  lemma {:induction false} PaletteEntryChannels(bytes: seq<u8>, i: nat)
    requires |bytes| == 768 && i < 256
    ensures Alpha(PaletteEntry(bytes, i)) == 0xFF
    ensures Red(PaletteEntry(bytes, i)) == bytes[3 * i]
    ensures Green(PaletteEntry(bytes, i)) == bytes[3 * i + 1]
    ensures Blue(PaletteEntry(bytes, i)) == bytes[3 * i + 2]
  {
    assert PaletteEntry(bytes, i) == PackWord(bytes[3 * i + 2], bytes[3 * i + 1], bytes[3 * i], 0xFF);
    WordBytes(bytes[3 * i + 2], bytes[3 * i + 1], bytes[3 * i], 0xFF);
  }

  /** `pal[192 + 255] &= 0x00FFFFFF`: alpha cleared, colour kept. */
  function ClearAlpha(c: u32): (r: u32)
  {
    c % 0x100_0000
  }

  lemma {:induction false} ClearAlphaChannels(c: u32)
    ensures Alpha(ClearAlpha(c)) == 0
    ensures Red(ClearAlpha(c)) == Red(c) && Green(ClearAlpha(c)) == Green(c) && Blue(ClearAlpha(c)) == Blue(c)
  {
    WordIsPackOfBytes(c);
    assert ClearAlpha(c) == PackWord(Blue(c), Green(c), Red(c), 0);
    WordBytes(Blue(c), Green(c), Red(c), 0);
  }

  /** The palette the Half-Life loader hands on: the 256 entries read from
      the file, with the last one's alpha cleared when the file name asks
      for a colour key. */
  function HalfLifePalette(bytes: seq<u8>, colorKey: bool): (p: seq<u32>)
    requires |bytes| == 768
    ensures |p| == 256
  {
    seq(256, i requires 0 <= i < 256 =>
      if colorKey && i == 255 then ClearAlpha(PaletteEntry(bytes, i)) else PaletteEntry(bytes, i))
  }

  /** Every entry keeps the colour read from the file; all are opaque but
      the last, which is transparent exactly when there is a colour key. */
  lemma HalfLifePaletteEntry(bytes: seq<u8>, colorKey: bool, i: nat)
    requires |bytes| == 768 && i < 256
    ensures Alpha(HalfLifePalette(bytes, colorKey)[i]) == if colorKey && i == 255 then 0 else 0xFF
    ensures Red(HalfLifePalette(bytes, colorKey)[i]) == bytes[3 * i]
    ensures Green(HalfLifePalette(bytes, colorKey)[i]) == bytes[3 * i + 1]
    ensures Blue(HalfLifePalette(bytes, colorKey)[i]) == bytes[3 * i + 2]
  {
    PaletteEntryChannels(bytes, i);
    ClearAlphaChannels(PaletteEntry(bytes, i));
  }

  /** `file->read(s, 768)` into the start of `pal`: 768 bytes stored into
      the first 192 words, the rest untouched. */
  method ReadPaletteBytes(pal: array<u32>, bytes: seq<u8>)
    requires pal.Length == PAL_WORDS && |bytes| == 768
    modifies pal
    ensures BytesOfWords(pal[..192]) == bytes
    ensures pal[192..] == old(pal[192..])
  {
    for w := 0 to 192
      invariant forall v :: 0 <= v < w ==>
        pal[v] == PackWord(bytes[4 * v], bytes[4 * v + 1], bytes[4 * v + 2], bytes[4 * v + 3])
      invariant pal[192..] == old(pal[192..])
    {
      pal[w] := PackWord(bytes[4 * w], bytes[4 * w + 1], bytes[4 * w + 2], bytes[4 * w + 3]);
    }
    var stored := BytesOfWords(pal[..192]);
    forall k | 0 <= k < 768
      ensures stored[k] == bytes[k]
    {
      var v := k / 4;
      WordBytes(bytes[4 * v], bytes[4 * v + 1], bytes[4 * v + 2], bytes[4 * v + 3]);
    }
  }

  /** Palette entry i as the loop body builds it: bytes 3i, 3i + 1 and
      3i + 2 of the buffer, read through a byte pointer, as red, green and
      blue of an opaque colour. */
  method ReadPaletteEntry(pal: array<u32>, i: nat) returns (entry: u32)
    requires pal.Length == PAL_WORDS && i < 256
    ensures entry == PaletteEntry(BytesOfWords(pal[..192]), i)
  {
    ghost var input := BytesOfWords(pal[..192]);
    var k := 3 * i;
    var s0 := ByteOf(pal[k / 4], k % 4);
    var s1 := ByteOf(pal[(k + 1) / 4], (k + 1) % 4);
    var s2 := ByteOf(pal[(k + 2) / 4], (k + 2) % 4);
    assert s0 == input[k] && s1 == input[k + 1] && s2 == input[k + 2];
    entry := 0xFF00_0000 + 0x1_0000 * (s0 as int) + 0x100 * (s1 as int) + s2 as int;
  }

  /** The palette loop: entry i is built from bytes 3i..3i+2 of the buffer
      and stored in word 192 + i. The writes land in words 192..447 and the
      reads come from words 0..191, so no byte is overwritten before it is
      read. */
  method FillPalette(pal: array<u32>)
    requires pal.Length == PAL_WORDS
    modifies pal
    ensures pal[..192] == old(pal[..192])
    ensures forall i :: 0 <= i < 256 ==> pal[192 + i] == PaletteEntry(BytesOfWords(old(pal[..192])), i)
  {
    for i := 0 to 256
      invariant pal[..192] == old(pal[..192])
      invariant forall j :: 0 <= j < i ==> pal[192 + j] == PaletteEntry(BytesOfWords(old(pal[..192])), j)
    {
      var entry := ReadPaletteEntry(pal, i);
      pal[192 + i] := entry;
    }
  }

  /** `findFirst(c)`: the first index holding c, or -1. */
  function FindFirst(s: string, c: char): (k: int)
    ensures -1 <= k < |s|
    ensures k == -1 <==> c !in s
    ensures k >= 0 ==> s[k] == c && c !in s[..k]
  {
    if s == [] then -1
    else if s[0] == c then 0
    else
      var k := FindFirst(s[1..], c);
      assert s == [s[0]] + s[1..];
      if k == -1 then -1
      else
        assert s[..k + 1] == [s[0]] + s[1..][..k];
        k + 1
  }

  /** The transparency rule: a '{' anywhere in the file name. */
  predicate HasColorKey(fileName: string)
  {
    FindFirst(fileName, '{') >= 0
  }

  // ---------------------------------------------------------------------
  // Texel count and texel bytes

  /** `u32 rawtexsize = header.width * header.height` as written: the
      product taken modulo 2^32. */
  function RawTexSizeAsWritten(h: MipTex): (n: u32)
    ensures (n - h.width * h.height) % U32_MODULUS == 0
  {
    ToU32(h.width * h.height)
  }

  /** The texel count the image needs; None when it does not fit in a u32,
      where the buffer as written would be too small. */
  function RawTexSize(h: MipTex): (n: Option<u32>)
    ensures n.Some? ==> n.value == h.width * h.height && n.value == RawTexSizeAsWritten(h)
    ensures n.None? <==> h.width * h.height >= U32_MODULUS
  {
    if h.width * h.height < U32_MODULUS then Some(h.width * h.height) else None
  }

  /** A 65536 x 65536 texture: the buffer as written has 0 bytes while the
      image it is converted into has 2^32 texels, which the conversion reads. */
  lemma RawTexSizeWraps()
    ensures RawTexSizeAsWritten(MipTex(0x1_0000, 0x1_0000, 0)) == 0
    ensures RawTexSize(MipTex(0x1_0000, 0x1_0000, 0)) == None
  {
  }

  /** `file->seek(offset); file->read(buf, count)`: the bytes that exist
      from offset on, at most count of them. */
  function ReadAt(data: seq<u8>, offset: nat, count: nat): (r: seq<u8>)
  {
    if offset >= |data| then []
    else if offset + count <= |data| then data[offset..offset + count]
    else data[offset..]
  }

  /** The `rawtexsize` bytes of `rawtex` after the seek to mipmap[0] and the
      read: what the file holds from offset on, then, where the file ends
      first, what the new buffer held. When the seek itself fails (offset
      past the end) the read goes on from where the file stood; all of
      that is given by `stale`, whose length is the buffer's. */
  function TexelBuffer(data: seq<u8>, offset: nat, stale: seq<u8>): (r: seq<u8>)
  {
    var got := ReadAt(data, offset, |stale|);
    got + stale[|got|..]
  }

  /** The buffer has its full size; each texel is the file's byte at
      mipmap[0] + k while the file lasts, and the stale byte after it. */
  lemma TexelsFromMipmap(data: seq<u8>, offset: nat, stale: seq<u8>)
    ensures |TexelBuffer(data, offset, stale)| == |stale|
    ensures forall k :: 0 <= k < |stale| && offset + k < |data| ==> TexelBuffer(data, offset, stale)[k] == data[offset + k]
    ensures forall k :: 0 <= k < |stale| && offset + k >= |data| ==> TexelBuffer(data, offset, stale)[k] == stale[k]
  {
  }

  // ---------------------------------------------------------------------
  // The loaders

  /** The 768 palette bytes start 770 bytes before the end of the file. */
  function PaletteOffset(fileSize: nat): int
  {
    fileSize - 768 - 2
  }

  /** The bytes `pal` receives: the file's palette when the file is long
      enough. Otherwise the seek fails and the file position stays just
      after the header: the read takes the bytes that follow the header,
      and what it does not fill keeps the new buffer's contents. Those 768
      bytes are given as `unread`. */
  function PaletteBytes(data: seq<u8>, unread: seq<u8>): (bytes: seq<u8>)
    requires |unread| == 768
    ensures |bytes| == 768
    ensures PaletteOffset(|data|) >= 0 ==> bytes == data[PaletteOffset(|data|)..|data| - 2]
  {
    if PaletteOffset(|data|) >= 0 then data[PaletteOffset(|data|)..|data| - 2] else unread
  }

  /** CImageLoaderWAL2::loadImage. */
  method LoadHalfLife(fileName: string, header: MipTex, data: seq<u8>, unread: seq<u8>, stale: seq<u8>)
    returns (image: Option<WalImage>)
    requires |unread| == 768
    requires RawTexSize(header).Some? ==> |stale| == header.width * header.height
    ensures image.None? <==> RawTexSize(header).None?
    ensures image.Some? ==>
      image.value.format == (if HasColorKey(fileName) then ECF_A8R8G8B8 else ECF_R8G8B8) &&
      image.value.width == header.width && image.value.height == header.height &&
      image.value.palette == HalfLifePalette(PaletteBytes(data, unread), HasColorKey(fileName)) &&
      |image.value.texels| == header.width * header.height &&
      image.value.texels == TexelBuffer(data, header.mipmap0, stale)
  {
    var pal := new u32[PAL_WORDS](_ => 0);
    var bytes := PaletteBytes(data, unread);
    ReadPaletteBytes(pal, bytes);
    FillPalette(pal);
    var format := ECF_R8G8B8;
    if FindFirst(fileName, '{') >= 0 {
      format := ECF_A8R8G8B8;
      pal[192 + 255] := ClearAlpha(pal[192 + 255]);
    }
    var size := RawTexSize(header);
    if size.None? {
      return None;
    }
    var texels := TexelBuffer(data, header.mipmap0, stale);
    image := Some(WalImage(format, header.width, header.height, pal[192..], texels));
    assert image.value.palette == HalfLifePalette(bytes, HasColorKey(fileName)) by {
      forall i | 0 <= i < 256
        ensures image.value.palette[i] == HalfLifePalette(bytes, HasColorKey(fileName))[i]
      {
        assert image.value.palette[i] == pal[192 + i];
      }
    }
  }

  /** CImageLoaderWAL::loadImage: always A8R8G8B8 with colormap_pcx. */
  method LoadQuake2(header: MipTex, data: seq<u8>, stale: seq<u8>) returns (image: Option<WalImage>)
    requires RawTexSize(header).Some? ==> |stale| == header.width * header.height
    ensures image.None? <==> RawTexSize(header).None?
    ensures image.Some? ==>
      image.value.format == ECF_A8R8G8B8 &&
      image.value.width == header.width && image.value.height == header.height &&
      image.value.palette == COLORMAP_PCX &&
      |image.value.texels| == header.width * header.height &&
      image.value.texels == TexelBuffer(data, header.mipmap0, stale)
  {
    var size := RawTexSize(header);
    if size.None? {
      return None;
    }
    var texels := TexelBuffer(data, header.mipmap0, stale);
    image := Some(WalImage(ECF_A8R8G8B8, header.width, header.height, COLORMAP_PCX, texels));
  }

  // ---------------------------------------------------------------------
  // The extension and format predicates

  function ToLowerAscii(c: char): char
  {
    if 'A' <= c <= 'Z' then (c as int + 32) as char else c
  }

  predicate EqualsIgnoreCase(a: string, b: string)
  {
    |a| == |b| && forall i :: 0 <= i < |a| ==> ToLowerAscii(a[i]) == ToLowerAscii(b[i])
  }

  /** `findLast(c)`: the last index holding c, or -1. */
  function FindLast(s: string, c: char): (k: int)
    ensures -1 <= k < |s|
    ensures k == -1 <==> c !in s
    ensures k >= 0 ==> s[k] == c && c !in s[k + 1..]
  {
    if s == [] then -1
    else if s[|s| - 1] == c then |s| - 1
    else
      var k := FindLast(s[..|s| - 1], c);
      assert s == s[..|s| - 1] + [s[|s| - 1]];
      assert k >= 0 ==> s[k + 1..] == s[..|s| - 1][k + 1..] + [s[|s| - 1]];
      k
  }

  /** core::hasFileExtension(fileName, ext0, ext1 = "", ext2 = ""): the text
      after the last '.' equals one of the three extensions, ignoring ASCII
      case. An empty extension matches the empty text after a final '.'. */
  predicate HasFileExtension(fileName: string, ext0: string, ext1: string, ext2: string)
  {
    var dot := FindLast(fileName, '.');
    dot >= 0 &&
    (EqualsIgnoreCase(fileName[dot + 1..], ext0) || EqualsIgnoreCase(fileName[dot + 1..], ext1) ||
     EqualsIgnoreCase(fileName[dot + 1..], ext2))
  }

  /** CImageLoaderWAL2::isALoadableFileExtension: one extension given, the
      other two left at their default "". */
  predicate IsHalfLifeExtension(fileName: string)
  {
    HasFileExtension(fileName, "wal2", "", "")
  }

  /** CImageLoaderWAL::isALoadableFileExtension. */
  predicate IsQuake2Extension(fileName: string)
  {
    HasFileExtension(fileName, "wal", "", "")
  }

  /** isALoadableFileFormat of both loaders: no file is claimed by content. */
  predicate IsLoadableFileFormat(data: seq<u8>)
  {
    false
  }

  /** Both loaders claim a file name exactly when it ends in '.': the
      default empty extensions match the empty text after the dot, and
      "wal" and "wal2" never match the same text. The Half-Life extension
      is "wal2" in any letter case. */
  lemma {:induction false} ExtensionsSelectOneLoader(fileName: string, stem: string)
    ensures IsHalfLifeExtension(fileName) && IsQuake2Extension(fileName) <==>
            |fileName| > 0 && fileName[|fileName| - 1] == '.'
    ensures '.' !in stem ==> IsHalfLifeExtension(stem + ".WaL2") && !IsQuake2Extension(stem + ".WaL2")
  {
    if |fileName| > 0 && fileName[|fileName| - 1] == '.' {
      assert FindLast(fileName, '.') == |fileName| - 1;
      assert fileName[|fileName|..] == "";
    }
    if IsHalfLifeExtension(fileName) && IsQuake2Extension(fileName) {
      var dot := FindLast(fileName, '.');
      assert |fileName[dot + 1..]| == 0;
    }
    if '.' !in stem {
      var name := stem + ".WaL2";
      assert FindLast(name, '.') == |stem| by {
        assert name[|stem|] == '.';
        assert name[|stem| + 1..] == "WaL2";
        assert '.' !in name[|stem| + 1..];
        assert forall j :: |stem| < j < |name| ==> name[j] != '.';
      }
      assert name[|stem| + 1..] == "WaL2";
    }
  }
}
