/**
  The SSD1306 128x64 monochrome display driver without its bus traffic: a
  1024-byte framebuffer of 8 pages by 128 columns, where bit `y % 8` of byte
  `(y / 8) * 128 + x` is pixel `(x, y)`. Pixels, horizontal lines and 6x8 text
  are drawn into it with bounds checks, and a data transfer is split into
  I2C blocks of at most 128 payload bytes behind the data control byte.
 */
module Ssd1306 {
  import opened Ints

  const Width: nat := 128
  const Height: nat := 64
  const Pages: nat := 8
  const BufSize: nat := 1024
  const CtrlData: bv8 := 0x40
  /** The last column a 6-pixel glyph may start at. */
  const LastGlyphX: nat := 122
  const FontLen: nat := 475

  /** The 5x7 font: five column bytes (least significant bit on top) for each character 0x20..0x7E. */
  const Font: seq<bv8> := [
    0x00, 0x00, 0x00, 0x00, 0x00, 0x00, 0x00, 0x5F, 0x00, 0x00,
    0x00, 0x07, 0x00, 0x07, 0x00, 0x14, 0x7F, 0x14, 0x7F, 0x14,
    0x24, 0x2A, 0x7F, 0x2A, 0x12, 0x23, 0x13, 0x08, 0x64, 0x62,
    0x36, 0x49, 0x55, 0x22, 0x50, 0x00, 0x05, 0x03, 0x00, 0x00,
    0x00, 0x1C, 0x22, 0x41, 0x00, 0x00, 0x41, 0x22, 0x1C, 0x00,
    0x14, 0x08, 0x3E, 0x08, 0x14, 0x08, 0x08, 0x3E, 0x08, 0x08,
    0x00, 0x50, 0x30, 0x00, 0x00, 0x08, 0x08, 0x08, 0x08, 0x08,
    0x00, 0x60, 0x60, 0x00, 0x00, 0x20, 0x10, 0x08, 0x04, 0x02,
    0x3E, 0x51, 0x49, 0x45, 0x3E, 0x00, 0x42, 0x7F, 0x40, 0x00,
    0x42, 0x61, 0x51, 0x49, 0x46, 0x21, 0x41, 0x45, 0x4B, 0x31,
    0x18, 0x14, 0x12, 0x7F, 0x10, 0x27, 0x45, 0x45, 0x45, 0x39,
    0x3C, 0x4A, 0x49, 0x49, 0x30, 0x01, 0x71, 0x09, 0x05, 0x03,
    0x36, 0x49, 0x49, 0x49, 0x36, 0x06, 0x49, 0x49, 0x29, 0x1E,
    0x00, 0x36, 0x36, 0x00, 0x00, 0x00, 0x56, 0x36, 0x00, 0x00,
    0x08, 0x14, 0x22, 0x41, 0x00, 0x14, 0x14, 0x14, 0x14, 0x14,
    0x00, 0x41, 0x22, 0x14, 0x08, 0x02, 0x01, 0x51, 0x09, 0x06,
    0x32, 0x49, 0x79, 0x41, 0x3E, 0x7E, 0x11, 0x11, 0x11, 0x7E,
    0x7F, 0x49, 0x49, 0x49, 0x36, 0x3E, 0x41, 0x41, 0x41, 0x22,
    0x7F, 0x41, 0x41, 0x22, 0x1C, 0x7F, 0x49, 0x49, 0x49, 0x41,
    0x7F, 0x09, 0x09, 0x09, 0x01, 0x3E, 0x41, 0x49, 0x49, 0x7A,
    0x7F, 0x08, 0x08, 0x08, 0x7F, 0x00, 0x41, 0x7F, 0x41, 0x00,
    0x20, 0x40, 0x41, 0x3F, 0x01, 0x7F, 0x08, 0x14, 0x22, 0x41,
    0x7F, 0x40, 0x40, 0x40, 0x40, 0x7F, 0x02, 0x0C, 0x02, 0x7F,
    0x7F, 0x04, 0x08, 0x10, 0x7F, 0x3E, 0x41, 0x41, 0x41, 0x3E,
    0x7F, 0x09, 0x09, 0x09, 0x06, 0x3E, 0x41, 0x51, 0x21, 0x5E,
    0x7F, 0x09, 0x19, 0x29, 0x46, 0x46, 0x49, 0x49, 0x49, 0x31,
    0x01, 0x01, 0x7F, 0x01, 0x01, 0x3F, 0x40, 0x40, 0x40, 0x3F,
    0x1F, 0x20, 0x40, 0x20, 0x1F, 0x7F, 0x20, 0x18, 0x20, 0x7F,
    0x63, 0x14, 0x08, 0x14, 0x63, 0x07, 0x08, 0x70, 0x08, 0x07,
    0x61, 0x51, 0x49, 0x45, 0x43, 0x00, 0x7F, 0x41, 0x41, 0x00,
    0x02, 0x04, 0x08, 0x10, 0x20, 0x00, 0x41, 0x41, 0x7F, 0x00,
    0x04, 0x02, 0x01, 0x02, 0x04, 0x40, 0x40, 0x40, 0x40, 0x40,
    0x00, 0x01, 0x02, 0x00, 0x00, 0x20, 0x54, 0x54, 0x54, 0x78,
    0x7F, 0x48, 0x44, 0x44, 0x38, 0x38, 0x44, 0x44, 0x44, 0x20,
    0x38, 0x44, 0x44, 0x48, 0x7F, 0x38, 0x54, 0x54, 0x54, 0x18,
    0x08, 0x7E, 0x09, 0x01, 0x02, 0x0C, 0x52, 0x52, 0x52, 0x3E,
    0x7F, 0x08, 0x04, 0x04, 0x78, 0x00, 0x44, 0x7D, 0x40, 0x00,
    0x20, 0x40, 0x44, 0x3D, 0x00, 0x7F, 0x10, 0x28, 0x44, 0x00,
    0x00, 0x41, 0x7F, 0x40, 0x00, 0x7C, 0x04, 0x18, 0x04, 0x78,
    0x7C, 0x08, 0x04, 0x04, 0x78, 0x38, 0x44, 0x44, 0x44, 0x38,
    0x7C, 0x14, 0x14, 0x14, 0x08, 0x08, 0x14, 0x14, 0x14, 0x7C,
    0x7C, 0x08, 0x04, 0x04, 0x08, 0x48, 0x54, 0x54, 0x54, 0x20,
    0x04, 0x3F, 0x44, 0x40, 0x20, 0x3C, 0x40, 0x40, 0x20, 0x7C,
    0x1C, 0x20, 0x40, 0x20, 0x1C, 0x3C, 0x40, 0x30, 0x40, 0x3C,
    0x44, 0x28, 0x10, 0x28, 0x44, 0x0C, 0x50, 0x50, 0x50, 0x3C,
    0x44, 0x64, 0x54, 0x4C, 0x44, 0x00, 0x08, 0x36, 0x41, 0x00,
    0x00, 0x00, 0x7F, 0x00, 0x00, 0x00, 0x41, 0x36, 0x08, 0x00,
    0x08, 0x04, 0x08, 0x10, 0x08
  ]

  // ------------------------------------------------------------------------
  // Pixels
  // ------------------------------------------------------------------------

  /** The byte with only bit `k` set, `1 << k`. */
  function Mask(k: nat): bv8
    requires k < 8
  {
    if k == 0 then 0x01 else if k == 1 then 0x02 else if k == 2 then 0x04 else if k == 3 then 0x08
    else if k == 4 then 0x10 else if k == 5 then 0x20 else if k == 6 then 0x40 else 0x80
  }

  predicate Bit(b: bv8, k: nat)
    requires k < 8
  {
    b & Mask(k) != 0
  }

  /** A byte with pixel bit `k` set (`on`) or cleared, as `|= bit` and `&= ~bit` do. */
  function PixelByte(b: bv8, k: nat, on: bool): bv8
    requires k < 8
  {
    if on then b | Mask(k) else b & !Mask(k)
  }

  /** Setting or clearing one bit leaves the other seven alone. */
  lemma PixelByteBits(b: bv8, k: nat, on: bool, j: nat)
    requires k < 8 && j < 8
    ensures Bit(PixelByte(b, k, on), j) == if j == k then on else Bit(b, j)
  {
    MaskNonzero(k);
    if j != k {
      MasksDisjoint(k, j);
      BitOps(b, Mask(k), Mask(j));
    } else {
      BitOps(b, Mask(k), 0);
    }
  }

  lemma MaskNonzero(k: nat)
    requires k < 8
    ensures Mask(k) != 0
  {
  }

  /** Two different pixel bits share no bit. */
  lemma MasksDisjoint(k: nat, j: nat)
    requires k < 8 && j < 8 && k != j
    ensures Mask(k) & Mask(j) == 0
  {
  }

  /** Or-ing in, or and-ing out, a bit `m` leaves a disjoint bit `n` as it was, and sets or clears `m`. */
  lemma BitOps(b: bv8, m: bv8, n: bv8)
    requires m != 0 && m & n == 0
    ensures (b | m) & m != 0 && (b & !m) & m == 0
    ensures (b | m) & n == b & n && (b & !m) & n == b & n
  {
  }

  function Index(x: nat, y: nat): (i: nat)
    requires x < Width && y < Height
    ensures i < BufSize
  {
    (y / 8) * Width + x
  }

  /** Pixel `(x, y)` of a framebuffer. */
  predicate PixelOn(buf: seq<bv8>, x: nat, y: nat)
    requires |buf| == BufSize && x < Width && y < Height
  {
    Bit(buf[Index(x, y)], y % 8)
  }

  /** The framebuffer after `SSD1306_DrawPixel`: nothing off the panel, else one bit of one byte. */
  function DrawPixelSpec(buf: seq<bv8>, x: u8, y: u8, on: bool): (r: seq<bv8>)
    requires |buf| == BufSize
    ensures |r| == BufSize
  {
    if x >= Width || y >= Height then buf
    else buf[Index(x, y) := PixelByte(buf[Index(x, y)], y % 8, on)]
  }

  /** Drawing a pixel changes that pixel and no other. */
  lemma DrawPixelOnlyThatPixel(buf: seq<bv8>, x: u8, y: u8, on: bool, px: nat, py: nat)
    requires |buf| == BufSize && px < Width && py < Height
    ensures PixelOn(DrawPixelSpec(buf, x, y, on), px, py) ==
            if px == x && py == y then on else PixelOn(buf, px, py)
  {
    if x < Width && y < Height {
      if Index(px, py) == Index(x, y) {
        assert px == x && py / 8 == y / 8;
        PixelByteBits(buf[Index(x, y)], y % 8, on, py % 8);
      }
    }
  }

  // ------------------------------------------------------------------------
  // Text
  // ------------------------------------------------------------------------

  /** Where a character's five columns start in the font; anything outside 0x20..0x7E is drawn as '?'. */
  function FontIndex(c: u8): (i: nat)
    ensures i + 4 < FontLen
    ensures 0x20 <= c <= 0x7E ==> i == (c - 0x20) * 5
    ensures !(0x20 <= c <= 0x7E) ==> i == (0x3F - 0x20) * 5
  {
    var d := if c < 0x20 || c > 0x7E then 0x3F else c;
    (d - 0x20) * 5
  }

  /**
    The six columns drawn for a character from a font table laid out like
    `Font`: five from the table, then a blank one.
   */
  function Glyph(font: seq<bv8>, c: u8): (g: seq<bv8>)
    requires |font| == FontLen
    ensures |g| == 6 && g[5] == 0
    ensures g[..5] == font[FontIndex(c)..FontIndex(c) + 5]
  {
    var i := FontIndex(c);
    font[i..i + 5] + [0]
  }

  /** Column `j` of a glyph is font byte `FontIndex(c) + j`, and the sixth is blank. */
  lemma GlyphColumn(font: seq<bv8>, c: u8, j: nat)
    requires |font| == FontLen && j < 6
    ensures Glyph(font, c)[j] == if j < 5 then font[FontIndex(c) + j] else 0
  {
    if j < 5 {
      assert Glyph(font, c)[j] == Glyph(font, c)[..5][j];
    }
  }

  /** The framebuffer after `draw_char_6x8`: off-page or too far right draws nothing. */
  function DrawCharSpec(buf: seq<bv8>, font: seq<bv8>, x: u8, page: u8, c: u8): (r: seq<bv8>)
    requires |buf| == BufSize && |font| == FontLen
    ensures |r| == BufSize
    ensures page >= Pages || x > LastGlyphX ==> r == buf
    ensures page < Pages && x <= LastGlyphX ==> r[page * Width + x..page * Width + x + 6] == Glyph(font, c)
  {
    if page >= Pages || x > LastGlyphX then buf
    else
      var base := page * Width + x;
      var g := Glyph(font, c);
      var r := Blit(buf, base, g);
      forall k | 0 <= k < 6 ensures r[base..base + 6][k] == g[k] {
        BlitAt(buf, base, g, base + k);
      }
      r
  }

  /** `buf` with `g` written from index `base` on. */
  function Blit(buf: seq<bv8>, base: nat, g: seq<bv8>): (r: seq<bv8>)
    requires base + |g| <= |buf|
    ensures |r| == |buf|
    decreases |g|
  {
    if |g| == 0 then buf else Blit(buf[base := g[0]], base + 1, g[1..])
  }

  lemma {:induction false} BlitAt(buf: seq<bv8>, base: nat, g: seq<bv8>, k: nat)
    requires base + |g| <= |buf| && k < |buf|
    ensures Blit(buf, base, g)[k] == if base <= k < base + |g| then g[k - base] else buf[k]
    decreases |g|
  {
    if |g| > 0 {
      BlitAt(buf[base := g[0]], base + 1, g[1..], k);
      if base < k < base + |g| {
        assert g[1..][k - (base + 1)] == g[k - base];
      }
    }
  }

  /** A character changes only the six bytes it is drawn into. */
  lemma DrawCharByte(buf: seq<bv8>, font: seq<bv8>, x: u8, page: u8, c: u8, k: nat)
    requires |buf| == BufSize && |font| == FontLen && k < BufSize
    ensures var base := page * Width + x;
            DrawCharSpec(buf, font, x, page, c)[k] ==
            if page < Pages && x <= LastGlyphX && base <= k < base + 6 then Glyph(font, c)[k - base] else buf[k]
  {
    if page < Pages && x <= LastGlyphX {
      var base := page * Width + x;
      BlitAt(buf, base, Glyph(font, c), k);
    }
  }

  /**
    The framebuffer after `SSD1306_DrawTextAt`: characters at `pos`, `pos + 6`, ...
    until the text ends, a NUL is met or the next glyph would not fit.
   */
  function TextSpec(buf: seq<bv8>, font: seq<bv8>, page: u8, pos: nat, text: seq<u8>): (r: seq<bv8>)
    requires |buf| == BufSize && |font| == FontLen
    ensures |r| == BufSize
    decreases |text|
  {
    if |text| == 0 || text[0] == 0 || pos > LastGlyphX then buf
    else TextSpec(DrawCharSpec(buf, font, pos, page, text[0]), font, page, pos + 6, text[1..])
  }

  /** Text never touches bytes before its start column or outside its page. */
  lemma {:induction false} TextStaysInPlace(buf: seq<bv8>, font: seq<bv8>, page: u8, pos: nat, text: seq<u8>, k: nat)
    requires |buf| == BufSize && |font| == FontLen && k < BufSize
    requires page >= Pages || k < page * Width + pos || k >= (page + 1) * Width
    ensures TextSpec(buf, font, page, pos, text)[k] == buf[k]
    decreases |text|
  {
    if !(|text| == 0 || text[0] == 0 || pos > LastGlyphX) {
      var b1 := DrawCharSpec(buf, font, pos, page, text[0]);
      DrawCharByte(buf, font, pos, page, text[0], k);
      TextStaysInPlace(b1, font, page, pos + 6, text[1..], k);
    }
  }

  /**
    The `i`-th character of the text lands in the six columns at `pos + 6i`
    of its page, provided no NUL comes before it and it fits; later
    characters do not overwrite it.
   */
  lemma TextGlyphAt(buf: seq<bv8>, font: seq<bv8>, page: u8, pos: nat, text: seq<u8>, i: nat)
    requires |buf| == BufSize && |font| == FontLen && page < Pages
    requires i < |text| && forall j :: 0 <= j <= i ==> text[j] != 0
    requires pos + 6 * i <= LastGlyphX
    ensures var base := page * Width + pos + 6 * i;
            TextSpec(buf, font, page, pos, text)[base..base + 6] == Glyph(font, text[i])
  {
    var base := page * Width + pos + 6 * i;
    var r := TextSpec(buf, font, page, pos, text);
    forall j | 0 <= j < 6 ensures r[base..base + 6][j] == Glyph(font, text[i])[j] {
      PrintedFromAll(text, i);
      TextByteAt(buf, font, page, pos, text, i, j);
    }
  }

  /** Byte `j` of the `i`-th character's cell, for `TextGlyphAt`. */
  lemma {:induction false} TextByteAt(buf: seq<bv8>, font: seq<bv8>, page: u8, pos: nat, text: seq<u8>, i: nat, j: nat)
    requires |buf| == BufSize && |font| == FontLen && page < Pages && j < 6
    requires i < |text| && Printed(text, i)
    requires pos + 6 * i <= LastGlyphX
    ensures TextSpec(buf, font, page, pos, text)[page * Width + pos + 6 * i + j] == Glyph(font, text[i])[j]
    decreases i, 1
  {
    if i == 0 {
      FirstByteKept(buf, font, page, pos, text, j);
    } else {
      LaterByteKept(buf, font, page, pos, text, i, j);
    }
  }

  /** The step of `TextByteAt` past the first character: the rest of the text, drawn one cell further on. */
  lemma {:induction false} LaterByteKept(buf: seq<bv8>, font: seq<bv8>, page: u8, pos: nat, text: seq<u8>, i: nat, j: nat)
    requires |buf| == BufSize && |font| == FontLen && page < Pages && j < 6
    requires 0 < i < |text| && Printed(text, i)
    requires pos + 6 * i <= LastGlyphX
    ensures TextSpec(buf, font, page, pos, text)[page * Width + pos + 6 * i + j] == Glyph(font, text[i])[j]
    decreases i, 0
  {
    var b1 := DrawCharSpec(buf, font, pos, page, text[0]);
    var rest, pos1, i1 := text[1..], pos + 6, i - 1;
    var k := page * Width + pos + 6 * i + j;
    assert k == page * Width + pos1 + 6 * i1 + j;
    TextStep(buf, font, page, pos, text, k);
    TextByteAt(b1, font, page, pos1, rest, i1, j);
    assert rest[i1] == text[i];
  }

  /** One character drawn, the rest of the text from the next cell: `TextSpec`'s own step, at byte `k`. */
  lemma TextStep(buf: seq<bv8>, font: seq<bv8>, page: u8, pos: nat, text: seq<u8>, k: nat)
    requires |buf| == BufSize && |font| == FontLen && 0 < |text| && text[0] != 0 && pos <= LastGlyphX && k < BufSize
    ensures TextSpec(buf, font, page, pos, text)[k] == TextSpec(DrawCharSpec(buf, font, pos, page, text[0]), font, page, pos + 6, text[1..])[k]
  {
  }

  /** No NUL among the first `i + 1` characters. */
  predicate Printed(text: seq<u8>, i: nat)
    requires i < |text|
    decreases i
  {
    text[0] != 0 && (i == 0 || Printed(text[1..], i - 1))
  }

  lemma {:induction false} PrintedFromAll(text: seq<u8>, i: nat)
    requires i < |text| && forall j :: 0 <= j <= i ==> text[j] != 0
    ensures Printed(text, i)
    decreases i
  {
    if i > 0 {
      var rest := text[1..];
      forall m | 0 <= m <= i - 1 ensures rest[m] != 0 {
        assert rest[m] == text[m + 1];
      }
      PrintedFromAll(rest, i - 1);
    }
  }

  /** The first character's bytes, once drawn, are not overwritten by the rest of the text. */
  lemma FirstByteKept(buf: seq<bv8>, font: seq<bv8>, page: u8, pos: nat, text: seq<u8>, j: nat)
    requires |buf| == BufSize && |font| == FontLen && page < Pages && j < 6
    requires 0 < |text| && text[0] != 0 && pos <= LastGlyphX
    ensures TextSpec(buf, font, page, pos, text)[page * Width + pos + j] == Glyph(font, text[0])[j]
  {
    var b1 := DrawCharSpec(buf, font, pos, page, text[0]);
    var k := page * Width + pos + j;
    assert TextSpec(buf, font, page, pos, text) == TextSpec(b1, font, page, pos + 6, text[1..]);
    TextStaysInPlace(b1, font, page, pos + 6, text[1..], k);
    DrawCharByte(buf, font, pos, page, text[0], k);
  }

  // ------------------------------------------------------------------------
  // Data transfer
  // ------------------------------------------------------------------------

  /** The I2C blocks `ssd1306_sendData` sends for `data`: `0x40`, then up to 128 bytes each. */
  function Chunks(data: seq<bv8>): seq<seq<bv8>>
    decreases |data|
  {
    if |data| == 0 then []
    else
      var c := Min(|data|, 128);
      [[CtrlData] + data[..c]] + Chunks(data[c..])
  }

  /** The payload bytes of a sequence of blocks, control bytes removed, in order. */
  function Payload(blocks: seq<seq<bv8>>): seq<bv8>
    requires forall i :: 0 <= i < |blocks| ==> |blocks[i]| >= 1
    decreases |blocks|
  {
    if |blocks| == 0 then [] else blocks[0][1..] + Payload(blocks[1..])
  }

  /**
    Every block starts with the data control byte and carries 1..128
    payload bytes; the payloads put together give back the data, in order;
    and there are `ceil(n / 128)` blocks.
   */
  lemma {:induction false} ChunksShape(data: seq<bv8>)
    ensures forall i :: 0 <= i < |Chunks(data)| ==>
              2 <= |Chunks(data)[i]| <= 129 && Chunks(data)[i][0] == CtrlData
    ensures Payload(Chunks(data)) == data
    ensures |Chunks(data)| == (|data| + 127) / 128
    decreases |data|
  {
    if |data| > 0 {
      var c := Min(|data|, 128);
      ChunksShape(data[c..]);
      var rest := Chunks(data[c..]);
      var all := Chunks(data);
      assert all == [[CtrlData] + data[..c]] + rest;
      assert all[1..] == rest;
      assert Payload(all) == data[..c] + Payload(rest);
      assert data == data[..c] + data[c..];
    }
  }

  /** A full framebuffer goes out as eight blocks of 129 bytes, one per page. */
  lemma FullBufferIsEightBlocks(data: seq<bv8>)
    requires |data| == BufSize
    ensures |Chunks(data)| == 8
    ensures forall i :: 0 <= i < 8 ==> |Chunks(data)[i]| == 129 && Chunks(data)[i][1..] == data[128 * i..128 * (i + 1)]
  {
    ChunksShape(data);
    var d := data;
    forall i | 0 <= i < 8
      ensures |Chunks(data)[i]| == 129 && Chunks(data)[i][1..] == data[128 * i..128 * (i + 1)]
    {
      ChunkAt(data, i);
    }
  }

  /** Block `i` of data at least `128 (i + 1)` bytes long is the full slice `128 i .. 128 (i + 1)`. */
  lemma {:induction false} ChunkAt(data: seq<bv8>, i: nat)
    requires 128 * (i + 1) <= |data|
    ensures i < |Chunks(data)|
    ensures Chunks(data)[i] == [CtrlData] + data[128 * i..128 * (i + 1)]
    decreases i
  {
    var rest := data[128..];
    assert Chunks(data) == [[CtrlData] + data[..128]] + Chunks(rest);
    if i > 0 {
      ChunkAt(rest, i - 1);
      assert rest[128 * (i - 1)..128 * i] == data[128 * i..128 * (i + 1)];
    }
  }

  /** The display state: its framebuffer, `s_buffer`, and the font it draws with. */
  class Display {
    const buf: array<bv8>
    /** The glyph table, `font5x7`. */
    const font: seq<bv8>

    ghost predicate Valid()
      reads this
    {
      buf.Length == BufSize && |font| == FontLen
    }

    constructor ()
      ensures Valid() && fresh(buf) && buf[..] == seq(BufSize, _ => 0) && font == Font
    {
      buf := new bv8[BufSize](_ => 0);
      font := Font;
    }

    /** `SSD1306_Clear`: every byte of the framebuffer to zero. */
    method Clear()
      requires Valid()
      modifies buf
      ensures buf[..] == seq(BufSize, _ => 0)
    {
      forall i | 0 <= i < buf.Length {
        buf[i] := 0;
      }
    }

    /** `SSD1306_DrawPixel`; a nonzero `on` sets the pixel, zero clears it. */
    method DrawPixel(x: u8, y: u8, on: u8)
      requires Valid()
      modifies buf
      ensures buf[..] == DrawPixelSpec(old(buf[..]), x, y, on != 0)
    {
      if x >= Width || y >= Height {
        return;
      }
      var idx := (y / 8) * Width + x;
      assert idx == Index(x, y);
      var bit := Mask(y % 8);
      ghost var b0 := buf[..];
      if on != 0 {
        buf[idx] := buf[idx] | bit;
      } else {
        buf[idx] := buf[idx] & !bit;
      }
      assert buf[..] == b0[idx := PixelByte(b0[idx], y % 8, on != 0)];
    }

    /**
      `SSD1306_DrawHLine`: the end points are ordered, a line off the panel
      (row 64 or below, or starting at column 128 or beyond) draws nothing,
      the right end is clipped to column 127, and exactly the pixels between
      the ends on row `y` are set.
     */
    method DrawHLine(y: u8, x0: u8, x1: u8)
      requires Valid()
      modifies buf
      ensures var lo := Min(x0, x1);
              var hi := Min(Max(x0, x1), Width - 1);
              forall px, py :: 0 <= px < Width && 0 <= py < Height ==>
                (PixelOn(buf[..], px, py) <==>
                 PixelOn(old(buf[..]), px, py) || (y < Height && py == y && lo <= px <= hi))
    {
      var a, b := x0, x1;
      if y >= Height {
        return;
      }
      if b < a {
        a, b := b, a;
      }
      if a >= Width {
        return;
      }
      if b >= Width {
        b := Width - 1;
      }
      var x := a;
      while x <= b
        invariant a <= x <= b + 1
        invariant forall px, py :: 0 <= px < Width && 0 <= py < Height ==>
                    (PixelOn(buf[..], px, py) <==> PixelOn(old(buf[..]), px, py) || (py == y && a <= px < x))
      {
        ghost var before := buf[..];
        DrawPixel(x, y, 1);
        forall px, py | 0 <= px < Width && 0 <= py < Height
          ensures PixelOn(buf[..], px, py) <==> PixelOn(before, px, py) || (px == x && py == y)
        {
          DrawPixelOnlyThatPixel(before, x, y, true, px, py);
        }
        x := x + 1;
      }
    }

    /** `draw_char_6x8` (`SSD1306_DrawChar`): five font columns and a blank one at `page * 128 + x`. */
    method DrawChar(x: u8, page: u8, c: u8)
      requires Valid()
      modifies buf
      ensures buf[..] == DrawCharSpec(old(buf[..]), font, x, page, c)
    {
      if page >= Pages {
        return;
      }
      var ch := if c < 0x20 || c > 0x7E then 0x3F else c;
      var fontIndex := (ch - 0x20) * 5;
      var bufIndex := page * Width + x;
      if x > LastGlyphX {
        return;
      }
      assert fontIndex == FontIndex(c);
      ghost var before := buf[..];
      ghost var g := Glyph(font, c);
      var i := 0;
      while i < 5
        invariant 0 <= i <= 5
        invariant forall k :: 0 <= k < BufSize ==>
                    buf[k] == if bufIndex <= k < bufIndex + i then g[k - bufIndex] else before[k]
      {
        GlyphColumn(font, c, i);
        buf[bufIndex + i] := font[fontIndex + i];
        i := i + 1;
      }
      GlyphColumn(font, c, 5);
      buf[bufIndex + 5] := 0;
      forall k | 0 <= k < BufSize
        ensures buf[k] == DrawCharSpec(before, font, x, page, c)[k]
      {
        DrawCharByte(before, font, x, page, c, k);
      }
    }

    /** `SSD1306_DrawTextAt`: nothing for a null text; otherwise characters at `x`, `x + 6`, ... */
    method DrawTextAt(page: u8, x: u8, text: Option<seq<u8>>)
      requires Valid()
      modifies buf
      ensures text.None? ==> buf[..] == old(buf[..])
      ensures text.Some? ==> buf[..] == TextSpec(old(buf[..]), font, page, x, text.value)
    {
      if text.None? {
        return;
      }
      var t := text.value;
      var pos: nat := x;
      var i := 0;
      while i < |t| && t[i] != 0 && pos <= LastGlyphX
        invariant 0 <= i <= |t|
        invariant TextSpec(old(buf[..]), font, page, x, t) == TextSpec(buf[..], font, page, pos, t[i..])
      {
        assert t[i..][1..] == t[i + 1..];
        DrawChar(pos, page, t[i]);
        pos := pos + 6;
        i := i + 1;
      }
    }

    /** `SSD1306_DrawText`: text from column 0. */
    method DrawText(page: u8, text: Option<seq<u8>>)
      requires Valid()
      modifies buf
      ensures text.None? ==> buf[..] == old(buf[..])
      ensures text.Some? ==> buf[..] == TextSpec(old(buf[..]), font, page, 0, text.value)
    {
      DrawTextAt(page, 0, text);
    }
  }

  /**
    `ssd1306_sendData`: while bytes remain, the next `min(n, 128)` of them
    go out behind the data control byte. The blocks are returned in order.
   */
  method SendData(data: seq<bv8>) returns (blocks: seq<seq<bv8>>)
    requires |data| < 0x1_0000
    ensures blocks == Chunks(data)
  {
    blocks := [];
    var off := 0;
    var n := |data|;
    while n > 0
      invariant 0 <= n && off + n == |data|
      invariant blocks + Chunks(data[off..]) == Chunks(data)
    {
      var chunk := if n > 128 then 128 else n;
      assert data[off..][..chunk] == data[off..off + chunk];
      assert data[off..][chunk..] == data[off + chunk..];
      blocks := blocks + [[CtrlData] + data[off..off + chunk]];
      off := off + chunk;
      n := n - chunk;
    }
  }
}
