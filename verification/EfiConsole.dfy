/**
 The EFI framebuffer console as a reference: a framebuffer of scanlines of 32-bit pixels, a cursor
 on the last text row, and a ring of recorded line lengths. Text is consumed one byte at a time.
 A line feed scrolls either by the longest recorded line or, in the `full` reading, by the whole
 text width.
 */
module EfiConsole {
  import opened Arith
  import opened Words

  type Pixel = bv32
  type Row = seq<Pixel>

  const NEWLINE: Byte := 10
  const BLACK: Pixel := 0x00000000
  const WHITE: Pixel := 0x00ffffff
  const RING: nat := 1024

  /** Screen geometry in pixels, font, and the number of ring slots in use (max_line_y). */
  datatype Geometry = Geometry(width: nat, height: nat, pitch: nat, fw: nat, fh: nat, font: seq<bv8>, slots: nat)
  {
    /** Where the font keeps the byte with pixel `m` of scanline `h` of the glyph for `c`. */
    function FontIndex(c: Byte, h: nat, m: nat): nat {
      var bytes := (fw + 7) / 8;
      Product(Product(c, fh), bytes) + Product(h, bytes) + m / 8
    }

    /** A font no larger than the screen with glyphs for all 256 codes, and scanlines whose byte
        length fits the 16-bit lfb_linelength. */
    ghost predicate Fits() {
      && 1 <= fw <= width && 1 <= fh <= height
      && width <= pitch && 4 * pitch <= 65535
      && (forall c: Byte, h: nat, m: nat :: h < fh && m < fw ==> FontIndex(c, h, m) < |font|)
      && 1 <= slots <= RING
    }

    /** Text rows and text width: the screen rounded down to whole glyphs. */
    function Rows(): nat requires fh > 0 { Quot(height, fh) }
    function TextWidth(): nat requires fw > 0 { Times(Quot(width, fw), fw) }
    function LastRow(): nat requires fh > 0 { if Rows() == 0 then 0 else Times(Rows() - 1, fh) }

    /** The text row a scanline lies in. */
    function RowOf(i: nat): nat requires fh > 0 { Quot(i, fh) }

    /** efi_earlycon_setup gives the ring one slot more than there are text rows. */
    ghost predicate Valid() {
      Fits() && slots == Rows() + 1
    }
  }

  lemma TextFits(g: Geometry)
    requires g.Fits()
    ensures 1 <= g.Rows() && g.LastRow() + g.fh <= g.height < g.LastRow() + 2 * g.fh
    ensures g.fw <= g.TextWidth() <= g.width < g.TextWidth() + g.fw
  {
    QuotBounds(g.height, g.fh);
    QuotBounds(g.width, g.fw);
    TimesOrder(1, Quot(g.width, g.fw), g.fw);
  }

  /** Bit `n` of a font byte, most significant bit first. */
  predicate FontBit(x: bv8, n: nat)
    requires n < 8
  {
    (x >> (7 - n)) & 1 == 1
  }

  /** Pixel `m` of scanline `h` of the glyph for `c`. */
  function GlyphPixel(g: Geometry, c: Byte, h: nat, m: nat): Pixel
    requires g.Fits() && h < g.fh && m < g.fw
  {
    if FontBit(g.font[g.FontIndex(c, h, m)], m % 8) then WHITE else BLACK
  }

  /** Console state: pixels, ring, next ring slot, cursor column. The cursor row is the last one. */
  datatype Con = Con(fb: seq<Row>, ring: seq<nat>, cur: nat, x: nat)

  ghost predicate Shaped(g: Geometry, c: Con)
    requires g.Fits()
  {
    && |c.fb| == g.height && (forall i :: 0 <= i < g.height ==> |c.fb[i]| == g.pitch)
    && |c.ring| == RING && c.cur < g.slots
    && (forall j :: 0 <= j < RING ==> c.ring[j] <= g.TextWidth())
    && c.x <= g.TextWidth()
  }

  ghost predicate Ready(g: Geometry, c: Con)
    requires g.Fits()
  {
    Shaped(g, c) && c.x + g.fw <= g.width && Multiple(c.x, g.fw)
  }

  /** One scanline with one scanline of a glyph drawn over it. */
  function Blit(g: Geometry, row: Row, x: nat, c: Byte, h: nat): (r: Row)
    requires g.Fits() && h < g.fh && x + g.fw <= |row|
    ensures |r| == |row|
  {
    row[..x] + seq(g.fw, m requires 0 <= m < g.fw => GlyphPixel(g, c, h, m)) + row[x + g.fw..]
  }

  function DrawGlyph(g: Geometry, c: Con, b: Byte): Con
    requires g.Fits() && Shaped(g, c) && c.x + g.fw <= g.width
  {
    TextFits(g);
    var y := g.LastRow();
    c.(fb := seq(g.height, i requires 0 <= i < g.height =>
                   if y <= i < y + g.fh then Blit(g, c.fb[i], c.x, b, i - y) else c.fb[i]),
       x := c.x + g.fw)
  }

  /** The first `n` pixels of every scanline move up one text row. */
  function Scroll(g: Geometry, fb: seq<Row>, n: nat): (r: seq<Row>)
    requires g.Fits() && n <= g.pitch
    requires |fb| == g.height && (forall i :: 0 <= i < g.height ==> |fb[i]| == g.pitch)
    ensures |r| == g.height && (forall i :: 0 <= i < g.height ==> |r[i]| == g.pitch)
  {
    seq(g.height, i requires 0 <= i < g.height =>
      if i < g.height - g.fh then fb[i + g.fh][..n] + fb[i][n..] else fb[i])
  }

  function Dark(n: nat): (r: Row)
    ensures |r| == n && forall j :: 0 <= j < n ==> r[j] == BLACK
  {
    seq(n, _ => BLACK)
  }

  /** The scanlines of the text row at `y`, black. */
  function ClearRow(g: Geometry, fb: seq<Row>, y: int): (r: seq<Row>)
    requires |fb| == g.height && (forall i :: 0 <= i < g.height ==> |fb[i]| == g.pitch)
    ensures |r| == g.height && (forall i :: 0 <= i < g.height ==> |r[i]| == g.pitch)
  {
    var r := seq(g.height, i requires 0 <= i < g.height => if y <= i < y + g.fh then Dark(g.pitch) else fb[i]);
    assert forall i :: 0 <= i < g.height ==> r[i] == if y <= i < y + g.fh then Dark(g.pitch) else fb[i];
    r
  }

  /** The longest of the first `n` recorded lengths. */
  function Longest(ring: seq<nat>, n: nat): (m: nat)
    requires n <= |ring|
    ensures forall j :: 0 <= j < n ==> ring[j] <= m
    ensures m == 0 || exists j :: 0 <= j < n && ring[j] == m
  {
    if n == 0 then 0
    else var m := Longest(ring, n - 1); if ring[n - 1] > m then ring[n - 1] else m
  }

  function Advance(g: Geometry, cur: nat): nat {
    if cur + 1 < g.slots then cur + 1 else 0
  }

  /** Ending a line: record its length, scroll, clear the last text row. */
  function Feed(g: Geometry, c: Con, full: bool): Con
    requires g.Fits() && Shaped(g, c)
  {
    TextFits(g);
    var ring := c.ring[c.cur := c.x];
    var n := if full then g.TextWidth() else Longest(ring, g.slots);
    Con(ClearRow(g, Scroll(g, c.fb, n), g.LastRow()), ring, Advance(g, c.cur), 0)
  }

  lemma FeedReady(g: Geometry, c: Con, full: bool)
    requires g.Fits() && Shaped(g, c)
    ensures Ready(g, Feed(g, c, full)) && Feed(g, c, full).x == 0
  {
    TextFits(g);
  }

  lemma DrawShaped(g: Geometry, c: Con, b: Byte)
    requires g.Fits() && Ready(g, c)
    ensures Shaped(g, DrawGlyph(g, c, b)) && Multiple(DrawGlyph(g, c, b).x, g.fw)
  {
    MultipleBelow(c.x + g.fw, g.width, g.fw);
  }

  /** efi_earlycon_write, one byte at a time. A line feed byte ends the line; so does a full line,
      which swallows a line feed byte that follows it in the same call. */
  function Put(g: Geometry, c: Con, s: seq<Byte>, full: bool): Con
    requires g.Fits() && Ready(g, c)
    decreases |s|
  {
    if s == [] then c
    else if s[0] == NEWLINE then
      FeedReady(g, c, full);
      Put(g, Feed(g, c, full), s[1..], full)
    else
      DrawShaped(g, c, s[0]);
      var d := DrawGlyph(g, c, s[0]);
      if d.x + g.fw <= g.width then Put(g, d, s[1..], full)
      else
        FeedReady(g, d, full);
        Put(g, Feed(g, d, full), if |s| > 1 && s[1] == NEWLINE then s[2..] else s[1..], full)
  }

  lemma {:induction false} PutReady(g: Geometry, c: Con, s: seq<Byte>, full: bool)
    requires g.Fits() && Ready(g, c)
    ensures Ready(g, Put(g, c, s, full))
    decreases |s|
  {
    if s == [] {
    } else if s[0] == NEWLINE {
      FeedReady(g, c, full);
      PutReady(g, Feed(g, c, full), s[1..], full);
    } else {
      DrawShaped(g, c, s[0]);
      var d := DrawGlyph(g, c, s[0]);
      if d.x + g.fw <= g.width {
        PutReady(g, d, s[1..], full);
      } else {
        FeedReady(g, d, full);
        PutReady(g, Feed(g, d, full), if |s| > 1 && s[1] == NEWLINE then s[2..] else s[1..], full);
      }
    }
  }

  /** efi_earlycon_setup: ring full of the text width, and whatever the firmware left on screen
      scrolled up once, the last row not cleared. */
  function Boot(g: Geometry, firmware: seq<Row>): (c: Con)
    requires g.Fits() && |firmware| == g.height && (forall i :: 0 <= i < g.height ==> |firmware[i]| == g.pitch)
    ensures Ready(g, c)
  {
    TextFits(g);
    Con(Scroll(g, firmware, g.TextWidth()), seq(RING, _ => g.TextWidth()), 0, 0)
  }

  /** A sequence of console writes. */
  function Run(g: Geometry, c: Con, writes: seq<seq<Byte>>, full: bool): Con
    requires g.Fits() && Ready(g, c)
    decreases |writes|
  {
    if writes == [] then c
    else
      PutReady(g, c, writes[0], full);
      Run(g, Put(g, c, writes[0], full), writes[1..], full)
  }
}
