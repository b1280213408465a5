/**
 What the screen shows. Text is kept as lines; after any writes the last lines stand on the text rows, the newest at the
 bottom, glyph by glyph as the font draws them.
 */
module EfiText {
  import opened Arith
  import opened EfiConsole
  import opened EfiScroll
  import opened Words

  // ---------------------------------------------------------------- glyphs

  /** The byte has a one `n` places from the left. */
  predicate FromLeft(b: bv8, n: nat)
    requires n < 8
  {
    b & (0x80 >> n) != 0
  }

  lemma BitTest(b: bv8, n: nat)
    requires n < 8
    ensures FontBit(b, n) <==> FromLeft(b, n)
  {
    if n == 0 {} else if n == 1 {} else if n == 2 {} else if n == 3 {}
    else if n == 4 {} else if n == 5 {} else if n == 6 {} else {}
  }

  /** Where the font keeps pixel `m` of scanline `h` of the glyph for `b`: glyphs one after another, scanlines of whole
      bytes. */
  function Place(g: Geometry, b: Byte, h: nat, m: nat): nat {
    (b * g.fh + h) * ((g.fw + 7) / 8) + m / 8
  }

  lemma FontPlace(g: Geometry, b: Byte, h: nat, m: nat)
    ensures g.FontIndex(b, h, m) == Place(g, b, h, m)
  {
    var bytes := (g.fw + 7) / 8;
    assert (b * g.fh + h) * bytes == b * g.fh * bytes + h * bytes;
  }

  /** The font has a one there, the most significant bit leftmost. */
  predicate Lit(g: Geometry, b: Byte, h: nat, m: nat) {
    Place(g, b, h, m) < |g.font| && FromLeft(g.font[Place(g, b, h, m)], m % 8)
  }

  /** A glyph is white where the font has a one, and black elsewhere. */
  lemma GlyphLit(g: Geometry, b: Byte, h: nat, m: nat)
    requires g.Fits() && h < g.fh && m < g.fw
    ensures GlyphPixel(g, b, h, m) == if Lit(g, b, h, m) then 0x00ffffff else 0
  {
    hide Geometry.FontIndex, Geometry.Fits, Place, FontBit, FromLeft;
    FontPlace(g, b, h, m);
    InFont(g, b, h, m);
    BitTest(g.font[Place(g, b, h, m)], m % 8);
  }

  lemma InFont(g: Geometry, b: Byte, h: nat, m: nat)
    requires g.Fits() && h < g.fh && m < g.fw
    ensures g.FontIndex(b, h, m) < |g.font|
  {
    hide Geometry.FontIndex;
  }

  // ---------------------------------------------------------------- text

  /** The lines that have ended, oldest first, and the line under the cursor. */
  datatype Text = Text(lines: seq<seq<Byte>>, cur: seq<Byte>)
  {
    function Ended(): Text { Text(lines + [cur], []) }

    /** The line `k` rows above the cursor. */
    function Line(k: nat): seq<Byte>
      requires k <= |lines|
    {
      if k == 0 then cur else lines[|lines| - k]
    }
  }

  /** One write, on a screen of `w` columns: a line feed ends the line, and so does its last column, which takes a line
      feed that follows in the same write along. */
  function Type(w: nat, t: Text, s: seq<Byte>): Text
    decreases |s|
  {
    if s == [] then t
    else if s[0] == NEWLINE then Type(w, t.Ended(), s[1..])
    else
      var u := t.(cur := t.cur + [s[0]]);
      if |u.cur| < w then Type(w, u, s[1..])
      else Type(w, u.Ended(), if |s| > 1 && s[1] == NEWLINE then s[2..] else s[1..])
  }

  function TypeAll(w: nat, t: Text, writes: seq<seq<Byte>>): Text
    decreases |writes|
  {
    if writes == [] then t else TypeAll(w, Type(w, t, writes[0]), writes[1..])
  }

  /** Pixel `x` of scanline `h` of a line of text. */
  function Ink(g: Geometry, line: seq<Byte>, h: nat, x: nat): Pixel
    requires g.fw > 0
  {
    QuotBounds(x, g.fw);
    var n := Quot(x, g.fw);
    if n < |line| && Lit(g, line[n], h, x - Times(n, g.fw)) then 0x00ffffff else 0
  }

  /** Scanline `h` of the text row `k` above the last one. */
  function Scanline(g: Geometry, k: nat, h: nat): (i: nat)
    requires g.Fits() && k < Quot(g.height, g.fh) && h < g.fh
    ensures i < g.height
  {
    TextFits(g);
    TimesOrder(Quot(g.height, g.fh) - 1 - k, Quot(g.height, g.fh) - 1, g.fh);
    Times(Quot(g.height, g.fh) - 1 - k, g.fh) + h
  }

  /** Of the first line, begun on a row that was never cleared, only the text itself is promised. */
  ghost predicate RowShows(g: Geometry, c: Con, t: Text, k: nat)
    requires g.Fits() && Shaped(g, c) && k < g.Rows() && k <= |t.lines|
  {
    TextFits(g);
    forall h, x :: 0 <= h < g.fh && 0 <= x < g.TextWidth() && (k < |t.lines| || x < Times(|t.Line(k)|, g.fw)) ==>
      c.fb[Scanline(g, k, h)][x] == Ink(g, t.Line(k), h, x)
  }

  ghost predicate Shows(g: Geometry, c: Con, t: Text)
    requires g.Fits()
  {
    && Ready(g, c) && c.x == Times(|t.cur|, g.fw) && |t.cur| < Quot(g.width, g.fw)
    && forall k :: 0 <= k < g.Rows() && k <= |t.lines| ==> RowShows(g, c, t, k)
  }

  /** As `Shows`, with a line that may be full. */
  ghost predicate Drawn(g: Geometry, c: Con, t: Text)
    requires g.Fits()
  {
    && Shaped(g, c) && c.x == Times(|t.cur|, g.fw) && |t.cur| <= Quot(g.width, g.fw)
    && forall k :: 0 <= k < g.Rows() && k <= |t.lines| ==> RowShows(g, c, t, k)
  }

  lemma ScanlineRow(g: Geometry, k: nat, h: nat)
    requires g.Fits() && k < g.Rows() && h < g.fh
    ensures k == 0 ==> Scanline(g, k, h) == g.LastRow() + h
    ensures k > 0 ==> Scanline(g, k, h) < g.LastRow() && Scanline(g, k, h) + g.fh == Scanline(g, k - 1, h)
  {
    TimesOrder(g.Rows() - 1 - k, g.Rows() - 1, g.fh);
  }

  // ---------------------------------------------------------------- drawing

  /** One byte more changes a line's ink in that byte's columns only. */
  lemma InkAppended(g: Geometry, line: seq<Byte>, b: Byte, h: nat, x: nat)
    requires g.Fits() && g.fw > 0 && h < g.fh
    ensures var at := Times(|line|, g.fw);
      Ink(g, line + [b], h, x) == if at <= x < at + g.fw then GlyphPixel(g, b, h, x - at) else Ink(g, line, h, x)
  {
    hide Times, Quot, Lit, GlyphPixel, Geometry.Fits;
    var at := Times(|line|, g.fw);
    QuotExactly(x, |line|, g.fw);
    if at <= x < at + g.fw { GlyphLit(g, b, h, x - at); }
  }

  lemma DrawnPixel(g: Geometry, c: Con, b: Byte, i: nat, x: nat)
    requires g.Fits() && Shaped(g, c) && c.x + g.fw <= g.width && i < g.height && x < g.pitch
    ensures |DrawGlyph(g, c, b).fb| == g.height && |DrawGlyph(g, c, b).fb[i]| == g.pitch
    ensures DrawGlyph(g, c, b).fb[i][x] ==
      if g.LastRow() <= i < g.LastRow() + g.fh && c.x <= x < c.x + g.fw
      then GlyphPixel(g, b, i - g.LastRow(), x - c.x) else c.fb[i][x]
  {
    hide GlyphPixel, Geometry.FontIndex;
    TextFits(g);
  }

  lemma DrawRowPixel(g: Geometry, c: Con, t: Text, b: Byte, k: nat, h: nat, x: nat)
    requires g.Fits() && Shaped(g, c) && c.x == Times(|t.cur|, g.fw) && c.x + g.fw <= g.width
    requires k < g.Rows() && k <= |t.lines| && h < g.fh && x < g.pitch
    requires k > 0 || !(c.x <= x < c.x + g.fw) ==> c.fb[Scanline(g, k, h)][x] == Ink(g, t.Line(k), h, x)
    ensures |DrawGlyph(g, c, b).fb| == g.height && x < |DrawGlyph(g, c, b).fb[Scanline(g, k, h)]|
    ensures DrawGlyph(g, c, b).fb[Scanline(g, k, h)][x] == Ink(g, t.(cur := t.cur + [b]).Line(k), h, x)
  {
    hide Ink, DrawGlyph, Blit, GlyphPixel, Scanline, Times, Quot, Geometry.FontIndex, Geometry.TextWidth;
    ScanlineRow(g, k, h);
    DrawnPixel(g, c, b, Scanline(g, k, h), x);
    if k == 0 { InkAppended(g, t.cur, b, h, x); }
  }

  lemma DrawRow(g: Geometry, c: Con, t: Text, b: Byte, k: nat)
    requires g.Fits() && Shaped(g, c) && c.x == Times(|t.cur|, g.fw) && c.x + g.fw <= g.width
    requires Shaped(g, DrawGlyph(g, c, b)) && k < g.Rows() && k <= |t.lines| && RowShows(g, c, t, k)
    ensures RowShows(g, DrawGlyph(g, c, b), t.(cur := t.cur + [b]), k)
  {
    hide Ink, DrawGlyph, Blit, GlyphPixel, Scanline, Quot, Geometry.FontIndex;
    TextFits(g);
    var d, u := DrawGlyph(g, c, b), t.(cur := t.cur + [b]);
    assert Times(|t.cur| + 1, g.fw) == Times(|t.cur|, g.fw) + g.fw;
    forall h, x | 0 <= h < g.fh && 0 <= x < g.TextWidth() && (k < |u.lines| || x < Times(|u.Line(k)|, g.fw))
      ensures d.fb[Scanline(g, k, h)][x] == Ink(g, u.Line(k), h, x)
    {
      hide Times, Geometry.TextWidth;
      DrawRowPixel(g, c, t, b, k, h, x);
    }
  }

  lemma DrawShows(g: Geometry, c: Con, t: Text, b: Byte)
    requires g.Fits() && Shows(g, c, t)
    ensures Drawn(g, DrawGlyph(g, c, b), t.(cur := t.cur + [b]))
  {
    DrawShaped(g, c, b);
    var d, u := DrawGlyph(g, c, b), t.(cur := t.cur + [b]);
    FullExactly(g, |t.cur|);
    hide RowShows, Blit;
    forall k | 0 <= k < g.Rows() && k <= |u.lines| ensures RowShows(g, d, u, k) {
      DrawRow(g, c, t, b, k);
    }
  }

  // ---------------------------------------------------------------- ending a line

  lemma ScrolledPixel(g: Geometry, fb: seq<Row>, n: nat, i: nat, x: nat)
    requires g.Fits() && n <= g.pitch && i + g.fh < g.height && x < n
    requires |fb| == g.height && (forall i :: 0 <= i < g.height ==> |fb[i]| == g.pitch)
    ensures Scroll(g, fb, n)[i][x] == fb[i + g.fh][x]
  {
  }

  lemma ClearedPixel(g: Geometry, fb: seq<Row>, y: nat, i: nat, x: nat)
    requires |fb| == g.height && (forall i :: 0 <= i < g.height ==> |fb[i]| == g.pitch) && i < g.height && x < g.pitch
    ensures ClearRow(g, fb, y)[i][x] == if y <= i < y + g.fh then BLACK else fb[i][x]
  {
    assert ClearRow(g, fb, y)[i] == if y <= i < y + g.fh then Dark(g.pitch) else fb[i];
  }

  lemma FedPixel(g: Geometry, c: Con, i: nat, x: nat)
    requires g.Fits() && Shaped(g, c) && i < g.LastRow() + g.fh && x < g.TextWidth()
    ensures i < g.height && x < g.pitch && (i < g.LastRow() ==> i + g.fh < g.height)
    ensures |Feed(g, c, true).fb| == g.height && |Feed(g, c, true).fb[i]| == g.pitch
    ensures Feed(g, c, true).fb[i][x] == if i < g.LastRow() then c.fb[i + g.fh][x] else BLACK
  {
    TextFits(g);
    if i < g.LastRow() { ScrolledPixel(g, c.fb, g.TextWidth(), i, x); }
    ClearedPixel(g, Scroll(g, c.fb, g.TextWidth()), g.LastRow(), i, x);
    hide Longest, Scroll, ClearRow;
  }

  lemma FedRowPixel(g: Geometry, c: Con, t: Text, k: nat, h: nat, x: nat)
    requires g.Fits() && Shaped(g, c) && k < g.Rows() && k <= |t.Ended().lines| && h < g.fh && x < g.TextWidth()
    requires g.TextWidth() <= g.pitch
    requires k > 0 ==> c.fb[Scanline(g, k - 1, h)][x] == Ink(g, t.Line(k - 1), h, x)
    ensures |Feed(g, c, true).fb| == g.height && x < |Feed(g, c, true).fb[Scanline(g, k, h)]|
    ensures Feed(g, c, true).fb[Scanline(g, k, h)][x] == Ink(g, t.Ended().Line(k), h, x)
  {
    hide Feed, Scanline, Lit, Times, Quot, Geometry.FontIndex;
    ScanlineRow(g, k, h);
    FedPixel(g, c, Scanline(g, k, h), x);
    if k > 0 { assert t.Ended().Line(k) == t.Line(k - 1); }
  }

  lemma FedRow(g: Geometry, c: Con, t: Text, k: nat)
    requires g.Fits() && Drawn(g, c, t) && Shaped(g, Feed(g, c, true)) && k < g.Rows() && k <= |t.Ended().lines|
    ensures RowShows(g, Feed(g, c, true), t.Ended(), k)
  {
    hide Ink, Feed, Scanline, Times, Quot, Geometry.FontIndex;
    TextFits(g);
    var d, u := Feed(g, c, true), t.Ended();
    if k > 0 {
      assert u.Line(k) == t.Line(k - 1);
      assert RowShows(g, c, t, k - 1);
    }
    forall h, x | 0 <= h < g.fh && 0 <= x < g.TextWidth() && (k < |u.lines| || x < Times(|u.Line(k)|, g.fw))
      ensures d.fb[Scanline(g, k, h)][x] == Ink(g, u.Line(k), h, x)
    {
      FedRowPixel(g, c, t, k, h, x);
    }
  }

  lemma FeedShows(g: Geometry, c: Con, t: Text)
    requires g.Fits() && Drawn(g, c, t)
    ensures Shows(g, Feed(g, c, true), t.Ended())
  {
    FeedReady(g, c, true);
    TimesOrder(1, Quot(g.width, g.fw), g.fw);
    OneColumn(g);
    hide RowShows, Feed, Drawn;
    forall k | 0 <= k < g.Rows() && k <= |t.Ended().lines| ensures RowShows(g, Feed(g, c, true), t.Ended(), k) {
      FedRow(g, c, t, k);
    }
  }

  lemma OneColumn(g: Geometry)
    requires g.Fits()
    ensures Quot(g.width, g.fw) >= 1
  {
  }

  // ---------------------------------------------------------------- writes

  /** The line is full exactly when no column is left. */
  lemma FullExactly(g: Geometry, n: nat)
    requires g.Fits()
    ensures Times(n, g.fw) + g.fw <= g.width <==> n < Quot(g.width, g.fw)
  {
    QuotBelow(g.width, n + 1, g.fw);
  }

  lemma {:induction false} PutShows(g: Geometry, c: Con, t: Text, s: seq<Byte>)
    requires g.Fits() && Shows(g, c, t)
    ensures Shows(g, Put(g, c, s, true), Type(Quot(g.width, g.fw), t, s))
    decreases |s|
  {
    hide Shows, Drawn, RowShows, Feed, DrawGlyph, Shaped, Quot, Times;
    assert Ready(g, c) by { ShowsReady(g, c, t); }
    if s != [] {
      if s[0] == NEWLINE {
        ShowsReady(g, c, t);
        FeedShows(g, c, t);
        PutShows(g, Feed(g, c, true), t.Ended(), s[1..]);
      } else {
        var d, u := DrawGlyph(g, c, s[0]), t.(cur := t.cur + [s[0]]);
        DrawShaped(g, c, s[0]);
        DrawShows(g, c, t, s[0]);
        DrawnShows(g, d, u);
        if |u.cur| < Quot(g.width, g.fw) {
          PutShows(g, d, u, s[1..]);
        } else {
          FeedShows(g, d, u);
          PutShows(g, Feed(g, d, true), u.Ended(), if |s| > 1 && s[1] == NEWLINE then s[2..] else s[1..]);
        }
      }
    }
  }

  lemma ShowsReady(g: Geometry, c: Con, t: Text)
    requires g.Fits() && Shows(g, c, t)
    ensures Ready(g, c) && Drawn(g, c, t)
  {
    hide RowShows;
  }

  lemma DrawnShows(g: Geometry, d: Con, u: Text)
    requires g.Fits() && Drawn(g, d, u) && Multiple(d.x, g.fw)
    ensures d.x + g.fw <= g.width <==> |u.cur| < Quot(g.width, g.fw)
    ensures |u.cur| < Quot(g.width, g.fw) ==> Shows(g, d, u)
  {
    hide RowShows;
    FullExactly(g, |u.cur|);
  }

  lemma {:induction false} RunShows(g: Geometry, c: Con, t: Text, writes: seq<seq<Byte>>)
    requires g.Fits() && Shows(g, c, t)
    ensures Shows(g, Run(g, c, writes, true), TypeAll(Quot(g.width, g.fw), t, writes))
    decreases |writes|
  {
    hide Shows, Put, Quot, Type;
    ShowsReady(g, c, t);
    if writes != [] {
      PutShows(g, c, t, writes[0]);
      ShowsReady(g, Put(g, c, writes[0], true), Type(Quot(g.width, g.fw), t, writes[0]));
      RunShows(g, Put(g, c, writes[0], true), Type(Quot(g.width, g.fw), t, writes[0]), writes[1..]);
    }
  }

  lemma BootShows(g: Geometry, firmware: seq<Row>)
    requires g.Fits() && |firmware| == g.height && (forall i :: 0 <= i < g.height ==> |firmware[i]| == g.pitch)
    ensures Shows(g, Boot(g, firmware), Text([], []))
  {
    OneColumn(g);
    var c, t := Boot(g, firmware), Text([], []);
    assert RowShows(g, c, t, 0);
  }

  /** The screen shows the text: after setup and any writes, `k` text rows above the last one stands the line `k` before
      the current one, column by column as the font draws it and black behind its end. Of the very first line, begun on
      whatever the firmware left, only the text itself is promised. */
  lemma ScreenShowsText(g: Geometry, firmware: seq<Row>, writes: seq<seq<Byte>>, k: nat, h: nat, x: nat)
    requires g.Valid() && |firmware| == g.height && (forall i :: 0 <= i < g.height ==> |firmware[i]| == g.pitch)
    requires k < Quot(g.height, g.fh) && h < g.fh && x < Times(Quot(g.width, g.fw), g.fw)
    ensures
      var t := TypeAll(Quot(g.width, g.fw), Text([], []), writes);
      var screen := Run(g, Boot(g, firmware), writes, false).fb;
      && |screen| == g.height && x < |screen[Scanline(g, k, h)]|
      && (k <= |t.lines| && (k < |t.lines| || x < Times(|t.Line(k)|, g.fw)) ==>
        screen[Scanline(g, k, h)][x] == Ink(g, t.Line(k), h, x))
  {
    hide Shows, Run, TypeAll, Ink, Scanline;
    PartialScrollIsFullScroll(g, firmware, writes);
    BootShows(g, firmware);
    RunShows(g, Boot(g, firmware), Text([], []), writes);
    ShowsPixel(g, Run(g, Boot(g, firmware), writes, true), TypeAll(Quot(g.width, g.fw), Text([], []), writes), k, h, x);
  }

  lemma ShowsPixel(g: Geometry, c: Con, t: Text, k: nat, h: nat, x: nat)
    requires g.Fits() && Shows(g, c, t) && k < g.Rows() && h < g.fh && x < g.TextWidth()
    ensures |c.fb| == g.height && x < |c.fb[Scanline(g, k, h)]|
    ensures k <= |t.lines| && (k < |t.lines| || x < Times(|t.Line(k)|, g.fw)) ==>
      c.fb[Scanline(g, k, h)][x] == Ink(g, t.Line(k), h, x)
  {
    hide Ink, Scanline;
    TextFits(g);
    if k <= |t.lines| { assert RowShows(g, c, t, k); }
  }
}
