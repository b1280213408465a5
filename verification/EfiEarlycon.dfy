/** The console driver itself, updating the framebuffer and its globals in place. */
module EfiEarlycon {
  import opened Arith
  import opened EfiChunks
  import opened EfiConsole
  import opened Words

  /** A scroll by `n` pixels that has reached scanline `i`. */
  function ScrollTo(g: Geometry, fb: seq<Row>, n: nat, i: nat): (r: seq<Row>)
    requires g.Fits() && n <= g.pitch && i <= g.height - g.fh
    requires |fb| == g.height && (forall k :: 0 <= k < g.height ==> |fb[k]| == g.pitch)
    ensures |r| == g.height
  {
    seq(g.height, k requires 0 <= k < g.height => if k < i then fb[k + g.fh][..n] + fb[k][n..] else fb[k])
  }

  /** Copying upwards scanline by scanline reads only scanlines not yet overwritten. */
  lemma ScrollToStep(g: Geometry, fb: seq<Row>, n: nat, i: nat)
    requires g.Fits() && n <= g.pitch && i < g.height - g.fh
    requires |fb| == g.height && (forall k :: 0 <= k < g.height ==> |fb[k]| == g.pitch)
    ensures var s := ScrollTo(g, fb, n, i);
      |s[i + g.fh]| == |s[i]| == g.pitch && ScrollTo(g, fb, n, i + 1) == s[i := s[i + g.fh][..n] + s[i][n..]]
  {
  }

  lemma ScrollToEnds(g: Geometry, fb: seq<Row>, n: nat)
    requires g.Fits() && n <= g.pitch
    requires |fb| == g.height && (forall k :: 0 <= k < g.height ==> |fb[k]| == g.pitch)
    ensures ScrollTo(g, fb, n, 0) == fb
    ensures ScrollTo(g, fb, n, g.height - g.fh) == Scroll(g, fb, n)
  {
  }

  /** A run of glyphs drawn on the first `h` scanlines of the last text row. */
  function DrawnTo(g: Geometry, c: Con, s: seq<Byte>, h: nat): (r: seq<Row>)
    requires g.Fits() && Ready(g, c) && c.x + Times(|s|, g.fw) <= g.width && h <= g.fh
    ensures |r| == g.height
  {
    var y := g.LastRow();
    seq(g.height, i requires 0 <= i < g.height =>
      if y <= i < y + h then BlitRun(g, c.fb[i], c.x, s, i - y) else c.fb[i])
  }

  lemma DrawnToStep(g: Geometry, c: Con, s: seq<Byte>, h: nat)
    requires g.Fits() && Ready(g, c) && c.x + Times(|s|, g.fw) <= g.width && h < g.fh
    ensures g.LastRow() + h < g.height
    ensures var d := DrawnTo(g, c, s, h); var i := g.LastRow() + h;
      |d[i]| == g.pitch && DrawnTo(g, c, s, h + 1) == d[i := BlitRun(g, d[i], c.x, s, h)]
  {
    TextFits(g);
  }

  lemma DrawnToAll(g: Geometry, c: Con, s: seq<Byte>)
    requires g.Fits() && Ready(g, c) && c.x + Times(|s|, g.fw) <= g.width
    ensures DrawnTo(g, c, s, 0) == c.fb && DrawnTo(g, c, s, g.fh) == DrawRun(g, c, s).fb
  {
    hide BlitRun, DrawRun, Geometry.Fits, Times;
    forall i | 0 <= i < g.height ensures DrawnTo(g, c, s, g.fh)[i] == DrawRun(g, c, s).fb[i] {
      DrawRunScanline(g, c, s, i);
    }
  }

  /** The first `h` scanlines of the text row at `y` cleared. */
  function ClearedTo(g: Geometry, fb: seq<Row>, y: nat, h: nat): (r: seq<Row>)
    requires |fb| == g.height
    ensures |r| == g.height
  {
    seq(g.height, i requires 0 <= i < g.height => if y <= i < y + h then Dark(g.pitch) else fb[i])
  }

  /** The divisions of efi_earlycon_setup. */
  lemma SetupNumbers(g: Geometry)
    requires g.Fits()
    ensures g.width - g.width % g.fw == g.TextWidth() <= g.pitch
    ensures g.height - g.height % g.fh == g.LastRow() + g.fh && (g.LastRow() + g.fh) / g.fh == g.Rows()
    ensures (g.height - g.LastRow()) / g.fh == 1
  {
    TextFits(g);
    RoundDown(g.width, g.fw);
    RoundDown(g.height, g.fh);
    var n := g.LastRow() + g.fh;
    assert n == Times(g.Rows(), g.fh);
    QuotUnique(n, g.Rows(), g.fh);
    QuotIsQuotient(n, g.fh);
    QuotUnique(g.height - g.LastRow(), 1, g.fh);
    QuotIsQuotient(g.height - g.LastRow(), g.fh);
  }

  /** How many glyphs fit after column `x`. */
  lemma LineRoom(g: Geometry, x: nat)
    requires g.Fits() && x + g.fw <= g.width
    ensures var n := (g.width - x) / g.fw; 1 <= n && x + Times(n, g.fw) <= g.width < x + Times(n, g.fw) + g.fw
  {
    QuotIsQuotient(g.width - x, g.fw);
    QuotBounds(g.width - x, g.fw);
  }

  lemma PutNothing(g: Geometry, c: Con, full: bool)
    requires g.Fits() && Ready(g, c)
    ensures Put(g, c, [], full) == c
  {
  }

  /** strnchrnul: the bytes before the next line feed, or all that are left. */
  method RunLength(str: seq<Byte>, pos: nat) returns (n: nat)
    requires pos <= |str|
    ensures pos + n <= |str| && (pos + n < |str| ==> str[pos + n] == NEWLINE)
    ensures forall j :: pos <= j < pos + n ==> str[j] != NEWLINE
  {
    n := 0;
    while pos + n < |str| && str[pos + n] != NEWLINE
      invariant pos + n <= |str| && forall j :: pos <= j < pos + n ==> str[j] != NEWLINE
    {
      n := n + 1;
    }
  }

  class Earlycon {
    const g: Geometry
    const fb: array2<Pixel>
    const ring: array<nat>   // efi_x_array
    var curLine: nat         // cur_line_y
    var maxLine: nat         // max_line_y
    var efiX: nat
    var efiY: nat

    ghost function RowAt(i: nat): Row
      reads fb
      requires i < fb.Length0
    {
      seq(fb.Length1, j requires 0 <= j < fb.Length1 reads fb => fb[i, j])
    }

    ghost function Screen(): (r: seq<Row>)
      reads fb
      ensures |r| == fb.Length0 && forall i :: 0 <= i < |r| ==> |r[i]| == fb.Length1
    {
      seq(fb.Length0, i requires 0 <= i < fb.Length0 reads fb => RowAt(i))
    }

    ghost predicate Mapped()
      reads this
    {
      g.Fits() && fb.Length0 == g.height && fb.Length1 == g.pitch && ring.Length == RING
    }

    ghost function View(): Con
      reads this, fb, ring
    {
      Con(Screen(), ring[..], curLine, efiX)
    }

    /** What holds at the head of the write loop: the cursor is on the last text row, at a whole
        number of glyphs, with room for one more. */
    ghost predicate Valid()
      reads this, fb, ring
    {
      Mapped() && maxLine == g.slots && efiY == g.LastRow() && Ready(g, View())
    }

    constructor (geometry: Geometry, framebuffer: array2<Pixel>)
      requires geometry.Fits() && framebuffer.Length0 == geometry.height && framebuffer.Length1 == geometry.pitch
      ensures Mapped() && g == geometry && fb == framebuffer && fresh(ring)
    {
      g, fb := geometry, framebuffer;
      ring := new nat[RING](_ => 0);
      curLine, maxLine, efiX, efiY := 0, 0, 0, 0;
    }

    /** The first loop of efi_earlycon_scroll_up: a count of bytes in 16 bits, which never wraps. */
    method LongestBytes() returns (maxlen: nat)
      requires Mapped() && maxLine <= RING && (forall j :: 0 <= j < RING ==> ring[j] <= g.pitch)
      ensures Longest(ring[..], maxLine) <= g.pitch && maxlen == 4 * Longest(ring[..], maxLine)
    {
      maxlen := 0;
      for i := 0 to maxLine
        invariant maxlen == Longest(ring[..], i) <= g.pitch
      {
        if ring[i] > maxlen { maxlen := ring[i] % 0x10000; }
      }
      maxlen := maxlen * 4 % 0x10000;
    }

    /** efi_earlycon_scroll_up */
    method ScrollUp()
      requires Mapped() && maxLine <= RING && (forall j :: 0 <= j < RING ==> ring[j] <= g.pitch)
      modifies fb
      ensures Longest(ring[..], maxLine) <= g.pitch
      ensures Screen() == Scroll(g, old(Screen()), Longest(ring[..], maxLine))
    {
      hide Longest, Scroll, ScrollTo, Screen;
      var maxlen := LongestBytes();
      var n := maxlen / 4;
      ghost var was := Screen();
      ScrollToEnds(g, was, n);
      for i := 0 to g.height - g.fh
        invariant Screen() == ScrollTo(g, was, n, i)
      {
        ScrollToStep(g, was, n, i);
        CopyScanline(i, i + g.fh, n);
      }
    }

    /** memmove of the first `n` pixels of a scanline. */
    method CopyScanline(dst: nat, src: nat, n: nat)
      requires dst < fb.Length0 && src < fb.Length0 && dst != src && n <= fb.Length1
      modifies fb
      ensures Screen() == old(Screen())[dst := old(Screen())[src][..n] + old(Screen())[dst][n..]]
    {
      for j := 0 to n
        invariant forall r, k :: 0 <= r < fb.Length0 && 0 <= k < fb.Length1 ==>
          fb[r, k] == if r == dst && k < j then old(fb[src, k]) else old(fb[r, k])
      {
        fb[dst, j] := fb[src, j];
      }
      assert forall r :: 0 <= r < fb.Length0 ==>
        RowAt(r) == if r == dst then old(RowAt(src))[..n] + old(RowAt(dst))[n..] else old(RowAt(r));
    }

    /** efi_earlycon_clear_scanline */
    method ClearScanline(y: nat)
      requires y < fb.Length0
      modifies fb
      ensures Screen() == old(Screen())[y := Dark(fb.Length1)]
    {
      for j := 0 to fb.Length1
        invariant forall r, k :: 0 <= r < fb.Length0 && 0 <= k < fb.Length1 ==>
          fb[r, k] == if r == y && k < j then BLACK else old(fb[r, k])
      {
        fb[y, j] := BLACK;
      }
      assert forall r :: 0 <= r < fb.Length0 ==> RowAt(r) == if r == y then Dark(fb.Length1) else old(RowAt(r));
    }

    /** One bit of the font. */
    method FontPixel(c: Byte, h: nat, m: nat) returns (pixel: Pixel)
      requires Mapped() && h < g.fh && m < g.fw
      ensures pixel == GlyphPixel(g, c, h, m)
    {
      var bits := g.font[g.FontIndex(c, h, m)];
      if (bits >> (7 - m % 8)) & 1 == 1 { pixel := WHITE; } else { pixel := BLACK; }
    }

    /** efi_earlycon_write_char, for scanline `h` of the glyph. */
    method WriteChar(y: nat, x: nat, c: Byte, h: nat)
      requires Mapped() && y < g.height && h < g.fh && x + g.fw <= g.pitch
      modifies fb
      ensures Screen() == old(Screen())[y := Blit(g, old(Screen())[y], x, c, h)]
    {
      hide Geometry.FontIndex, GlyphPixel;
      for m := 0 to g.fw
        invariant forall r, k :: 0 <= r < g.height && 0 <= k < g.pitch ==>
          fb[r, k] == if r == y && x <= k < x + m then GlyphPixel(g, c, h, k - x) else old(fb[r, k])
      {
        var pixel := FontPixel(c, h, m);
        fb[y, x + m] := pixel;
      }
      assert forall r :: 0 <= r < g.height ==>
        RowAt(r) == if r == y then Blit(g, old(RowAt(y)), x, c, h) else old(RowAt(r));
    }

    /** One scanline of the drawing loops of efi_earlycon_write. */
    method DrawScanline(s: seq<Byte>, h: nat)
      requires Mapped() && h < g.fh && efiY + h < g.height && efiX + Times(|s|, g.fw) <= g.pitch
      modifies fb
      ensures Screen() == old(Screen())[efiY + h := BlitRun(g, old(Screen())[efiY + h], efiX, s, h)]
    {
      hide Blit, Screen;
      ghost var was := Screen();
      var x := efiX;
      assert s[..0] == [];
      for n := 0 to |s|
        invariant x == efiX + Times(n, g.fw) <= g.pitch
        invariant Screen() == was[efiY + h := BlitRun(g, was[efiY + h], efiX, s[..n], h)]
      {
        BlitRunStep(g, was[efiY + h], efiX, s, n, h);
        WriteChar(efiY + h, x, s[n], h);
        x := x + g.fw;
      }
      assert s[..|s|] == s;
    }

    /** The drawing loops of efi_earlycon_write: scanline by scanline, glyph by glyph. */
    method DrawText(s: seq<Byte>)
      requires Valid() && efiX + Times(|s|, g.fw) <= g.width
      modifies fb
      ensures Screen() == DrawRun(g, old(View()), s).fb
    {
      hide DrawnTo, BlitRun, DrawRun, Screen;
      ghost var c := View();
      DrawnToAll(g, c, s);
      for h := 0 to g.fh
        invariant Screen() == DrawnTo(g, c, s, h)
      {
        DrawnToStep(g, c, s, h);
        DrawScanline(s, h);
      }
    }

    /** The clearing loop at the end of a line feed. */
    method ClearText()
      requires Mapped() && efiY + g.fh <= g.height
      modifies fb
      ensures Screen() == ClearRow(g, old(Screen()), efiY)
    {
      ghost var was := Screen();
      assert ClearedTo(g, was, efiY, 0) == was;
      for i := 0 to g.fh
        invariant Screen() == ClearedTo(g, was, efiY, i)
      {
        assert ClearedTo(g, was, efiY, i + 1) == ClearedTo(g, was, efiY, i)[efiY + i := Dark(g.pitch)];
        ClearScanline(efiY + i);
      }
      assert ClearedTo(g, was, efiY, g.fh) == ClearRow(g, was, efiY);
    }

    /** The tail of the write loop: a line of `len` pixels has ended and the cursor has left the last
        text row. */
    method EndLine(len: nat)
      requires Mapped() && maxLine == g.slots && efiY == g.LastRow() + g.fh && efiX == 0
      requires Shaped(g, View().(x := len))
      modifies this`curLine, this`efiY, fb, ring
      ensures Valid() && View() == Feed(g, old(View()).(x := len), false)
    {
      TextFits(g);
      ghost var c := View().(x := len);
      ring[curLine] := len;
      assert ring[..] == c.ring[c.cur := len];
      ModSucc(curLine, maxLine);
      curLine := (curLine + 1) % maxLine;
      efiY := efiY - g.fh;
      ScrollUp();
      ClearText();
      FeedReady(g, c, false);
    }

    /** Drawing a run and moving the cursor behind it. */
    method DrawAndAdvance(s: seq<Byte>)
      requires Valid() && efiX + Times(|s|, g.fw) <= g.width
      modifies this`efiX, fb
      ensures View() == DrawRun(g, old(View()), s)
    {
      ghost var c := View();
      DrawText(s);
      DrawRunRest(g, c, s);
      TimesIsProduct(|s|, g.fw);
      efiX := efiX + |s| * g.fw;
    }

    /** One round of the loop of efi_earlycon_write. cur_efi_x is set on each way to EndLine. */
    method WriteRun(str: seq<Byte>, pos: nat, count: nat) returns (next: nat)
      requires Valid() && pos < |str| && IsRun(g, efiX, str[pos..], count)
      modifies this`curLine, this`efiX, this`efiY, fb, ring
      ensures Valid()
      ensures (View(), next - pos) == Round(g, old(View()), str[pos..], count, false)
    {
      hide DrawRun, Feed, Screen;
      TextFits(g);
      ghost var c := View();
      DrawAndAdvance(str[pos..][..count]);
      next := pos + count;

      var curX := efiX;
      if next < |str| && str[next] == NEWLINE {
        curX := efiX;
        efiX := 0;
        efiY := efiY + g.fh;
        next := next + 1;
      }
      if efiX + g.fw > g.width {
        curX := efiX;
        efiX := 0;
        efiY := efiY + g.fh;
      }
      if efiY + g.fh > g.height {
        EndLine(curX);
      }
    }

    /** efi_earlycon_write */
    method Write(str: seq<Byte>)
      requires Valid()
      modifies this`curLine, this`efiX, this`efiY, fb, ring
      ensures Valid() && View() == Put(g, old(View()), str, false)
    {
      hide Put, DrawRun, Feed, Screen;
      var pos := 0;
      assert str[0..] == str;
      while pos < |str|
        invariant pos <= |str| && Valid()
        invariant Put(g, View(), str[pos..], false) == Put(g, old(View()), str, false)
      {
        ghost var c, rest := View(), str[pos..];
        var linemax := (g.width - efiX) / g.fw;
        LineRoom(g, efiX);
        var count := RunLength(str, pos);
        if count > linemax { count := linemax; }
        TimesOrder(count, linemax, g.fw);
        RoundIsPut(g, c, rest, count, false);
        pos := WriteRun(str, pos, count);
        assert rest[Round(g, c, rest, count, false).1..] == str[pos..];
      }
      assert str[pos..] == [];
      PutNothing(g, View(), false);
    }

    method FillRing()
      requires Mapped()
      modifies ring
      ensures forall j :: 0 <= j < RING ==> ring[j] == g.TextWidth()
    {
      SetupNumbers(g);
      for i := 0 to RING
        invariant forall j :: 0 <= j < i ==> ring[j] == g.TextWidth()
      {
        ring[i] := g.width - g.width % g.fw;
      }
    }

    /** efi_earlycon_setup: refuses a display that is not an EFI framebuffer of 32 bits a pixel, and gives up when
        there is no font. */
    method Setup(isEfi: bool, depth: nat, hasFont: bool) returns (ok: bool)
      requires Mapped() && g.Valid() && efiX == 0
      modifies this`curLine, this`maxLine, this`efiY, fb, ring
      ensures ok <==> isEfi && depth == 32 && hasFont
      ensures ok ==> Valid() && View() == Boot(g, old(Screen()))
      ensures !ok ==> Screen() == old(Screen())
    {
      if !isEfi { return false; }
      if depth != 32 { return false; }
      if !hasFont { return false; }
      FillRing();
      SetupNumbers(g);
      efiY := g.height - g.height % g.fh;
      maxLine := efiY / g.fh + 1;
      curLine := 0;
      efiY := efiY - g.fh;
      var rounds := (g.height - efiY) / g.fh;
      ghost var was := Screen();
      assert maxLine == g.slots && rounds == 1 && efiY == g.LastRow();
      var i := 0;
      while i < rounds
        modifies fb
        invariant i <= rounds
        invariant Screen() == if i == 0 then was else Scroll(g, was, g.TextWidth())
      {
        ScrollUp();
        assert ring[0] == g.TextWidth();
        i := i + 1;
      }
      ok := true;
      assert ring[..] == Boot(g, was).ring;
    }
  }
}
