/** Scrolling by the longest recorded line equals scrolling by the whole text width. */
module EfiScroll {
  import opened Arith
  import opened EfiConsole
  import opened Words

  /** The ring slot of the line that ended `a` feeds ago, the latest being 0. */
  function Slot(g: Geometry, cur: nat, a: nat): (j: nat)
    requires cur < g.slots && a < g.slots
    ensures j < g.slots && (a + 1 < g.slots ==> j != cur)
  {
    if a < cur then cur - 1 - a else cur + g.slots - 1 - a
  }

  lemma SlotAges(g: Geometry, cur: nat, a: nat)
    requires cur < g.slots && a + 1 < g.slots
    ensures Slot(g, Advance(g, cur), 0) == cur && Slot(g, Advance(g, cur), a + 1) == Slot(g, cur, a)
  {
  }

  /** After `k` feeds, the column from which text row `r` is known to be black. Only a line begun on a
      cleared row, the second or later, says anything; it was that long when it ended. */
  function Extent(g: Geometry, c: Con, k: nat, r: nat): nat
    requires g.Valid() && Shaped(g, c) && r < g.Rows()
  {
    if r == g.Rows() - 1 then (if k >= 1 then c.x else g.TextWidth())
    else
      var a := g.Rows() - 2 - r;
      if a + 2 <= k then c.ring[Slot(g, c.cur, a)] else g.TextWidth()
  }

  ghost predicate DarkFrom(row: Row, e: nat, w: nat) {
    forall j :: e <= j < w && j < |row| ==> row[j] == BLACK
  }

  /** Every scanline of a text row is black beyond that row's extent, and until the ring has been
      written all round it still holds the text width somewhere. */
  ghost predicate Clean(g: Geometry, c: Con, k: nat)
    requires g.Valid()
  {
    && Shaped(g, c)
    && (k < g.slots ==> c.cur == k && forall j :: k <= j < g.slots ==> c.ring[j] == g.TextWidth())
    && (forall i :: 0 <= i < g.height && g.RowOf(i) < g.Rows() ==>
      DarkFrom(c.fb[i], Extent(g, c, k, g.RowOf(i)), g.TextWidth()))
  }

  lemma InRow(g: Geometry, i: nat)
    requires g.Fits()
    ensures i < g.LastRow() + g.fh <==> g.RowOf(i) < g.Rows()
    ensures i < g.LastRow() <==> g.RowOf(i) < g.Rows() - 1
    ensures g.RowOf(i + g.fh) == g.RowOf(i) + 1
  {
    TextFits(g);
    QuotBelow(i, g.Rows(), g.fh);
    QuotBelow(i, g.Rows() - 1, g.fh);
  }

  /** What a feed records for the rows, read one row lower down. */
  lemma ExtentMoves(g: Geometry, c: Con, k: nat, full: bool, r: nat)
    requires g.Valid() && Shaped(g, c) && r + 1 < g.Rows()
    requires Shaped(g, Feed(g, c, full))
    ensures Extent(g, Feed(g, c, full), k + 1, r) == Extent(g, c, k, r + 1)
  {
    var a := g.Rows() - 2 - r;
    if a == 0 { SlotAges(g, c.cur, 0); }
    else { SlotAges(g, c.cur, a - 1); }
  }

  /** The copied width: the whole text width while the ring is young, later at least every extent. */
  lemma WidthCovers(g: Geometry, c: Con, k: nat)
    requires g.Valid() && Clean(g, c, k)
    ensures var n := Longest(c.ring[c.cur := c.x], g.slots);
      n == g.TextWidth() || (n <= g.TextWidth() && forall r :: 0 <= r < g.Rows() ==> Extent(g, c, k, r) <= n)
  {
    var ring := c.ring[c.cur := c.x];
    var n := Longest(ring, g.slots);
    if k + 1 < g.slots {
      assert ring[k + 1] == g.TextWidth();
    } else {
      forall r | 0 <= r < g.Rows() ensures Extent(g, c, k, r) <= n {
        if r == g.Rows() - 1 {
          assert ring[c.cur] == c.x;
        } else {
          var j := Slot(g, c.cur, g.Rows() - 2 - r);
          assert ring[j] == c.ring[j];
        }
      }
    }
  }

  /** A scanline that moves up moves whole, although only `n` pixels of it are copied. */
  lemma PartialCopyIsWhole(src: Row, dst: Row, n: nat, w: nat)
    requires n <= w <= |src| == |dst| && DarkFrom(src, n, w) && DarkFrom(dst, n, w)
    ensures src[..n] + dst[n..] == src[..w] + dst[w..]
  {
  }

  /** A row that moved up is as black as it was one row lower down. */
  lemma MovedDark(g: Geometry, c: Con, k: nat, i: nat)
    requires g.Valid() && Clean(g, c, k) && i < g.height && g.RowOf(i) < g.Rows() - 1
    ensures i + g.fh < g.height && DarkFrom(c.fb[i + g.fh], Extent(g, c, k, g.RowOf(i) + 1), g.TextWidth())
  {
    TextFits(g);
    InRow(g, i);
  }

  lemma ScanlineAgrees(g: Geometry, c: Con, k: nat, i: nat)
    requires g.Valid() && Clean(g, c, k) && i < g.height && g.RowOf(i) < g.Rows() - 1
    ensures Longest(c.ring[c.cur := c.x], g.slots) <= g.TextWidth() <= g.pitch && i + g.fh < g.height
    ensures var n, w := Longest(c.ring[c.cur := c.x], g.slots), g.TextWidth();
      c.fb[i + g.fh][..n] + c.fb[i][n..] == c.fb[i + g.fh][..w] + c.fb[i][w..]
  {
    TextFits(g);
    MovedDark(g, c, k, i);
    WidthCovers(g, c, k);
    var n, w := Longest(c.ring[c.cur := c.x], g.slots), g.TextWidth();
    if n != w {
      var r := g.RowOf(i);
      assert DarkFrom(c.fb[i], Extent(g, c, k, r), w) && Extent(g, c, k, r) <= n;
      assert Extent(g, c, k, r + 1) <= n;
      PartialCopyIsWhole(c.fb[i + g.fh], c.fb[i], n, w);
    }
  }

  /** What a feed leaves on a scanline, in either reading. */
  lemma FedScanline(g: Geometry, c: Con, full: bool, i: nat)
    requires g.Fits() && Shaped(g, c) && i < g.height
    ensures Shaped(g, Feed(g, c, full))
    ensures g.TextWidth() <= g.pitch && (i < g.LastRow() ==> i + g.fh < g.height)
    ensures var n := if full then g.TextWidth() else Longest(c.ring[c.cur := c.x], g.slots);
      n <= g.TextWidth() &&
      Feed(g, c, full).fb[i] ==
        if g.LastRow() <= i < g.LastRow() + g.fh then Dark(g.pitch)
        else if i < g.LastRow() then c.fb[i + g.fh][..n] + c.fb[i][n..]
        else c.fb[i]
  {
    TextFits(g);
    FeedReady(g, c, full);
  }

  lemma FeedAgrees(g: Geometry, c: Con, k: nat)
    requires g.Valid() && Clean(g, c, k)
    ensures Feed(g, c, false) == Feed(g, c, true)
  {
    FeedReady(g, c, false);
    FeedReady(g, c, true);
    var p, f := Feed(g, c, false), Feed(g, c, true);
    forall i | 0 <= i < g.height ensures p.fb[i] == f.fb[i] {
      FedScanline(g, c, false, i);
      FedScanline(g, c, true, i);
      InRow(g, i);
      if i < g.LastRow() { ScanlineAgrees(g, c, k, i); }
    }
    assert p.fb == f.fb;
  }

  lemma FedDark(g: Geometry, c: Con, k: nat, i: nat)
    requires g.Valid() && Clean(g, c, k) && i < g.height && g.RowOf(i) < g.Rows()
    ensures Shaped(g, Feed(g, c, true))
    ensures DarkFrom(Feed(g, c, true).fb[i], Extent(g, Feed(g, c, true), k + 1, g.RowOf(i)), g.TextWidth())
  {
    FedScanline(g, c, true, i);
    InRow(g, i);
    var r := g.RowOf(i);
    if r < g.Rows() - 1 {
      ExtentMoves(g, c, k, true, r);
      MovedDark(g, c, k, i);
    }
  }

  lemma FeedClean(g: Geometry, c: Con, k: nat)
    requires g.Valid() && Clean(g, c, k)
    ensures Clean(g, Feed(g, c, true), k + 1)
  {
    FeedReady(g, c, true);
    var d := Feed(g, c, true);
    forall i | 0 <= i < g.height && g.RowOf(i) < g.Rows()
      ensures DarkFrom(d.fb[i], Extent(g, d, k + 1, g.RowOf(i)), g.TextWidth())
    {
      FedDark(g, c, k, i);
    }
  }

  lemma DrawnDark(g: Geometry, c: Con, k: nat, b: Byte, i: nat)
    requires g.Valid() && Ready(g, c) && Clean(g, c, k) && i < g.height && g.RowOf(i) < g.Rows()
    ensures Shaped(g, DrawGlyph(g, c, b))
    ensures DarkFrom(DrawGlyph(g, c, b).fb[i], Extent(g, DrawGlyph(g, c, b), k, g.RowOf(i)), g.TextWidth())
  {
    DrawShaped(g, c, b);
    InRow(g, i);
    assert DarkFrom(c.fb[i], Extent(g, c, k, g.RowOf(i)), g.TextWidth());
  }

  lemma DrawClean(g: Geometry, c: Con, k: nat, b: Byte)
    requires g.Valid() && Ready(g, c) && Clean(g, c, k)
    ensures Clean(g, DrawGlyph(g, c, b), k)
  {
    DrawShaped(g, c, b);
    var d := DrawGlyph(g, c, b);
    forall i | 0 <= i < g.height && g.RowOf(i) < g.Rows()
      ensures DarkFrom(d.fb[i], Extent(g, d, k, g.RowOf(i)), g.TextWidth())
    {
      DrawnDark(g, c, k, b, i);
    }
  }

  /** One write, in both readings: the same console, clean again. */
  lemma {:induction false} PutAgrees(g: Geometry, c: Con, s: seq<Byte>, k: nat) returns (k': nat)
    requires g.Valid() && Ready(g, c) && Clean(g, c, k)
    ensures Put(g, c, s, false) == Put(g, c, s, true)
    ensures Clean(g, Put(g, c, s, true), k')
    decreases |s|
  {
    hide Clean, Feed;
    if s == [] {
      k' := k;
    } else if s[0] == NEWLINE {
      FeedReady(g, c, true);
      FeedAgrees(g, c, k);
      FeedClean(g, c, k);
      k' := PutAgrees(g, Feed(g, c, true), s[1..], k + 1);
    } else {
      DrawShaped(g, c, s[0]);
      DrawClean(g, c, k, s[0]);
      var d := DrawGlyph(g, c, s[0]);
      if d.x + g.fw <= g.width {
        k' := PutAgrees(g, d, s[1..], k);
      } else {
        FeedReady(g, d, true);
        FeedAgrees(g, d, k);
        FeedClean(g, d, k);
        k' := PutAgrees(g, Feed(g, d, true), if |s| > 1 && s[1] == NEWLINE then s[2..] else s[1..], k + 1);
      }
    }
  }

  lemma {:induction false} RunAgrees(g: Geometry, c: Con, writes: seq<seq<Byte>>, k: nat)
    requires g.Valid() && Ready(g, c) && Clean(g, c, k)
    ensures Run(g, c, writes, false) == Run(g, c, writes, true)
    decreases |writes|
  {
    if writes != [] {
      var k' := PutAgrees(g, c, writes[0], k);
      PutReady(g, c, writes[0], true);
      RunAgrees(g, Put(g, c, writes[0], true), writes[1..], k');
    }
  }

  /** From setup on, whatever the firmware left on screen and whatever is written, the console that
      copies only the longest recorded line shows what one that copies the whole text width shows,
      pixel for pixel over the whole framebuffer. */
  lemma PartialScrollIsFullScroll(g: Geometry, firmware: seq<Row>, writes: seq<seq<Byte>>)
    requires g.Valid() && |firmware| == g.height && (forall i :: 0 <= i < g.height ==> |firmware[i]| == g.pitch)
    ensures Run(g, Boot(g, firmware), writes, false) == Run(g, Boot(g, firmware), writes, true)
  {
    RunAgrees(g, Boot(g, firmware), writes, 0);
  }

  /** A ring with one slot per text row, and none to spare, is too small: on a screen of two rows of
      two 1x1 glyphs, the second of two line feeds leaves firmware pixels behind. */
  lemma SpareSlotNeeded(g: Geometry, firmware: seq<Row>)
    requires g == Geometry(2, 2, 2, 1, 1, seq(256, _ => 0), 2) && firmware == [[WHITE, WHITE], [WHITE, WHITE]]
    ensures g.Fits() && g.slots == g.Rows()
    ensures Run(g, Boot(g, firmware), [[NEWLINE, NEWLINE]], false) !=
      Run(g, Boot(g, firmware), [[NEWLINE, NEWLINE]], true)
  {
    assert g.Rows() == 2 && g.TextWidth() == 2;
    var c := Boot(g, firmware);
    assert c.fb[1] == firmware[1];
    TwoFeeds(g, c, false);
    TwoFeeds(g, c, true);
    var d := Feed(g, c, true);
    FeedReady(g, c, true);
    assert Longest(c.ring[0 := 0], 2) == 2 && d == Feed(g, c, false);
    assert d.fb[1] == Dark(2) && d.fb[0][0] == WHITE && d.ring[0] == 0 && d.cur == 1;
    assert Longest(d.ring[1 := 0], 2) == 0;
    assert Feed(g, d, false).fb[0][0] == WHITE && Feed(g, d, true).fb[0][0] == BLACK;
  }

  lemma TwoFeeds(g: Geometry, c: Con, full: bool)
    requires g.Fits() && Ready(g, c)
    ensures Ready(g, Feed(g, c, full))
    ensures Run(g, c, [[NEWLINE, NEWLINE]], full) == Feed(g, Feed(g, c, full), full)
  {
    var s: seq<Byte> := [NEWLINE, NEWLINE];
    var writes: seq<seq<Byte>> := [s];
    FeedReady(g, c, full);
    FeedReady(g, Feed(g, c, full), full);
    assert s[1..] == [NEWLINE] && [NEWLINE][1..] == [];
    assert Put(g, c, s, full) == Put(g, Feed(g, c, full), [NEWLINE], full);
    assert Put(g, Feed(g, c, full), [NEWLINE], full) == Put(g, Feed(g, Feed(g, c, full), full), [], full);
    assert writes[1..] == [];
    PutReady(g, c, s, full);
    assert Run(g, c, writes, full) == Run(g, Put(g, c, s, full), [], full);
  }
}
