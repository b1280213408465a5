/** Drawing a run of characters scanline by scanline, and consuming text a run at a time. */
module EfiChunks {
  import opened Arith
  import opened EfiConsole
  import opened Words

  /** Scanline `h` of the glyphs for `s`, drawn side by side from column `x`. */
  function BlitRun(g: Geometry, row: Row, x: nat, s: seq<Byte>, h: nat): (r: Row)
    requires g.Fits() && h < g.fh && x + Times(|s|, g.fw) <= |row|
    ensures |r| == |row|
    decreases |s|
  {
    if s == [] then row
    else
      var n := |s| - 1;
      Blit(g, BlitRun(g, row, x, s[..n], h), x + Times(n, g.fw), s[n], h)
  }

  lemma BlitRunStep(g: Geometry, row: Row, x: nat, s: seq<Byte>, n: nat, h: nat)
    requires g.Fits() && h < g.fh && n < |s| && x + Times(|s|, g.fw) <= |row|
    ensures x + Times(n, g.fw) + g.fw == x + Times(n + 1, g.fw) <= |row|
    ensures BlitRun(g, row, x, s[..n + 1], h) == Blit(g, BlitRun(g, row, x, s[..n], h), x + Times(n, g.fw), s[n], h)
  {
    hide Blit, Geometry.Fits;
    TimesOrder(n + 1, |s|, g.fw);
    var u := s[..n + 1];
    assert u[..n] == s[..n] && u[n] == s[n];
    assert BlitRun(g, row, x, u, h) == Blit(g, BlitRun(g, row, x, u[..n], h), x + Times(n, g.fw), u[n], h);
  }

  /** The glyphs for `s` drawn one after the other. */
  function DrawRun(g: Geometry, c: Con, s: seq<Byte>): (d: Con)
    requires g.Fits() && Ready(g, c) && c.x + Times(|s|, g.fw) <= g.width
    ensures Shaped(g, d) && Multiple(d.x, g.fw) && d.x == c.x + Times(|s|, g.fw)
    decreases |s|
  {
    if s == [] then c
    else
      var d := DrawRun(g, c, s[..|s| - 1]);
      DrawShaped(g, d, s[|s| - 1]);
      DrawGlyph(g, d, s[|s| - 1])
  }

  /** Drawing glyph by glyph leaves on each scanline what drawing that scanline in one go leaves. */
  lemma {:induction false} DrawRunScanline(g: Geometry, c: Con, s: seq<Byte>, i: nat)
    requires g.Fits() && Ready(g, c) && c.x + Times(|s|, g.fw) <= g.width && i < g.height
    ensures DrawRun(g, c, s).fb[i] ==
      if g.LastRow() <= i < g.LastRow() + g.fh then BlitRun(g, c.fb[i], c.x, s, i - g.LastRow()) else c.fb[i]
    decreases |s|
  {
    hide Blit, Geometry.Fits, Geometry.Rows;
    if s != [] { DrawRunScanline(g, c, s[..|s| - 1], i); }
  }

  lemma DrawRunRest(g: Geometry, c: Con, s: seq<Byte>)
    requires g.Fits() && Ready(g, c) && c.x + Times(|s|, g.fw) <= g.width
    ensures DrawRun(g, c, s).ring == c.ring && DrawRun(g, c, s).cur == c.cur
    decreases |s|
  {
    if s != [] { DrawRunRest(g, c, s[..|s| - 1]); }
  }

  /** A run without a line feed that leaves room for one more glyph can be drawn at once. */
  lemma {:induction false} PutRun(g: Geometry, c: Con, s: seq<Byte>, n: nat, full: bool)
    requires g.Fits() && Ready(g, c) && n <= |s| && c.x + Times(n, g.fw) + g.fw <= g.width
    requires forall j :: 0 <= j < n ==> s[j] != NEWLINE
    ensures Ready(g, DrawRun(g, c, s[..n]))
    ensures Put(g, c, s, full) == Put(g, DrawRun(g, c, s[..n]), s[n..], full)
  {
    if n == 0 {
      assert s[..0] == [] && s[0..] == s;
    } else {
      PutRun(g, c, s, n - 1, full);
      assert s[..n][..n - 1] == s[..n - 1] && s[n - 1..][1..] == s[n..];
    }
  }

  /** A run that fills the line ends it, and swallows a line feed right behind it. */
  lemma PutFullLine(g: Geometry, c: Con, s: seq<Byte>, n: nat, full: bool)
    requires g.Fits() && Ready(g, c) && 1 <= n <= |s| && c.x + Times(n, g.fw) <= g.width < c.x + Times(n, g.fw) + g.fw
    requires forall j :: 0 <= j < n ==> s[j] != NEWLINE
    ensures Ready(g, Feed(g, DrawRun(g, c, s[..n]), full))
    ensures Put(g, c, s, full) == Put(g, Feed(g, DrawRun(g, c, s[..n]), full),
                                      if n < |s| && s[n] == NEWLINE then s[n + 1..] else s[n..], full)
  {
    PutRun(g, c, s, n - 1, full);
    assert s[..n][..n - 1] == s[..n - 1];
    var t := s[n - 1..];
    assert t[1..] == s[n..] && (|t| > 1 ==> t[1] == s[n] && t[2..] == s[n + 1..]);
    FeedReady(g, DrawRun(g, c, s[..n]), full);
  }

  /** `n` bytes up to a line feed, the end of the text or the end of the line. */
  ghost predicate IsRun(g: Geometry, x: nat, s: seq<Byte>, n: nat)
    requires g.Fits()
  {
    && n <= |s| && x + Times(n, g.fw) <= g.width && (forall j :: 0 <= j < n ==> s[j] != NEWLINE)
    && (n == |s| || s[n] == NEWLINE || g.width < x + Times(n, g.fw) + g.fw)
  }

  /** One round of the write loop on a run of `n` bytes: the new console and the bytes consumed. */
  function Round(g: Geometry, c: Con, s: seq<Byte>, n: nat, full: bool): (r: (Con, nat))
    requires g.Fits() && Ready(g, c) && IsRun(g, c.x, s, n)
    ensures r.1 <= |s|
  {
    var d := DrawRun(g, c, s[..n]);
    if n < |s| && s[n] == NEWLINE then (Feed(g, d, full), n + 1)
    else if d.x + g.fw > g.width then (Feed(g, d, full), n)
    else (d, n)
  }

  /** A round does what the byte-at-a-time console does with the same bytes. */
  lemma RoundIsPut(g: Geometry, c: Con, s: seq<Byte>, n: nat, full: bool)
    requires g.Fits() && Ready(g, c) && IsRun(g, c.x, s, n)
    ensures Ready(g, Round(g, c, s, n, full).0)
    ensures Put(g, c, s, full) == Put(g, Round(g, c, s, n, full).0, s[Round(g, c, s, n, full).1..], full)
    ensures s != [] ==> 0 < Round(g, c, s, n, full).1
  {
    if c.x + Times(n, g.fw) + g.fw <= g.width {
      PutRun(g, c, s, n, full);
      FeedReady(g, DrawRun(g, c, s[..n]), full);
      if n < |s| { assert s[n..][1..] == s[n + 1..]; }
    } else {
      PutFullLine(g, c, s, n, full);
    }
  }
}
