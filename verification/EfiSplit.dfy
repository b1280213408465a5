/** When two console writes do what one write of the joined text does. */
module EfiSplit {
  import opened EfiConsole
  import opened Words

  /** After `s` from column `x`, the last thing that happened is that a glyph filled the line. */
  predicate EndsFull(g: Geometry, x: nat, s: seq<Byte>)
    decreases |s|
  {
    if s == [] then false
    else if s[0] == NEWLINE then EndsFull(g, 0, s[1..])
    else if x + 2 * g.fw <= g.width then EndsFull(g, x + g.fw, s[1..])
    else |s| == 1 || EndsFull(g, 0, if s[1] == NEWLINE then s[2..] else s[1..])
  }

  /** The split parts a full line from the line feed that would have been swallowed with it. */
  predicate Parted(g: Geometry, x: nat, s: seq<Byte>, t: seq<Byte>) {
    EndsFull(g, x, s) && t != [] && t[0] == NEWLINE
  }

  /** Split anywhere but between a full line and its line feed, and nothing changes. */
  lemma {:induction false} SplitAgrees(g: Geometry, c: Con, s: seq<Byte>, t: seq<Byte>, full: bool)
    requires g.Fits() && Ready(g, c)
    ensures Ready(g, Put(g, c, s, full))
    ensures Put(g, c, s + t, full) == Put(g, Put(g, c, s, full), if Parted(g, c.x, s, t) then t[1..] else t, full)
    decreases |s|, 1
  {
    hide Feed;
    PutReady(g, c, s, full);
    var st := s + t;
    if s == [] {
      assert st == t;
    } else if s[0] == NEWLINE {
      FeedReady(g, c, full);
      assert st[1..] == s[1..] + t;
      SplitAgrees(g, Feed(g, c, full), s[1..], t, full);
    } else {
      DrawShaped(g, c, s[0]);
      var d := DrawGlyph(g, c, s[0]);
      if d.x + g.fw <= g.width {
        assert st[1..] == s[1..] + t;
        SplitAgrees(g, d, s[1..], t, full);
      } else {
        SplitAtFullLine(g, c, s, t, full);
      }
    }
  }

  lemma {:induction false} SplitAtFullLine(g: Geometry, c: Con, s: seq<Byte>, t: seq<Byte>, full: bool)
    requires g.Fits() && Ready(g, c) && s != [] && s[0] != NEWLINE && c.x + 2 * g.fw > g.width
    ensures Ready(g, Put(g, c, s, full))
    ensures Put(g, c, s + t, full) == Put(g, Put(g, c, s, full), if Parted(g, c.x, s, t) then t[1..] else t, full)
    decreases |s|, 0
  {
    hide Feed;
    PutReady(g, c, s, full);
    var st := s + t;
    DrawShaped(g, c, s[0]);
    var d := DrawGlyph(g, c, s[0]);
    FeedReady(g, d, full);
    if |s| > 1 {
      var u := if s[1] == NEWLINE then s[2..] else s[1..];
      assert st[2..] == s[2..] + t && st[1..] == s[1..] + t && st[1] == s[1];
      SplitAgrees(g, Feed(g, d, full), u, t, full);
    } else {
      assert st[1..] == t && (t != [] ==> st[2..] == t[1..] && st[1] == t[0]);
      assert s[1..] == [];
    }
  }

  /** Two consoles in the same column, one of them a line ahead, stay a line apart. */
  lemma {:induction false} LineAhead(g: Geometry, c: Con, d: Con, s: seq<Byte>, full: bool)
    requires g.Fits() && Ready(g, c) && Ready(g, d) && c.x == d.x && d.cur == Advance(g, c.cur)
    ensures Put(g, d, s, full).cur == Advance(g, Put(g, c, s, full).cur)
    decreases |s|
  {
    if s == [] {
    } else if s[0] == NEWLINE {
      FeedReady(g, c, full);
      FeedReady(g, d, full);
      LineAhead(g, Feed(g, c, full), Feed(g, d, full), s[1..], full);
    } else {
      DrawShaped(g, c, s[0]);
      DrawShaped(g, d, s[0]);
      var c', d' := DrawGlyph(g, c, s[0]), DrawGlyph(g, d, s[0]);
      if c'.x + g.fw <= g.width {
        LineAhead(g, c', d', s[1..], full);
      } else {
        FeedReady(g, c', full);
        FeedReady(g, d', full);
        LineAhead(g, Feed(g, c', full), Feed(g, d', full), if |s| > 1 && s[1] == NEWLINE then s[2..] else s[1..], full);
      }
    }
  }

  lemma {:induction false} EndsFullAtStart(g: Geometry, c: Con, s: seq<Byte>, full: bool)
    requires g.Fits() && Ready(g, c) && EndsFull(g, c.x, s)
    ensures Put(g, c, s, full).x == 0
    decreases |s|
  {
    if s[0] == NEWLINE {
      FeedReady(g, c, full);
      EndsFullAtStart(g, Feed(g, c, full), s[1..], full);
    } else {
      DrawShaped(g, c, s[0]);
      var d := DrawGlyph(g, c, s[0]);
      if d.x + g.fw <= g.width {
        EndsFullAtStart(g, d, s[1..], full);
      } else {
        FeedReady(g, d, full);
        if |s| > 1 {
          EndsFullAtStart(g, Feed(g, d, full), if s[1] == NEWLINE then s[2..] else s[1..], full);
        } else {
          assert s[1..] == [];
        }
      }
    }
  }

  /** Splitting a write is harmless exactly when it does not part a full line from its line feed. */
  lemma SplitHarmlessExactly(g: Geometry, c: Con, s: seq<Byte>, t: seq<Byte>, full: bool)
    requires g.Valid() && Ready(g, c)
    ensures Ready(g, Put(g, c, s, full))
    ensures Put(g, c, s + t, full) == Put(g, Put(g, c, s, full), t, full)
       <==> !Parted(g, c.x, s, t)
  {
    SplitAgrees(g, c, s, t, full);
    if Parted(g, c.x, s, t) {
      var d := Put(g, c, s, full);
      EndsFullAtStart(g, c, s, full);
      FeedReady(g, d, full);
      LineAhead(g, d, Feed(g, d, full), t[1..], full);
      TextFits(g);
      PutReady(g, d, t[1..], full);
    }
  }

  /** A split that does part them: on a screen of one 1x1 glyph, a glyph in one write and its line feed in the next. */
  lemma PartedSplitFeedsTwice(g: Geometry, firmware: seq<Row>)
    requires g == Geometry(1, 2, 1, 1, 1, seq(256, _ => 0), 3) && firmware == [[BLACK], [BLACK]]
    ensures g.Valid()
    ensures var c := Boot(g, firmware); var d := Put(g, c, [65], false);
      Parted(g, c.x, [65], [NEWLINE]) && Ready(g, d) &&
        Put(g, c, [65] + [NEWLINE], false) != Put(g, d, [NEWLINE], false)
  {
    var c := Boot(g, firmware);
    assert [65][1..] == [];
    SplitHarmlessExactly(g, c, [65], [NEWLINE], false);
  }
}
