/** DelvUI/Interface/GunbreakerHudWindow.cs: the Gunbreaker job's powder
    gauge, two segments filled by the cartridge count. */
module GunbreakerHud {
  import opened Extensions
  import opened Hud

  const JobId: nat := 37

  const BarHeight: int := 13
  const BarWidth: int := 254
  /** The offsets this window declares with `new`, shadowing the base 160/460;
      only the powder gauge uses them. */
  const GaugeXOffset: int := 127
  const GaugeYOffset: int := 466

  const PowderColor: Color := 0xFFFEAD43
  const GaugeBackground: Color := 0x88000000
  const XPadding: int := 2

  /** `(BarWidth - xPadding * 2) / 2`, an integer division. */
  const SegmentWidth: int := (BarWidth - XPadding * 2) / 2

  const SegmentSize := Vec2(SegmentWidth as real, BarHeight as real)

  function PowderOrigin(c: Vec2): Vec2
  {
    Vec2(c.x - GaugeXOffset as real, c.y + GaugeYOffset as real - 33.0)
  }

  /** The second segment starts one segment width and the padding further right. */
  function SecondSegmentOrigin(c: Vec2): Vec2
  {
    var first := PowderOrigin(c);
    Vec2(first.x + SegmentWidth as real + XPadding as real, first.y)
  }

  /** One segment: background and border always, the powder fill only when
      `filled`. */
  function PowderSegment(origin: Vec2, filled: bool): seq<DrawCmd>
  {
    [RectFilled(origin, SegmentSize, GaugeBackground)]
    + (if filled then [RectGradient(origin, Finite(SegmentSize.x), SegmentSize.y, PowderColor, PowderColor)] else [])
    + [RectOutline(origin, SegmentSize, BorderColor)]
  }

  /** DrawPowderGauge: the first segment is filled with at least one
      cartridge, the second with at least two. */
  function PowderGauge(f: Frame): seq<DrawCmd>
  {
    var c := Center(f.viewport);
    PowderSegment(PowderOrigin(c), f.gnbAmmo > 0) + PowderSegment(SecondSegmentOrigin(c), f.gnbAmmo > 1)
  }

  /** Each segment is 125 x 13; the first starts at (CenterX - 127,
      CenterY + 433), the second 127 px further right on the same line, and
      the two span 252 px of the 254 px bar width. */
  lemma PowderGaugeGeometry(c: Vec2)
    ensures SegmentWidth == 125 && SegmentSize == Vec2(125.0, 13.0)
    ensures PowderOrigin(c) == Vec2(c.x - 127.0, c.y + 433.0)
    ensures SecondSegmentOrigin(c) == Vec2(c.x - 127.0 + 127.0, c.y + 433.0)
    ensures SecondSegmentOrigin(c).x + SegmentSize.x - PowderOrigin(c).x == 252.0
    ensures 2 * SegmentWidth + XPadding <= BarWidth
  {
  }

  predicate IsFill(d: DrawCmd) { d.RectGradient? }
  predicate IsBackground(d: DrawCmd) { d.RectFilled? }
  predicate IsBorder(d: DrawCmd) { d.RectOutline? }

  lemma SegmentCounts(origin: Vec2, filled: bool)
    ensures CountWhere(PowderSegment(origin, filled), IsFill) == if filled then 1 else 0
    ensures CountWhere(PowderSegment(origin, filled), IsBackground) == 1
    ensures CountWhere(PowderSegment(origin, filled), IsBorder) == 1
  {
    var s := PowderSegment(origin, filled);
    var last := [RectOutline(origin, SegmentSize, BorderColor)];
    assert last[1..] == [];
    assert CountWhere(last, IsFill) == 0;
    assert CountWhere(last, IsBackground) == 0;
    assert CountWhere(last, IsBorder) == 1;
    var rest := s[1..];
    if filled {
      assert rest[1..] == last;
      assert CountWhere(rest, IsFill) == 1;
      assert CountWhere(rest, IsBackground) == 0;
      assert CountWhere(rest, IsBorder) == 1;
    } else {
      assert rest == last;
    }
  }

  /** The gauge draws min(Ammo, 2) fills, always two backgrounds and two
      borders, and the fill of segment k (k = 0, 1) exactly when Ammo > k. */
  lemma PowderGaugeFill(f: Frame)
    ensures var cmds := PowderGauge(f);
      && CountWhere(cmds, IsFill) == Min(f.gnbAmmo as int, 2)
      && CountWhere(cmds, IsBackground) == 2
      && CountWhere(cmds, IsBorder) == 2
      && ((exists i :: 0 <= i < |cmds| && cmds[i].RectGradient? && cmds[i].min == PowderOrigin(Center(f.viewport)))
          <==> f.gnbAmmo > 0)
      && ((exists i :: 0 <= i < |cmds| && cmds[i].RectGradient? && cmds[i].min == SecondSegmentOrigin(Center(f.viewport)))
          <==> f.gnbAmmo > 1)
  {
    var c := Center(f.viewport);
    var a, b := PowderSegment(PowderOrigin(c), f.gnbAmmo > 0), PowderSegment(SecondSegmentOrigin(c), f.gnbAmmo > 1);
    var cmds := a + b;
    SegmentCounts(PowderOrigin(c), f.gnbAmmo > 0);
    SegmentCounts(SecondSegmentOrigin(c), f.gnbAmmo > 1);
    CountWhereAppend(a, b, IsFill);
    CountWhereAppend(a, b, IsBackground);
    CountWhereAppend(a, b, IsBorder);
    assert PowderOrigin(c) != SecondSegmentOrigin(c);
    if f.gnbAmmo > 0 {
      assert cmds[1].RectGradient? && cmds[1].min == PowderOrigin(c);
    }
    if f.gnbAmmo > 1 {
      assert cmds[|a| + 1].RectGradient? && cmds[|a| + 1].min == SecondSegmentOrigin(c);
    }
  }

  /** The gauge takes the primary-resource bar's place: it starts where that
      bar starts and fits inside its 254 px width. */
  lemma PowderGaugeInResourceSlot(c: Vec2)
    ensures PowderOrigin(c) == ResourceBarOrigin(c)
    ensures SecondSegmentOrigin(c).x + SegmentSize.x <= ResourceBarOrigin(c).x + ResourceBarSize.x
    ensures SegmentSize.y == ResourceBarSize.y
  {
  }
}
