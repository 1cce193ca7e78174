/** DelvUI/Interface/UnitframeOnlyHudWindow.cs: the window that draws only the
    base unit frames and the primary-resource bar. */
module UnitFrameOnlyHud {
  import opened Hud

  const JobId: nat := 23

  /** The sizes and offsets this window declares with `new`; none of the
      inherited draw routines reads them. */
  const BarHeight: int := 20
  const SmallBarHeight: int := 10
  const BarWidth: int := 250
  const ShadowXOffset: int := 127
  const ShadowYOffset: int := 440

  /** The inherited routines keep the base offsets: the resource bar is
      254 x 13 at (CenterX - 127, CenterY + 460 - 27), not at the 440 line
      or with the 250-wide bar the window declares; the unit frames stay
      on the 460 line. */
  lemma ShadowedOffsetsUnused(c: Vec2, config: Config)
    ensures ResourceBarOrigin(c) == Vec2(c.x - 127.0, c.y + 433.0)
    ensures ResourceBarOrigin(c).y != c.y + ShadowYOffset as real - 27.0
    ensures ResourceBarSize == Vec2(254.0, 13.0) && ResourceBarSize.x != BarWidth as real
    ensures HealthBarOrigin(c, config).y == TargetBarOrigin(c).y == c.y + 460.0
    ensures TargetBarOrigin(c).x != c.x + ShadowXOffset as real
  {
  }
}
