/** The per-frame decisions of DelvUI/Interface/HudWindow.cs as functions of a
    frame snapshot: the visibility gate, the plate-colour classification, the
    bar geometry, and the draw commands each bar emits. The imperative draw
    methods that append these commands live in module HudWindows. */
module Hud {
  import opened Wrappers
  import opened Extensions

  newtype byte = x: int | 0 <= x < 256

  // ---------------------------------------------------------------------------
  // Draw commands
  // ---------------------------------------------------------------------------

  datatype Vec2 = Vec2(x: real, y: real)

  /** A packed 32-bit colour as the draw list takes it (0xAABBGGRR). */
  type Color = uint32

  /** A floating-point colour (Vector4) for text. */
  datatype Rgba = Rgba(r: real, g: real, b: real, a: real)

  const White := Rgba(1.0, 1.0, 1.0, 1.0)
  const Black := Rgba(0.0, 0.0, 0.0, 1.0)
  const BorderColor: Color := 0xFF000000

  /** A float the bar code computes: finite (rounding not modelled), or the
      NaN / infinity that a division by a zero maximum yields. */
  datatype Num = Finite(v: real) | NonFinite

  /** The text of a label: a string, or the percentage `(int)(scale * 100)`
      right-aligned to three characters. */
  datatype Label = Str(s: string) | Percent(scale: Num)

  /** One call on the draw list. A rectangle is given by its top-left corner
      and its size; a gradient by its width and height, with the left colour
      on the left corners and the right colour on the right ones. */
  datatype DrawCmd =
    | RectFilled(min: Vec2, size: Vec2, color: Color)
    | RectGradient(min: Vec2, width: Num, height: real, left: Color, right: Color)
    | RectOutline(min: Vec2, size: Vec2, color: Color)
    | Text(pos: Vec2, ink: Rgba, text: Label)

  /** The commands a draw routine emitted, and the job id whose entry in the
      job colour table was missing if the routine threw on it (the C#
      KeyNotFoundException, which ends the frame). */
  datatype Emitted = Emitted(cmds: seq<DrawCmd>, fault: Option<nat>)

  const Nothing := Emitted([], None)

  /** Run `a` and then, unless it threw, `b`. */
  function Then(a: Emitted, b: Emitted): Emitted
  {
    if a.fault.Some? then a else Emitted(a.cmds + b.cmds, b.fault)
  }

  // ---------------------------------------------------------------------------
  // Actors, configuration and the frame snapshot
  // ---------------------------------------------------------------------------

  datatype ObjectKind = Player | BattleNpc | OtherKind

  /** The BattleNpcSubKind value named Enemy. */
  const EnemySubKind: int := 5

  /** What IsHostileMemory reads of a battle NPC: its sub-kind and the two
      bytes at offsets 0x1980 and 0x193C of the game object. */
  datatype NpcMemory = NpcMemory(subKind: int, byte1980: byte, byte193C: byte)

  datatype Character = Character(
    name: string,
    kind: ObjectKind,
    currentHp: uint32,
    maxHp: uint32,
    currentMp: uint32,
    maxMp: uint32,
    inCombat: bool,
    classJob: nat,
    memory: NpcMemory,
    targetObject: Option<GameObject>)

  /** A game object is a Character or some other object. */
  datatype GameObject =
    | CharacterObject(character: Character)
    | OtherObject(objectName: string, otherTarget: Option<GameObject>)

  function Name(o: GameObject): string
  {
    match o
    case CharacterObject(c) => c.name
    case OtherObject(n, _) => n
  }

  function TargetOf(o: GameObject): Option<GameObject>
  {
    match o
    case CharacterObject(c) => c.targetObject
    case OtherObject(_, t) => t
  }

  /** The background and gradient entries of a colour dictionary. */
  datatype ColorSet = ColorSet(background: Color, gradientLeft: Color, gradientRight: Color)

  /** The "friendly", "hostile" and "neutral" entries of the NPC colour map. */
  datatype NpcColors = NpcColors(friendly: ColorSet, hostile: ColorSet, neutral: ColorSet)

  datatype BarDims = BarDims(width: int, height: int)

  datatype Config = Config(
    hideHud: bool,
    healthBar: BarDims,
    targetBar: BarDims,
    totBar: BarDims,
    focusBar: BarDims,
    jobColors: map<nat, ColorSet>,
    npcColors: NpcColors)

  /** Everything a frame reads from the game and from ImGui. `measure` is
      ImGui.CalcTextSize's width; the three booleans are what ImGui.Begin and
      the two ImGui.BeginChild calls return. */
  datatype Frame = Frame(
    viewport: Vec2,
    localPlayer: Option<Character>,
    target: Option<GameObject>,
    softTarget: Option<GameObject>,
    focusTarget: Option<GameObject>,
    parameterWidget: Option<bool>,
    fadeMiddle: Option<bool>,
    windowOpen: bool,
    healthChildOpen: bool,
    totChildOpen: bool,
    gnbAmmo: byte,
    measure: Label -> real)

  // ---------------------------------------------------------------------------
  // Visibility gate
  // ---------------------------------------------------------------------------

  /** The HUD is suppressed when the user hid it, or when, without the
      force-visible flag, a local player exists and the game's parameter
      widget is shown with no fade event in progress. */
  predicate HudSuppressed(hideHud: bool, isVisible: bool, playerPresent: bool,
                          parameterWidget: Option<bool>, fadeMiddle: Option<bool>)
  {
    hideHud || (!isVisible && playerPresent && parameterWidget == Some(true) && fadeMiddle == Some(false))
  }

  /** HudWindow.ShouldBeVisible. A widget is None when its addon lookup
      returned null, and otherwise holds its IsVisible flag. */
  function ShouldBeVisible(hideHud: bool, isVisible: bool, playerPresent: bool,
                           parameterWidget: Option<bool>, fadeMiddle: Option<bool>): (r: bool)
    ensures hideHud ==> !r
    ensures !hideHud && isVisible ==> r
    ensures r <==> !HudSuppressed(hideHud, isVisible, playerPresent, parameterWidget, fadeMiddle)
  {
    if hideHud then false
    else if isVisible then true
    else
      || !playerPresent
      || parameterWidget.None?
      || fadeMiddle.None?
      || !parameterWidget.value
      || fadeMiddle.value
  }

  // ---------------------------------------------------------------------------
  // Plate colours
  // ---------------------------------------------------------------------------

  /** HudWindow.IsHostileMemory over the bytes it reads. */
  predicate IsHostileMemory(m: NpcMemory)
  {
    (m.subKind == EnemySubKind || m.subKind == 1) && m.byte1980 != 0 && m.byte193C != 1
  }

  /** Any one of the three conditions failing makes the NPC not hostile. */
  lemma HostileMemoryConditions(m: NpcMemory)
    ensures m.subKind != EnemySubKind && m.subKind != 1 ==> !IsHostileMemory(m)
    ensures m.byte1980 == 0 ==> !IsHostileMemory(m)
    ensures m.byte193C == 1 ==> !IsHostileMemory(m)
    ensures IsHostileMemory(NpcMemory(EnemySubKind, 1, 0)) && IsHostileMemory(NpcMemory(1, 255, 2))
  {
  }

  /** Which colour entry a character's plate uses. */
  datatype Plate = JobPlate(job: nat) | HostilePlate | FriendlyPlate | NeutralPlate

  /** The classification DetermineTargetPlateColors makes. */
  function PlateOf(c: Character): (p: Plate)
    ensures p.JobPlate? <==> c.kind == Player
    ensures p.JobPlate? ==> p.job == c.classJob
    ensures p == HostilePlate <==> c.kind == BattleNpc && c.inCombat
    ensures p == FriendlyPlate <==> c.kind == BattleNpc && !c.inCombat && !IsHostileMemory(c.memory)
    ensures p == NeutralPlate <==>
      c.kind == OtherKind || (c.kind == BattleNpc && !c.inCombat && IsHostileMemory(c.memory))
  {
    match c.kind
    case Player => JobPlate(c.classJob)
    case BattleNpc =>
      if c.inCombat then HostilePlate
      else if !IsHostileMemory(c.memory) then FriendlyPlate
      else NeutralPlate
    case OtherKind => NeutralPlate
  }

  /** JobColorMap[job], or None where the dictionary would throw. */
  function JobColors(config: Config, job: nat): Option<ColorSet>
  {
    if job in config.jobColors then Some(config.jobColors[job]) else None
  }

  /** HudWindow.DetermineTargetPlateColors: None exactly when a player's job
      has no entry in the job colour table. */
  function DetermineTargetPlateColors(config: Config, c: Character): (r: Option<ColorSet>)
    ensures r.None? <==> c.kind == Player && c.classJob !in config.jobColors
    ensures r.Some? ==>
      || (c.kind == Player && r.value == config.jobColors[c.classJob])
      || r.value in {config.npcColors.hostile, config.npcColors.friendly, config.npcColors.neutral}
  {
    match PlateOf(c)
    case JobPlate(job) => JobColors(config, job)
    case HostilePlate => Some(config.npcColors.hostile)
    case FriendlyPlate => Some(config.npcColors.friendly)
    case NeutralPlate => Some(config.npcColors.neutral)
  }

  /** The colours each kind of character gets, case by case. */
  lemma PlateColorCases(config: Config, c: Character)
    ensures c.kind == Player ==>
      DetermineTargetPlateColors(config, c) == JobColors(config, c.classJob)
    ensures c.kind == BattleNpc && c.inCombat ==>
      DetermineTargetPlateColors(config, c) == Some(config.npcColors.hostile)
    ensures c.kind == BattleNpc && !c.inCombat && !IsHostileMemory(c.memory) ==>
      DetermineTargetPlateColors(config, c) == Some(config.npcColors.friendly)
    ensures c.kind == BattleNpc && !c.inCombat && IsHostileMemory(c.memory) ==>
      DetermineTargetPlateColors(config, c) == Some(config.npcColors.neutral)
    ensures c.kind == OtherKind ==>
      DetermineTargetPlateColors(config, c) == Some(config.npcColors.neutral)
  {
  }

  // ---------------------------------------------------------------------------
  // Geometry
  // ---------------------------------------------------------------------------

  const XOffset: int := 160
  const YOffset: int := 460

  function Center(viewport: Vec2): Vec2
  {
    Vec2(viewport.x / 2.0, viewport.y / 2.0)
  }

  function Size(d: BarDims): Vec2
  {
    Vec2(d.width as real, d.height as real)
  }

  function HealthBarOrigin(c: Vec2, config: Config): Vec2
  {
    Vec2(c.x - config.healthBar.width as real - XOffset as real, c.y + YOffset as real)
  }

  function ResourceBarOrigin(c: Vec2): Vec2
  {
    Vec2(c.x - 127.0, c.y + YOffset as real - 27.0)
  }

  const ResourceBarSize := Vec2(254.0, 13.0)

  function TargetBarOrigin(c: Vec2): Vec2
  {
    Vec2(c.x + XOffset as real, c.y + YOffset as real)
  }

  function TargetOfTargetBarOrigin(c: Vec2, config: Config): Vec2
  {
    Vec2(c.x + XOffset as real + config.targetBar.width as real + 2.0, c.y + YOffset as real)
  }

  function FocusBarOrigin(c: Vec2, config: Config): Vec2
  {
    Vec2(c.x - XOffset as real - config.healthBar.width as real - config.focusBar.width as real - 2.0,
         c.y + YOffset as real)
  }

  /** The unit frames sit on one line 460 px below the centre: the health bar
      ends and the target bar starts 160 px either side of the centre, the
      target-of-target bar starts 2 px right of the target bar and the focus
      bar ends 2 px left of the health bar. */
  lemma BarLayout(c: Vec2, config: Config)
    ensures HealthBarOrigin(c, config).x + config.healthBar.width as real == c.x - 160.0
    ensures TargetBarOrigin(c).x == c.x + 160.0
    ensures TargetOfTargetBarOrigin(c, config).x ==
      TargetBarOrigin(c).x + config.targetBar.width as real + 2.0
    ensures FocusBarOrigin(c, config).x + config.focusBar.width as real ==
      HealthBarOrigin(c, config).x - 2.0
    ensures HealthBarOrigin(c, config).y == TargetBarOrigin(c).y == c.y + 460.0
    ensures TargetOfTargetBarOrigin(c, config).y == FocusBarOrigin(c, config).y == c.y + 460.0
  {
  }

  // ---------------------------------------------------------------------------
  // Fill ratios and labels
  // ---------------------------------------------------------------------------

  /** `(float) cur / max`, with no guard against a zero maximum. */
  function Ratio(cur: uint32, max: uint32): Num
  {
    if max == 0 then NonFinite else Finite(cur as real / max as real)
  }

  /** `max > 0 ? (float) cur / max : 0`, the target bar's guarded scale. */
  function GuardedRatio(cur: uint32, max: uint32): (r: Num)
    ensures r.Finite? && 0.0 <= r.v
    ensures max == 0 ==> r == Finite(0.0)
    ensures 0 < max && cur <= max ==> r.v <= 1.0
    ensures 0 < max ==> r == Ratio(cur, max)
  {
    if max > 0 then Finite(cur as real / max as real) else Finite(0.0)
  }

  /** `width * scale`. */
  function Scaled(width: real, s: Num): Num
  {
    match s
    case Finite(v) => Finite(width * v)
    case NonFinite => NonFinite
  }

  /** For a scale in [0, 1] the fill spans between nothing and the whole bar:
      0 draws no fill and 1 fills the bar. */
  lemma ScaledWithinBar(width: real, s: real)
    requires 0.0 <= width && 0.0 <= s <= 1.0
    ensures Scaled(width, Finite(s)).Finite?
    ensures 0.0 <= Scaled(width, Finite(s)).v <= width
    ensures s == 0.0 ==> Scaled(width, Finite(s)).v == 0.0
    ensures s == 1.0 ==> Scaled(width, Finite(s)).v == width
  {
    MulNonNegative(width, s);
    MulNonNegative(width, 1.0 - s);
    assert width * (1.0 - s) == width - width * s;
  }

  lemma MulNonNegative(a: real, b: real)
    requires 0.0 <= a && 0.0 <= b
    ensures 0.0 <= a * b
  {
  }

  /** The C# (int) cast, which truncates toward zero. */
  function TruncateReal(x: real): int
  {
    if x >= 0.0 then x.Floor else -((-x).Floor)
  }

  function IntString(i: int): string
  {
    if i < 0 then "-" + Digits(-i) else Digits(i)
  }

  /** $"{s,n}": right-aligned in n characters. */
  function PadLeft(s: string, n: nat): (r: string)
    ensures |r| == if |s| < n then n else |s|
  {
    if |s| < n then seq(n - |s|, _ => ' ') + s else s
  }

  /** Right alignment keeps the text whole at the end, with spaces before it. */
  lemma PadLeftAligns(s: string, n: nat)
    ensures var r := PadLeft(s, n);
      r[|r| - |s|..] == s && forall i :: 0 <= i < |r| - |s| ==> r[i] == ' '
  {
  }

  /** $"{s,-n}": left-aligned in n characters. */
  function PadRight(s: string, n: nat): (r: string)
    ensures |r| == if |s| < n then n else |s|
  {
    if |s| < n then s + seq(n - |s|, _ => ' ') else s
  }

  /** Left alignment keeps the text whole at the start, with spaces after it. */
  lemma PadRightAligns(s: string, n: nat)
    ensures var r := PadRight(s, n);
      r[..|s|] == s && forall i :: |s| <= i < |r| ==> r[i] == ' '
  {
  }

  /** The string a label shows; a percentage of a non-finite scale depends
      on how the runtime casts NaN or infinity, which is not modelled. */
  function Render(l: Label): Option<string>
  {
    match l
    case Str(s) => Some(s)
    case Percent(Finite(v)) => Some(PadLeft(IntString(TruncateReal(v * 100.0)), 3))
    case Percent(NonFinite) => None
  }

  /** `name.Abbreviate().Truncate(n)`. */
  function NameLabel(name: string, n: nat): Label
  {
    Str(TruncateName(Abbreviation(name), n))
  }

  /** $"{maxHp.KiloFormat(),6} | " (health bar). */
  function HealthHpLabel(maxHp: uint32): Label
  {
    Str(PadLeft(KiloFormat(maxHp), 6) + " | ")
  }

  /** $" | {maxHp.KiloFormat(),-6}" (target bar). */
  function TargetHpLabel(maxHp: uint32): Label
  {
    Str(" | " + PadRight(KiloFormat(maxHp), 6))
  }

  const Hundred := Str("100")

  // ---------------------------------------------------------------------------
  // Outlined text
  // ---------------------------------------------------------------------------

  /** The eight offsets, in drawing order, at which the outline is drawn. */
  const OutlineOffsets: seq<(int, int)> :=
    [(-1, 1), (0, 1), (1, 1), (-1, 0), (1, 0), (-1, -1), (0, -1), (1, -1)]

  function Shift(p: Vec2, d: (int, int)): Vec2
  {
    Vec2(p.x + d.0 as real, p.y + d.1 as real)
  }

  /** HudWindow.DrawOutlinedText: the text in the outline colour at each
      outline offset, then once in the text colour at `pos`. */
  function OutlinedText(text: Label, pos: Vec2, color: Rgba, outline: Rgba): seq<DrawCmd>
  {
    [ Text(Vec2(pos.x - 1.0, pos.y + 1.0), outline, text),
      Text(Vec2(pos.x, pos.y + 1.0), outline, text),
      Text(Vec2(pos.x + 1.0, pos.y + 1.0), outline, text),
      Text(Vec2(pos.x - 1.0, pos.y), outline, text),
      Text(Vec2(pos.x + 1.0, pos.y), outline, text),
      Text(Vec2(pos.x - 1.0, pos.y - 1.0), outline, text),
      Text(Vec2(pos.x, pos.y - 1.0), outline, text),
      Text(Vec2(pos.x + 1.0, pos.y - 1.0), outline, text),
      Text(pos, color, text) ]
  }

  /** A label in white with a black outline, the two-argument overload. */
  function Outlined(text: Label, pos: Vec2): seq<DrawCmd>
  {
    OutlinedText(text, pos, White, Black)
  }

  predicate IsUnitStep(dx: int, dy: int)
  {
    -1 <= dx <= 1 && -1 <= dy <= 1 && (dx != 0 || dy != 0)
  }

  /** The eight outline offsets are distinct unit steps, and every unit step
      is one of them. */
  lemma OutlineOffsetsAreUnitSteps()
    ensures |OutlineOffsets| == 8
    ensures forall i :: 0 <= i < 8 ==> IsUnitStep(OutlineOffsets[i].0, OutlineOffsets[i].1)
    ensures forall i, j :: 0 <= i < j < 8 ==> OutlineOffsets[i] != OutlineOffsets[j]
    ensures forall dx, dy :: IsUnitStep(dx, dy) ==>
      exists i :: 0 <= i < 8 && OutlineOffsets[i] == (dx, dy)
  {
    forall dx, dy | IsUnitStep(dx, dy) ensures exists i :: 0 <= i < 8 && OutlineOffsets[i] == (dx, dy) {
      var i := if dy == 1 then dx + 1 else if dy == 0 then (if dx == -1 then 3 else 4) else dx + 6;
      assert OutlineOffsets[i] == (dx, dy);
    }
  }

  /** Outlined text is nine draws of the label: eight in the outline colour,
      one at each of the eight unit neighbours of `pos` (each exactly once),
      and last one in the text colour at `pos`. */
  lemma OutlinedTextSurrounds(text: Label, pos: Vec2, color: Rgba, outline: Rgba)
    ensures var cmds := OutlinedText(text, pos, color, outline);
      && |cmds| == 9
      && cmds[8] == Text(pos, color, text)
      && (forall i :: 0 <= i < 8 ==>
            cmds[i].Text? && cmds[i].ink == outline && cmds[i].text == text
            && IsUnitStep(OutlineOffsets[i].0, OutlineOffsets[i].1)
            && cmds[i].pos == Shift(pos, OutlineOffsets[i]))
      && (forall i, j :: 0 <= i < j < 8 ==> cmds[i].pos != cmds[j].pos)
      && (forall dx, dy :: IsUnitStep(dx, dy) ==>
            exists i :: 0 <= i < 8 && OutlineOffsets[i] == (dx, dy))
  {
    OutlineOffsetsAreUnitSteps();
    var cmds := OutlinedText(text, pos, color, outline);
    forall i | 0 <= i < 8 ensures cmds[i] == Text(Shift(pos, OutlineOffsets[i]), outline, text) {
      OutlineAt(text, pos, color, outline, i);
    }
    forall i, j | 0 <= i < j < 8 ensures cmds[i].pos != cmds[j].pos {
      ShiftInjective(pos, OutlineOffsets[i], OutlineOffsets[j]);
    }
  }

  lemma OutlineAt(text: Label, pos: Vec2, color: Rgba, outline: Rgba, i: nat)
    requires i < 8
    ensures OutlinedText(text, pos, color, outline)[i] == Text(Shift(pos, OutlineOffsets[i]), outline, text)
  {
    var d := OutlineOffsets[i];
    assert d.0 as real == if i in {0, 3, 5} then -1.0 else if i in {1, 6} then 0.0 else 1.0;
    assert d.1 as real == if i < 3 then 1.0 else if i < 5 then 0.0 else -1.0;
  }

  lemma ShiftInjective(p: Vec2, d: (int, int), e: (int, int))
    ensures Shift(p, d) == Shift(p, e) ==> d == e
  {
  }

  // ---------------------------------------------------------------------------
  // The bars
  // ---------------------------------------------------------------------------

  /** How many of `cmds` satisfy `p`. */
  function CountWhere(cmds: seq<DrawCmd>, p: DrawCmd -> bool): nat
  {
    if cmds == [] then 0 else (if p(cmds[0]) then 1 else 0) + CountWhere(cmds[1..], p)
  }

  lemma {:induction false} CountWhereAppend(a: seq<DrawCmd>, b: seq<DrawCmd>, p: DrawCmd -> bool)
    ensures CountWhere(a + b, p) == CountWhere(a, p) + CountWhere(b, p)
    decreases |a|
  {
    if a != [] {
      assert (a + b)[1..] == a[1..] + b;
      CountWhereAppend(a[1..], b, p);
    } else {
      assert a + b == b;
    }
  }

  /** Background over the whole bar, the gradient fill, and the black border. */
  function Bar(origin: Vec2, size: Vec2, fill: Num, colors: ColorSet): seq<DrawCmd>
  {
    [ RectFilled(origin, size, colors.background),
      RectGradient(origin, fill, size.y, colors.gradientLeft, colors.gradientRight),
      RectOutline(origin, size, BorderColor) ]
  }

  /** The primary-resource bar's fixed colours. */
  const ResourceColors := ColorSet(0x88000000, 0xFFE6CD00, 0xFFD8DF3C)

  function HealthBarSize(config: Config): Vec2 { Size(config.healthBar) }

  function TargetBarSize(config: Config): Vec2 { Size(config.targetBar) }

  /** Where the health bar's labels go: the name left-aligned, the max HP and
      the percentage right-aligned, 22 px above the bar. */
  function HealthNamePos(o: Vec2): Vec2
  {
    Vec2(o.x + 5.0, o.y - 22.0)
  }

  function HealthHpPos(o: Vec2, width: real, hpSize: real, percentageSize: real): Vec2
  {
    Vec2(o.x + width - hpSize - percentageSize - 5.0, o.y - 22.0)
  }

  function HealthPercentPos(o: Vec2, width: real, percentageSize: real): Vec2
  {
    Vec2(o.x + width - percentageSize - 5.0, o.y - 22.0)
  }

  /** The health bar's name, max-HP and percentage labels. */
  function HealthLabels(config: Config, f: Frame): seq<DrawCmd>
    requires f.localPlayer.Some?
  {
    var p := f.localPlayer.value;
    var o := HealthBarOrigin(Center(f.viewport), config);
    var w := config.healthBar.width as real;
    var hp := HealthHpLabel(p.maxHp);
    var hundred := f.measure(Hundred);
    Outlined(NameLabel(p.name, 16), HealthNamePos(o))
    + Outlined(hp, HealthHpPos(o, w, f.measure(hp), hundred))
    + Outlined(Percent(Ratio(p.currentHp, p.maxHp)), HealthPercentPos(o, w, hundred))
  }

  /** DrawHealthBar: name, max-HP and percentage labels, then, if its child
      window opens, the bar in the player's job colours. */
  function HealthBar(config: Config, f: Frame): Emitted
    requires f.localPlayer.Some?
  {
    var p := f.localPlayer.value;
    var o := HealthBarOrigin(Center(f.viewport), config);
    var w := config.healthBar.width as real;
    var scale := Ratio(p.currentHp, p.maxHp);
    var labels := HealthLabels(config, f);
    if !f.healthChildOpen then Emitted(labels, None)
    else match JobColors(config, p.classJob)
      case None => Emitted(labels, Some(p.classJob))
      case Some(colors) => Emitted(labels + Bar(o, HealthBarSize(config), Scaled(w, scale), colors), None)
  }

  /** DrawPrimaryResourceBar: the MP bar centred above the unit frames. */
  function PrimaryResourceBar(f: Frame): seq<DrawCmd>
  {
    match f.localPlayer
    case None => []
    case Some(p) =>
      Bar(ResourceBarOrigin(Center(f.viewport)), ResourceBarSize,
          Scaled(ResourceBarSize.x, Ratio(p.currentMp, p.maxMp)), ResourceColors)
  }

  /** `SoftTarget ?? Target`. */
  function SelectTarget(f: Frame): Option<GameObject>
  {
    if f.softTarget.Some? then f.softTarget else f.target
  }

  /** A name centred over a bar of width `width`, 22 px above it
      (target-of-target and focus bars). */
  function CentredNamePos(o: Vec2, width: real, textSize: real): Vec2
  {
    Vec2(o.x + width / 2.0 - textSize / 2.0, o.y - 22.0)
  }

  /** The target bar's percentage, right-aligned in the width of "100". */
  function TargetPercentPos(o: Vec2, hundred: real, percentageSize: real): Vec2
  {
    Vec2(o.x + 5.0 + hundred - percentageSize, o.y - 22.0)
  }

  /** The target bar's max HP, just after the percentage field. */
  function TargetHpPos(o: Vec2, hundred: real): Vec2
  {
    Vec2(o.x + 5.0 + hundred, o.y - 22.0)
  }

  /** The target bar's name, right-aligned to the bar. */
  function TargetNamePos(o: Vec2, width: real, nameSize: real): Vec2
  {
    Vec2(o.x + width - nameSize - 5.0, o.y - 22.0)
  }

  /** DrawTargetOfTargetBar: nothing unless the object is a Character. */
  function TargetOfTargetBar(config: Config, f: Frame, targetObject: Option<GameObject>): Emitted
  {
    match targetObject
    case Some(CharacterObject(c)) =>
      var o := TargetOfTargetBarOrigin(Center(f.viewport), config);
      var w := config.totBar.width as real;
      var name := NameLabel(c.name, 12);
      var caption := Outlined(name, CentredNamePos(o, w, f.measure(name)));
      (match DetermineTargetPlateColors(config, c)
       case None => Emitted(caption, Some(c.classJob))
       case Some(colors) =>
         var bar := if f.totChildOpen then Bar(o, Size(config.totBar), Scaled(w, Ratio(c.currentHp, c.maxHp)), colors) else [];
         Emitted(caption + bar, None))
    case _ => Nothing
  }

  /** The target bar's own rectangles and, for a Character, its percentage
      and max-HP labels. */
  function TargetPlate(config: Config, f: Frame, t: GameObject): Emitted
  {
    var o := TargetBarOrigin(Center(f.viewport));
    var w := config.targetBar.width as real;
    match t
    case OtherObject(_, _) =>
      Emitted(Bar(o, TargetBarSize(config), Finite(w), config.npcColors.friendly), None)
    case CharacterObject(c) =>
      var scale := GuardedRatio(c.currentHp, c.maxHp);
      match DetermineTargetPlateColors(config, c)
      case None => Emitted([], Some(c.classJob))
      case Some(colors) =>
        var pct := Percent(scale);
        var hundred := f.measure(Hundred);
        Emitted(
          Bar(o, TargetBarSize(config), Scaled(w, scale), colors)
          + Outlined(pct, TargetPercentPos(o, hundred, f.measure(pct)))
          + Outlined(TargetHpLabel(c.maxHp), TargetHpPos(o, hundred)),
          None)
  }

  /** The target bar's name label, right-aligned to the bar. */
  function TargetName(config: Config, f: Frame, t: GameObject): seq<DrawCmd>
  {
    var o := TargetBarOrigin(Center(f.viewport));
    var name := NameLabel(Name(t), 16);
    Outlined(name, TargetNamePos(o, config.targetBar.width as real, f.measure(name)))
  }

  /** DrawTargetBar: nothing without a (soft) target; otherwise the plate,
      the name, and the target-of-target bar. */
  function TargetBar(config: Config, f: Frame): Emitted
  {
    match SelectTarget(f)
    case None => Nothing
    case Some(t) =>
      Then(TargetPlate(config, f, t),
        Then(Emitted(TargetName(config, f, t), None), TargetOfTargetBar(config, f, TargetOf(t))))
  }

  /** DrawFocusBar: nothing without a focus target. */
  function FocusBar(config: Config, f: Frame): Emitted
  {
    match f.focusTarget
    case None => Nothing
    case Some(t) =>
      var o := FocusBarOrigin(Center(f.viewport), config);
      var w := config.focusBar.width as real;
      var plate := match t
        case OtherObject(_, _) =>
          Emitted(Bar(o, Size(config.focusBar), Finite(w), config.npcColors.friendly), None)
        case CharacterObject(c) =>
          match DetermineTargetPlateColors(config, c)
          case None => Emitted([], Some(c.classJob))
          case Some(colors) =>
            Emitted(Bar(o, Size(config.focusBar), Scaled(w, Ratio(c.currentHp, c.maxHp)), colors), None);
      var name := NameLabel(Name(t), 12);
      Then(plate, Emitted(Outlined(name, CentredNamePos(o, w, f.measure(name))), None))
  }

  // ---------------------------------------------------------------------------
  // Properties of the bars
  // ---------------------------------------------------------------------------

  /** With neither a soft target nor a target, the target bar draws nothing,
      and so no target-of-target bar either. */
  lemma TargetBarAbsent(config: Config, f: Frame)
    requires f.softTarget.None? && f.target.None?
    ensures TargetBar(config, f) == Nothing
  {
  }

  /** A soft target takes precedence: the target bar does not depend on the
      hard target while a soft target exists. */
  lemma SoftTargetWins(config: Config, f: Frame, other: Option<GameObject>)
    requires f.softTarget.Some?
    ensures TargetBar(config, f) == TargetBar(config, f.(target := other))
  {
    var g := f.(target := other);
    var t := f.softTarget.value;
    assert SelectTarget(g) == SelectTarget(f) == Some(t);
    assert TargetPlate(config, g, t) == TargetPlate(config, f, t);
    assert TargetName(config, g, t) == TargetName(config, f, t);
    assert TargetOfTargetBar(config, g, TargetOf(t)) == TargetOfTargetBar(config, f, TargetOf(t));
  }

  /** With no throw, the target bar starts with the plate. */
  lemma TargetBarStartsWithPlate(config: Config, f: Frame, t: GameObject)
    requires SelectTarget(f) == Some(t) && TargetPlate(config, f, t).fault.None?
    ensures var plate := TargetPlate(config, f, t).cmds;
      |plate| <= |TargetBar(config, f).cmds| && TargetBar(config, f).cmds[..|plate|] == plate
  {
  }

  /** The plate of a Character target: the bar, then its percentage label. */
  lemma TargetPlateFill(config: Config, f: Frame, c: Character)
    requires DetermineTargetPlateColors(config, c).Some?
    ensures var plate := TargetPlate(config, f, CharacterObject(c));
      && plate.fault.None?
      && |plate.cmds| >= 4
      && plate.cmds[1] == RectGradient(TargetBarOrigin(Center(f.viewport)),
           Scaled(config.targetBar.width as real, GuardedRatio(c.currentHp, c.maxHp)), TargetBarSize(config).y,
           DetermineTargetPlateColors(config, c).value.gradientLeft, DetermineTargetPlateColors(config, c).value.gradientRight)
      && plate.cmds[3].Text? && plate.cmds[3].text == Percent(GuardedRatio(c.currentHp, c.maxHp))
  {
    var t := CharacterObject(c);
    var plate := TargetPlate(config, f, t);
    var scale := GuardedRatio(c.currentHp, c.maxHp);
    var o := TargetBarOrigin(Center(f.viewport));
    var pct := Percent(scale);
    var bar := Bar(o, TargetBarSize(config), Scaled(config.targetBar.width as real, scale), DetermineTargetPlateColors(config, c).value);
    var pctText := Outlined(pct, TargetPercentPos(o, f.measure(Hundred), f.measure(pct)));
    assert plate.cmds[..12] == bar + pctText;
    assert pctText[0].text == pct;
  }

  lemma ZeroPercent()
    ensures Render(Percent(Finite(0.0))) == Some("  0")
  {
    assert Digits(0) == "0";
    assert IntString(0) == "0";
    assert PadLeft("0", 3) == "  0";
  }

  /** The target bar's fill is never NaN: for a Character target it spans
      `width * current / max` of the bar, and nothing when max HP is 0, where
      the percentage label reads "  0". */
  lemma TargetBarFillGuarded(config: Config, f: Frame, c: Character)
    requires SelectTarget(f) == Some(CharacterObject(c))
    requires DetermineTargetPlateColors(config, c).Some?
    ensures var cmds := TargetBar(config, f).cmds;
      var w := config.targetBar.width as real;
      && |cmds| >= 4
      && cmds[1].RectGradient?
      && cmds[1].min == TargetBarOrigin(Center(f.viewport))
      && cmds[1].width.Finite?
      && (c.maxHp == 0 ==> cmds[1].width == Finite(0.0))
      && (c.maxHp > 0 ==> cmds[1].width == Scaled(w, Ratio(c.currentHp, c.maxHp)))
      && cmds[3].Text? && cmds[3].text == Percent(GuardedRatio(c.currentHp, c.maxHp))
      && (c.maxHp == 0 ==> Render(cmds[3].text) == Some("  0"))
  {
    TargetPlateFill(config, f, c);
    TargetBarStartsWithPlate(config, f, CharacterObject(c));
    var plate := TargetPlate(config, f, CharacterObject(c)).cmds;
    var cmds := TargetBar(config, f).cmds;
    assert cmds[1] == plate[1] && cmds[3] == plate[3];
    ZeroPercent();
  }

  /** A target that is not a Character gets a full-width plate in the
      friendly colours. */
  lemma TargetBarNonCharacter(config: Config, f: Frame, name: string, t: Option<GameObject>)
    requires SelectTarget(f) == Some(OtherObject(name, t))
    ensures TargetBar(config, f).cmds[..3] ==
      Bar(TargetBarOrigin(Center(f.viewport)), TargetBarSize(config),
          Finite(config.targetBar.width as real), config.npcColors.friendly)
  {
  }

  /** A missing or non-Character target-of-target draws nothing. */
  lemma TargetOfTargetAbsent(config: Config, f: Frame, o: Option<GameObject>)
    requires o.None? || o.value.OtherObject?
    ensures TargetOfTargetBar(config, f, o) == Nothing
  {
  }

  /** Without a focus target the focus bar draws nothing. */
  lemma FocusBarAbsent(config: Config, f: Frame)
    requires f.focusTarget.None?
    ensures FocusBar(config, f) == Nothing
  {
  }

  /** Unlike the target bar, the health bar has no zero-max-HP guard: its
      fill is non-finite when the player's max HP is 0. */
  lemma HealthBarUnguarded(config: Config, f: Frame)
    requires f.localPlayer.Some? && f.localPlayer.value.maxHp == 0
    requires f.healthChildOpen && f.localPlayer.value.classJob in config.jobColors
    ensures var cmds := HealthBar(config, f).cmds;
      |cmds| == 30 && cmds[28].RectGradient? && cmds[28].width == NonFinite
  {
  }
}
