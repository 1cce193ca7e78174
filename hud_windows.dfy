/** The HUD window: the closed set of job variants (GunbreakerHudWindow and
    UnitFrameOnlyHudWindow), the draw order of each, and the class whose draw
    methods append commands to the frame's draw trace as HudWindow.cs does. */
module HudWindows {
  import opened Wrappers
  import opened Extensions
  import opened Hud
  import GunbreakerHud
  import UnitFrameOnlyHud

  // ---------------------------------------------------------------------------
  // Job variants and their draw order
  // ---------------------------------------------------------------------------

  datatype JobVariant = Gunbreaker | UnitFrameOnly

  /** The JobId property each window overrides. */
  function JobId(v: JobVariant): nat
  {
    match v
    case Gunbreaker => GunbreakerHud.JobId
    case UnitFrameOnly => UnitFrameOnlyHud.JobId
  }

  /** The window whose JobId is `job`, if any. */
  function VariantFor(job: nat): (v: Option<JobVariant>)
    ensures v.Some? ==> JobId(v.value) == job
  {
    if job == GunbreakerHud.JobId then Some(Gunbreaker)
    else if job == UnitFrameOnlyHud.JobId then Some(UnitFrameOnly)
    else None
  }

  /** Dispatch by job id finds every variant: the ids (37 and 23) are distinct. */
  lemma VariantForJobId(v: JobVariant)
    ensures VariantFor(JobId(v)) == Some(v)
    ensures JobId(Gunbreaker) == 37 && JobId(UnitFrameOnly) == 23
  {
  }

  /** One call of a window's Draw(bool). */
  datatype Step = HealthStep | ResourceStep | PowderStep | TargetStep | FocusStep

  /** The calls each Draw(bool) override makes, in order. */
  function Steps(v: JobVariant): seq<Step>
  {
    match v
    case Gunbreaker => [HealthStep, PowderStep, TargetStep, FocusStep]
    case UnitFrameOnly => [HealthStep, ResourceStep, TargetStep, FocusStep]
  }

  /** What one draw call does: the commands it emits (and whether it threw),
      and the size it stores in `_barSize`, if it stores one. */
  datatype Part = Part(out: Emitted, storesBarSize: Option<Vec2>)

  /** The health bar stores its size; the target bar stores its size when
      there is a target; the other calls leave `_barSize` alone. */
  function StepPart(s: Step, config: Config, f: Frame): Part
    requires f.localPlayer.Some?
  {
    match s
    case HealthStep => Part(HealthBar(config, f), Some(HealthBarSize(config)))
    case ResourceStep => Part(Emitted(PrimaryResourceBar(f), None), None)
    case PowderStep => Part(Emitted(GunbreakerHud.PowderGauge(f), None), None)
    case TargetStep =>
      Part(TargetBar(config, f), if SelectTarget(f).Some? then Some(TargetBarSize(config)) else None)
    case FocusStep => Part(FocusBar(config, f), None)
  }

  function Parts(steps: seq<Step>, config: Config, f: Frame): seq<Part>
    requires f.localPlayer.Some?
  {
    seq(|steps|, i requires 0 <= i < |steps| => StepPart(steps[i], config, f))
  }

  /** The calls run in order until one throws. */
  function Run(parts: seq<Part>): Emitted
  {
    if parts == [] then Nothing else Then(parts[0].out, Run(parts[1..]))
  }

  function Stored(p: Part, prior: Vec2): Vec2
  {
    match p.storesBarSize
    case Some(size) => size
    case None => prior
  }

  /** `_barSize` after the calls, which stop at the first that throws. */
  function RunBarSize(parts: seq<Part>, prior: Vec2): Vec2
  {
    if parts == [] then prior
    else if parts[0].out.fault.Some? then Stored(parts[0], prior)
    else RunBarSize(parts[1..], Stored(parts[0], prior))
  }

  /** Draw() goes on to Draw(bool) only when the gate passes, a local player
      exists and ImGui.Begin opened the window. */
  predicate Drawing(config: Config, isVisible: bool, f: Frame)
  {
    && ShouldBeVisible(config.hideHud, isVisible, f.localPlayer.Some?, f.parameterWidget, f.fadeMiddle)
    && f.localPlayer.Some?
    && f.windowOpen
  }

  /** Everything one call of Draw() emits. */
  function FrameDraw(v: JobVariant, config: Config, isVisible: bool, f: Frame): Emitted
  {
    if Drawing(config, isVisible, f) then Run(Parts(Steps(v), config, f)) else Nothing
  }

  function FrameBarSize(v: JobVariant, config: Config, isVisible: bool, f: Frame, prior: Vec2): Vec2
  {
    if Drawing(config, isVisible, f) then RunBarSize(Parts(Steps(v), config, f), prior) else prior
  }

  // ---------------------------------------------------------------------------
  // Properties of a frame
  // ---------------------------------------------------------------------------

  /** A hidden HUD, a failing gate or a missing local player draws nothing. */
  lemma FrameGated(v: JobVariant, config: Config, isVisible: bool, f: Frame)
    requires !ShouldBeVisible(config.hideHud, isVisible, f.localPlayer.Some?, f.parameterWidget, f.fadeMiddle)
             || f.localPlayer.None?
    ensures FrameDraw(v, config, isVisible, f) == Nothing
  {
  }

  /** With HideHud set nothing is drawn and the stored bar size is kept,
      whatever else the frame holds. */
  lemma HiddenHudDrawsNothing(v: JobVariant, config: Config, isVisible: bool, f: Frame, prior: Vec2)
    requires config.hideHud
    ensures FrameDraw(v, config, isVisible, f) == Nothing
    ensures FrameBarSize(v, config, isVisible, f, prior) == prior
  {
  }

  lemma RunFour(a: Part, b: Part, c: Part, d: Part, prior: Vec2)
    ensures Run([a, b, c, d]) == Then(a.out, Then(b.out, Then(c.out, d.out)))
    ensures RunBarSize([a, b, c, d], prior) ==
      var s1 := Stored(a, prior);
      var s2 := Stored(b, s1);
      var s3 := Stored(c, s2);
      if a.out.fault.Some? then s1
      else if b.out.fault.Some? then s2
      else if c.out.fault.Some? then s3
      else Stored(d, s3)
  {
    var parts := [a, b, c, d];
    assert parts[1..] == [b, c, d] && parts[1..][1..] == [c, d] && parts[1..][1..][1..] == [d];
    assert [d][1..] == [];
    assert d.out.cmds + [] == d.out.cmds;
    assert Run([d]) == Then(d.out, Nothing) == d.out;
    assert Run([c, d]) == Then(c.out, Run([d]));
    assert Run([b, c, d]) == Then(b.out, Run([c, d]));
    assert Run(parts) == Then(a.out, Run([b, c, d]));
    var s1 := Stored(a, prior);
    var s2 := Stored(b, s1);
    var s3 := Stored(c, s2);
    assert RunBarSize([d], s3) == Stored(d, s3);
    assert RunBarSize([c, d], s2) == if c.out.fault.Some? then s3 else RunBarSize([d], s3);
    assert RunBarSize([b, c, d], s1) == if b.out.fault.Some? then s2 else RunBarSize([c, d], s2);
    assert RunBarSize(parts, prior) == if a.out.fault.Some? then s1 else RunBarSize([b, c, d], s1);
  }

  /** A trace extended by four calls none of the first three of which threw. */
  lemma ThenAll(t: seq<DrawCmd>, a: Emitted, b: Emitted, c: Emitted, d: Emitted)
    requires a.fault.None? && b.fault.None? && c.fault.None?
    ensures Then(a, Then(b, Then(c, d))).fault == d.fault
    ensures t + a.cmds + b.cmds + c.cmds + d.cmds == t + Then(a, Then(b, Then(c, d))).cmds
  {
    assert Then(a, Then(b, Then(c, d))).cmds == a.cmds + (b.cmds + (c.cmds + d.cmds));
  }

  lemma AppendThree(t: seq<DrawCmd>, a: seq<DrawCmd>, b: seq<DrawCmd>, c: seq<DrawCmd>)
    ensures t + a + b + c == t + (a + b + c)
  {
  }

  /** A trace extended by three calls none of the first two of which threw. */
  lemma ThenThree(t: seq<DrawCmd>, a: Emitted, b: Emitted, c: Emitted)
    requires a.fault.None? && b.fault.None?
    ensures Then(a, Then(b, c)).fault == c.fault
    ensures t + a.cmds + b.cmds + c.cmds == t + Then(a, Then(b, c)).cmds
  {
    assert Then(a, Then(b, c)).cmds == a.cmds + (b.cmds + c.cmds);
  }

  /** A trace extended by four calls the third of which threw. */
  lemma ThenThird(t: seq<DrawCmd>, a: Emitted, b: Emitted, c: Emitted, d: Emitted)
    requires a.fault.None? && b.fault.None? && c.fault.Some?
    ensures Then(a, Then(b, Then(c, d))).fault == c.fault
    ensures t + a.cmds + b.cmds + c.cmds == t + Then(a, Then(b, Then(c, d))).cmds
  {
    assert Then(a, Then(b, Then(c, d))).cmds == a.cmds + (b.cmds + c.cmds);
  }

  /** The second call of a variant's Draw(bool): the job gauge or the
      resource bar. */
  function SecondStep(v: JobVariant): Step
  {
    if v.Gunbreaker? then PowderStep else ResourceStep
  }

  lemma VariantParts(v: JobVariant, config: Config, f: Frame)
    requires f.localPlayer.Some?
    ensures Steps(v) == [HealthStep, SecondStep(v), TargetStep, FocusStep]
    ensures Parts(Steps(v), config, f) ==
      [StepPart(HealthStep, config, f), StepPart(SecondStep(v), config, f),
       StepPart(TargetStep, config, f), StepPart(FocusStep, config, f)]
  {
  }

  /** The Gunbreaker window draws the health bar, the powder gauge, the
      target bar and the focus bar, in that order, and no resource bar. */
  lemma GunbreakerDrawOrder(config: Config, isVisible: bool, f: Frame)
    requires Drawing(config, isVisible, f)
    ensures FrameDraw(Gunbreaker, config, isVisible, f) ==
      Then(HealthBar(config, f),
        Then(Emitted(GunbreakerHud.PowderGauge(f), None),
          Then(TargetBar(config, f), FocusBar(config, f))))
    ensures ResourceStep !in Steps(Gunbreaker)
  {
    VariantParts(Gunbreaker, config, f);
    RunFour(StepPart(HealthStep, config, f), StepPart(PowderStep, config, f),
            StepPart(TargetStep, config, f), StepPart(FocusStep, config, f), Vec2(0.0, 0.0));
  }

  /** The unit-frame-only window draws the health bar, the resource bar, the
      target bar and the focus bar, in that order, and no job gauge. */
  lemma UnitFrameOnlyDrawOrder(config: Config, isVisible: bool, f: Frame)
    requires Drawing(config, isVisible, f)
    ensures FrameDraw(UnitFrameOnly, config, isVisible, f) ==
      Then(HealthBar(config, f),
        Then(Emitted(PrimaryResourceBar(f), None),
          Then(TargetBar(config, f), FocusBar(config, f))))
    ensures PowderStep !in Steps(UnitFrameOnly)
  {
    VariantParts(UnitFrameOnly, config, f);
    RunFour(StepPart(HealthStep, config, f), StepPart(ResourceStep, config, f),
            StepPart(TargetStep, config, f), StepPart(FocusStep, config, f), Vec2(0.0, 0.0));
  }

  lemma TargetPlateIgnoresGauge(config: Config, f: Frame, t: GameObject, ammo: byte)
    ensures TargetPlate(config, f.(gnbAmmo := ammo), t) == TargetPlate(config, f, t)
  {
  }

  lemma TargetOfTargetIgnoresGauge(config: Config, f: Frame, t: Option<GameObject>, ammo: byte)
    ensures TargetOfTargetBar(config, f.(gnbAmmo := ammo), t) == TargetOfTargetBar(config, f, t)
  {
  }

  lemma TargetBarIgnoresGauge(config: Config, f: Frame, ammo: byte)
    ensures TargetBar(config, f.(gnbAmmo := ammo)) == TargetBar(config, f)
  {
    var g := f.(gnbAmmo := ammo);
    match SelectTarget(f)
    case None =>
    case Some(t) =>
      assert SelectTarget(g) == Some(t);
      TargetPlateIgnoresGauge(config, f, t, ammo);
      assert TargetName(config, g, t) == TargetName(config, f, t);
      TargetOfTargetIgnoresGauge(config, f, TargetOf(t), ammo);
  }

  lemma HealthBarIgnoresGauge(config: Config, f: Frame, ammo: byte)
    requires f.localPlayer.Some?
    ensures HealthBar(config, f.(gnbAmmo := ammo)) == HealthBar(config, f)
  {
    var g := f.(gnbAmmo := ammo);
    assert g.localPlayer == f.localPlayer && g.viewport == f.viewport && g.measure == f.measure;
    assert HealthLabels(config, g) == HealthLabels(config, f);
    assert g.healthChildOpen == f.healthChildOpen;
  }

  lemma FocusBarIgnoresGauge(config: Config, f: Frame, ammo: byte)
    ensures FocusBar(config, f.(gnbAmmo := ammo)) == FocusBar(config, f)
  {
  }

  /** Every call but the powder gauge draws the same whatever the gauge holds. */
  lemma StepIgnoresGauge(s: Step, config: Config, f: Frame, ammo: byte)
    requires f.localPlayer.Some? && s != PowderStep
    ensures StepPart(s, config, f.(gnbAmmo := ammo)) == StepPart(s, config, f)
  {
    match s
    case HealthStep => HealthBarIgnoresGauge(config, f, ammo);
    case ResourceStep =>
    case TargetStep => TargetBarIgnoresGauge(config, f, ammo);
    case FocusStep => FocusBarIgnoresGauge(config, f, ammo);
  }

  /** The unit-frame-only window never reads the job gauge: its frame, and
      the bar size it leaves behind, are the same whatever the gauge holds. */
  lemma UnitFrameOnlyIgnoresGauge(config: Config, isVisible: bool, f: Frame, ammo: byte, prior: Vec2)
    ensures FrameDraw(UnitFrameOnly, config, isVisible, f) ==
            FrameDraw(UnitFrameOnly, config, isVisible, f.(gnbAmmo := ammo))
    ensures FrameBarSize(UnitFrameOnly, config, isVisible, f, prior) ==
            FrameBarSize(UnitFrameOnly, config, isVisible, f.(gnbAmmo := ammo), prior)
  {
    var g := f.(gnbAmmo := ammo);
    if Drawing(config, isVisible, f) {
      assert Drawing(config, isVisible, g);
      VariantParts(UnitFrameOnly, config, f);
      VariantParts(UnitFrameOnly, config, g);
      StepIgnoresGauge(HealthStep, config, f, ammo);
      StepIgnoresGauge(ResourceStep, config, f, ammo);
      StepIgnoresGauge(TargetStep, config, f, ammo);
      StepIgnoresGauge(FocusStep, config, f, ammo);
      assert Parts(Steps(UnitFrameOnly), config, g) == Parts(Steps(UnitFrameOnly), config, f);
    }
  }

  /** The only exception a frame can end on is a lookup of a job id the job
      colour table does not hold. */
  predicate FaultsOnMissingJob(config: Config, e: Emitted)
  {
    e.fault.Some? ==> e.fault.value !in config.jobColors
  }

  lemma {:induction false} RunFaults(config: Config, parts: seq<Part>)
    requires forall i :: 0 <= i < |parts| ==> FaultsOnMissingJob(config, parts[i].out)
    ensures FaultsOnMissingJob(config, Run(parts))
  {
    if parts != [] {
      RunFaults(config, parts[1..]);
    }
  }

  lemma TargetBarFaults(config: Config, f: Frame)
    ensures FaultsOnMissingJob(config, TargetBar(config, f))
  {
    match SelectTarget(f)
    case None =>
    case Some(t) =>
      var plate := TargetPlate(config, f, t);
      var tot := TargetOfTargetBar(config, f, TargetOf(t));
      assert FaultsOnMissingJob(config, plate);
      assert FaultsOnMissingJob(config, tot);
      assert TargetBar(config, f) == Then(plate, Then(Emitted(TargetName(config, f, t), None), tot));
  }

  lemma StepFaults(s: Step, config: Config, f: Frame)
    requires f.localPlayer.Some?
    ensures FaultsOnMissingJob(config, StepPart(s, config, f).out)
  {
    match s
    case TargetStep => TargetBarFaults(config, f);
    case _ =>
  }

  /** Draw() either completes or ends on a job id missing from the job colour
      table: every other lookup it makes is total. */
  lemma FrameFaults(v: JobVariant, config: Config, isVisible: bool, f: Frame)
    ensures FaultsOnMissingJob(config, FrameDraw(v, config, isVisible, f))
  {
    if Drawing(config, isVisible, f) {
      var parts := Parts(Steps(v), config, f);
      forall i | 0 <= i < |parts| ensures FaultsOnMissingJob(config, parts[i].out) {
        StepFaults(Steps(v)[i], config, f);
      }
      RunFaults(config, parts);
    }
  }

  // ---------------------------------------------------------------------------
  // The window
  // ---------------------------------------------------------------------------

  /** A HUD window of one job variant. `trace` is the draw list the frame's
      ImGui calls fill, in call order. */
  class HudWindow {
    const variant: JobVariant
    const config: Config
    var isVisible: bool
    var barSize: Vec2
    var trace: seq<DrawCmd>

    constructor (variant: JobVariant, config: Config)
      ensures this.variant == variant && this.config == config
      ensures isVisible && barSize == Vec2(0.0, 0.0) && trace == []
    {
      this.variant := variant;
      this.config := config;
      isVisible := true;
      barSize := Vec2(0.0, 0.0);
      trace := [];
    }

    /** DrawOutlinedText: eight outline draws around `pos`, then the text. */
    method DrawOutlinedText(text: Label, pos: Vec2, color: Rgba, outline: Rgba)
      modifies this`trace
      ensures trace == old(trace) + OutlinedText(text, pos, color, outline)
    {
      trace := trace + [Text(Vec2(pos.x - 1.0, pos.y + 1.0), outline, text)];
      trace := trace + [Text(Vec2(pos.x, pos.y + 1.0), outline, text)];
      trace := trace + [Text(Vec2(pos.x + 1.0, pos.y + 1.0), outline, text)];
      trace := trace + [Text(Vec2(pos.x - 1.0, pos.y), outline, text)];
      trace := trace + [Text(Vec2(pos.x + 1.0, pos.y), outline, text)];
      trace := trace + [Text(Vec2(pos.x - 1.0, pos.y - 1.0), outline, text)];
      trace := trace + [Text(Vec2(pos.x, pos.y - 1.0), outline, text)];
      trace := trace + [Text(Vec2(pos.x + 1.0, pos.y - 1.0), outline, text)];
      trace := trace + [Text(pos, color, text)];
    }

    /** The background, gradient and border calls every bar makes. */
    method AddBar(origin: Vec2, size: Vec2, fill: Num, colors: ColorSet)
      modifies this`trace
      ensures trace == old(trace) + Bar(origin, size, fill, colors)
    {
      trace := trace + [RectFilled(origin, size, colors.background)];
      trace := trace + [RectGradient(origin, fill, size.y, colors.gradientLeft, colors.gradientRight)];
      trace := trace + [RectOutline(origin, size, BorderColor)];
    }

    /** `name.Abbreviate().Truncate(n)`. */
    method NameText(name: string, n: nat) returns (text: Label)
      ensures text == NameLabel(name, n)
    {
      var abbreviated := Abbreviate(name);
      text := Str(TruncateName(abbreviated, n));
    }

    method DrawHealthBar(f: Frame) returns (fault: Option<nat>)
      requires f.localPlayer.Some?
      modifies this`trace, this`barSize
      ensures barSize == HealthBarSize(config)
      ensures trace == old(trace) + HealthBar(config, f).cmds
      ensures fault == HealthBar(config, f).fault
    {
      barSize := HealthBarSize(config);
      var actor := f.localPlayer.value;
      var scale := Ratio(actor.currentHp, actor.maxHp);
      var cursorPos := HealthBarOrigin(Center(f.viewport), config);
      var width := config.healthBar.width as real;

      ghost var before := trace;
      var name := NameText(actor.name, 16);
      var namePos := HealthNamePos(cursorPos);
      DrawOutlinedText(name, namePos, White, Black);
      var hp := HealthHpLabel(actor.maxHp);
      var hpSize := f.measure(hp);
      var percentageSize := f.measure(Hundred);
      var hpPos := HealthHpPos(cursorPos, width, hpSize, percentageSize);
      DrawOutlinedText(hp, hpPos, White, Black);
      var percentPos := HealthPercentPos(cursorPos, width, percentageSize);
      DrawOutlinedText(Percent(scale), percentPos, White, Black);
      AppendThree(before, Outlined(name, namePos), Outlined(hp, hpPos), Outlined(Percent(scale), percentPos));

      fault := None;
      if f.healthChildOpen {
        var colors := JobColors(config, actor.classJob);
        if colors.None? {
          fault := Some(actor.classJob);
          return;
        }
        AddBar(cursorPos, barSize, Scaled(width, scale), colors.value);
      }
    }

    method DrawPrimaryResourceBar(f: Frame)
      modifies this`trace
      ensures trace == old(trace) + PrimaryResourceBar(f)
    {
      if f.localPlayer.Some? {
        var actor := f.localPlayer.value;
        var scale := Ratio(actor.currentMp, actor.maxMp);
        var cursorPos := ResourceBarOrigin(Center(f.viewport));
        AddBar(cursorPos, ResourceBarSize, Scaled(ResourceBarSize.x, scale), ResourceColors);
      }
    }

    method DrawTargetOfTargetBar(f: Frame, targetObject: Option<GameObject>) returns (fault: Option<nat>)
      modifies this`trace
      ensures trace == old(trace) + TargetOfTargetBar(config, f, targetObject).cmds
      ensures fault == TargetOfTargetBar(config, f, targetObject).fault
    {
      fault := None;
      if !(targetObject.Some? && targetObject.value.CharacterObject?) {
        return;
      }
      var actor := targetObject.value.character;
      var size := Size(config.totBar);
      var width := config.totBar.width as real;
      var name := NameText(actor.name, 12);
      var textSize := f.measure(name);
      var cursorPos := TargetOfTargetBarOrigin(Center(f.viewport), config);
      DrawOutlinedText(name, CentredNamePos(cursorPos, width, textSize), White, Black);

      var colors := DetermineTargetPlateColors(config, actor);
      if colors.None? {
        fault := Some(actor.classJob);
        return;
      }
      if f.totChildOpen {
        AddBar(cursorPos, size, Scaled(width, Ratio(actor.currentHp, actor.maxHp)), colors.value);
      }
    }

    /** The part of DrawTargetBar before the name label: the bar and, for a
        Character, its percentage and max-HP labels. */
    method DrawTargetPlate(f: Frame, t: GameObject) returns (fault: Option<nat>)
      modifies this`trace
      ensures trace == old(trace) + TargetPlate(config, f, t).cmds
      ensures fault == TargetPlate(config, f, t).fault
    {
      fault := None;
      var size := TargetBarSize(config);
      var cursorPos := TargetBarOrigin(Center(f.viewport));
      var width := config.targetBar.width as real;
      match t {
        case OtherObject(_, _) =>
          AddBar(cursorPos, size, Finite(width), config.npcColors.friendly);
        case CharacterObject(actor) =>
          var scale := GuardedRatio(actor.currentHp, actor.maxHp);
          var colors := DetermineTargetPlateColors(config, actor);
          if colors.None? {
            fault := Some(actor.classJob);
            return;
          }
          ghost var before := trace;
          AddBar(cursorPos, size, Scaled(width, scale), colors.value);
          var percentage := Percent(scale);
          var percentageSize := f.measure(percentage);
          var maxPercentageSize := f.measure(Hundred);
          var percentPos := TargetPercentPos(cursorPos, maxPercentageSize, percentageSize);
          DrawOutlinedText(percentage, percentPos, White, Black);
          var hp := TargetHpLabel(actor.maxHp);
          var hpPos := TargetHpPos(cursorPos, maxPercentageSize);
          DrawOutlinedText(hp, hpPos, White, Black);
          AppendThree(before, Bar(cursorPos, size, Scaled(width, scale), colors.value),
                      Outlined(percentage, percentPos), Outlined(hp, hpPos));
      }
    }

    method DrawTargetBar(f: Frame) returns (fault: Option<nat>)
      modifies this`trace, this`barSize
      ensures barSize == if SelectTarget(f).Some? then TargetBarSize(config) else old(barSize)
      ensures trace == old(trace) + TargetBar(config, f).cmds
      ensures fault == TargetBar(config, f).fault
    {
      fault := None;
      var target := if f.softTarget.Some? then f.softTarget else f.target;
      if target.None? {
        return;
      }
      var t := target.value;
      barSize := TargetBarSize(config);
      var cursorPos := TargetBarOrigin(Center(f.viewport));
      var width := config.targetBar.width as real;

      ghost var plate := TargetPlate(config, f, t);
      ghost var tot := TargetOfTargetBar(config, f, TargetOf(t));
      assert TargetBar(config, f) == Then(plate, Then(Emitted(TargetName(config, f, t), None), tot));
      fault := DrawTargetPlate(f, t);
      if fault.Some? {
        return;
      }
      ghost var afterPlate := trace;

      var name := NameText(Name(t), 16);
      var nameSize := f.measure(name);
      DrawOutlinedText(name, TargetNamePos(cursorPos, width, nameSize), White, Black);
      assert trace == afterPlate + TargetName(config, f, t);

      ghost var afterName := trace;
      fault := DrawTargetOfTargetBar(f, TargetOf(t));
      ThenThree(old(trace), plate, Emitted(TargetName(config, f, t), None), tot);
    }

    method DrawFocusBar(f: Frame) returns (fault: Option<nat>)
      modifies this`trace
      ensures trace == old(trace) + FocusBar(config, f).cmds
      ensures fault == FocusBar(config, f).fault
    {
      fault := None;
      if f.focusTarget.None? {
        return;
      }
      var focus := f.focusTarget.value;
      var size := Size(config.focusBar);
      var width := config.focusBar.width as real;
      var cursorPos := FocusBarOrigin(Center(f.viewport), config);

      match focus {
        case OtherObject(_, _) =>
          AddBar(cursorPos, size, Finite(width), config.npcColors.friendly);
        case CharacterObject(actor) =>
          var colors := DetermineTargetPlateColors(config, actor);
          if colors.None? {
            fault := Some(actor.classJob);
            return;
          }
          AddBar(cursorPos, size, Scaled(width, Ratio(actor.currentHp, actor.maxHp)), colors.value);
      }

      ghost var afterPlate := trace;
      var name := NameText(Name(focus), 12);
      var textSize := f.measure(name);
      var namePos := CentredNamePos(cursorPos, width, textSize);
      DrawOutlinedText(name, namePos, White, Black);
      assert FocusBar(config, f).cmds == afterPlate[|old(trace)|..] + Outlined(name, namePos);
    }

    /** GunbreakerHudWindow.DrawPowderGauge. */
    method DrawPowderGauge(f: Frame)
      modifies this`trace
      ensures trace == old(trace) + GunbreakerHud.PowderGauge(f)
    {
      var barWidth := (GunbreakerHud.BarWidth - GunbreakerHud.XPadding * 2) / 2;
      var size := Vec2(barWidth as real, GunbreakerHud.BarHeight as real);
      var c := Center(f.viewport);
      var cursorPos := Vec2(c.x - GunbreakerHud.GaugeXOffset as real, c.y + GunbreakerHud.GaugeYOffset as real - 33.0);

      trace := trace + [RectFilled(cursorPos, size, GunbreakerHud.GaugeBackground)];
      if f.gnbAmmo > 0 {
        trace := trace + [RectGradient(cursorPos, Finite(size.x), size.y, GunbreakerHud.PowderColor, GunbreakerHud.PowderColor)];
      }
      trace := trace + [RectOutline(cursorPos, size, BorderColor)];

      cursorPos := Vec2(cursorPos.x + barWidth as real + GunbreakerHud.XPadding as real, cursorPos.y);

      trace := trace + [RectFilled(cursorPos, size, GunbreakerHud.GaugeBackground)];
      if f.gnbAmmo > 1 {
        trace := trace + [RectGradient(cursorPos, Finite(size.x), size.y, GunbreakerHud.PowderColor, GunbreakerHud.PowderColor)];
      }
      trace := trace + [RectOutline(cursorPos, size, BorderColor)];
    }

    /** GunbreakerHudWindow.Draw(bool): health bar, powder gauge, target bar, focus bar. */
    method DrawGunbreaker(f: Frame) returns (fault: Option<nat>)
      requires f.localPlayer.Some?
      modifies this`trace, this`barSize
      ensures trace == old(trace) + Run(Parts(Steps(Gunbreaker), config, f)).cmds
      ensures fault == Run(Parts(Steps(Gunbreaker), config, f)).fault
      ensures barSize == RunBarSize(Parts(Steps(Gunbreaker), config, f), old(barSize))
    {
      ghost var health := StepPart(HealthStep, config, f);
      ghost var middle := StepPart(SecondStep(Gunbreaker), config, f);
      ghost var target := StepPart(TargetStep, config, f);
      ghost var focus := StepPart(FocusStep, config, f);
      VariantParts(Gunbreaker, config, f);
      RunFour(health, middle, target, focus, barSize);
      ghost var all := Run(Parts(Steps(Gunbreaker), config, f));
      assert all == Then(health.out, Then(middle.out, Then(target.out, focus.out)));

      fault := DrawHealthBar(f);
      if fault.Some? {
        assert all == health.out;
        return;
      }
      ghost var afterHealth := trace;
      DrawPowderGauge(f);
      assert trace == afterHealth + middle.out.cmds;
      ghost var beforeTarget := trace;
      fault := DrawTargetBar(f);
      assert trace == beforeTarget + target.out.cmds;
      if fault.Some? {
        ThenThird(old(trace), health.out, middle.out, target.out, focus.out);
        return;
      }
      ghost var beforeFocus := trace;
      fault := DrawFocusBar(f);
      assert trace == beforeFocus + focus.out.cmds;
      ThenAll(old(trace), health.out, middle.out, target.out, focus.out);
    }

    /** UnitFrameOnlyHudWindow.Draw(bool): health bar, resource bar, target bar, focus bar. */
    method DrawUnitFrameOnly(f: Frame) returns (fault: Option<nat>)
      requires f.localPlayer.Some?
      modifies this`trace, this`barSize
      ensures trace == old(trace) + Run(Parts(Steps(UnitFrameOnly), config, f)).cmds
      ensures fault == Run(Parts(Steps(UnitFrameOnly), config, f)).fault
      ensures barSize == RunBarSize(Parts(Steps(UnitFrameOnly), config, f), old(barSize))
    {
      ghost var health := StepPart(HealthStep, config, f);
      ghost var middle := StepPart(SecondStep(UnitFrameOnly), config, f);
      ghost var target := StepPart(TargetStep, config, f);
      ghost var focus := StepPart(FocusStep, config, f);
      VariantParts(UnitFrameOnly, config, f);
      RunFour(health, middle, target, focus, barSize);
      ghost var all := Run(Parts(Steps(UnitFrameOnly), config, f));
      assert all == Then(health.out, Then(middle.out, Then(target.out, focus.out)));

      fault := DrawHealthBar(f);
      if fault.Some? {
        assert all == health.out;
        return;
      }
      ghost var afterHealth := trace;
      DrawPrimaryResourceBar(f);
      assert trace == afterHealth + middle.out.cmds;
      ghost var beforeTarget := trace;
      fault := DrawTargetBar(f);
      assert trace == beforeTarget + target.out.cmds;
      if fault.Some? {
        ThenThird(old(trace), health.out, middle.out, target.out, focus.out);
        return;
      }
      ghost var beforeFocus := trace;
      fault := DrawFocusBar(f);
      assert trace == beforeFocus + focus.out.cmds;
      ThenAll(old(trace), health.out, middle.out, target.out, focus.out);
    }

    /** The Draw(bool) override of the window's job variant. */
    method DrawVariant(f: Frame) returns (fault: Option<nat>)
      requires f.localPlayer.Some?
      modifies this`trace, this`barSize
      ensures trace == old(trace) + Run(Parts(Steps(variant), config, f)).cmds
      ensures fault == Run(Parts(Steps(variant), config, f)).fault
      ensures barSize == RunBarSize(Parts(Steps(variant), config, f), old(barSize))
    {
      match variant {
        case Gunbreaker => fault := DrawGunbreaker(f);
        case UnitFrameOnly => fault := DrawUnitFrameOnly(f);
      }
    }

    /** HudWindow.Draw(): the gate, then the variant's draw calls. */
    method Draw(f: Frame) returns (fault: Option<nat>)
      modifies this`trace, this`barSize
      ensures trace == old(trace) + FrameDraw(variant, config, isVisible, f).cmds
      ensures fault == FrameDraw(variant, config, isVisible, f).fault
      ensures barSize == FrameBarSize(variant, config, isVisible, f, old(barSize))
    {
      fault := None;
      if !ShouldBeVisible(config.hideHud, isVisible, f.localPlayer.Some?, f.parameterWidget, f.fadeMiddle)
         || f.localPlayer.None? {
        return;
      }
      if !f.windowOpen {
        return;
      }
      fault := DrawVariant(f);
    }
  }
}
