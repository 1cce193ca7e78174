# DelvUI HUD core in Dafny

A model of the decision and layout core of DelvUI, a Dalamud plugin that draws
a replacement heads-up display for Final Fantasy XIV with ImGui:

- the text helpers of `Extensions.cs`: `Abbreviate` (initials plus the last
  word), `KiloFormat` (K/M suffixes by unsigned integer division) and
  `Truncate`;
- the per-frame logic of `HudWindow`: the visibility gate, the early exits of
  `Draw()`, the plate colour classification, target selection, the bar
  geometry, and the draw calls of the health, resource, target,
  target-of-target and focus bars and of outlined text;
- the two job windows, `GunbreakerHudWindow` (job 37, with the two-segment
  powder gauge) and `UnitFrameOnlyHudWindow` (job 23), as a closed datatype of
  variants with their draw order.

Modules, one per source file or concern:

| file | module | models |
|---|---|---|
| `wrappers.dfy` | `Wrappers` | `Option` (a C# null) and `Result` (a thrown exception) |
| `extensions.dfy` | `Extensions` | `DelvUI/Extensions.cs` |
| `hud.dfy` | `Hud` | the pure logic of `DelvUI/Interface/HudWindow.cs` and the specification functions of its draw routines |
| `gunbreaker.dfy` | `GunbreakerHud` | the constants and the powder gauge of `GunbreakerHudWindow.cs` |
| `unitframe_only.dfy` | `UnitFrameOnlyHud` | the constants of `UnitframeOnlyHudWindow.cs` |
| `hud_windows.dfy` | `HudWindows` | the job dispatch and the class `HudWindow`, whose draw methods append to a draw trace |

How the model stands in for the game and for ImGui:

- Every draw call is an abstract command (`RectFilled`, `RectGradient`,
  `RectOutline`, `Text`) appended to the `trace` field of a `HudWindow`
  object. Each draw method states its new trace as the old trace plus a
  specification function of the frame (`HealthBar`, `TargetBar`, ...), and
  the properties are lemmas about those functions.
- Everything the code reads from Dalamud and ImGui in one frame is a `Frame`
  value: the viewport size, the local player, target, soft target and focus
  target, the two addon visibilities (`None` for a null addon), the
  results of `ImGui.Begin` and of the two `BeginChild` calls, the Gunbreaker
  ammo count, and `CalcTextSize` as a function `measure` from label to width.
- The plugin configuration is a `Config` value; `JobColorMap[job]` on a job
  with no entry throws `KeyNotFoundException`, which the model carries as the
  `fault` of an `Emitted` value: the frame's remaining draw calls do not run.
- A float ratio `cur / max` is a `Num`: `Finite(r)` or `NonFinite` when
  `max` is 0 (NaN or infinity in C#). Coordinates are `real`.
- Labels are kept symbolic: a name label is a string; a percentage label
  is the `Num` it prints, rendered by `Render` as `(int)(scale * 100)` padded
  to three characters.

Two places where the code does less than its own wording suggests; the
model follows the code:

- `KiloFormat` uses the `"0.#"` format (`DelvUI/Extensions.cs:43`, `:49`),
  which would print one fractional digit of a float, but `num / 1000000` and
  `num / 1000` are `uint` divisions, so there is never a fraction to print:
  15999 gives `15K` and 1500000 gives `1M`.
- `ShouldBeVisible`: the comment at `DelvUI/Interface/HudWindow.cs:332`
  says the HUD shows only if the parameter widget is visible and no fade
  is in progress. The return at line 333 does the opposite on both counts:
  when neither flag decides, it shows the HUD when the parameter widget is
  hidden (`!parameterWidget->IsVisible`) or the fade widget is visible
  (`fadeMiddleWidget->IsVisible`), and also when the player or either
  addon is missing.

## Model

| member | source | states |
|---|---|---|
| Extensions.Tokens | DelvUI/Extensions.cs:8 | splitting on ' ' with empty entries removed yields only non-empty tokens that contain no space |
| Extensions.TokensOfJoin | DelvUI/Extensions.cs:8 | splitting the space-joined list of any tokens gives that list back |
| Extensions.TokensSplit | DelvUI/Extensions.cs:8 | a space separates words: the tokens of `a + " " + b` are the tokens of `a` followed by the tokens of `b`, for any strings |
| Extensions.TokensIgnoreExtraSpaces | DelvUI/Extensions.cs:8 | a leading space, a trailing space or a doubled space between words changes no token |
| Extensions.TokensOfBlank | DelvUI/Extensions.cs:8 | an empty or all-space name has no tokens |
| Extensions.TokensOfWord | DelvUI/Extensions.cs:8 | a name with no space is one token |
| Extensions.Abbreviate | DelvUI/Extensions.cs:7-15 | the in-place loop over the `splits` array returns exactly `Abbreviation(name)`: every token but the last cut to its first character, joined with ". ", upper-cased |
| Extensions.AbbreviationExample | DelvUI/Extensions.cs:10-14 | "John Smith Doe" abbreviates to "J. S. DOE" |
| Extensions.AbbreviationOfOneWord | DelvUI/Extensions.cs:10-14 | a single-token name comes back only upper-cased (the loop runs zero times) |
| Extensions.AbbreviationOfBlank | DelvUI/Extensions.cs:8-14 | an empty or all-space name abbreviates to "" |
| Extensions.AbbreviationWords | DelvUI/Extensions.cs:8-14 | the result, split on spaces, has as many pieces as the name has tokens; each piece but the last is the upper-cased initial and '.', the last is the upper-cased last token |
| Extensions.GroupedIsNumeral | DelvUI/Extensions.cs:51 | the "#,0" format gives a non-empty string of digits and ',' with no '.' |
| Extensions.GroupedShape | DelvUI/Extensions.cs:51 | the "#,0" text has the grouping shape: it starts with a digit, has a ',' exactly before every three digits counted from the right, digits elsewhere, and no leading zero |
| Extensions.GroupedOfRead | DelvUI/Extensions.cs:51 | the shape determines the text: any string of that shape is exactly the "#,0" text of the number it reads as |
| Extensions.ReadGrouped | DelvUI/Extensions.cs:51 | reading the "#,0" text back, ignoring separators, gives the number |
| Extensions.KiloFormat | DelvUI/Extensions.cs:37-52 | the five branches print the truncating quotient by the unit (1000000 from 1000000, 1000 from 10000, else 1), "#,0"-grouped, then "M", "K" or nothing: the "0.#" branches agree with "#,0" since their quotients are below 1000 |
| Extensions.KiloFormatReadsBack | DelvUI/Extensions.cs:37-52 | for every uint: the suffix is "M" from 1000000, "K" from 10000, none below; the numeral before it is the "#,0" text of the truncating quotient, has the grouping shape, and reads back to `num / 1000000`, `num / 1000` or `num` itself; the output never has a '.' |
| Extensions.KiloFormatExamples | DelvUI/Extensions.cs:39-51 | one input per branch below a million: 950, 1,234, 15K (15000 and 15999), 150K |
| Extensions.KiloFormatMillionExamples | DelvUI/Extensions.cs:39-51 | the millions branch: 1M (1500000), 150M, and 4,294M for the largest uint |
| Extensions.Truncate | DelvUI/Extensions.cs:54-58 | null stays null and "" stays ""; a negative length on a non-empty string throws; otherwise the result is the prefix of length min(len, maxLength) |
| Extensions.TruncateIdempotent | DelvUI/Extensions.cs:57 | truncating twice equals truncating once |
| Extensions.TruncateExamples | DelvUI/Extensions.cs:54-58 | "abcdefghij" to 5 is "abcde"; "" and null come back unchanged |
| Extensions.TruncateName | DelvUI/Extensions.cs:57 | the `Truncate(16)` / `Truncate(12)` of a name: a prefix of length min(len, n) |
| Hud.ShouldBeVisible | DelvUI/Interface/HudWindow.cs:317-334 | false whenever HideHud is set; otherwise true whenever IsVisible is set; otherwise true iff the player or either addon is null, the parameter widget is hidden, or the fade widget is visible |
| Hud.IsHostileMemory | DelvUI/Interface/HudWindow.cs:336-341 | an NPC is hostile by memory when its sub-kind is Enemy or 1, the byte at 0x1980 is not 0 and the byte at 0x193C is not 1 (the bytes are fields of the frame's NPC snapshot) |
| Hud.HostileMemoryConditions | DelvUI/Interface/HudWindow.cs:336-341 | an NPC is hostile by memory only if its sub-kind is Enemy or 1, byte 0x1980 is not 0 and byte 0x193C is not 1; failing any one makes it not hostile |
| Hud.PlateOf | DelvUI/Interface/HudWindow.cs:233-255 | a Player gets its job's plate; an in-combat BattleNpc the hostile plate; a non-combat BattleNpc the friendly plate iff not hostile by memory, else neutral; every other kind neutral (each an if-and-only-if) |
| Hud.DetermineTargetPlateColors | DelvUI/Interface/HudWindow.cs:232-256 | throws exactly for a Player whose job has no colour entry; otherwise yields the job's colours or one of hostile, friendly, neutral |
| Hud.PlateColorCases | DelvUI/Interface/HudWindow.cs:233-255 | the colour set each kind of character gets, case by case |
| Hud.BarLayout | DelvUI/Interface/HudWindow.cs:31-32 | with offsets 160 and 460 (used at lines 64, 122, 165 and 208): the health bar ends at CenterX - 160, the target bar starts at CenterX + 160, the target-of-target bar starts 2 px right of the target bar, the focus bar ends 2 px left of the health bar, all at CenterY + 460 |
| Hud.GuardedRatio | DelvUI/Interface/HudWindow.cs:136 | the target bar's scale is finite and non-negative, 0 when max HP is 0, at most 1 when current HP does not exceed max, and cur/max otherwise |
| Hud.ScaledWithinBar | DelvUI/Interface/HudWindow.cs:136-141 | a scale in [0, 1] gives a fill between 0 and the bar width: empty at 0, full at 1 |
| Hud.PadLeftAligns | DelvUI/Interface/HudWindow.cs:145 | the `,3` / `,6` alignment right-aligns: the text unchanged at the end, spaces before it up to the field width, nothing cut when longer |
| Hud.PadRightAligns | DelvUI/Interface/HudWindow.cs:149 | the `,-6` alignment left-aligns: the text unchanged at the start, spaces after it up to the field width, nothing cut when longer |
| Hud.OutlinedTextSurrounds | DelvUI/Interface/HudWindow.cs:262-289 | outlined text is 9 draws: 8 in the outline colour, at 8 distinct positions that are exactly the 8 unit neighbours of `pos`, then one in the text colour at `pos` |
| Hud.TargetBarAbsent | DelvUI/Interface/HudWindow.cs:113-118 | with neither a soft target nor a target the target bar draws nothing, so no target-of-target bar either |
| Hud.SoftTargetWins | DelvUI/Interface/HudWindow.cs:114 | while a soft target exists the target bar does not depend on the hard target |
| Hud.TargetBarFillGuarded | DelvUI/Interface/HudWindow.cs:136-147 | a Character target's fill starts at the bar origin and is always finite: `width * cur / max`, or 0 with the label "  0" when max HP is 0 |
| Hud.TargetBarNonCharacter | DelvUI/Interface/HudWindow.cs:126-134 | a non-Character target gets a full-width bar in the friendly colours |
| Hud.TargetOfTargetAbsent | DelvUI/Interface/HudWindow.cs:199-201 | a missing or non-Character target-of-target draws nothing |
| Hud.FocusBarAbsent | DelvUI/Interface/HudWindow.cs:159-162 | without a focus target the focus bar draws nothing |
| Hud.HealthBarUnguarded | DelvUI/Interface/HudWindow.cs:63-83 | the health bar has no zero-max-HP guard: with max HP 0 its gradient width is non-finite |
| GunbreakerHud.PowderGaugeGeometry | DelvUI/Interface/GunbreakerHudWindow.cs:45-62 | each segment is (254 - 2*2)/2 = 125 by 13; the first starts at (CenterX - 127, CenterY + 466 - 33); the second at the same y, 125 + 2 to the right; the gauge spans 252 <= 254 px |
| GunbreakerHud.PowderGaugeFill | DelvUI/Interface/GunbreakerHudWindow.cs:53-71 | the gauge draws a background and a border for both segments whatever the ammo, and fills segment k iff Ammo > k, so min(Ammo, 2) fills |
| GunbreakerHud.PowderGaugeInResourceSlot | DelvUI/Interface/GunbreakerHudWindow.cs:15-16 | the shadowed offsets 127 and 466 put the gauge exactly where the base resource bar would be, within its width and at its height |
| UnitFrameOnlyHud.ShadowedOffsetsUnused | DelvUI/Interface/UnitframeOnlyHudWindow.cs:10-14 | the window's own offsets 127 / 440 and bar sizes are not what the inherited bars use: those keep 160 / 460, and the resource bar is at CenterX - 127, 254 by 13 |
| HudWindows.VariantFor | DelvUI/Interface/GunbreakerHudWindow.cs:11 | dispatch by job id returns a window whose JobId is that id |
| HudWindows.VariantForJobId | DelvUI/Interface/UnitframeOnlyHudWindow.cs:8 | the Gunbreaker window is job 37, the unit-frame-only window job 23, and dispatch finds each |
| HudWindows.FrameGated | DelvUI/Interface/HudWindow.cs:292-294 | a failing `ShouldBeVisible` or a missing local player draws nothing in the frame |
| HudWindows.HiddenHudDrawsNothing | DelvUI/Interface/HudWindow.cs:319-322 | with HideHud set the frame draws nothing and keeps the stored bar size, whatever else it holds |
| HudWindows.GunbreakerDrawOrder | DelvUI/Interface/GunbreakerHudWindow.cs:34-39 | the frame is health bar, powder gauge, target bar, focus bar, in that order, each running only if the previous did not throw; no resource bar |
| HudWindows.UnitFrameOnlyDrawOrder | DelvUI/Interface/UnitframeOnlyHudWindow.cs:32-37 | the frame is health bar, resource bar, target bar, focus bar, in that order; no job gauge |
| HudWindows.UnitFrameOnlyIgnoresGauge | DelvUI/Interface/UnitframeOnlyHudWindow.cs:32-37 | the unit-frame-only frame and its bar size are the same whatever the job gauge holds |
| HudWindows.FrameFaults | DelvUI/Interface/HudWindow.cs:77 | a frame can only end early on a job id missing from the job colour table |
| HudWindows.HudWindow.constructor | DelvUI/Interface/HudWindow.cs:17 | a new window is visible, with an empty trace |
| HudWindows.HudWindow.DrawOutlinedText | DelvUI/Interface/HudWindow.cs:262-289 | appends the nine draws of `OutlinedText` |
| HudWindows.HudWindow.NameText | DelvUI/Interface/HudWindow.cs:66 | a name label is the abbreviation truncated to n characters |
| HudWindows.HudWindow.DrawHealthBar | DelvUI/Interface/HudWindow.cs:59-93 | stores the health bar size, appends the name, HP and percentage labels and, if the child window opened, the bar; throws on a missing job colour |
| HudWindows.HudWindow.DrawPrimaryResourceBar | DelvUI/Interface/HudWindow.cs:95-111 | appends the MP bar when there is a local player, nothing otherwise |
| HudWindows.HudWindow.DrawTargetPlate | DelvUI/Interface/HudWindow.cs:126-150 | appends the target's bar and, for a Character, its percentage and max-HP labels |
| HudWindows.HudWindow.DrawTargetBar | DelvUI/Interface/HudWindow.cs:113-157 | with a target, stores the target bar size and appends plate, name and target-of-target bar; without one changes nothing |
| HudWindows.HudWindow.DrawTargetOfTargetBar | DelvUI/Interface/HudWindow.cs:198-230 | for a Character, appends its name and, if the child opened, its bar; the name is drawn before a missing job colour throws |
| HudWindows.HudWindow.DrawFocusBar | DelvUI/Interface/HudWindow.cs:158-196 | appends the focus bar and its centred name; nothing without a focus target |
| HudWindows.HudWindow.DrawPowderGauge | DelvUI/Interface/GunbreakerHudWindow.cs:41-72 | appends the two segments, moving the cursor by width + padding between them |
| HudWindows.HudWindow.DrawGunbreaker | DelvUI/Interface/GunbreakerHudWindow.cs:34-39 | runs the variant's four draw calls, stopping at the first that throws |
| HudWindows.HudWindow.DrawUnitFrameOnly | DelvUI/Interface/UnitframeOnlyHudWindow.cs:32-37 | runs the variant's four draw calls, stopping at the first that throws |
| HudWindows.HudWindow.DrawVariant | DelvUI/Interface/HudWindow.cs:310 | `Draw(true)` dispatches to the window's variant |
| HudWindows.HudWindow.Draw | DelvUI/Interface/HudWindow.cs:291-313 | appends `FrameDraw` and leaves `FrameBarSize`: nothing unless the gate passes, a local player exists and the window opened |

## Left out

- ImGui itself (`Begin`/`End`, `BeginChild`/`EndChild`, `SetCursorPos`, window flags, draw lists): draw calls are abstract commands in one trace; the child windows' draw lists are merged into it in call order; `Begin` and `BeginChild` results are inputs.
- `ImGui.CalcTextSize`: a foreign text measurement, taken as the input function `measure`.
- `ImGui.IsItemClicked` and `TargetManager.SetTarget`: input handling that sends a command to the game, not layout.
- `AdjustColor`: floating-point colour arithmetic with no contract beyond its formula.
- Float rounding: widths, ratios and the viewport centre are `real`; results are not float-exact. The text of a percentage label whose scale is NaN or infinite is not modelled (`Render` gives `None`).
- Locale: digit grouping uses ',' and `ToUpper` is ASCII-only.
- Character counting: a Dafny string is a sequence of Unicode scalar values, while C#'s `Length`, `splits[i][0]` (`DelvUI/Extensions.cs:11`) and `Substring(0, maxLength)` (`:57`) count UTF-16 code units; the model agrees with the source only for names within the Basic Multilingual Plane, where the two counts coincide (a name with, say, an emoji truncates and abbreviates differently in C#).
- `SeString` decoding: a name is its `TextValue` string.
- Dalamud services (`ClientState`, `GameGui`, `JobGauges`, `ObjectTable`, `TargetManager`, `PluginConfiguration` storage) and the raw memory reads of `IsHostileMemory` and `GetAddonByName`: replaced by the `Frame` and `Config` values.
- `BattleNpcSubKind.Enemy` is a Dalamud enum value not in this repository; the model takes it to be 5.
- The `NPCColorMap` keys "friendly", "hostile" and "neutral" and the colour-set keys "background", "gradientLeft" and "gradientRight" are taken to be present; only a missing job id in `JobColorMap` throws.
- `IsVisible` is toggled by code outside this core; the model reads it as a field.
- `Debug.Assert` in `DrawHealthBar` becomes a precondition: `Draw()` only calls it with a local player.
