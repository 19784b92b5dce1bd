# skywalker2088: HUD gauges, spawn director and effect assets in Dafny

This project models three small pieces of pure logic from the space
shooter skywalker2088. Everything else in the game is engine glue.

- **HUD** (`hud.dfy`, module `Hud`). It covers the text gauge `bar` and
  the `MM:SS` play clock. It covers how the equipment and upgrade panels
  are padded or cut to ten rows. It also covers the index-wise write of
  display lines into a panel's text children.
- **Spawn director** (`spawner.dfy`, module `Spawner`). It covers
  difficulty from elapsed whole seconds and how the spawn timer's advance
  scales with difficulty. It covers the wave size, capped by difficulty
  and by the headroom under `Spawning.max`. It covers the roll-to-kind
  table, the initial `Spawning` resource and the final-boss trigger.
- **Effect assets** (`effects.dfy`, module `Effects`). It covers the
  `EffectAssets` collection, one layout and one image per sprite effect,
  each loaded from the key `<stem>.layout` or `<stem>.image`. It also
  covers the two lookups `get_texture_atlas_layout` and `get_image`.
- `wrappers.dfy` (module `Wrappers`) holds `Option`, `Min`, `Max` and a
  monotonicity lemma for multiplication.

Integers are unbounded naturals. Where the source's 32-bit arithmetic
matters, the model writes it out: the saturating `as u32` cast, the
`try_into::<u32>` fallback, and the `u32` subtraction that fails when
there are more enemies than the cap. The lookups are pure functions of the
collection value, just as the source's `&self` methods are, so they
cannot change the collection.

Random rolls come in as a function from the spawn index to the roll.
Whether the timer just finished is a boolean input. The number of players
is a count, because `get_single` succeeds only for exactly one player.

## Model

| member | source | states |
|---|---|---|
| Hud.Repeat | src/gameplay/hud.rs:158-166 | `String::from(c).repeat(n)`: the string is exactly `n` copies of `c` |
| Hud.FillCount | src/gameplay/hud.rs:160-162 | the number of bars is at most `width` and is the floor of `min(current, max) * width / max`: `k * max <= min(current, max) * width < (k + 1) * max` |
| Hud.Bar | src/gameplay/hud.rs:156-168 | the gauge is exactly `width` characters; all spaces when `max == 0`; otherwise cell `i` is `'|'` below the bar count and `'.'` from it on |
| Hud.BarCellFilled | src/gameplay/hud.rs:160-167 | with `max > 0`, cell `i` is filled iff `(i + 1) * max <= min(current, max) * width`, and every unfilled cell is a dot |
| Hud.BarCounts | src/gameplay/hud.rs:163-167 | the gauge holds exactly `FillCount` bars and `width - FillCount` dots |
| Hud.BarUnknownMax | src/gameplay/hud.rs:157-158 | with `max == 0` the gauge is `width` spaces and nothing else |
| Hud.BarFull | src/gameplay/hud.rs:160-166 | `current >= max > 0` gives a gauge of `width` bars |
| Hud.BarEmpty | src/gameplay/hud.rs:160-166 | `current == 0` with `max > 0` gives a gauge of `width` dots |
| Hud.BarMonotone | src/gameplay/hud.rs:160 | raising `current` never empties a cell, so it never yields fewer bars |
| Hud.CooldownGauge | src/gameplay/hud.rs:219 | on the turret gauge `bar(ticks, 10, 10)` cell `i` is filled iff `i < min(ticks, 10)`, with `min(ticks, 10)` bars in all |
| Hud.ClockParts | src/gameplay/hud.rs:207-208 | the seconds part is below 60 and `60 * minutes + seconds == secs` |
| Hud.ClockPartsDivMod | src/gameplay/hud.rs:207-208 | the split is exactly `(secs / 60, secs % 60)`, the source's two expressions |
| Hud.Decimal | src/gameplay/hud.rs:207-208 | `{}` on an unsigned count gives at least one digit, exactly one below 10 and at most two below 100 |
| Hud.DecimalRoundTrip | src/gameplay/hud.rs:207-208 | the decimal digits written for a count read back as that count |
| Hud.DecimalNoLeadingZero | src/gameplay/hud.rs:207-208 | only zero is written with a leading `0` |
| Hud.ZeroPad | src/gameplay/hud.rs:205 | `{:0>2}` pads to at least the width with leading zeros and keeps the original digits as the suffix |
| Hud.ZeroPadRoundTrip | src/gameplay/hud.rs:205 | zero padding never changes the number the digits spell |
| Hud.ClockField | src/gameplay/hud.rs:205-208 | each clock field is at least two digits, exactly two below 100, and reads back as its value |
| Hud.ClockFieldPadded | src/gameplay/hud.rs:205-208 | a clock field is the decimal of its value zero-padded to width two |
| Hud.ClockFieldNoLeadingZero | src/gameplay/hud.rs:205-208 | from 10 on, `{:0>2}` adds nothing: the field is the plain decimal, with no leading zero |
| Hud.ClockOf | src/gameplay/hud.rs:205 | minutes and seconds formatted as `{:0>2}:{:0>2}` give text of at least five characters, colon third from the end, whose last two digits read back as the seconds |
| Hud.ClockOfWidth | src/gameplay/hud.rs:205 | `{:0>2}:{:0>2}` is exactly five characters when the minutes are below 100, and from 10 minutes on its first character is not a padding zero |
| Hud.ClockText | src/gameplay/hud.rs:204-209 | the clock text is at least `MM:SS` long, with the colon third from the end, and its two digits after the colon read back as `secs % 60` |
| Hud.ClockTextWidth | src/gameplay/hud.rs:204-209 | the clock is exactly five characters below 6000 s, and from 600 s on its first character is not a padding zero |
| Hud.ClockRoundTrip | src/gameplay/hud.rs:204-209 | the clock text reads back as the elapsed seconds, so the split loses nothing |
| Hud.ClockOfRoundTrip | src/gameplay/hud.rs:205 | for seconds below 60, the formatted text reads back as `60 * minutes + seconds` |
| Hud.ClockTextMinutes | src/gameplay/hud.rs:204-209 | the text before the colon reads back as the whole minutes `secs / 60` |
| Hud.Resize | src/gameplay/hud.rs:224 | `resize_with(n, default)` yields exactly `n` entries; the first `min(len, n)` originals are kept in order and the rest are the fill value |
| Hud.ResizeIdempotent | src/gameplay/hud.rs:224-229 | resizing an already resized list to the same length changes nothing |
| Hud.PanelDisplays | src/gameplay/hud.rs:183-232 | status lines pass unchanged; equipment and upgrade lines become exactly 10 rows: the first `min(n, 10)` originals, then empty strings |
| Hud.WriteDisplays | src/gameplay/hud.rs:234-240 | child `i` gets `displays[i]` exactly when it exists, carries a text span and `i < len(displays)`; every other child is unchanged |
| Spawner.WholeSeconds | src/enemy/mod.rs:71 | `elapsed_secs() as u32` is the whole seconds elapsed, saturating at the largest 32-bit value |
| Spawner.Difficulty | src/enemy/mod.rs:71 | the difficulty is at least 1 and is the `d` with `(d - 1) * 30 <= secs < d * 30` |
| Spawner.DifficultyMonotone | src/enemy/mod.rs:71 | difficulty never falls as play time grows |
| Spawner.DifficultyFirstTenMinutes | src/enemy/mod.rs:71 | within the first 600 seconds the difficulty lies in 1..20 |
| Spawner.ScaledDelta | src/enemy/mod.rs:73 | the timer advance is the frame time times the difficulty: never less than the frame time, and strictly more after 30 s |
| Spawner.ScaledDeltaMonotone | src/enemy/mod.rs:73 | for the same frame time a later tick never advances the timer less |
| Spawner.TryIntoU32 | src/enemy/mod.rs:83-86 | the conversion succeeds, unchanged, exactly for counts that fit in 32 bits |
| Spawner.EnemyCount | src/enemy/mod.rs:83-87 | the live count as the director reads it: the count itself when it fits in 32 bits, otherwise the cap `max` |
| Spawner.WaveSize | src/enemy/mod.rs:89 | the wave size exists iff `enemies <= max`; it is at most `difficulty * 5`, keeps `enemies + size <= max`, and equals one of the two bounds |
| Spawner.WaveCapFitsU32 | src/enemy/mod.rs:71-89 | for every play time the cast can produce, `difficulty * 5` fits in 32 bits |
| Spawner.UncountableEnemiesSpawnNothing | src/enemy/mod.rs:83-89 | a live count that does not fit in 32 bits is read as `max` and gives a wave of 0 |
| Spawner.KindForRoll | src/enemy/mod.rs:94-99 | a roll of 0 gives mothership, 1..=5 drone boss, 6..=15 fighter, and 16 and above drone, each as an if-and-only-if |
| Spawner.RollsForRanges | src/enemy/mod.rs:94-99 | the number of rolls below `n` that pick each kind, as a closed form per kind |
| Spawner.RollsPartition | src/enemy/mod.rs:94-99 | every roll picks exactly one kind: the per-kind counts of `0..n` sum to `n` |
| Spawner.KindShares | src/enemy/mod.rs:94-99 | over the roll range `0..100` the kinds take 1, 5, 10 and 84 rolls |
| Spawner.InitialSpawning | src/enemy/mod.rs:54-60 | the initial settings cap enemies at 100 and use a repeating 30 s timer whose elapsed time is already a full period |
| Spawner.FirstWave | src/enemy/mod.rs:56-89 | from the initial settings with no enemies at time 0 the first wave brings 5 enemies |
| Spawner.SpawnerTick | src/enemy/mod.rs:62-108 | a wave comes exactly when the timer just finished, exactly one player exists and the counted enemies are within the cap; the headroom fails iff they exceed it; a wave has `WaveSize` enemies, the `i`-th picked by the `i`-th roll |
| Spawner.WaveRespectsCap | src/enemy/mod.rs:83-91 | after a wave the live count is still within the cap, and the wave is at most `difficulty * 5` |
| Spawner.FinalBossDue | src/enemy/mod.rs:173 | the trigger fires exactly when more than 600 s have passed and no final boss exists (never at 600 s itself, never while one exists), and when it fires the wave difficulty has already passed 20 |
| Spawner.OneFinalBoss | src/enemy/mod.rs:170-173 | over any run of frames that starts with no final boss, exactly one is spawned if some frame is past 600 s and none otherwise; once one exists the count stays at one |
| Effects.Loaded | src/assets/effect.rs:12-55 | the loaded collection is well keyed: each sprite effect's layout and image come from `<stem>.layout` and `<stem>.image` of one stem, and that stem names the effect |
| Effects.GetTextureAtlasLayout | src/assets/effect.rs:61-79 | the layout lookup is `None` iff the effect is `Text` |
| Effects.GetImage | src/assets/effect.rs:83-98 | the image lookup is `None` iff the effect is `Text` |
| Effects.LookupsAgree | src/assets/effect.rs:61-98 | for any collection the layout is present iff the image is present |
| Effects.KeyTextInjective | src/assets/effect.rs:12-55 | two asset keys with the same text have the same stem and kind |
| Effects.WellKeyedLookupsInjective | src/assets/effect.rs:65-96 | in any well-keyed collection, the loaded one included, distinct sprite effects get distinct layout handles and distinct image handles, down to distinct key strings |

## Left out

- `setup_hud` node layout, the ECS queries, `Commands`, `StateScoped` and plugin registration are engine UI and scheduling plumbing.
- `Localize` lookups, `{:<8}` label padding, `display_for_ui` and the speed line are foreign calls or floating point. The status, equipment and upgrade lines are therefore inputs to `Hud.PanelDisplays`. This leaves out the `"{} {:>16}"` format of an equipment line and the `filter_map(|result| result.ok())` that drops turrets whose query fails.
- `Hud.CooldownGauge`: takes the rounded `fire_rate.timer.fraction() * 10.0` as a given count, because the rounding is floating point.
- `Hud.Bar`: computes `current * width` on unbounded naturals. The source's `usize` product would overflow only for values far beyond any gauge. The `try_into().unwrap_or(0)` of a `usize` into a `usize` never fails and is not modelled.
- `Spawner.WholeSeconds`: takes the play time as an exact real. The `f32` precision of `elapsed_secs()` is not modelled.
- `Spawner.ScaledDelta`: frame time is a natural number of time units. The engine timer's `tick` and `just_finished` are a library not shown, so `Spawner.SpawnerTick` takes "the timer just finished" as an input.
- `Spawner.WaveSize`: the `u32` subtraction `max - num_enemies` is modelled as failing when it would underflow, which is the debug-build panic. A release build would wrap instead, and that is not modelled.
- `Spawner.SpawnerTick`: the spawn point, the off-screen distance of 1000 and the random 10-unit jiggle are float vector arithmetic and are left out. The `spawn_*` constructors' modules are not part of this model, so a wave is the sequence of enemy kinds it spawns.
- `ai_system` and `separation` are float `Vec2` steering with `normalize_or_zero`.
- The final boss's spawn position and constructor are float geometry and a module not part of this model. Only the trigger condition is modelled.
- `Spawner.OneFinalBoss`: assumes no final boss is destroyed during the run, because despawning happens in systems outside this model. It also assumes that the unseen `spawn_final_boss` inserts exactly one `FinalBoss` entity and that its commands take effect before the next frame.
- `EffectType` is defined in `src/components/spawnable.rs`, which is not part of this model. The payload of `Text` is taken to be a string.
- Asset handles are modelled as the key they were loaded from. Handle cloning and reference counting are engine internals.
- `src/gameplay/object.rs` is random float geometry built through a path builder. `src/components/character.rs` is a deserialised record of mostly float fields.
