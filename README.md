# Beat-synchronised runner: level builder and frame physics

This project models the core of a rhythm runner game (`game.py`): a music
track's beat times become a course of obstacles. The course scrolls past a
player fixed at x = 250. On the game clock, which counts in the beats' own
song time, each obstacle reaches the player a quarter of a second after its
beat. The audio is not kept in step with that clock (see "## Findings"). The player must jump over ground spikes, stay under
overhead spikes, and jump onto platforms.

The model has four modules:

- `Geometry` (geometry.dfy): screen rectangles, overlap, and the sizes used by
  the game. There is the player's 50×50 box, a platform's 120×60 block flush
  with the ground line, and a spike's 45×50 hit-rectangle. A spike with
  `height_blocks` 0 rises from the ground; one with `height_blocks` 1 hangs
  one block above it.
- `Level` (level.dfy): the `Spike` and `Platform` records and their shared
  scroll formula `x(now, speed) = (collision_time - now) * speed + 250`.
  `ObstacleAt`/`LevelOf` give one obstacle per beat by the placement rule.
  The method `BuildLevel` is the source's loop that appends to two lists. It is
  proved to produce exactly the spikes and the platforms of that level, in
  order.
- `Setup` (setup.dfy): the difficulty filter. `beats[::3] or beats`,
  `beats[::2] or beats` and `beats` are modelled with `Stride`, Python's
  extended slice. It also holds the game clock's start value computed from
  the first beat, the game clock of a frame, and the track position of the
  audio.
- `Simulation` (simulation.dfy): one frame of a run. `Frame` is a function
  over a `World` record: the player's height `py` and speed `vy`, the pending
  jump request, the game-over flag, and the remaining spikes and platforms. A
  frame runs in the source's order:
  1. poll events;
  2. apply the jump buffer;
  3. apply gravity (unless dead);
  4. cull platforms;
  5. land on the first crossed platform;
  6. clamp to the effective ground;
  7. check fatal platform contacts;
  8. cull spikes, where any spike contact is fatal.

  The class `Run` holds this state in fields. Its `Step(now, events)` method
  is proved to change them exactly as `Frame` says. The per-frame list loops
  are methods proved against their specification functions (`CullPlatforms`,
  `FindLanding` with its early exit, `CheckPlatforms`, `CullSpikes`,
  `LandOrClamp`, `Poll`). The frame clock and the input device become
  parameters: game clock `now` and the frame's event list.

Times and pixel coordinates are reals.

The jump test compares `py` with the ground line,
`py >= ground_y - player_h - 1` (game.py:528), so a player standing on a
platform cannot jump. The jump buffer runs before gravity and landing
(game.py:526-536).

The player starts at `H - 160`, which is 10 pixels below its resting height
`ground_y - player_h = H - 170`. The floor invariant (`FloorInvariant`) is
therefore stated for every frame that runs physics, not for the initial state.

## Model

| member | source | states |
|---|---|---|
| Geometry.Overlaps | game.py:578 | `colliderect`: rectangles that only share an edge do not collide, and colliding rectangles overlap horizontally |
| Geometry.OverlapsSymmetric | game.py:578 | collision does not depend on which of the two rectangles is asked |
| Geometry.PlayerRect | game.py:572 | the player's box is 50 wide from x = 250 (right edge at 300), with its top at `py` and its bottom at `py + 50` |
| Geometry.PlatformRect | game.py:434-442 | a platform is 120 wide starting at x, one block (60) tall, with its bottom on the ground line |
| Geometry.SpikeHitRect | game.py:418-431 | a spike hit-rect is 45 by 50 at x; a ground spike's bottom is the ground line, otherwise its bottom is `height_blocks * 60` above it |
| Geometry.GroundedPlayerClearsOverheadSpike | game.py:424-431 | a player standing on the ground never overlaps an overhead spike, wherever it is |
| Geometry.PlatformStanderMeetsOverheadSpike | game.py:424-431 | a player standing on a platform top overlaps a one-block overhead spike in its column |
| Level.ScrollX | game.py:367-368 | an obstacle is at x = 250 at its collision time; with positive speed it is right of that before and left of it after |
| Level.Spike.X | game.py:367-368 | a spike reaches the player's column at its collision time, coming from the right |
| Level.Platform.X | game.py:381-382 | a platform reaches the player's column at its collision time, coming from the right |
| Level.CrossingTime | game.py:367-368 | for any non-zero speed, an obstacle's x equals the player's x = 250 exactly when `now == collision_time` |
| Level.ScrollMovesLeft | game.py:381-382 | for speed > 0 an obstacle's x strictly decreases as the game clock advances |
| Level.GroundedPlayerMeetsGroundSpike | game.py:418-423 | at its collision time a ground spike overlaps a player standing on the ground, so it must be jumped |
| Level.ObstacleAt | game.py:398-408 | beat i gives a platform iff i mod 6 is 2 or 5; otherwise a spike, overhead (height 1) iff i mod 8 is 4; a spike's height is 1 if i mod 8 is 4 and 0 otherwise; every obstacle's time is `beat + 0.25` |
| Level.LevelOf | game.py:397-408 | the level has exactly one obstacle per beat |
| Level.PatternPeriod | game.py:400-408 | the obstacle kind for beat i depends only on i mod 24 |
| Level.OverheadBeats | game.py:400-408 | beat i gives an overhead spike iff i mod 24 is 4 or 12; beat 20 (mod 24) is taken by the platform rule first |
| Level.SpikesOf | game.py:403-408 | the spike list is no longer than the level, and holds only spikes of the level |
| Level.PlatformsOf | game.py:400-402 | the platform list is no longer than the level, and holds only platforms of the level |
| Level.SplitCount | game.py:394-410 | every obstacle goes to exactly one of the two lists: `len(spikes) + len(platforms) == len(level)` |
| Level.SpikeRank | game.py:403-408 | the spike from beat i follows, in the spike list, exactly the spikes from beats before i |
| Level.PlatformRank | game.py:400-402 | the platform from beat i follows, in the platform list, exactly the platforms from beats before i |
| Level.SpikesKeepBeatOrder | game.py:397-408 | for spike beats i < j, spike i comes before spike j; each has time `beat + 0.25` and height 1 iff its index is 4 mod 8 |
| Level.PlatformsKeepBeatOrder | game.py:397-402 | for platform beats i < j, platform i comes before platform j; each has time `beat + 0.25` |
| Level.BuildLevel | game.py:385-410 | the loop returns exactly the level's spikes and platforms in beat order, one obstacle per beat in total |
| Setup.Stride | game.py:325-327 | `s[::k]` has `ceil(len(s)/k)` elements, starts with `s[0]` when s is non-empty, and holds only elements of s |
| Setup.StrideAt | game.py:325-327 | element j of `s[::k]` is `s[j*k]` |
| Setup.StrideKeepsMultiples | game.py:325-327 | every index that is a multiple of k is kept, at position `i/k` |
| Setup.SelectBeats | game.py:324-329 | a tier's beats are non-empty iff all beats are, start with the first beat, and are drawn from all beats |
| Setup.SelectBeatsIsStride | game.py:325-329 | the `or all_beats` fallback never changes the result: each tier is exactly the slice with step 3, 2 or 1 |
| Setup.StartOffset | game.py:657-661 | for a non-negative first beat the game clock's start value lies in `[0, first_beat]`; it is at least 1 s before a first beat at or after 1 s, and never more than 2 s before it |
| Setup.SongTime | game.py:501 | the game clock is never before the start offset, and equals it at 0 ms |
| Setup.PlaybackPosition | game.py:492-494 | the track position after some milliseconds of playback is never before the position playback started at |
| Setup.AsWrittenClockLeadsAudio | game.py:493-501 | as written, the game clock runs ahead of the audio by exactly the start offset |
| Setup.AsWrittenSpikeBeforeBeat | game.py:493-501 | as written, with the first beat at 3 s the beat-0 spike reaches the player while the audio is at 2.25 s, before the beat |
| Setup.IntendedSpikeAfterBeat | game.py:493-501 | with playback started at the offset, the audio equals the game clock, so a spike reaches the player exactly 0.25 s after its beat is heard |
| Setup.SongTimeMonotone | game.py:501 | the game clock does not decrease as the millisecond clock advances |
| Setup.FirstObstacleStartsAhead | game.py:657-661 | at game time equal to the start offset (0 ms elapsed) the first obstacle is a ground spike at least `0.25 * speed` to the right of the player |
| Simulation.HandleEvent | game.py:504-524 | one event ends the run iff it is run-ending (Quit gives "quit", Escape gives "esc", R after death "restart", T after death "change_diff"); otherwise the request becomes `now` iff it asks for a jump, and is kept if not |
| Simulation.PollEvents | game.py:504-524 | the request afterwards is the old one or `now`; a run-ending first event decides the frame's events alone |
| Simulation.RunResultIgnoresRequest | game.py:504-520 | whether and how an event ends the run does not depend on the pending request |
| Simulation.PollEndsRunIff | game.py:504-524 | a frame's events end the run iff one is a window close, Escape, or R/T after death; the result is then the first such event's result |
| Simulation.PollRecordsJumps | game.py:513-524 | without a run-ending event, the request becomes `now` iff Space/Up was pressed, or (alive only) the left button clicked; otherwise it is kept |
| Simulation.Poll | game.py:504-524 | the event loop, with its early returns, computes exactly `PollEvents` |
| Simulation.JumpBuffer | game.py:526-532 | the request is only ever kept or cleared; a pending request leaves `vy` alone; `vy` changes only to -11 when a request fires; a stale request is cleared without a jump |
| Simulation.Integrate | game.py:534-536 | while dead nothing moves; while alive `vy` grows by 0.38 and `py` moves by the new `vy` |
| Simulation.OnScreenPlatforms | game.py:541-547 | a platform is kept iff its x is greater than -140 |
| Simulation.OnScreenSpikes | game.py:586-594 | a spike is kept iff its x is greater than -80 |
| Simulation.PlatformRects | game.py:542-544 | one rectangle per kept platform, in order: left edge at the platform's x, 120 wide, bottom on the ground line, top one block above it |
| Simulation.LandsOn | game.py:557-558 | a landing needs the feet to have moved down or stayed; feet that sank into the block overlap it |
| Simulation.FirstLanding | game.py:555-562 | the result is the first platform, in list order, whose top the feet crossed with horizontal overlap; None iff there is none |
| Simulation.FatalPlatformContact | game.py:578-583 | a contact is fatal iff the rectangles overlap and the feet are more than 2 px below the top |
| Simulation.FindLanding | game.py:555-562 | the search loop with `break` returns exactly `FirstLanding` |
| Simulation.CullPlatforms | game.py:538-547 | the loop keeps exactly `OnScreenPlatforms` and builds their rectangles in order |
| Simulation.CheckPlatforms | game.py:576-583 | the loop reports a hit iff some platform overlaps the player with the feet more than 2 px below its top |
| Simulation.CullSpikes | game.py:585-594 | the loop keeps exactly `OnScreenSpikes` and reports a hit iff a kept spike's hit-rect overlaps the player |
| Simulation.Settle | game.py:549-567 | landing and clamping never move the player down, and whenever they move it they stop it (`vy = 0`) |
| Simulation.Physics | game.py:526-594 | the physics part of a frame never revives the player, only keeps or clears the request, and only drops obstacles |
| Simulation.Frame | game.py:499-594 | a run-ending event stops the frame with only the request updated; a dead player stays dead |
| Simulation.LandOrClamp | game.py:549-567 | landing then ground clamp compute exactly `Settle` |
| Simulation.SettleStaysAboveGround | game.py:564-567 | after landing/clamping the feet are at or above the ground line |
| Simulation.FloorInvariant | game.py:549-567 | after every physics frame `py <= ground_y - player_h`, whatever the prior state |
| Simulation.LandingIsClean | game.py:555-562 | landing while falling snaps the feet to the platform top with `vy = 0`, and this contact is not fatal |
| Simulation.NoLandingMeansGroundClamp | game.py:555-567 | when rising, or when no platform top was crossed with overlap, only the ground clamp can move the player |
| Simulation.GameOverIsFinal | game.py:576-594 | no frame resets `game_over` |
| Simulation.DeadPlayerStaysPut | game.py:534-536 | while dead, gravity is skipped: a player at or above the floor keeps its height, whatever the input |
| Simulation.StaleRequestIsDropped | game.py:526-532 | a request older than 0.5 s is discarded without a jump; the frame equals the frame with no request |
| Simulation.FreshRequestFires | game.py:526-536 | a request within 0.5 s fires, while alive and with the feet within 1 px above the ground line: request cleared, `vy = -11 + 0.38`, py moves by that |
| Simulation.FreshRequestWaits | game.py:526-530 | a request within 0.5 s, while the player is more than 1 px above the floor, stays pending |
| Simulation.PlatformTopBlocksJump | game.py:528 | a player standing on a platform top cannot jump; its request stays pending |
| Simulation.PlatformCullingIsMonotone | game.py:541-547 | culling at t1 and then at a later t2 equals culling at t2 alone |
| Simulation.SpikeCullingIsMonotone | game.py:586-594 | culling at t1 and then at a later t2 equals culling at t2 alone |
| Simulation.CulledObstaclesAreHarmless | game.py:543 | a culled platform or spike lies wholly left of the player and cannot touch it |
| Simulation.Run.constructor | game.py:472-497 | ground line at `H - 120`, player at `H - 160` at rest, no request, alive, obstacles from `build_level` |
| Simulation.Run.Step | game.py:499-594 | one frame changes the fields exactly as `Frame`, and returns the run-ending result if an event ended the run |
| Simulation.Run.Advance | game.py:526-594 | the physics part of a frame changes the fields exactly as `Physics` |
| Simulation.Run.Move | game.py:526-536 | jump buffer, then gravity unless dead |
| Simulation.Run.Resolve | game.py:538-594 | culling, landing/clamp and the fatal contacts |

## Findings

| source | as written | input that shows it | evidently intended | confidence | as-written member | corrected member |
|---|---|---|---|---|---|---|
| game.py:493 | `pygame.mixer.music.play()` starts the audio at 0 s, while the game clock starts at `time_offset` (game.py:501) | first beat 3.0 s, so `time_offset` is 1.0 s; after 2250 ms the beat-0 spike reaches the player at game time 3.25 s while the audio is at 2.25 s | start playback at `time_offset`, so each obstacle reaches the player 0.25 s after its beat is heard | medium, not executed | Setup.AsWrittenSpikeBeforeBeat | Setup.IntendedSpikeAfterBeat |

The rest of the model works on the game clock, which is the track position
under the corrected playback start.

## Left out

- Geometry.PlayerRect: does not truncate `py` to an integer. pygame builds the player's rectangle from `int(py)`; the model uses reals throughout.
- Simulation.Run.constructor: `scr` size is taken as the screen height parameter `H`. Fonts, cover art, mixer start and `start_ms` (game.py:462-494) are presentation and clock I/O.
- The 120 Hz frame clock and `get_ticks` (game.py:500-501) are replaced by the game clock `now`, which is a parameter of `Step`. `SongTime` gives its formula; `dt` is unused by the source.
- Rendering is left out: `scr.fill`, the polygon and rectangle drawing in `draw_spike`/`draw_platform`, the metadata overlay and the game-over text (game.py:569-573, 596-616).
- pygame's floating-point arithmetic (for example `gravity = 0.38`) is idealised as exact real arithmetic.
- The Spotify credential handling, track search screen, loading screen and metadata/cover fetch (game.py:37-234) are left out. They are terminal, file, network and UI I/O.
- The audio download, ffmpeg conversion and librosa beat analysis (game.py:241-297) are foreign tools. The beat list is an input to the model.
- The difficulty screen's event loop, including Escape returning to the song picker (game.py:309-347), is left out. Only the three slice expressions are modelled, as `Tier`.
- The menu loops of `main` (game.py:623-687) are UI navigation. That includes restart, change difficulty and `if not all_beats: continue`. Only the start-offset arithmetic is modelled. Its caller always has a non-empty beat list, since `SelectBeats` is non-empty for a non-empty input.
- `pygame.quit()` on a window close is left out, as it shuts down the library.
