/** One frame of a run: input polling, the jump buffer, gravity, platform
    landing, the ground clamp and the collisions that end the run. The frame
    is specified by the function Frame over a World record; the class Run
    holds the same state in fields and its Step method is proved to perform
    exactly that frame. */
module Simulation {
  import opened Geometry
  import opened Level

  const Gravity: real := 0.38
  const JumpImpulse: real := -11.0
  const ScrollSpeed: real := 330.0

  /** How long (seconds) a jump request stays pending. */
  const JumpBufferTime: real := 0.5

  /** Obstacles whose left edge is at or left of these are dropped. */
  const PlatformCullX: real := -140.0
  const SpikeCullX: real := -80.0

  /** How far (pixels) the player's feet may sink into a platform top before
      touching it is fatal. */
  const LandingTolerance: real := 2.0

  datatype Option<T> = None | Some(value: T)

  datatype Key = EscapeKey | SpaceKey | UpKey | RKey | TKey | OtherKey

  /** The input events of a frame, in the order they were polled. */
  datatype Event = QuitEvent | KeyDown(key: Key) | MouseButtonDown(button: int) | OtherEvent

  /** Why a run ended: window closed, escape to the song picker, restart
      after death, or change difficulty after death. */
  datatype RunResult = Quit | Esc | Restart | ChangeDiff

  /** The state a run carries from one frame to the next. */
  datatype World = World(py: real, vy: real, jumpReq: Option<real>, gameOver: bool,
                         spikes: seq<Spike>, platforms: seq<Platform>)

  datatype Polled = Polled(result: Option<RunResult>, jumpReq: Option<real>)

  datatype FrameResult = FrameResult(result: Option<RunResult>, world: World)

  // ---------------------------------------------------------------- input

  /** The effect of one event on the pending jump request, and whether it
      ends the run. */
  function HandleEvent(e: Event, now: real, gameOver: bool, jumpReq: Option<real>): (p: Polled)
    ensures p.result.Some? <==> EndsRun(e, gameOver)
    ensures p.result.None? ==> p.jumpReq == if RequestsJump(e, gameOver) then Some(now) else jumpReq
    ensures e == QuitEvent ==> p.result == Some(Quit)
    ensures e == KeyDown(EscapeKey) ==> p.result == Some(Esc)
    ensures gameOver && e == KeyDown(RKey) ==> p.result == Some(Restart)
    ensures gameOver && e == KeyDown(TKey) ==> p.result == Some(ChangeDiff)
  {
    match e
    case QuitEvent => Polled(Some(Quit), jumpReq)
    case KeyDown(k) =>
      if k == EscapeKey then Polled(Some(Esc), jumpReq)
      else
        var req := if k == SpaceKey || k == UpKey then Some(now) else jumpReq;
        if gameOver && k == RKey then Polled(Some(Restart), req)
        else if gameOver && k == TKey then Polled(Some(ChangeDiff), req)
        else Polled(None, req)
    case MouseButtonDown(b) => Polled(None, if !gameOver && b == 1 then Some(now) else jumpReq)
    case OtherEvent => Polled(None, jumpReq)
  }

  /** The events of a frame handled in order, stopping at the first one that
      ends the run. */
  function PollEvents(events: seq<Event>, now: real, gameOver: bool, jumpReq: Option<real>): (p: Polled)
    ensures p.jumpReq == jumpReq || p.jumpReq == Some(now)
    ensures |events| > 0 && EndsRun(events[0], gameOver) ==> p == HandleEvent(events[0], now, gameOver, jumpReq)
    decreases |events|
  {
    if events == [] then Polled(None, jumpReq)
    else
      var p := HandleEvent(events[0], now, gameOver, jumpReq);
      if p.result.Some? then p else PollEvents(events[1..], now, gameOver, p.jumpReq)
  }

  /** Events that end the run: closing the window and Escape always; R and T
      only after death. */
  predicate EndsRun(e: Event, gameOver: bool) {
    e == QuitEvent || e == KeyDown(EscapeKey) ||
    (gameOver && (e == KeyDown(RKey) || e == KeyDown(TKey)))
  }

  /** Events that record a jump request: Space and Up always, even after
      death; the left mouse button only while alive. */
  predicate RequestsJump(e: Event, gameOver: bool) {
    e == KeyDown(SpaceKey) || e == KeyDown(UpKey) || (!gameOver && e == MouseButtonDown(1))
  }

  /** Whether and how an event ends the run does not depend on the pending
      request. */
  lemma RunResultIgnoresRequest(e: Event, now: real, gameOver: bool, req1: Option<real>, req2: Option<real>)
    ensures HandleEvent(e, now, gameOver, req1).result == HandleEvent(e, now, gameOver, req2).result
  {
  }

  /** A frame's events end the run exactly when one of them is a run-ending
      event, and then the first such event decides the result. */
  lemma {:induction false} PollEndsRunIff(events: seq<Event>, now: real, gameOver: bool, jumpReq: Option<real>)
    ensures PollEvents(events, now, gameOver, jumpReq).result.Some? <==>
            exists k :: 0 <= k < |events| && EndsRun(events[k], gameOver)
    ensures PollEvents(events, now, gameOver, jumpReq).result.Some? ==>
            exists k :: 0 <= k < |events| && EndsRun(events[k], gameOver) &&
              (forall j :: 0 <= j < k ==> !EndsRun(events[j], gameOver)) &&
              PollEvents(events, now, gameOver, jumpReq).result == HandleEvent(events[k], now, gameOver, jumpReq).result
    decreases |events|
  {
    if events != [] {
      var p := HandleEvent(events[0], now, gameOver, jumpReq);
      PollEndsRunIff(events[1..], now, gameOver, p.jumpReq);
      if p.result.None? && PollEvents(events, now, gameOver, jumpReq).result.Some? {
        var k' :| 0 <= k' < |events| - 1 && EndsRun(events[1..][k'], gameOver) &&
          (forall j :: 0 <= j < k' ==> !EndsRun(events[1..][j], gameOver)) &&
          PollEvents(events[1..], now, gameOver, p.jumpReq).result == HandleEvent(events[1..][k'], now, gameOver, p.jumpReq).result;
        RunResultIgnoresRequest(events[k' + 1], now, gameOver, p.jumpReq, jumpReq);
        assert forall j :: 1 <= j < k' + 1 ==> events[j] == events[1..][j - 1];
      }
      if exists k :: 0 <= k < |events| && EndsRun(events[k], gameOver) {
        var k :| 0 <= k < |events| && EndsRun(events[k], gameOver);
        if k > 0 {
          assert EndsRun(events[1..][k - 1], gameOver);
        }
      } else {
        assert forall k :: 0 <= k < |events| - 1 ==> events[1..][k] == events[k + 1];
      }
    }
  }

  /** When no event ends the run, the pending request afterwards is the
      frame's time if some event asked for a jump, and unchanged otherwise. */
  lemma {:induction false} PollRecordsJumps(events: seq<Event>, now: real, gameOver: bool, jumpReq: Option<real>)
    requires forall k :: 0 <= k < |events| ==> !EndsRun(events[k], gameOver)
    ensures PollEvents(events, now, gameOver, jumpReq).result == None
    ensures PollEvents(events, now, gameOver, jumpReq).jumpReq ==
            if exists k :: 0 <= k < |events| && RequestsJump(events[k], gameOver) then Some(now) else jumpReq
    decreases |events|
  {
    if events != [] {
      var p := HandleEvent(events[0], now, gameOver, jumpReq);
      assert forall k :: 0 <= k < |events| - 1 ==> events[1..][k] == events[k + 1];
      PollRecordsJumps(events[1..], now, gameOver, p.jumpReq);
      if exists k :: 0 <= k < |events| && RequestsJump(events[k], gameOver) {
        var k :| 0 <= k < |events| && RequestsJump(events[k], gameOver);
        if k > 0 {
          assert RequestsJump(events[1..][k - 1], gameOver);
        }
      }
    }
  }

  /** Polls the frame's events in order; returns as soon as one ends the run. */
  method Poll(events: seq<Event>, now: real, gameOver: bool, jumpReq0: Option<real>)
    returns (result: Option<RunResult>, jumpReq: Option<real>)
    ensures Polled(result, jumpReq) == PollEvents(events, now, gameOver, jumpReq0)
  {
    result, jumpReq := None, jumpReq0;
    var i := 0;
    while i < |events|
      invariant 0 <= i <= |events|
      invariant PollEvents(events[i..], now, gameOver, jumpReq) == PollEvents(events, now, gameOver, jumpReq0)
    {
      assert events[i..][0] == events[i] && events[i..][1..] == events[i + 1..];
      match events[i] {
        case QuitEvent =>
          result := Some(Quit);
          return;
        case KeyDown(k) =>
          if k == EscapeKey {
            result := Some(Esc);
            return;
          }
          if k == SpaceKey || k == UpKey {
            jumpReq := Some(now);
          }
          if gameOver {
            if k == RKey {
              result := Some(Restart);
              return;
            }
            if k == TKey {
              result := Some(ChangeDiff);
              return;
            }
          }
        case MouseButtonDown(b) =>
          if !gameOver && b == 1 {
            jumpReq := Some(now);
          }
        case OtherEvent =>
      }
      i := i + 1;
    }
  }

  // -------------------------------------------------------------- physics

  /** The jump buffer: a request older than the window is dropped without a
      jump; a fresh one fires only when the player is within one pixel of
      standing on the ground line, and otherwise stays pending. */
  function JumpBuffer(py: real, vy: real, jumpReq: Option<real>, groundY: real, now: real): (r: (real, Option<real>))
    ensures r.1 == None || r.1 == jumpReq
    ensures r.1.Some? ==> r.0 == vy
    ensures r.0 != vy ==> r.0 == JumpImpulse && r.1 == None && jumpReq.Some?
    ensures jumpReq.Some? && now - jumpReq.value > JumpBufferTime ==> r == (vy, None)
  {
    match jumpReq
    case None => (vy, None)
    case Some(t) =>
      if now - t <= JumpBufferTime then
        if py >= groundY - PlayerH - 1.0 then (JumpImpulse, None) else (vy, jumpReq)
      else (vy, None)
  }

  /** Explicit Euler step, skipped after death. */
  function Integrate(py: real, vy: real, gameOver: bool): (r: (real, real))
    ensures gameOver ==> r == (py, vy)
    ensures !gameOver ==> r.1 - vy == Gravity && r.0 - py == r.1
  {
    if gameOver then (py, vy) else (py + (vy + Gravity), vy + Gravity)
  }

  /** The platforms still on screen, in order. */
  function OnScreenPlatforms(platforms: seq<Platform>, now: real): (kept: seq<Platform>)
    ensures |kept| <= |platforms|
    ensures forall p :: p in kept <==> p in platforms && p.X(now, ScrollSpeed) > PlatformCullX
  {
    if platforms == [] then []
    else
      var front := platforms[..|platforms| - 1];
      var p := platforms[|platforms| - 1];
      assert platforms == front + [p];
      var rest := OnScreenPlatforms(front, now);
      if p.X(now, ScrollSpeed) > PlatformCullX then rest + [p] else rest
  }

  /** The spikes still on screen, in order. */
  function OnScreenSpikes(spikes: seq<Spike>, now: real): (kept: seq<Spike>)
    ensures |kept| <= |spikes|
    ensures forall s :: s in kept <==> s in spikes && s.X(now, ScrollSpeed) > SpikeCullX
  {
    if spikes == [] then []
    else
      var front := spikes[..|spikes| - 1];
      var s := spikes[|spikes| - 1];
      assert spikes == front + [s];
      var rest := OnScreenSpikes(front, now);
      if s.X(now, ScrollSpeed) > SpikeCullX then rest + [s] else rest
  }

  /** The rectangles of the on-screen platforms, in the same order. */
  function PlatformRects(platforms: seq<Platform>, now: real, groundY: real): (rects: seq<Rect>)
    ensures |rects| == |platforms|
    ensures forall k :: 0 <= k < |rects| ==> rects[k].top == groundY - BlockH
    ensures forall k :: 0 <= k < |rects| ==>
      rects[k].left == platforms[k].X(now, ScrollSpeed) && rects[k].Right() == rects[k].left + PlatformW &&
      rects[k].Bottom() == groundY
  {
    seq(|platforms|, k requires 0 <= k < |platforms| => PlatformRect(platforms[k].X(now, ScrollSpeed), groundY))
  }

  /** The player lands on a platform when its feet crossed the platform's top
      during the frame and the two overlap horizontally. */
  predicate LandsOn(r: Rect, prevBottom: real, newBottom: real): (b: bool)
    ensures b ==> prevBottom <= newBottom
    ensures b && r.top < newBottom < r.Bottom() ==> Overlaps(PlayerRect(newBottom - PlayerH), r)
  {
    prevBottom <= r.top <= newBottom && PlayerX + PlayerW > r.left && PlayerX < r.Right()
  }

  /** The first platform, in list order, the player lands on. */
  function FirstLanding(rects: seq<Rect>, prevBottom: real, newBottom: real): (k: Option<nat>)
    ensures k.Some? ==> k.value < |rects| && LandsOn(rects[k.value], prevBottom, newBottom)
    ensures k.Some? ==> forall j :: 0 <= j < k.value ==> !LandsOn(rects[j], prevBottom, newBottom)
    ensures k.None? ==> forall j :: 0 <= j < |rects| ==> !LandsOn(rects[j], prevBottom, newBottom)
  {
    if rects == [] then None
    else if LandsOn(rects[0], prevBottom, newBottom) then Some(0)
    else match FirstLanding(rects[1..], prevBottom, newBottom)
      case Some(j) => Some(j + 1)
      case None => None
  }

  /** Touching a platform is fatal unless the player's feet are at most the
      tolerance below its top. */
  predicate FatalPlatformContact(player: Rect, r: Rect): (fatal: bool)
    ensures !Overlaps(player, r) ==> !fatal
    ensures player.Bottom() <= r.top + LandingTolerance ==> !fatal
    ensures Overlaps(player, r) && player.Bottom() > r.top + LandingTolerance ==> fatal
  {
    Overlaps(player, r) && !(player.Bottom() <= r.top + LandingTolerance)
  }

  predicate HitsPlatform(player: Rect, rects: seq<Rect>) {
    exists k :: 0 <= k < |rects| && FatalPlatformContact(player, rects[k])
  }

  function SpikeRect(s: Spike, now: real, groundY: real): Rect {
    SpikeHitRect(s.X(now, ScrollSpeed), groundY, s.heightBlocks)
  }

  predicate HitsSpike(player: Rect, spikes: seq<Spike>, now: real, groundY: real) {
    exists k :: 0 <= k < |spikes| && Overlaps(player, SpikeRect(spikes[k], now, groundY))
  }

  /** Platform landing followed by the ground clamp, for a player that was
      at `pyPrev` at the start of the frame and is at `py` after gravity. */
  function Settle(pyPrev: real, py: real, vy: real, rects: seq<Rect>, groundY: real): (r: (real, real))
    ensures r.0 <= py
    ensures r != (py, vy) ==> r.1 == 0.0
  {
    var landing := if vy >= 0.0 then FirstLanding(rects, pyPrev + PlayerH, py + PlayerH) else None;
    var effectiveGround := if landing.Some? then rects[landing.value].top else groundY;
    var (py1, vy1) := if landing.Some? then (effectiveGround - PlayerH, 0.0) else (py, vy);
    if py1 >= effectiveGround - PlayerH then (effectiveGround - PlayerH, 0.0) else (py1, vy1)
  }

  /** The physics and collision part of a frame, after input polling. */
  function Physics(w: World, groundY: real, now: real): (r: World)
    ensures w.gameOver ==> r.gameOver
    ensures r.jumpReq == None || r.jumpReq == w.jumpReq
    ensures |r.platforms| <= |w.platforms| && |r.spikes| <= |w.spikes|
  {
    var buffered := JumpBuffer(w.py, w.vy, w.jumpReq, groundY, now);
    var moved := Integrate(w.py, buffered.0, w.gameOver);
    var platforms := OnScreenPlatforms(w.platforms, now);
    var rects := PlatformRects(platforms, now, groundY);
    var settled := Settle(w.py, moved.0, moved.1, rects, groundY);
    var player := PlayerRect(settled.0);
    var spikes := OnScreenSpikes(w.spikes, now);
    var dead := w.gameOver || HitsPlatform(player, rects) || HitsSpike(player, spikes, now, groundY);
    World(settled.0, settled.1, buffered.1, dead, spikes, platforms)
  }

  /** A whole frame at song time `now`: the events are polled first; if one
      ends the run, nothing else happens. */
  function Frame(w: World, groundY: real, now: real, events: seq<Event>): (r: FrameResult)
    ensures r.result.Some? ==> r.world == w.(jumpReq := r.world.jumpReq)
    ensures w.gameOver ==> r.world.gameOver
  {
    var polled := PollEvents(events, now, w.gameOver, w.jumpReq);
    var w1 := w.(jumpReq := polled.jumpReq);
    if polled.result.Some? then FrameResult(polled.result, w1)
    else FrameResult(None, Physics(w1, groundY, now))
  }

  // ------------------------------------------------- per-frame list loops

  /** Drops the platforms that scrolled off the left edge and computes the
      rectangles of the rest. */
  method CullPlatforms(platforms: seq<Platform>, now: real, groundY: real)
    returns (kept: seq<Platform>, rects: seq<Rect>)
    ensures kept == OnScreenPlatforms(platforms, now)
    ensures rects == PlatformRects(kept, now, groundY)
  {
    kept, rects := [], [];
    for i := 0 to |platforms|
      invariant kept == OnScreenPlatforms(platforms[..i], now)
      invariant rects == PlatformRects(kept, now, groundY)
    {
      assert platforms[..i + 1][..i] == platforms[..i];
      var x := platforms[i].X(now, ScrollSpeed);
      if x > PlatformCullX {
        rects := rects + [PlatformRect(x, groundY)];
        kept := kept + [platforms[i]];
      }
    }
    assert platforms[..|platforms|] == platforms;
  }

  /** Searches the platforms in order for the first one the player lands on. */
  method FindLanding(rects: seq<Rect>, prevBottom: real, newBottom: real) returns (landing: Option<nat>)
    ensures landing == FirstLanding(rects, prevBottom, newBottom)
  {
    landing := None;
    var i := 0;
    while i < |rects|
      invariant 0 <= i <= |rects|
      invariant forall j :: 0 <= j < i ==> !LandsOn(rects[j], prevBottom, newBottom)
    {
      if prevBottom <= rects[i].top <= newBottom {
        if PlayerX + PlayerW > rects[i].left && PlayerX < rects[i].Right() {
          landing := Some(i);
          break;
        }
      }
      i := i + 1;
    }
    FirstLandingUnique(rects, prevBottom, newBottom, landing);
  }

  /** FirstLanding is the only answer meeting its own contract. */
  lemma FirstLandingUnique(rects: seq<Rect>, prevBottom: real, newBottom: real, landing: Option<nat>)
    requires landing.Some? ==> landing.value < |rects| && LandsOn(rects[landing.value], prevBottom, newBottom)
    requires landing.Some? ==> forall j :: 0 <= j < landing.value ==> !LandsOn(rects[j], prevBottom, newBottom)
    requires landing.None? ==> forall j :: 0 <= j < |rects| ==> !LandsOn(rects[j], prevBottom, newBottom)
    ensures landing == FirstLanding(rects, prevBottom, newBottom)
  {
    var first := FirstLanding(rects, prevBottom, newBottom);
    if first.Some? && landing.Some? {
      assert !(first.value < landing.value) && !(landing.value < first.value);
    }
  }

  /** Checks the player against every on-screen platform: is any contact
      fatal? */
  method CheckPlatforms(player: Rect, rects: seq<Rect>) returns (hit: bool)
    ensures hit == HitsPlatform(player, rects)
  {
    hit := false;
    for i := 0 to |rects|
      invariant hit == exists k :: 0 <= k < i && FatalPlatformContact(player, rects[k])
    {
      if Overlaps(player, rects[i]) {
        if player.Bottom() <= rects[i].top + LandingTolerance {
        } else {
          hit := true;
        }
      }
    }
  }

  lemma HitsSpikeAppend(player: Rect, spikes: seq<Spike>, s: Spike, now: real, groundY: real)
    ensures HitsSpike(player, spikes + [s], now, groundY) <==>
            HitsSpike(player, spikes, now, groundY) || Overlaps(player, SpikeRect(s, now, groundY))
  {
    var all := spikes + [s];
    assert all[|spikes|] == s;
    assert forall k :: 0 <= k < |spikes| ==> all[k] == spikes[k];
  }

  /** Drops the spikes that scrolled off the left edge and checks the player
      against the rest. */
  method CullSpikes(spikes: seq<Spike>, now: real, groundY: real, player: Rect)
    returns (kept: seq<Spike>, hit: bool)
    ensures kept == OnScreenSpikes(spikes, now)
    ensures hit == HitsSpike(player, kept, now, groundY)
  {
    kept, hit := [], false;
    for i := 0 to |spikes|
      invariant kept == OnScreenSpikes(spikes[..i], now)
      invariant hit == HitsSpike(player, kept, now, groundY)
    {
      assert spikes[..i + 1][..i] == spikes[..i];
      var x := spikes[i].X(now, ScrollSpeed);
      if x > SpikeCullX {
        var hitRect := SpikeHitRect(x, groundY, spikes[i].heightBlocks);
        HitsSpikeAppend(player, kept, spikes[i], now, groundY);
        kept := kept + [spikes[i]];
        if Overlaps(player, hitRect) {
          hit := true;
        }
      }
    }
    assert spikes[..|spikes|] == spikes;
  }

  /** Lands the player on the first platform whose top its feet crossed
      while falling, then clamps it to the effective ground (that platform's
      top, or the ground line). */
  method LandOrClamp(pyPrev: real, py0: real, vy0: real, rects: seq<Rect>, groundY: real)
    returns (py: real, vy: real)
    ensures (py, vy) == Settle(pyPrev, py0, vy0, rects, groundY)
  {
    py, vy := py0, vy0;
    var effectiveGround := groundY;
    var prevBottom, newBottom := pyPrev + PlayerH, py + PlayerH;
    if vy >= 0.0 {
      var landing := FindLanding(rects, prevBottom, newBottom);
      if landing.Some? {
        py := rects[landing.value].top - PlayerH;
        vy := 0.0;
        effectiveGround := rects[landing.value].top;
      }
    }
    if py >= effectiveGround - PlayerH {
      py := effectiveGround - PlayerH;
      vy := 0.0;
    }
  }

  // ------------------------------------------------- frame properties

  /** Landing or clamping never leaves the player below the ground line when
      every platform top is at or above it. */
  lemma SettleStaysAboveGround(pyPrev: real, py: real, vy: real, rects: seq<Rect>, groundY: real)
    requires forall k :: 0 <= k < |rects| ==> rects[k].top <= groundY
    ensures Settle(pyPrev, py, vy, rects, groundY).0 <= groundY - PlayerH
  {
    var landing := if vy >= 0.0 then FirstLanding(rects, pyPrev + PlayerH, py + PlayerH) else None;
    if landing.Some? {
      assert rects[landing.value].top <= groundY;
    }
  }

  /** After every frame that runs physics the player's feet are at or above
      the ground line. */
  lemma FloorInvariant(w: World, groundY: real, now: real)
    ensures Physics(w, groundY, now).py <= groundY - PlayerH
  {
    var buffered := JumpBuffer(w.py, w.vy, w.jumpReq, groundY, now);
    var moved := Integrate(w.py, buffered.0, w.gameOver);
    var rects := PlatformRects(OnScreenPlatforms(w.platforms, now), now, groundY);
    SettleStaysAboveGround(w.py, moved.0, moved.1, rects, groundY);
  }

  /** Landing: with the player falling or at rest, the first platform whose
      top its feet crossed catches it; it ends the frame standing exactly on
      that top at rest, a contact that is not fatal. */
  lemma LandingIsClean(pyPrev: real, py: real, vy: real, rects: seq<Rect>, groundY: real, k: nat)
    requires vy >= 0.0 && FirstLanding(rects, pyPrev + PlayerH, py + PlayerH) == Some(k)
    ensures k < |rects|
    ensures Settle(pyPrev, py, vy, rects, groundY) == (rects[k].top - PlayerH, 0.0)
    ensures !FatalPlatformContact(PlayerRect(rects[k].top - PlayerH), rects[k])
  {
  }

  /** Without a landing (the player rising, or no platform top crossed with
      horizontal overlap) only the ground line can stop the player. */
  lemma NoLandingMeansGroundClamp(pyPrev: real, py: real, vy: real, rects: seq<Rect>, groundY: real)
    requires vy < 0.0 || forall k :: 0 <= k < |rects| ==> !LandsOn(rects[k], pyPrev + PlayerH, py + PlayerH)
    ensures Settle(pyPrev, py, vy, rects, groundY) ==
            if py >= groundY - PlayerH then (groundY - PlayerH, 0.0) else (py, vy)
  {
    if vy >= 0.0 {
      FirstLandingUnique(rects, pyPrev + PlayerH, py + PlayerH, None);
    }
  }

  /** Death is final: no frame clears it. */
  lemma GameOverIsFinal(w: World, groundY: real, now: real, events: seq<Event>)
    requires w.gameOver
    ensures Frame(w, groundY, now, events).world.gameOver
  {
  }

  /** After death gravity is skipped, so a player resting at or above the
      ground line stays at the same height, whatever the input. */
  lemma DeadPlayerStaysPut(w: World, groundY: real, now: real, events: seq<Event>)
    requires w.gameOver && w.py <= groundY - PlayerH
    ensures Frame(w, groundY, now, events).world.py == w.py
  {
    var polled := PollEvents(events, now, w.gameOver, w.jumpReq);
    var w1 := w.(jumpReq := polled.jumpReq);
    var buffered := JumpBuffer(w1.py, w1.vy, w1.jumpReq, groundY, now);
    var rects := PlatformRects(OnScreenPlatforms(w1.platforms, now), now, groundY);
    var landing := if buffered.0 >= 0.0 then FirstLanding(rects, w.py + PlayerH, w.py + PlayerH) else None;
    if landing.Some? {
      assert rects[landing.value].top == w.py + PlayerH;
    }
  }

  /** A request older than the buffer window is dropped: the frame is
      exactly the frame without a pending request. */
  lemma StaleRequestIsDropped(w: World, groundY: real, now: real, t: real)
    requires w.jumpReq == Some(t) && now - t > JumpBufferTime
    ensures Physics(w, groundY, now) == Physics(w.(jumpReq := None), groundY, now)
  {
  }

  /** A fresh request fires when the player stands within a pixel of the
      ground line: the request is consumed and the jump impulse, followed by
      one step of gravity, lifts the player. */
  lemma FreshRequestFires(w: World, groundY: real, now: real, t: real)
    requires w.jumpReq == Some(t) && now - t <= JumpBufferTime && !w.gameOver
    requires groundY - PlayerH - 1.0 <= w.py <= groundY - PlayerH
    ensures Physics(w, groundY, now).jumpReq == None
    ensures Physics(w, groundY, now).vy == JumpImpulse + Gravity
    ensures Physics(w, groundY, now).py == w.py + JumpImpulse + Gravity
  {
    var moved := Integrate(w.py, JumpImpulse, false);
    var rects := PlatformRects(OnScreenPlatforms(w.platforms, now), now, groundY);
    NoLandingMeansGroundClamp(w.py, moved.0, moved.1, rects, groundY);
  }

  /** A fresh request made while the player is higher than a pixel above the
      ground line stays pending. */
  lemma FreshRequestWaits(w: World, groundY: real, now: real, t: real)
    requires w.jumpReq == Some(t) && now - t <= JumpBufferTime
    requires w.py < groundY - PlayerH - 1.0
    ensures Physics(w, groundY, now).jumpReq == Some(t)
  {
  }

  /** In particular a player standing on a platform top cannot jump: the jump
      test looks at the ground line, not at the surface the player stands on. */
  lemma PlatformTopBlocksJump(w: World, groundY: real, now: real, t: real)
    requires w.jumpReq == Some(t) && now - t <= JumpBufferTime
    requires w.py == groundY - BlockH - PlayerH
    ensures Physics(w, groundY, now).jumpReq == Some(t)
  {
    FreshRequestWaits(w, groundY, now, t);
  }

  /** Culling frame by frame loses nothing: dropping what was off screen at
      an earlier time and then what is off screen now is the same as
      dropping what is off screen now. */
  lemma {:induction false} PlatformCullingIsMonotone(platforms: seq<Platform>, t1: real, t2: real)
    requires t1 <= t2
    ensures OnScreenPlatforms(OnScreenPlatforms(platforms, t1), t2) == OnScreenPlatforms(platforms, t2)
  {
    if platforms != [] {
      var front := platforms[..|platforms| - 1];
      var p := platforms[|platforms| - 1];
      PlatformCullingIsMonotone(front, t1, t2);
      var rest := OnScreenPlatforms(front, t1);
      if p.X(t1, ScrollSpeed) > PlatformCullX {
        assert (rest + [p])[..|rest + [p]| - 1] == rest;
      } else {
        assert p.X(t2, ScrollSpeed) <= p.X(t1, ScrollSpeed);
      }
    }
  }

  /** The same for spikes. */
  lemma {:induction false} SpikeCullingIsMonotone(spikes: seq<Spike>, t1: real, t2: real)
    requires t1 <= t2
    ensures OnScreenSpikes(OnScreenSpikes(spikes, t1), t2) == OnScreenSpikes(spikes, t2)
  {
    if spikes != [] {
      var front := spikes[..|spikes| - 1];
      var s := spikes[|spikes| - 1];
      SpikeCullingIsMonotone(front, t1, t2);
      var rest := OnScreenSpikes(front, t1);
      if s.X(t1, ScrollSpeed) > SpikeCullX {
        assert (rest + [s])[..|rest + [s]| - 1] == rest;
      } else {
        assert s.X(t2, ScrollSpeed) <= s.X(t1, ScrollSpeed);
      }
    }
  }

  /** Culling is safe: an obstacle that is dropped lies wholly left of the
      player, so it could not have touched it. */
  lemma CulledObstaclesAreHarmless(p: Platform, s: Spike, now: real, groundY: real, py: real)
    ensures p.X(now, ScrollSpeed) <= PlatformCullX ==>
              !Overlaps(PlayerRect(py), PlatformRect(p.X(now, ScrollSpeed), groundY))
    ensures s.X(now, ScrollSpeed) <= SpikeCullX ==> !Overlaps(PlayerRect(py), SpikeRect(s, now, groundY))
  {
  }

  // ------------------------------------------------------------------ run

  /** The state of one run: the player's height and vertical speed, the
      pending jump request, whether the player died, and the obstacles not yet
      scrolled away. */
  class Run {
    const groundY: real
    var py: real
    var vy: real
    var jumpReq: Option<real>
    var gameOver: bool
    var spikes: seq<Spike>
    var platforms: seq<Platform>

    function State(): World
      reads this
    {
      World(py, vy, jumpReq, gameOver, spikes, platforms)
    }

    /** A run on a screen `screenHeight` pixels tall: the ground line is 120
        pixels above the bottom, the player starts 160 pixels above it, and
        the level is built from the beats to jump on. */
    constructor (screenHeight: int, jumpBeats: seq<real>)
      ensures groundY == screenHeight as real - 120.0
      ensures State() == World(screenHeight as real - 160.0, 0.0, None, false,
                               SpikesOf(LevelOf(jumpBeats)), PlatformsOf(LevelOf(jumpBeats)))
    {
      var s, p := BuildLevel(jumpBeats);
      groundY := screenHeight as real - 120.0;
      py := screenHeight as real - 160.0;
      vy := 0.0;
      jumpReq := None;
      gameOver := false;
      spikes, platforms := s, p;
    }

    /** Runs one frame at song time `now` with the frame's input events. */
    method Step(now: real, events: seq<Event>) returns (result: Option<RunResult>)
      modifies this
      ensures FrameResult(result, State()) == Frame(old(State()), groundY, now, events)
    {
      result, jumpReq := Poll(events, now, gameOver, jumpReq);
      if result.Some? {
        return;
      }
      Advance(now);
    }

    /** The physics and collision part of a frame, once the events are
        polled. */
    method Advance(now: real)
      modifies this
      ensures State() == Physics(old(State()), groundY, now)
    {
      var pyPrev := py;
      Move(now);
      Resolve(now, pyPrev);
    }

    /** The jump buffer, then gravity unless the player is dead. */
    method Move(now: real)
      modifies this`py, this`vy, this`jumpReq
      ensures jumpReq == JumpBuffer(old(py), old(vy), old(jumpReq), groundY, now).1
      ensures (py, vy) == Integrate(old(py), JumpBuffer(old(py), old(vy), old(jumpReq), groundY, now).0, gameOver)
    {
      if jumpReq.Some? {
        if now - jumpReq.value <= JumpBufferTime {
          if py >= groundY - PlayerH - 1.0 {
            vy := JumpImpulse;
            jumpReq := None;
          }
        } else {
          jumpReq := None;
        }
      }
      if !gameOver {
        vy := vy + Gravity;
        py := py + vy;
      }
    }

    /** Culls the platforms, lands or clamps the player, and applies the
        fatal platform and spike contacts. */
    method Resolve(now: real, pyPrev: real)
      modifies this`py, this`vy, this`gameOver, this`spikes, this`platforms
      ensures platforms == OnScreenPlatforms(old(platforms), now)
      ensures (py, vy) == Settle(pyPrev, old(py), old(vy), PlatformRects(platforms, now, groundY), groundY)
      ensures spikes == OnScreenSpikes(old(spikes), now)
      ensures gameOver == (old(gameOver) || HitsPlatform(PlayerRect(py), PlatformRects(platforms, now, groundY))
                                         || HitsSpike(PlayerRect(py), spikes, now, groundY))
    {
      var rects;
      platforms, rects := CullPlatforms(platforms, now, groundY);

      py, vy := LandOrClamp(pyPrev, py, vy, rects, groundY);

      var player := PlayerRect(py);
      var platformHit := CheckPlatforms(player, rects);
      if platformHit {
        gameOver := true;
      }

      var spikeHit;
      spikes, spikeHit := CullSpikes(spikes, now, groundY, player);
      if spikeHit {
        gameOver := true;
      }
    }
  }
}
