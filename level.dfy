/** Level objects and the level builder: every beat the player should jump on
    becomes exactly one obstacle, a ground spike, an overhead spike or a
    platform, that reaches the player's column a fixed lead time after the
    beat. */
module Level {
  import opened Geometry

  /** Seconds between the beat (the moment to jump) and the obstacle reaching
      the player. */
  const JumpLeadTime: real := 0.25

  /** Horizontal offset of an obstacle at its collision time. */
  const SpawnOffset: real := 250.0

  /** Horizontal position, at song time `now`, of an obstacle that reaches the
      player at `collisionTime` while the world scrolls left at `speed`. */
  function ScrollX(collisionTime: real, now: real, speed: real): (x: real)
    ensures now == collisionTime ==> x == SpawnOffset
    ensures speed > 0.0 && now < collisionTime ==> x > SpawnOffset
    ensures speed > 0.0 && now > collisionTime ==> x < SpawnOffset
  {
    var gap := collisionTime - now;
    SignOfProduct(gap, speed);
    gap * speed + SpawnOffset
  }

  lemma SignOfProduct(d: real, speed: real)
    ensures d == 0.0 ==> d * speed == 0.0
    ensures speed > 0.0 && d > 0.0 ==> d * speed > 0.0
    ensures speed > 0.0 && d < 0.0 ==> d * speed < 0.0
  {
    if speed > 0.0 && d < 0.0 {
      assert d * speed == -((-d) * speed);
    }
  }

  /** heightBlocks: 0 for a ground spike, 1 for an overhead spike. */
  datatype Spike = Spike(collisionTime: real, heightBlocks: int) {
    /** Reaches the player's column at its collision time, coming from the
        right. */
    function X(now: real, speed: real): (x: real)
      ensures now == collisionTime ==> x == PlayerX
      ensures speed > 0.0 && now < collisionTime ==> x > PlayerX
    {
      ScrollX(collisionTime, now, speed)
    }
  }

  /** A platform is one block tall and flush with the ground. */
  datatype Platform = Platform(collisionTime: real) {
    /** Reaches the player's column at its collision time, coming from the
        right. */
    function X(now: real, speed: real): (x: real)
      ensures now == collisionTime ==> x == PlayerX
      ensures speed > 0.0 && now < collisionTime ==> x > PlayerX
    {
      ScrollX(collisionTime, now, speed)
    }
  }

  /** An obstacle crosses the player's fixed column exactly at its collision
      time, whatever the (non-zero) scroll speed. */
  lemma CrossingTime(collisionTime: real, now: real, speed: real)
    requires speed != 0.0
    ensures ScrollX(collisionTime, now, speed) == PlayerX <==> now == collisionTime
  {
    if ScrollX(collisionTime, now, speed) == PlayerX {
      assert (collisionTime - now) * speed == 0.0;
    }
  }

  /** With a positive speed, obstacles only ever move left. */
  lemma ScrollMovesLeft(collisionTime: real, now1: real, now2: real, speed: real)
    requires speed > 0.0 && now1 < now2
    ensures ScrollX(collisionTime, now2, speed) < ScrollX(collisionTime, now1, speed)
  {
    var x1, x2 := ScrollX(collisionTime, now1, speed), ScrollX(collisionTime, now2, speed);
    assert x1 == collisionTime * speed - now1 * speed + SpawnOffset;
    assert x2 == collisionTime * speed - now2 * speed + SpawnOffset;
    SignOfProduct(now2 - now1, speed);
    assert now2 * speed - now1 * speed == (now2 - now1) * speed;
  }

  /** A player standing on the ground at a ground spike's collision time
      touches it: ground spikes must be jumped over. */
  lemma GroundedPlayerMeetsGroundSpike(s: Spike, speed: real, groundY: real)
    requires s.heightBlocks <= 0
    ensures Overlaps(PlayerRect(groundY - PlayerH), SpikeHitRect(s.X(s.collisionTime, speed), groundY, s.heightBlocks))
  {
  }

  datatype Obstacle = SpikeObstacle(spike: Spike) | PlatformObstacle(platform: Platform)

  /** The obstacle generated for the beat at index i, at time `beat`: beats
      2 and 5 of every 6 become platforms, otherwise beat 4 of every 8
      becomes an overhead spike, and every other beat a ground spike. */
  function ObstacleAt(i: nat, beat: real): (o: Obstacle)
    ensures o.PlatformObstacle? <==> i % 6 == 2 || i % 6 == 5
    ensures o.PlatformObstacle? ==> o.platform.collisionTime == beat + JumpLeadTime
    ensures o.SpikeObstacle? ==> o.spike.collisionTime == beat + JumpLeadTime
    ensures o.SpikeObstacle? ==> o.spike.heightBlocks == (if i % 8 == 4 then 1 else 0)
  {
    var collisionTime := beat + JumpLeadTime;
    if i % 6 == 2 || i % 6 == 5 then PlatformObstacle(Platform(collisionTime))
    else if i % 8 == 4 then SpikeObstacle(Spike(collisionTime, 1))
    else SpikeObstacle(Spike(collisionTime, 0))
  }

  /** The level as one obstacle per beat, in beat order. */
  function LevelOf(beats: seq<real>): (level: seq<Obstacle>)
    ensures |level| == |beats|
  {
    seq(|beats|, i requires 0 <= i < |beats| => ObstacleAt(i, beats[i]))
  }

  /** The placement pattern repeats every 24 beats (the least common multiple
      of 6 and 8). */
  lemma PatternPeriod(i: nat, beat: real)
    ensures ObstacleAt(i, beat) == ObstacleAt(i % 24, beat)
  {
    var q, r := i / 24, i % 24;
    DivisionUnique(i, 6, 4 * q + r / 6, r % 6);
    DivisionUnique(i, 8, 3 * q + r / 8, r % 8);
  }

  lemma MulBounds(d: int, k: int)
    requires d > 0
    ensures k >= 1 ==> d * k >= d
    ensures k <= -1 ==> d * k <= -d
  {
  }

  /** Quotient and remainder are determined by i == d * m + s with 0 <= s < d. */
  lemma DivisionUnique(i: int, d: int, m: int, s: int)
    requires d > 0 && i == d * m + s && 0 <= s < d
    ensures i % d == s && i / d == m
  {
    MulBounds(d, m - i / d);
  }

  /** Exactly the beats at 4 and 12 (mod 24) become overhead spikes: beat
      20 (mod 24) would qualify by the mod-8 rule but is claimed first by the
      platform rule. */
  lemma OverheadBeats(i: nat, beat: real)
    ensures ObstacleAt(i, beat) == SpikeObstacle(Spike(beat + JumpLeadTime, 1)) <==> i % 24 == 4 || i % 24 == 12
  {
    PatternPeriod(i, beat);
  }

  /** The spikes of a level, in level order. */
  function SpikesOf(level: seq<Obstacle>): (spikes: seq<Spike>)
    ensures |spikes| <= |level|
    ensures forall s :: s in spikes ==> SpikeObstacle(s) in level
  {
    if level == [] then []
    else
      var last := level[|level| - 1];
      var front := level[..|level| - 1];
      assert forall o :: o in front ==> o in level;
      SpikesOf(front) + (if last.SpikeObstacle? then [last.spike] else [])
  }

  /** The platforms of a level, in level order. */
  function PlatformsOf(level: seq<Obstacle>): (platforms: seq<Platform>)
    ensures |platforms| <= |level|
    ensures forall p :: p in platforms ==> PlatformObstacle(p) in level
  {
    if level == [] then []
    else
      var last := level[|level| - 1];
      var front := level[..|level| - 1];
      assert forall o :: o in front ==> o in level;
      PlatformsOf(front) + (if last.PlatformObstacle? then [last.platform] else [])
  }

  /** Every obstacle lands in exactly one of the two lists. */
  lemma {:induction false} SplitCount(level: seq<Obstacle>)
    ensures |SpikesOf(level)| + |PlatformsOf(level)| == |level|
  {
    if level != [] {
      SplitCount(level[..|level| - 1]);
    }
  }

  /** The spikes of a prefix of the level are a prefix of its spikes. */
  lemma {:induction false} SpikesOfPrefix(level: seq<Obstacle>, n: nat)
    requires n <= |level|
    ensures SpikesOf(level[..n]) <= SpikesOf(level)
    decreases |level|
  {
    if n < |level| {
      var front := level[..|level| - 1];
      assert level[..n] == front[..n];
      SpikesOfPrefix(front, n);
    } else {
      assert level[..n] == level;
    }
  }

  /** The platforms of a prefix of the level are a prefix of its platforms. */
  lemma {:induction false} PlatformsOfPrefix(level: seq<Obstacle>, n: nat)
    requires n <= |level|
    ensures PlatformsOf(level[..n]) <= PlatformsOf(level)
    decreases |level|
  {
    if n < |level| {
      var front := level[..|level| - 1];
      assert level[..n] == front[..n];
      PlatformsOfPrefix(front, n);
    } else {
      assert level[..n] == level;
    }
  }

  /** The spike made from obstacle i sits in the spike list right after the
      spikes made from obstacles 0..i-1. */
  lemma SpikeRank(level: seq<Obstacle>, i: nat)
    requires i < |level| && level[i].SpikeObstacle?
    ensures |SpikesOf(level[..i])| < |SpikesOf(level)|
    ensures SpikesOf(level)[|SpikesOf(level[..i])|] == level[i].spike
  {
    assert level[..i + 1][..i] == level[..i];
    assert SpikesOf(level[..i + 1]) == SpikesOf(level[..i]) + [level[i].spike];
    SpikesOfPrefix(level, i + 1);
  }

  /** The platform made from obstacle i sits in the platform list right after
      the platforms made from obstacles 0..i-1. */
  lemma PlatformRank(level: seq<Obstacle>, i: nat)
    requires i < |level| && level[i].PlatformObstacle?
    ensures |PlatformsOf(level[..i])| < |PlatformsOf(level)|
    ensures PlatformsOf(level)[|PlatformsOf(level[..i])|] == level[i].platform
  {
    assert level[..i + 1][..i] == level[..i];
    assert PlatformsOf(level[..i + 1]) == PlatformsOf(level[..i]) + [level[i].platform];
    PlatformsOfPrefix(level, i + 1);
  }

  /** Spikes keep beat order: of two spike beats i < j, the spike of i comes
      first in the spike list, and each carries its beat time plus the lead
      time and the height given by the placement rule. */
  lemma SpikesKeepBeatOrder(beats: seq<real>, i: nat, j: nat)
    requires i < j < |beats|
    requires LevelOf(beats)[i].SpikeObstacle? && LevelOf(beats)[j].SpikeObstacle?
    ensures var level := LevelOf(beats);
      var spikes := SpikesOf(level);
      |SpikesOf(level[..i])| < |SpikesOf(level[..j])| < |spikes| &&
      spikes[|SpikesOf(level[..i])|] == Spike(beats[i] + JumpLeadTime, if i % 8 == 4 then 1 else 0) &&
      spikes[|SpikesOf(level[..j])|] == Spike(beats[j] + JumpLeadTime, if j % 8 == 4 then 1 else 0)
  {
    var level := LevelOf(beats);
    assert level[i] == ObstacleAt(i, beats[i]) && level[j] == ObstacleAt(j, beats[j]);
    SpikeRank(level, i);
    SpikeRank(level, j);
    assert level[..j][..i + 1] == level[..i + 1];
    assert level[..i + 1][..i] == level[..i];
    SpikesOfPrefix(level[..j], i + 1);
  }

  /** Platforms keep beat order, each carrying its beat time plus the lead
      time. */
  lemma PlatformsKeepBeatOrder(beats: seq<real>, i: nat, j: nat)
    requires i < j < |beats|
    requires LevelOf(beats)[i].PlatformObstacle? && LevelOf(beats)[j].PlatformObstacle?
    ensures var level := LevelOf(beats);
      var platforms := PlatformsOf(level);
      |PlatformsOf(level[..i])| < |PlatformsOf(level[..j])| < |platforms| &&
      platforms[|PlatformsOf(level[..i])|] == Platform(beats[i] + JumpLeadTime) &&
      platforms[|PlatformsOf(level[..j])|] == Platform(beats[j] + JumpLeadTime)
  {
    var level := LevelOf(beats);
    assert level[i] == ObstacleAt(i, beats[i]) && level[j] == ObstacleAt(j, beats[j]);
    PlatformRank(level, i);
    PlatformRank(level, j);
    assert level[..j][..i + 1] == level[..i + 1];
    assert level[..i + 1][..i] == level[..i];
    PlatformsOfPrefix(level[..j], i + 1);
  }

  /** Builds the two obstacle lists from the beats the player should jump on,
      one obstacle per beat. */
  method BuildLevel(jumpBeats: seq<real>) returns (spikes: seq<Spike>, platforms: seq<Platform>)
    ensures spikes == SpikesOf(LevelOf(jumpBeats))
    ensures platforms == PlatformsOf(LevelOf(jumpBeats))
    ensures |spikes| + |platforms| == |jumpBeats|
  {
    spikes, platforms := [], [];
    ghost var level := LevelOf(jumpBeats);
    for i := 0 to |jumpBeats|
      invariant spikes == SpikesOf(level[..i])
      invariant platforms == PlatformsOf(level[..i])
    {
      var collisionTime := jumpBeats[i] + JumpLeadTime;
      if i % 6 == 2 || i % 6 == 5 {
        platforms := platforms + [Platform(collisionTime)];
      } else if i % 8 == 4 {
        spikes := spikes + [Spike(collisionTime, 1)];
      } else {
        spikes := spikes + [Spike(collisionTime, 0)];
      }
      assert level[..i + 1][..i] == level[..i];
    }
    assert level[..|jumpBeats|] == level;
    SplitCount(level);
  }
}
