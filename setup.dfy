/** What happens between beat analysis and a run: the difficulty filter that
    picks the beats to jump on, the game clock's value when a run starts, and
    the game clock of a frame. The game clock is song time in the beats'
    units; the audio itself always plays from the start of the track. */
module Setup {
  import opened Geometry
  import opened Level

  /** Python's extended slice s[::k] for a positive step k: the elements at
      indices 0, k, 2k, ... in order. */
  function Stride<T>(s: seq<T>, k: nat): (r: seq<T>)
    requires k >= 1
    ensures |r| == (|s| + k - 1) / k
    ensures |s| > 0 ==> r[0] == s[0]
    ensures forall x :: x in r ==> x in s
    decreases |s|
  {
    if |s| == 0 then []
    else if |s| <= k then
      DivisionUnique(|s| + k - 1, k, 1, |s| - 1);
      [s[0]]
    else
      var rest := Stride(s[k..], k);
      DivisionUnique(|s| + k - 1, k, (|s| - 1) / k + 1, (|s| - 1) % k);
      [s[0]] + rest
  }

  /** The j-th kept element is the element at index j * k. */
  lemma {:induction false} StrideAt<T>(s: seq<T>, k: nat, j: nat)
    requires k >= 1 && j < |Stride(s, k)|
    ensures j * k < |s| && Stride(s, k)[j] == s[j * k]
    decreases |s|
  {
    if j > 0 {
      StrideAt(s[k..], k, j - 1);
      assert (j - 1) * k + k == j * k;
    }
  }

  /** Every element at a multiple of k is kept, at position i / k: together
      with Stride's contract, the slice keeps exactly the indices 0, k, 2k, ... */
  lemma StrideKeepsMultiples<T>(s: seq<T>, k: nat, i: nat)
    requires k >= 1 && i < |s| && i % k == 0
    ensures i / k < |Stride(s, k)| && Stride(s, k)[i / k] == s[i]
  {
    var q := i / k;
    DivisionUnique(i, k, q, 0);
    assert q * k <= |s| - 1;
    DivisionUnique(|s| + k - 1, k, (|s| - 1) / k + 1, (|s| - 1) % k);
    DivisionUnique(|s| - 1, k, (|s| - 1) / k, (|s| - 1) % k);
    BoundedMultiple(q, k, |s| - 1);
    StrideAt(s, k, q);
  }

  /** q * k <= n forces q <= n / k. */
  lemma BoundedMultiple(q: nat, k: nat, n: nat)
    requires k >= 1 && q * k <= n
    ensures q <= n / k
  {
    MulBounds(k, q - n / k);
  }

  /** The three difficulty tiers offered before a run. */
  datatype Tier = Easy | Normal | Hard

  /** The beats the player jumps on for a tier: every third beat, every
      second beat or every beat, falling back to all beats if the slice is
      empty. */
  function SelectBeats(allBeats: seq<real>, tier: Tier): (r: seq<real>)
    ensures |r| > 0 <==> |allBeats| > 0
    ensures |allBeats| > 0 ==> r[0] == allBeats[0]
    ensures forall b :: b in r ==> b in allBeats
  {
    match tier
    case Easy => var s := Stride(allBeats, 3); if s == [] then allBeats else s
    case Normal => var s := Stride(allBeats, 2); if s == [] then allBeats else s
    case Hard => allBeats
  }

  function StrideOf(tier: Tier): nat {
    match tier
    case Easy => 3
    case Normal => 2
    case Hard => 1
  }

  /** The fallback to all beats never changes anything: every tier is exactly
      the stride slice for its step (the slice of a non-empty list is never
      empty, and the slice of an empty one is empty anyway). */
  lemma {:induction false} SelectBeatsIsStride(allBeats: seq<real>, tier: Tier)
    ensures SelectBeats(allBeats, tier) == Stride(allBeats, StrideOf(tier))
  {
    if tier == Hard {
      StrideOne(allBeats);
    }
  }

  lemma {:induction false} StrideOne<T>(s: seq<T>)
    ensures Stride(s, 1) == s
    decreases |s|
  {
    if |s| > 1 {
      StrideOne(s[1..]);
    }
  }

  /** The preferred gap between the start of play and the first beat. */
  const PreBeatStartGap: real := 2.0

  /** The game clock's value when a run starts, given the first beat to jump
      on: two seconds before it when there is room, otherwise one second
      before it, but never below zero. */
  function StartOffset(firstBeat: real): (offset: real)
    ensures firstBeat >= 0.0 ==> 0.0 <= offset <= firstBeat
    ensures firstBeat >= 1.0 ==> firstBeat - offset >= 1.0
    ensures firstBeat - offset <= PreBeatStartGap
  {
    if firstBeat >= PreBeatStartGap then firstBeat - PreBeatStartGap
    else if firstBeat - 1.0 > 0.0 then firstBeat - 1.0 else 0.0
  }

  /** The game clock of a frame drawn `elapsedMs` milliseconds after the run
      started with the clock at `offset`. */
  function SongTime(elapsedMs: nat, offset: real): (now: real)
    ensures now >= offset
    ensures elapsedMs == 0 ==> now == offset
  {
    elapsedMs as real / 1000.0 + offset
  }

  /** Song time never runs backwards as the frame clock advances. */
  lemma SongTimeMonotone(ms1: nat, ms2: nat, offset: real)
    requires ms1 <= ms2
    ensures SongTime(ms1, offset) <= SongTime(ms2, offset)
  {
  }

  /** With 0 ms elapsed, that is at game time equal to the start offset, on a
      non-empty beat list with non-negative times, the first obstacle is still to the right of the player, by at
      least the distance it scrolls in the lead time. */
  lemma FirstObstacleStartsAhead(allBeats: seq<real>, tier: Tier, speed: real)
    requires |allBeats| > 0 && allBeats[0] >= 0.0 && speed > 0.0
    ensures var jumpBeats := SelectBeats(allBeats, tier);
      var now := SongTime(0, StartOffset(jumpBeats[0]));
      LevelOf(jumpBeats)[0] == SpikeObstacle(Spike(jumpBeats[0] + JumpLeadTime, 0)) &&
      LevelOf(jumpBeats)[0].spike.X(now, speed) >= SpawnOffset + JumpLeadTime * speed
  {
    var jumpBeats := SelectBeats(allBeats, tier);
    var offset := StartOffset(jumpBeats[0]);
    var t := jumpBeats[0] + JumpLeadTime;
    assert t - offset >= JumpLeadTime;
    assert (t - offset) * speed >= JumpLeadTime * speed;
  }

  /** The position (seconds) in the track after `elapsedMs` milliseconds of
      playback started at `startAt`. */
  function PlaybackPosition(elapsedMs: nat, startAt: real): (t: real)
    ensures t >= startAt
    ensures elapsedMs == 0 ==> t == startAt
  {
    elapsedMs as real / 1000.0 + startAt
  }

  /** As written, playback starts at the beginning of the track while the
      game clock starts at the offset: the clock runs ahead of the audio by
      exactly the offset, for the whole run. */
  lemma AsWrittenClockLeadsAudio(elapsedMs: nat, offset: real)
    ensures SongTime(elapsedMs, offset) - PlaybackPosition(elapsedMs, 0.0) == offset
  {
  }

  /** A concrete run as written: first beat at 3 s gives offset 1 s; after
      2250 ms the beat-0 spike reaches the player's column (game time 3.25),
      while the audio is at 2.25 s, before the beat has been heard. */
  lemma AsWrittenSpikeBeforeBeat(speed: real)
    requires speed > 0.0
    ensures var offset := StartOffset(3.0);
      var now := SongTime(2250, offset);
      var spike := LevelOf([3.0])[0].spike;
      offset == 1.0 && spike.X(now, speed) == PlayerX &&
      PlaybackPosition(2250, 0.0) < 3.0
  {
  }

  /** With playback started at the offset, the audio position equals the
      game clock, so every obstacle reaches the player exactly the lead time
      after its beat is heard. */
  lemma IntendedSpikeAfterBeat(elapsedMs: nat, offset: real, beat: real, heightBlocks: int, speed: real)
    requires speed != 0.0
    requires Spike(beat + JumpLeadTime, heightBlocks).X(SongTime(elapsedMs, offset), speed) == PlayerX
    ensures PlaybackPosition(elapsedMs, offset) == SongTime(elapsedMs, offset)
    ensures PlaybackPosition(elapsedMs, offset) == beat + JumpLeadTime
  {
    CrossingTime(beat + JumpLeadTime, SongTime(elapsedMs, offset), speed);
  }
}
