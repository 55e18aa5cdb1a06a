/** Screen geometry of the runner: axis-aligned rectangles in pixels, with y
    growing downwards as on the screen, and the fixed sizes of the player and
    of the obstacles. Coordinates are reals (pygame's integer truncation of
    rectangle coordinates is not modelled). */
module Geometry {

  /** The player's fixed horizontal position and body size. */
  const PlayerX: real := 250.0
  const PlayerW: real := 50.0
  const PlayerH: real := 50.0

  /** A platform is one block tall and 120 pixels wide. */
  const BlockH: real := 60.0
  const PlatformW: real := 120.0

  /** A spike's hit-rectangle is 45 by 50 pixels. */
  const SpikeW: real := 45.0
  const SpikeH: real := 50.0

  datatype Rect = Rect(left: real, top: real, width: real, height: real) {
    function Right(): real { left + width }
    function Bottom(): real { top + height }
  }

  /** Strict axis-aligned overlap, as pygame's colliderect: rectangles that
      only share an edge do not collide. */
  predicate Overlaps(a: Rect, b: Rect): (o: bool)
    ensures a.Right() == b.left || b.Right() == a.left ==> !o
    ensures a.Bottom() == b.top || b.Bottom() == a.top ==> !o
    ensures o ==> a.left < b.Right() && b.left < a.Right()
  {
    a.left < b.Right() && a.Right() > b.left && a.top < b.Bottom() && a.Bottom() > b.top
  }

  /** Collision does not depend on which rectangle is asked. */
  lemma OverlapsSymmetric(a: Rect, b: Rect)
    ensures Overlaps(a, b) <==> Overlaps(b, a)
  {
  }

  /** The player's bounding box when its top edge is at `py`. */
  function PlayerRect(py: real): (r: Rect)
    ensures r.left == PlayerX && r.Right() == PlayerX + PlayerW
    ensures r.top == py && r.Bottom() == py + PlayerH
  {
    Rect(PlayerX, py, PlayerW, PlayerH)
  }

  /** A platform whose left edge is at `x`: one block tall, flush with the
      ground line. */
  function PlatformRect(x: real, groundY: real): (r: Rect)
    ensures r.left == x && r.Right() == x + PlatformW
    ensures r.Bottom() == groundY && r.top == groundY - BlockH
  {
    Rect(x, groundY - BlockH, PlatformW, BlockH)
  }

  /** The hit-rectangle of a spike whose left edge is at `x`. A ground spike
      (heightBlocks <= 0) rises from the ground line; any other spike hangs
      with its bottom edge heightBlocks blocks above the ground. */
  function SpikeHitRect(x: real, groundY: real, heightBlocks: int): (r: Rect)
    ensures r.left == x && r.Right() == x + SpikeW && r.Bottom() - r.top == SpikeH
    ensures heightBlocks <= 0 ==> r.Bottom() == groundY
    ensures heightBlocks > 0 ==> r.Bottom() == groundY - heightBlocks as real * BlockH
  {
    if heightBlocks <= 0 then
      Rect(x, groundY - SpikeH, SpikeW, SpikeH)
    else
      var bottomY := groundY - heightBlocks as real * BlockH;
      Rect(x, bottomY - SpikeH, SpikeW, SpikeH)
  }

  /** A player standing on the ground line never touches an overhead spike,
      wherever the spike is: overhead spikes are passed by staying down. */
  lemma GroundedPlayerClearsOverheadSpike(x: real, groundY: real, heightBlocks: int)
    requires heightBlocks >= 1
    ensures !Overlaps(PlayerRect(groundY - PlayerH), SpikeHitRect(x, groundY, heightBlocks))
  {
  }

  /** A player standing on a platform top is exactly as high as a one-block
      overhead spike, so it touches one that reaches its column. */
  lemma PlatformStanderMeetsOverheadSpike(groundY: real)
    ensures Overlaps(PlayerRect(groundY - BlockH - PlayerH), SpikeHitRect(PlayerX, groundY, 1))
  {
  }
}
