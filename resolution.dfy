/** The swept collision resolver of the latest iteration, as pure functions
    over a snapshot of the level. Obstacles are referred to by their index
    in the level's object list; module World ties the indices back to the
    objects themselves. Sides are always listed left, right, top, bottom. */
module Resolution {
  import opened Pixels
  import opened Physics

  /** What the resolver needs to know of an obstacle: its top-left corner,
      its mask, and whether it is a decorative layer (which never collides). */
  datatype Solid = Solid(x: int, y: int, mask: Mask, layer: bool)

  /** `has_collided`: the player's mask `pm` placed at (px, py) shares a
      pixel with the obstacle, and the obstacle is not a layer. */
  predicate Hits(pm: Mask, px: int, py: int, s: Solid)
    ensures s.layer ==> !Hits(pm, px, py, s)
    ensures pm == {} || s.mask == {} ==> !Hits(pm, px, py, s)
  {
    Overlaps(pm, px, py, s.mask, s.x, s.y) && !s.layer
  }

  /** The first obstacle, in list order, that the player overlaps. */
  function FirstHit(pm: Mask, px: int, py: int, world: seq<Solid>): (r: Option<nat>)
    ensures r.Some? ==> r.value < |world| && Hits(pm, px, py, world[r.value])
    ensures r.Some? ==> forall j :: 0 <= j < r.value ==> !Hits(pm, px, py, world[j])
    ensures r.None? ==> forall j :: 0 <= j < |world| ==> !Hits(pm, px, py, world[j])
    decreases |world|
  {
    if |world| == 0 then None
    else if Hits(pm, px, py, world[0]) then Some(0)
    else match FirstHit(pm, px, py, world[1..])
      case None => None
      case Some(k) => Some(k + 1)
  }

  /** The one-pixel probe direction of each side. */
  const Axes: seq<(int, int)> := [(-1, 0), (1, 0), (0, -1), (0, 1)]

  /** `direction[i // 2] in axes[i % 2]`: the sign of the velocity on the
      side's axis is either zero or points toward that side. */
  predicate Allowed(side: nat, xvel: real, yvel: real)
    requires side < 4
  {
    var d := if side / 2 == 0 then Sign(xvel) else Sign(yvel);
    var axis := Axes[side % 2];
    d == axis.0 || d == axis.1
  }

  /** A side can only block when the player is not moving away from it. */
  lemma AllowedMeaning(xvel: real, yvel: real)
    ensures Allowed(0, xvel, yvel) <==> xvel <= 0.0
    ensures Allowed(1, xvel, yvel) <==> xvel >= 0.0
    ensures Allowed(2, xvel, yvel) <==> yvel <= 0.0
    ensures Allowed(3, xvel, yvel) <==> yvel >= 0.0
  {
  }

  /** The contact record after a hit on obstacle `k` (shape `s`): a side
      holds `k` when the one-pixel probe toward it overlaps the obstacle and
      the velocity allows that side. */
  function Contacts(pm: Mask, px: int, py: int, s: Solid, k: nat, xvel: real, yvel: real): (c: seq<Option<nat>>)
    ensures |c| == 4
    ensures forall i :: 0 <= i < 4 ==> c[i] == Some(k) || c[i] == None
    ensures forall i :: 0 <= i < 4 ==>
      (c[i] == Some(k) <==> Hits(pm, px + Axes[i].0, py + Axes[i].1, s) && Allowed(i, xvel, yvel))
  {
    seq(4, i requires 0 <= i < 4 =>
      if Hits(pm, px + Axes[i].0, py + Axes[i].1, s) && Allowed(i, xvel, yvel) then Some(k) else None)
  }

  /** Opposite sides can both be recorded only when the player does not move
      along their axis. */
  lemma OppositeSidesNeedRest(pm: Mask, px: int, py: int, s: Solid, k: nat, xvel: real, yvel: real)
    ensures var c := Contacts(pm, px, py, s, k, xvel, yvel);
            (c[0].Some? && c[1].Some? ==> xvel == 0.0) && (c[2].Some? && c[3].Some? ==> yvel == 0.0)
  {
    AllowedMeaning(xvel, yvel);
  }

  // ---------------------------------------------------------------------------
  // find_non_collision

  /** First phase: while still overlapping, step back by the increment, at
      most `k` times; None when every step still overlapped. */
  function BackOff(pm: Mask, x: int, y: int, s: Solid, ix: real, iy: real, k: nat): (r: Option<(int, int)>)
    ensures r.Some? ==> !Hits(pm, r.value.0, r.value.1, s)
    decreases k
  {
    if k == 0 then None
    else if !Hits(pm, x, y, s) then Some((x, y))
    else BackOff(pm, Shift(x, -ix), Shift(y, -iy), s, ix, iy, k - 1)
  }

  /** Fallback phase: from the original place, step up one pixel at a time
      while still overlapping, at most `k` times. */
  function StepUp(pm: Mask, x: int, y: int, s: Solid, k: nat): (r: (int, int))
    ensures r.0 == x && y - k <= r.1 <= y
    ensures r.1 > y - k ==> !Hits(pm, r.0, r.1, s)
    decreases k
  {
    if k == 0 || !Hits(pm, x, y, s) then (x, y) else StepUp(pm, x, y - 1, s, k - 1)
  }

  /** Where find_non_collision leaves the player. */
  function Unstick(pm: Mask, x: int, y: int, s: Solid, ix: real, iy: real, n: nat): (r: (int, int))
    ensures BackOff(pm, x, y, s, ix, iy, n).Some? ==> !Hits(pm, r.0, r.1, s)
    ensures BackOff(pm, x, y, s, ix, iy, n).None? ==> r.0 == x && y - n <= r.1 <= y
  {
    match BackOff(pm, x, y, s, ix, iy, n)
    case Some(p) => p
    case None => StepUp(pm, x, y, s, n)
  }

  /** A player who does not overlap the obstacle is not moved. */
  lemma UnstickFreeIsIdentity(pm: Mask, x: int, y: int, s: Solid, ix: real, iy: real, n: nat)
    requires n > 0
    requires !Hits(pm, x, y, s)
    ensures Unstick(pm, x, y, s, ix, iy, n) == (x, y)
  {
  }

  // ---------------------------------------------------------------------------
  // Sub-stepping

  /** The player's place and contact record during resolution. */
  datatype Body = Body(x: int, y: int, sides: seq<Option<nat>>)

  const NoContact: seq<Option<nat>> := [None, None, None, None]

  /** One sub-step with increment (ix, iy) for a frame of `n` sub-steps: move;
      if some obstacle now overlaps, the first one in list order is the one
      resolved: the move is undone, find_non_collision runs, and the contact
      record is replaced by the probes around that obstacle. */
  function SubStep(pm: Mask, world: seq<Solid>, b: Body, ix: real, iy: real,
                   xvel: real, yvel: real, n: nat): (r: Body)
    ensures |b.sides| == 4 ==> |r.sides| == 4
    ensures r.sides != b.sides ==> FirstHit(pm, Shift(b.x, ix), Shift(b.y, iy), world).Some?
  {
    var x1 := Shift(b.x, ix);
    var y1 := Shift(b.y, iy);
    match FirstHit(pm, x1, y1, world)
    case None => Body(x1, y1, b.sides)
    case Some(k) =>
      var p := Unstick(pm, Shift(x1, -ix), Shift(y1, -iy), world[k], ix, iy, n);
      Body(p.0, p.1, Contacts(pm, p.0, p.1, world[k], k, xvel, yvel))
  }

  /** The body after the first `i` of the `n` sub-steps of a frame. */
  function SubSteps(pm: Mask, world: seq<Solid>, b: Body, xvel: real, yvel: real, n: nat, i: nat): Body
    requires n > 0
    decreases i
  {
    if i == 0 then b
    else SubStep(pm, world, SubSteps(pm, world, b, xvel, yvel, n, i - 1),
                 xvel / n as real, yvel / n as real, xvel, yvel, n)
  }

  /** The resolver's result for a moving player at (x, y): the contact
      record starts empty and all `MaxSpeed` sub-steps run, also after a
      hit. */
  function Resolve(pm: Mask, world: seq<Solid>, x: int, y: int, xvel: real, yvel: real): (r: Body)
    requires MaxSpeed(xvel, yvel) > 0
    ensures SingleObstacle(r.sides, |world|)
  {
    var n := MaxSpeed(xvel, yvel);
    SubStepsSingleObstacle(pm, world, Body(x, y, NoContact), xvel, yvel, n, n);
    SubSteps(pm, world, Body(x, y, NoContact), xvel, yvel, n, n)
  }

  /** Resolve runs all `MaxSpeed` sub-steps from an empty contact record. */
  lemma ResolveUnfolds(pm: Mask, world: seq<Solid>, x: int, y: int, xvel: real, yvel: real)
    requires MaxSpeed(xvel, yvel) > 0
    ensures var n := MaxSpeed(xvel, yvel);
            Resolve(pm, world, x, y, xvel, yvel) == SubSteps(pm, world, Body(x, y, NoContact), xvel, yvel, n, n)
  {
  }

  // ---------------------------------------------------------------------------
  // Properties of a sub-step

  /** A sub-step that meets nothing moves the player by the increment, keeps
      the contact record, and leaves the player overlapping no obstacle. */
  lemma SubStepFree(pm: Mask, world: seq<Solid>, b: Body, ix: real, iy: real, xvel: real, yvel: real, n: nat)
    requires FirstHit(pm, Shift(b.x, ix), Shift(b.y, iy), world).None?
    ensures var r := SubStep(pm, world, b, ix, iy, xvel, yvel, n);
            r == Body(Shift(b.x, ix), Shift(b.y, iy), b.sides) &&
            forall j :: 0 <= j < |world| ==> !Hits(pm, r.x, r.y, world[j])
  {
  }

  /** A sub-step that meets something is decided by the first overlapping
      obstacle alone: every obstacle listed before it did not overlap, and
      the contact record is replaced by the probes around that obstacle at
      the place find_non_collision leaves the player (so every recorded side
      names it, by the contract of Contacts). */
  lemma SubStepHit(pm: Mask, world: seq<Solid>, b: Body, ix: real, iy: real, xvel: real, yvel: real, n: nat, k: nat)
    requires FirstHit(pm, Shift(b.x, ix), Shift(b.y, iy), world) == Some(k)
    ensures k < |world|
    ensures forall j :: 0 <= j < k ==> !Hits(pm, Shift(b.x, ix), Shift(b.y, iy), world[j])
    ensures var r := SubStep(pm, world, b, ix, iy, xvel, yvel, n);
            r.sides == Contacts(pm, r.x, r.y, world[k], k, xvel, yvel) &&
            (forall i :: 0 <= i < 4 ==> r.sides[i] == Some(k) || r.sides[i] == None)
  {
    var x1 := Shift(b.x, ix);
    var y1 := Shift(b.y, iy);
    var p := Unstick(pm, Shift(x1, -ix), Shift(y1, -iy), world[k], ix, iy, n);
    var c := Contacts(pm, p.0, p.1, world[k], k, xvel, yvel);
    assert SubStep(pm, world, b, ix, iy, xvel, yvel, n) == Body(p.0, p.1, c);
  }

  /** When the increment is whole pixels and the first phase of
      find_non_collision succeeds, a hit leaves the player exactly where the
      sub-step started, clear of the obstacle it hit. */
  lemma SubStepHitWholeUndo(pm: Mask, world: seq<Solid>, b: Body, dx: int, dy: int, xvel: real, yvel: real, n: nat, k: nat)
    requires n > 0
    requires FirstHit(pm, b.x + dx, b.y + dy, world) == Some(k)
    requires !Hits(pm, b.x, b.y, world[k])
    ensures var r := SubStep(pm, world, b, dx as real, dy as real, xvel, yvel, n);
            r.x == b.x && r.y == b.y
  {
    ShiftWhole(b.x, dx);
    ShiftWhole(b.y, dy);
    ShiftWhole(b.x + dx, -dx);
    ShiftWhole(b.y + dy, -dy);
    UnstickFreeIsIdentity(pm, b.x, b.y, world[k], dx as real, dy as real, n);
    SubStepHitPlace(pm, world, b, dx as real, dy as real, xvel, yvel, n, k);
  }

  /** Where a sub-step that hits the k-th obstacle leaves the body. */
  lemma SubStepHitPlace(pm: Mask, world: seq<Solid>, b: Body, ix: real, iy: real, xvel: real, yvel: real, n: nat, k: nat)
    requires FirstHit(pm, Shift(b.x, ix), Shift(b.y, iy), world) == Some(k)
    ensures k < |world|
    ensures var p := Unstick(pm, Shift(Shift(b.x, ix), -ix), Shift(Shift(b.y, iy), -iy), world[k], ix, iy, n);
            SubStep(pm, world, b, ix, iy, xvel, yvel, n) == Body(p.0, p.1, Contacts(pm, p.0, p.1, world[k], k, xvel, yvel))
  {
  }

  // ---------------------------------------------------------------------------
  // The contact record names one obstacle

  /** Every recorded side names the same obstacle, one of the level's. */
  predicate SingleObstacle(sides: seq<Option<nat>>, count: nat)
  {
    |sides| == 4 &&
    (forall i :: 0 <= i < 4 && sides[i].Some? ==> sides[i].value < count) &&
    (forall i, j :: 0 <= i < 4 && 0 <= j < 4 && sides[i].Some? && sides[j].Some? ==> sides[i] == sides[j])
  }

  lemma SubStepSingleObstacle(pm: Mask, world: seq<Solid>, b: Body, ix: real, iy: real, xvel: real, yvel: real, n: nat)
    requires SingleObstacle(b.sides, |world|)
    ensures SingleObstacle(SubStep(pm, world, b, ix, iy, xvel, yvel, n).sides, |world|)
  {
  }

  /** However many sub-steps hit, the contact record at the end of a frame
      names at most one obstacle: the last one resolved. */
  lemma {:induction false} SubStepsSingleObstacle(pm: Mask, world: seq<Solid>, b: Body, xvel: real, yvel: real, n: nat, i: nat)
    requires n > 0
    requires SingleObstacle(b.sides, |world|)
    ensures SingleObstacle(SubSteps(pm, world, b, xvel, yvel, n, i).sides, |world|)
    decreases i
  {
    if i > 0 {
      SubStepsSingleObstacle(pm, world, b, xvel, yvel, n, i - 1);
      SubStepSingleObstacle(pm, world, SubSteps(pm, world, b, xvel, yvel, n, i - 1),
                            xvel / n as real, yvel / n as real, xvel, yvel, n);
    }
  }

  /** An empty level: the player moves freely through all sub-steps and ends
      the frame with no contact. */
  lemma {:induction false} SubStepsInEmptyLevel(pm: Mask, b: Body, xvel: real, yvel: real, n: nat, i: nat)
    requires n > 0
    ensures SubSteps(pm, [], b, xvel, yvel, n, i).sides == b.sides
    decreases i
  {
    if i > 0 {
      SubStepsInEmptyLevel(pm, b, xvel, yvel, n, i - 1);
    }
  }

  // ---------------------------------------------------------------------------
  // A worked frame

  /** One sub-step of the worked frame below: from (0, 0), stepping right
      into the block at (1, 0) is undone and records the right side. */
  lemma WallStep(sides: seq<Option<nat>>)
    ensures SubStep({(0, 0)}, [Solid(1, 0, {(0, 0)}, false)], Body(0, 0, sides), 1.0, 0.0, 3.0, 0.0, 3)
            == Body(0, 0, [None, Some(0), None, None])
  {
    var pm: Mask := {(0, 0)};
    var s := Solid(1, 0, {(0, 0)}, false);
    var world := [s];
    ShiftWhole(0, 1);
    ShiftWhole(1, -1);
    assert Hits(pm, 1, 0, s) by { assert Pixel(pm, (0, 0)); }
    assert FirstHit(pm, 1, 0, world) == Some(0);
    assert !Hits(pm, 0, 0, s);
    assert Unstick(pm, 0, 0, s, 1.0, 0.0, 3) == (0, 0);
    assert !Hits(pm, -1, 0, s);
    assert !Hits(pm, 0, -1, s);
    assert !Hits(pm, 0, 1, s);
    assert Contacts(pm, 0, 0, s, 0, 3.0, 0.0) == [None, Some(0), None, None];
  }

  /** A one-pixel player at (0, 0) moving right at 3 pixels per frame, with a
      one-pixel block directly to its right: every sub-step hits the block,
      the player stays at x = 0, and only the right side is recorded. */
  lemma WallToTheRight()
    ensures Resolve({(0, 0)}, [Solid(1, 0, {(0, 0)}, false)], 0, 0, 3.0, 0.0)
            == Body(0, 0, [None, Some(0), None, None])
  {
    var pm: Mask := {(0, 0)};
    var world := [Solid(1, 0, {(0, 0)}, false)];
    var start := Body(0, 0, NoContact);
    var after := Body(0, 0, [None, Some(0), None, None]);
    assert MaxSpeed(3.0, 0.0) == 3;
    assert 3.0 / 3 as real == 1.0 && 0.0 / 3 as real == 0.0;
    WallStep(NoContact);
    WallStep(after.sides);
    assert SubSteps(pm, world, start, 3.0, 0.0, 3, 1) == after;
    assert SubSteps(pm, world, start, 3.0, 0.0, 3, 2) == after;
    assert SubSteps(pm, world, start, 3.0, 0.0, 3, 3) == after;
  }
}
