/** The player of the latest iteration and the per-frame keyboard handler.
    Player's methods change its fields in place; each is proved to leave the
    state that the value-level rules of module World prescribe. */
module Game {
  import opened Pixels
  import opened Physics
  import opened Resolution
  import opened World
  import opened Steering

  /** Every sprite sheet the player can pick has at least one frame, for both
      facings. */
  ghost predicate SheetsComplete(sprites: map<(Sheet, Facing), seq<Mask>>)
  {
    forall s: Sheet, f: Facing :: HasFrames(sprites, s, f)
  }

  predicate HasFrames(sprites: map<(Sheet, Facing), seq<Mask>>, s: Sheet, f: Facing)
  {
    (s, f) in sprites && |sprites[(s, f)]| > 0
  }

  /** The frame update_sprite shows: the sheet SheetFor picks for the facing,
      advanced every ANIM_DELAY frames and wrapping around. */
  function Frame(sprites: map<(Sheet, Facing), seq<Mask>>, hitCount: int, xvel: real, yvel: real,
                 direction: Facing, animcount: int): (r: Mask)
    requires SheetsComplete(sprites)
    ensures HasFrames(sprites, SheetFor(hitCount, xvel, yvel), direction) &&
            r in sprites[(SheetFor(hitCount, xvel, yvel), direction)]
  {
    assert HasFrames(sprites, SheetFor(hitCount, xvel, yvel), direction);
    var frames := sprites[(SheetFor(hitCount, xvel, yvel), direction)];
    frames[(animcount / AnimDelay) % |frames|]
  }

  /** A sheet with a single frame shows that frame whatever the counter. */
  lemma SingleFrameSheet(sprites: map<(Sheet, Facing), seq<Mask>>, hitCount: int, xvel: real, yvel: real,
                         direction: Facing, a: int, b: int)
    requires SheetsComplete(sprites)
    requires HasFrames(sprites, SheetFor(hitCount, xvel, yvel), direction) &&
             |sprites[(SheetFor(hitCount, xvel, yvel), direction)]| == 1
    ensures Frame(sprites, hitCount, xvel, yvel, direction, a) == Frame(sprites, hitCount, xvel, yvel, direction, b)
  {
  }

  /** A frame is held for ANIM_DELAY calls: counters in the same block of
      ANIM_DELAY show the same frame. */
  lemma FrameHeldForAnimDelay(sprites: map<(Sheet, Facing), seq<Mask>>, hitCount: int, xvel: real, yvel: real,
                              direction: Facing, q: int, a: int, b: int)
    requires SheetsComplete(sprites)
    requires 0 <= a < AnimDelay && 0 <= b < AnimDelay
    ensures Frame(sprites, hitCount, xvel, yvel, direction, q * AnimDelay + a) ==
            Frame(sprites, hitCount, xvel, yvel, direction, q * AnimDelay + b)
  {
    assert (q * AnimDelay + a) / AnimDelay == q;
    assert (q * AnimDelay + b) / AnimDelay == q;
  }

  /** What Player.loop does after collision: friction, the terminal-speed
      clamp, the animation counter and the hit timer. */
  function Settled(c: Kin, fps: int): (r: Kin)
    ensures Abs(r.xvel) <= Abs(c.xvel) && -TerminalVel <= r.yvel <= TerminalVel
    ensures r.animcount == c.animcount + 1
    ensures r == c.(xvel := r.xvel, yvel := r.yvel, animcount := r.animcount, hitCount := r.hitCount)
  {
    c.(xvel := ApplyFriction(c.xvel), yvel := ClampTerminal(c.yvel), animcount := c.animcount + 1,
       hitCount := HitTick(c.hitCount, fps).count)
  }

  /** Player.loop respawns when the hit timer runs out or the player has left
      the world vertically. */
  predicate RespawnDue(c: Kin, fps: int)
    ensures c.y >= 2000 || c.y <= -2000 ==> RespawnDue(c, fps)
    ensures fps >= 0 && c.hitCount == 0 ==> (RespawnDue(c, fps) <==> c.y >= 2000 || c.y <= -2000)
  {
    HitTick(c.hitCount, fps).respawn || c.y >= 2000 || c.y <= -2000
  }

  /** A player who has fallen 2000 pixels out of the world is respawned, and a
      player who has not been hit (hit counter 0) is respawned for no other
      reason. */
  lemma RespawnDueMeaning(c: Kin, fps: int)
    requires fps >= 0
    ensures c.y >= 2000 || c.y <= -2000 ==> RespawnDue(c, fps)
    ensures c.hitCount == 0 && -2000 < c.y < 2000 ==> !RespawnDue(c, fps)
  {
  }

  class Player {
    /** Top-left corner of the player's Rect. */
    var x: int
    var y: int
    const w: int
    const h: int
    var xvel: real
    var yvel: real
    /** The mask of the frame shown. */
    var mask: Mask
    var direction: Facing
    var fallcount: int
    var animcount: int
    var hitCount: int
    /** The start position of each level. */
    const start: seq<(int, int)>
    /** The object touching each side (left, right, top, bottom), or null. */
    var collide: seq<Obstacle?>
    /** The character's sprite sheets by name and facing. */
    const sprites: map<(Sheet, Facing), seq<Mask>>

    ghost predicate Valid()
      reads this`collide
    {
      |collide| == 4 && SheetsComplete(sprites)
    }

    /** The state the frame logic reads and writes. */
    function State(): Kin
      reads this
    {
      Kin(x, y, xvel, yvel, fallcount, hitCount, animcount, direction, collide)
    }

    /** Player(start, level_num, w, h): placed at the level's start, still,
      facing right, showing the first frame of the sheet its state picks. */
    constructor (starts: seq<(int, int)>, levelNum: int, w0: int, h0: int,
                 sheets: map<(Sheet, Facing), seq<Mask>>)
      requires PyIndex(|starts|, levelNum - 1).Some?
      requires SheetsComplete(sheets)
      ensures Valid()
      ensures start == starts && sprites == sheets && w == w0 && h == h0
      ensures var i := PyIndex(|starts|, levelNum - 1).value;
              State() == Kin(starts[i].0, starts[i].1, 0.0, 0.0, 0, 0, 1, Right, [null, null, null, null])
      ensures mask == Frame(sheets, 0, 0.0, 0.0, Right, 0)
    {
      var i := PyIndex(|starts|, levelNum - 1).value;
      x, y, w, h := starts[i].0, starts[i].1, w0, h0;
      xvel, yvel := 0.0, 0.0;
      mask, direction := {}, Right;
      fallcount, animcount := 0, 0;
      hitCount, start := 0, starts;
      collide := [null, null, null, null];
      sprites := sheets;
      new;
      UpdateSprite();
    }

    /** update_sprite: show the frame Frame picks and advance the counter. */
    method UpdateSprite()
      requires Valid()
      modifies this`mask, this`animcount
      ensures mask == Frame(sprites, hitCount, xvel, yvel, direction, old(animcount))
      ensures animcount == old(animcount) + 1
    {
      var sheet := Idle;
      if hitCount != 0 {
        sheet := Hit;
      } else if yvel < 0.0 {
        sheet := Jump;
      } else if yvel > Gravity * 2.0 {
        sheet := FallSheet;
      } else if xvel != 0.0 {
        sheet := Run;
      }
      assert HasFrames(sprites, sheet, direction);
      var frames := sprites[(sheet, direction)];
      mask := frames[(animcount / AnimDelay) % |frames|];
      animcount := animcount + 1;
    }

    /** The steering part of keys: the arrow and A/D keys turn and
        accelerate the player. */
    method SteerKeys(held: KeyState)
      requires Valid()
      modifies this`direction, this`animcount, this`xvel
      ensures State() == Steered(old(State()), held)
    {
      if held.left || (held.a && collide[0] == null) {
        if direction != Left {
          direction, animcount := Left, 0;
        }
        xvel := if xvel <= -MSpeed + Agile then -MSpeed else xvel - Agile;
      } else if held.right || (held.d && collide[1] == null) {
        if direction != Right {
          direction, animcount := Right, 0;
        }
        xvel := if xvel >= MSpeed - Agile then MSpeed else xvel + Agile;
      }
    }

    /** respawn: back to the level's start, or IndexError with nothing
        changed when the level has no start position; returns the camera
        offset that centers the player. */
    method Respawn(levelNum: int) returns (r: Raised<(real, real)>)
      modifies this`x, this`y, this`xvel, this`yvel, this`collide, this`fallcount
      ensures r.IndexError? <==> Respawned(old(State()), start, levelNum).None?
      ensures r.IndexError? ==> State() == old(State())
      ensures r.Returned? ==> State() == Respawned(old(State()), start, levelNum).value && r.value == Center(x, y)
    {
      var i := PyIndex(|start|, levelNum - 1);
      if i.None? {
        return IndexError;
      }
      x, y := start[i.value].0, start[i.value].1;
      xvel, yvel := 0.0, 0.0;
      collide := [null, null, null, null];
      fallcount := 0;
      r := Returned(Center(x, y));
    }

    /** loop: collision, friction, the terminal-speed clamp, the sprite, the
        hit timer, and a respawn when the timer runs out or the player has
        left the world; returns the camera offset (re-centred after a
        respawn). */
    method Loop(fps: int, objects: seq<Obstacle>, offset: (real, real), levelNum: int) returns (r: Raised<(real, real)>)
      requires Valid()
      modifies this`x, this`y, this`xvel, this`yvel, this`fallcount, this`collide, this`mask,
               this`animcount, this`hitCount, objects
      ensures Valid()
      ensures var c := old(Collided(State(), mask, objects));
              var s := Settled(c, fps);
              mask == Frame(sprites, c.hitCount, s.xvel, s.yvel, c.direction, c.animcount) &&
              if RespawnDue(c, fps) then
                (match Respawned(s, start, levelNum)
                 case None => r.IndexError? && State() == s
                 case Some(k) => State() == k && r == Returned(Center(k.x, k.y)))
              else State() == s && r == Returned(offset)
      ensures old(Moving(State())) ==>
                forall o | o in objects :: o.touched == (o in old(Collided(State(), mask, objects)).collide)
      ensures !old(Moving(State())) ==> forall o | o in objects :: o.touched == old(o.touched)
      ensures forall o | o in objects :: o.mask == old(o.mask) && o.image == old(o.image) &&
                                         o.bounced == old(o.bounced) && o.animnum == old(o.animnum)
    {
      Collision(objects);
      r := Settle(fps, offset, levelNum);
    }

    /** The part of loop after collision. */
    method Settle(fps: int, offset: (real, real), levelNum: int) returns (r: Raised<(real, real)>)
      requires Valid()
      modifies this`x, this`y, this`xvel, this`yvel, this`fallcount, this`collide, this`mask,
               this`animcount, this`hitCount
      ensures Valid()
      ensures var c := old(State());
              var s := Settled(c, fps);
              mask == Frame(sprites, c.hitCount, s.xvel, s.yvel, c.direction, c.animcount) &&
              if RespawnDue(c, fps) then
                (match Respawned(s, start, levelNum)
                 case None => r.IndexError? && State() == s
                 case Some(k) => State() == k && r == Returned(Center(k.x, k.y)))
              else State() == s && r == Returned(offset)
    {
      ghost var st := Settled(State(), fps);
      Slow();
      UpdateSprite();
      if hitCount != 0 {
        hitCount := hitCount + 1;
      }
      if hitCount as real > fps as real * RespBuffer + 2.0 {
        hitCount := 0;
        assert State() == st;
        r := Respawn(levelNum);
        return;
      } else if y >= 2000 || y <= -2000 {
        assert State() == st;
        r := Respawn(levelNum);
        return;
      }
      assert State() == st;
      r := Returned(offset);
    }

    /** Friction on the horizontal speed and the terminal-speed clamp on
        the vertical one. */
    method Slow()
      modifies this`xvel, this`yvel
      ensures xvel == ApplyFriction(old(xvel)) && yvel == ClampTerminal(old(yvel))
    {
      if xvel > Friction {
        xvel := xvel - Friction / 2.0;
      } else if xvel < -Friction {
        xvel := xvel + Friction / 2.0;
      } else {
        xvel := 0.0;
      }
      if yvel > TerminalVel {
        yvel := TerminalVel;
      } else if yvel < -TerminalVel {
        yvel := -TerminalVel;
      }
    }

    // -------------------------------------------------------------------------
    // collision and its nested helpers

    /** add_incr: `rect.x += dx; rect.y += dy`, each stored as a whole pixel.
        Rebuilding the mask from the unchanged frame leaves it as it was. */
    method AddIncr(dx: real, dy: real)
      modifies this`x, this`y
      ensures x == Shift(old(x), dx) && y == Shift(old(y), dy)
    {
      x := Shift(x, dx);
      y := Shift(y, dy);
    }

    /** has_collided. */
    predicate HasCollided(o: Obstacle)
      reads this, o
      ensures o.name == Layer ==> !HasCollided(o)
      ensures mask == {} || o.mask == {} ==> !HasCollided(o)
    {
      Hits(mask, x, y, o.Shape())
    }

    /** try_direction: probe one pixel away and come back. Whole-pixel moves
        are exact, so the player ends where it started. */
    method TryDirection(dx: int, dy: int, o: Obstacle) returns (r: Obstacle?)
      modifies this`x, this`y
      ensures x == old(x) && y == old(y)
      ensures r == (if Hits(mask, x + dx, y + dy, o.Shape()) then o else null)
    {
      ghost var x0, y0 := x, y;
      AddIncr(dx as real, dy as real);
      ShiftWhole(x0, dx);
      ShiftWhole(y0, dy);
      var collided := HasCollided(o);
      AddIncr((-dx) as real, (-dy) as real);
      ShiftWhole(x0 + dx, -dx);
      ShiftWhole(y0 + dy, -dy);
      r := if collided then o else null;
    }

    /** `[try_direction(dx, dy, obj) for dx, dy in axes]`: which of the four
        one-pixel probes overlap `o`. */
    method Probes(o: Obstacle) returns (coll: seq<Obstacle?>)
      modifies this`x, this`y
      ensures x == old(x) && y == old(y)
      ensures |coll| == 4
      ensures forall i :: 0 <= i < 4 ==>
        coll[i] == if Hits(mask, x + Axes[i].0, y + Axes[i].1, o.Shape()) then o else null
    {
      coll := [];
      for i := 0 to 4
        invariant x == old(x) && y == old(y)
        invariant |coll| == i
        invariant forall m :: 0 <= m < i ==>
          coll[m] == if Hits(mask, x + Axes[m].0, y + Axes[m].1, o.Shape()) then o else null
      {
        var c := TryDirection(Axes[i].0, Axes[i].1, o);
        coll := coll + [c];
      }
    }

    /** find_non_collision: back off by the increment while overlapping, at
        most `n` times; failing that, return to the starting place and step
        up one pixel at a time, at most `n` times. */
    method FindNonCollision(o: Obstacle, ix: real, iy: real, n: nat)
      modifies this`x, this`y
      ensures (x, y) == Unstick(mask, old(x), old(y), o.Shape(), ix, iy, n)
    {
      var ox, oy := x, y;
      var found := BackOffLoop(o, ix, iy, n);
      if !found {
        x, y := ox, oy;
        StepUpLoop(o, n);
      }
    }

    /** The first loop of find_non_collision: true when it ended clear of
        `o`, with the player where BackOff says. */
    method BackOffLoop(o: Obstacle, ix: real, iy: real, n: nat) returns (found: bool)
      modifies this`x, this`y
      ensures var b := BackOff(mask, old(x), old(y), o.Shape(), ix, iy, n);
              found == b.Some? && (found ==> (x, y) == b.value)
    {
      ghost var pm, s := mask, o.Shape();
      ghost var b := BackOff(pm, x, y, s, ix, iy, n);
      var i := 0;
      while i < n
        invariant 0 <= i <= n
        invariant b == BackOff(pm, x, y, s, ix, iy, n - i)
      {
        if !HasCollided(o) {
          return true;
        }
        AddIncr(-ix, -iy);
        i := i + 1;
      }
      return false;
    }

    /** The fallback loop of find_non_collision: one pixel up at a time
        while overlapping `o`, at most `n` times. */
    method StepUpLoop(o: Obstacle, n: nat)
      modifies this`y
      ensures (x, y) == StepUp(mask, x, old(y), o.Shape(), n)
    {
      ghost var pm, s := mask, o.Shape();
      ghost var r := StepUp(pm, x, y, s, n);
      var i := 0;
      while i < n
        invariant 0 <= i <= n
        invariant r == StepUp(pm, x, y, s, n - i)
      {
        if !HasCollided(o) {
          return;
        }
        y := y - 1;
        i := i + 1;
      }
    }

    /** deal_with_collision. */
    method DealWithCollision()
      requires |collide| == 4
      modifies this`xvel, this`yvel, this`fallcount
      ensures Motion(xvel, yvel, fallcount) == Deal(Flags(collide), Motion(old(xvel), old(yvel), old(fallcount)))
    {
      if collide[0] != null || collide[1] != null {
        xvel := 0.0;
      }
      if (collide[2] != null && Gravity < 0.0) || (collide[3] != null && Gravity > 0.0) {
        fallcount := 0;
      }
      if collide[2] != null || collide[3] != null {
        yvel := 0.0;
      }
    }

    /** collision: gravity, then the frame's motion in `max_speed` sub-steps
        of at most one pixel, each resolved against the first overlapping
        object; then the objects in the contact record are marked touched
        and blocked axes are stopped. */
    method Collision(objects: seq<Obstacle>)
      requires Valid()
      modifies this`x, this`y, this`xvel, this`yvel, this`fallcount, this`collide, objects
      ensures Valid()
      ensures State() == old(Collided(State(), mask, objects))
      ensures old(Moving(State())) ==> forall o | o in objects :: o.touched == (o in collide)
      ensures !old(Moving(State())) ==> forall o | o in objects :: o.touched == old(o.touched)
      ensures forall o | o in objects :: o.mask == old(o.mask) && o.image == old(o.image) &&
                                         o.bounced == old(o.bounced) && o.animnum == old(o.animnum)
    {
      ApplyGravity();
      ResolveMotion(objects);
    }

    /** Everything in collision after the gravity step: with no motion only
        deal_with_collision runs; otherwise the sub-step loop, marking the
        touched objects, and deal_with_collision. */
    method ResolveMotion(objects: seq<Obstacle>)
      requires Valid()
      modifies this`x, this`y, this`xvel, this`yvel, this`fallcount, this`collide, objects
      ensures Valid()
      ensures State() == old(Resolved(State(), mask, objects))
      ensures old(MaxSpeed(xvel, yvel)) > 0 ==> forall o | o in objects :: o.touched == (o in collide)
      ensures old(MaxSpeed(xvel, yvel)) == 0 ==> forall o | o in objects :: o.touched == old(o.touched)
      ensures forall o | o in objects :: o.mask == old(o.mask) && o.image == old(o.image) &&
                                         o.bounced == old(o.bounced) && o.animnum == old(o.animnum)
    {
      ghost var world := Shapes(objects);
      var fx, fy := Ceil(Abs(xvel)), Ceil(Abs(yvel));
      var maxSpeed: nat := if fx > fy then fx else fy;
      assert maxSpeed == MaxSpeed(xvel, yvel);
      if maxSpeed == 0 {
        DealWithCollision();
        return;
      }
      Move(objects, maxSpeed, world);
    }

    /** The gravity step at the start of collision. */
    method ApplyGravity()
      requires Valid()
      modifies this`fallcount, this`yvel
      ensures State() == Gravitated(old(State()))
    {
      fallcount := fallcount + 1;
      if !((collide[2] != null && Gravity < 0.0) || (collide[3] != null && Gravity > 0.0)) {
        yvel := yvel + (fallcount as real / Fps as real) * Gravity;
      }
    }

    /** The moving branch of collision: the sub-step loop, marking the
        touched objects, and deal_with_collision. */
    method Move(objects: seq<Obstacle>, maxSpeed: nat, ghost world: seq<Solid>)
      requires Valid() && world == Shapes(objects)
      requires maxSpeed == MaxSpeed(xvel, yvel) && maxSpeed > 0
      modifies this`x, this`y, this`xvel, this`yvel, this`fallcount, this`collide, objects
      ensures Valid()
      ensures var b := Resolve(mask, world, old(x), old(y), old(xvel), old(yvel));
              var moved := old(State()).(x := b.x, y := b.y, collide := Refs(b.sides, objects));
              var m := Deal(Flags(moved.collide), Motion(moved.xvel, moved.yvel, moved.fallcount));
              State() == moved.(xvel := m.xvel, yvel := m.yvel, fallcount := m.fallcount)
      ensures forall o | o in objects :: o.touched == (o in collide)
      ensures forall o | o in objects :: o.mask == old(o.mask) && o.image == old(o.image) &&
                                         o.bounced == old(o.bounced) && o.animnum == old(o.animnum)
    {
      Sweep(objects, maxSpeed, world);
      MarkTouched(objects);
      DealWithCollision();
    }

    /** The sub-step loop of collision: `maxSpeed` moves by the increment
        (the frame's velocity divided by `maxSpeed`), each resolved against
        the level; the contact record starts empty. */
    method Sweep(objects: seq<Obstacle>, maxSpeed: nat, ghost world: seq<Solid>)
      requires world == Shapes(objects)
      requires maxSpeed == MaxSpeed(xvel, yvel) && maxSpeed > 0
      modifies this`x, this`y, this`collide
      ensures var b := Resolve(mask, world, old(x), old(y), xvel, yvel);
              x == b.x && y == b.y && collide == Refs(b.sides, objects)
      ensures |collide| == 4
    {
      collide := [null, null, null, null];
      var incX, incY := xvel / maxSpeed as real, yvel / maxSpeed as real;
      var heading := [Sign(xvel), Sign(yvel)];
      ghost var b0 := Body(x, y, NoContact);
      ghost var pm := mask;
      ghost var cur := b0;
      var step := 0;
      while step < maxSpeed
        invariant 0 <= step <= maxSpeed
        invariant cur == SubSteps(pm, world, b0, xvel, yvel, maxSpeed, step)
        invariant x == cur.x && y == cur.y && collide == Refs(cur.sides, objects)
        invariant |collide| == 4
      {
        SubStepAgainst(objects, incX, incY, maxSpeed, heading, world, cur);
        cur := SubStep(pm, world, cur, incX, incY, xvel, yvel, maxSpeed);
        step := step + 1;
      }
      ResolveUnfolds(pm, world, b0.x, b0.y, xvel, yvel);
    }

    /** One pass of collision's sub-step loop: move by the increment; the
        first object in list order that now overlaps is resolved (the move
        is undone, find_non_collision runs, and the probes around that
        object become the contact record) and the rest are not looked at. */
    method SubStepAgainst(objects: seq<Obstacle>, incX: real, incY: real, maxSpeed: nat,
                          heading: seq<int>, ghost world: seq<Solid>, ghost b: Body)
      requires world == Shapes(objects)
      requires |collide| == 4 && heading == [Sign(xvel), Sign(yvel)]
      requires x == b.x && y == b.y && collide == Refs(b.sides, objects)
      modifies this`x, this`y, this`collide
      ensures |collide| == 4
      ensures var next := SubStep(mask, world, b, incX, incY, xvel, yvel, maxSpeed);
              x == next.x && y == next.y && collide == Refs(next.sides, objects)
    {
      ghost var pm := mask;
      ghost var next := SubStep(pm, world, b, incX, incY, xvel, yvel, maxSpeed);
      AddIncr(incX, incY);
      ghost var x1, y1 := x, y;
      var j := 0;
      while j < |objects|
        invariant 0 <= j <= |objects|
        invariant x == x1 && y == y1 && collide == Refs(b.sides, objects)
        invariant forall m :: 0 <= m < j ==> !Hits(pm, x1, y1, world[m])
      {
        var obj := objects[j];
        if HasCollided(obj) {
          assert obj.Shape() == world[j];
          FirstHitAt(pm, x1, y1, world, j);
          SubStepHitPlace(pm, world, b, incX, incY, xvel, yvel, maxSpeed, j);
          SettleOn(objects, j, incX, incY, maxSpeed, heading, world);
          return;
        }
        j := j + 1;
      }
      FirstHitNone(pm, x1, y1, world);
      assert next == Body(x1, y1, b.sides);
    }

    /** The hit branch of the sub-step loop, on `objects[j]`: undo the move,
        find_non_collision, and record the probes the velocity allows. */
    method SettleOn(objects: seq<Obstacle>, j: nat, incX: real, incY: real, maxSpeed: nat,
                    heading: seq<int>, ghost world: seq<Solid>)
      requires world == Shapes(objects) && j < |objects|
      requires heading == [Sign(xvel), Sign(yvel)]
      modifies this`x, this`y, this`collide
      ensures (x, y) == Unstick(mask, Shift(old(x), -incX), Shift(old(y), -incY), world[j], incX, incY, maxSpeed)
      ensures collide == Refs(Contacts(mask, x, y, world[j], j, xvel, yvel), objects)
    {
      var obj := objects[j];
      AddIncr(-incX, -incY);
      FindNonCollision(obj, incX, incY, maxSpeed);
      var coll := Probes(obj);
      ContactsAsRefs(mask, x, y, obj, objects, j, xvel, yvel, coll);
      collide := Gate(coll, heading, obj);
      assert obj.Shape() == world[j];
    }

    /** The end of collision: an object is marked touched exactly when it is
        in the contact record. */
    method MarkTouched(objects: seq<Obstacle>)
      modifies objects
      ensures forall o | o in objects :: o.touched == (o in collide)
      ensures forall o | o in objects :: o.mask == old(o.mask) && o.image == old(o.image) &&
                                         o.bounced == old(o.bounced) && o.animnum == old(o.animnum)
    {
      var t := 0;
      while t < |objects|
        invariant 0 <= t <= |objects|
        invariant forall m :: 0 <= m < t ==> objects[m].touched == (objects[m] in collide)
        invariant forall o | o in objects :: o.mask == old(o.mask) && o.image == old(o.image) &&
                                             o.bounced == old(o.bounced) && o.animnum == old(o.animnum)
      {
        objects[t].touched := objects[t] in collide;
        t := t + 1;
      }
    }
  }

  /** keys: each entry of the contact record (as it was on entry) acts on
      the player, then the held keys steer, jump and respawn. Returns the
      level number, one higher for every goal entry. */
  method Keys(player: Player, levelNum: int, held: KeyState) returns (r: Raised<int>)
    requires player.Valid()
    modifies player`x, player`y, player`xvel, player`yvel, player`fallcount, player`hitCount,
           player`animcount, player`direction, player`collide,
             (set o: Obstacle | o in player.collide)`bounced
    ensures player.Valid() && player.mask == old(player.mask)
    ensures var s := KeysOutcome(old(player.State()), levelNum, held, player.start);
            (r.IndexError? <==> s.IndexError?) &&
            (r.Returned? ==> r.value == s.value.level && player.State() == s.value.k)
    ensures r.Returned? ==> forall o: Obstacle | o in old(player.collide) ::
              o.bounced == old(o.bounced) + (if o.name == Bouncepad then Occurrences(old(player.collide), o) else 0)
    ensures forall o: Obstacle | o in old(player.collide) ::
              o.touched == old(o.touched) && o.mask == old(o.mask) && o.image == old(o.image) && o.animnum == old(o.animnum)
  {
    var level := DispatchContacts(player, levelNum);
    if level.IndexError? {
      return IndexError;
    }
    r := ApplyKeys(player, level.value, held);
  }

  /** The first half of keys: the contact record's entries in order. */
  method DispatchContacts(player: Player, levelNum: int) returns (r: Raised<int>)
    requires player.Valid()
    modifies player`x, player`y, player`xvel, player`yvel, player`fallcount, player`hitCount,
           player`animcount, player`direction, player`collide,
             (set o: Obstacle | o in player.collide)`bounced
    ensures player.Valid() && player.mask == old(player.mask)
    ensures var s := DispatchAll(Tally(old(player.State()), levelNum), old(player.collide), player.start);
            (r.IndexError? <==> s.IndexError?) &&
            (r.Returned? ==> s.value == Tally(player.State(), r.value))
    ensures r.Returned? ==> forall o: Obstacle | o in old(player.collide) ::
              o.bounced == old(o.bounced) + (if o.name == Bouncepad then Occurrences(old(player.collide), o) else 0)
    ensures forall o: Obstacle | o in old(player.collide) ::
              o.touched == old(o.touched) && o.mask == old(o.mask) && o.image == old(o.image) && o.animnum == old(o.animnum)
  {
    var sides := player.collide;
    var level := levelNum;
    var i := 0;
    while i < 4
      invariant 0 <= i <= 4
      invariant player.Valid()
      invariant DispatchAll(Tally(old(player.State()), levelNum), sides, player.start) ==
                DispatchAll(Tally(player.State(), level), sides[i..], player.start)
      invariant forall o: Obstacle | o in sides ::
                  o.bounced == old(o.bounced) + (if o.name == Bouncepad then Occurrences(sides[..i], o) else 0)
    {
      var obj := sides[i];
      ghost var t := Tally(player.State(), level);
      assert sides[i..][1..] == sides[i + 1..];
      OccurrencesPrefixStep(sides, i);
      if obj != null {
        var res := TouchOne(player, obj, level);
        if res.IndexError? {
          return IndexError;
        }
        level := res.value;
      }
      assert Touch(t, obj, player.start) == Returned(Tally(player.State(), level));
      i := i + 1;
    }
    assert sides[..4] == sides;
    r := Returned(level);
  }

  /** One entry of the contact record: a spike counts a hit, a goal moves
      to the next level and respawns there, a bounce pad counts the bounce
      and sets the velocity its angle gives. */
  method TouchOne(player: Player, obj: Obstacle, level: int) returns (r: Raised<int>)
    requires player.Valid()
    modifies player`x, player`y, player`xvel, player`yvel, player`fallcount, player`hitCount,
           player`animcount, player`direction, player`collide, obj`bounced
    ensures player.Valid() && player.mask == old(player.mask)
    ensures var s := Touch(Tally(old(player.State()), level), obj, player.start);
            (r.IndexError? <==> s.IndexError?) &&
            (r.Returned? ==> s.value == Tally(player.State(), r.value))
    ensures obj.bounced == old(obj.bounced) + (if obj.name == Bouncepad then 1 else 0)
  {
    r := Returned(level);
    if obj.name == Spike {
      player.hitCount := player.hitCount + 1;
    } else if obj.name == Goal {
      var res := player.Respawn(level + 1);
      if res.IndexError? {
        return IndexError;
      }
      r := Returned(level + 1);
    } else if obj.name == Bouncepad {
      obj.bounced := obj.bounced + 1;
      if obj.angle == 0 {
        player.yvel := -BounceStrength;
      } else if obj.angle == 90 {
        player.xvel := -BounceStrength;
      } else if obj.angle == 180 {
        player.yvel := BounceStrength;
      } else if obj.angle == 270 {
        player.xvel := BounceStrength;
      }
    }
  }

  /** The second half of keys: the held keys. The left test reads
      `K_LEFT or (K_a and not collide[0])`, so the arrow key ignores a wall
      on the left (and likewise on the right). */
  method ApplyKeys(player: Player, levelNum: int, held: KeyState) returns (r: Raised<int>)
    requires player.Valid()
    modifies player`x, player`y, player`xvel, player`yvel, player`fallcount, player`hitCount,
           player`animcount, player`direction, player`collide
    ensures player.Valid() && player.mask == old(player.mask)
    ensures var s := ApplyHeld(Tally(old(player.State()), levelNum), held, player.start);
            (r.IndexError? <==> s.IndexError?) &&
            (r.Returned? ==> r.value == s.value.level && player.State() == s.value.k)
  {
    player.SteerKeys(held);
    if (held.up || held.w) && player.fallcount == 0 {
      player.yvel, player.animcount, player.fallcount := -Gravity * JumpFactor, 0, 0;
    }
    if held.r {
      var res := player.Respawn(levelNum);
      if res.IndexError? {
        return IndexError;
      }
    }
    r := Returned(levelNum);
  }

  /** When no obstacle overlaps there is no first hit. */
  lemma FirstHitNone(pm: Mask, px: int, py: int, world: seq<Solid>)
    requires forall m :: 0 <= m < |world| ==> !Hits(pm, px, py, world[m])
    ensures FirstHit(pm, px, py, world).None?
  {
  }

  /** An obstacle that overlaps, with none before it overlapping, is the
      first hit. */
  lemma FirstHitAt(pm: Mask, px: int, py: int, world: seq<Solid>, j: nat)
    requires j < |world| && Hits(pm, px, py, world[j])
    requires forall m :: 0 <= m < j ==> !Hits(pm, px, py, world[m])
    ensures FirstHit(pm, px, py, world) == Some(j)
  {
  }

  /** `[obj if coll[i] and direction[i // 2] in axes[i % 2] else None for i
      in range(4)]`: a probe that overlaps is recorded only if the velocity
      on its axis is zero or points toward it. */
  function Gate(coll: seq<Obstacle?>, heading: seq<int>, o: Obstacle): (r: seq<Obstacle?>)
    requires |coll| == 4 && |heading| == 2
    ensures |r| == 4
  {
    seq(4, i requires 0 <= i < 4 =>
      if coll[i] != null && (heading[i / 2] == Axes[i % 2].0 || heading[i / 2] == Axes[i % 2].1)
      then o else null)
  }

  /** The contact record collision builds from the four probes is the one
      Contacts describes, with the obstacle's index replaced by the object. */
  lemma ContactsAsRefs(pm: Mask, px: int, py: int, o: Obstacle, objects: seq<Obstacle>, j: nat, xvel: real, yvel: real,
                       coll: seq<Obstacle?>)
    requires j < |objects| && objects[j] == o
    requires |coll| == 4
    requires forall i :: 0 <= i < 4 ==>
      coll[i] == if Hits(pm, px + Axes[i].0, py + Axes[i].1, o.Shape()) then o else null
    ensures Gate(coll, [Sign(xvel), Sign(yvel)], o) == Refs(Contacts(pm, px, py, o.Shape(), j, xvel, yvel), objects)
  {
    var heading := [Sign(xvel), Sign(yvel)];
    var c := Gate(coll, heading, o);
    var r := Refs(Contacts(pm, px, py, o.Shape(), j, xvel, yvel), objects);
    forall i | 0 <= i < 4
      ensures c[i] == r[i]
    {
      assert Allowed(i, xvel, yvel) <==> (heading[i / 2] == Axes[i % 2].0 || heading[i / 2] == Axes[i % 2].1);
    }
  }
}
