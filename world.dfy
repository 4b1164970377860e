/** The level objects of the latest iteration and the value-level rules for
    the player's whole state: the collision step, respawning, the contact
    dispatch and the keyboard response, and the camera helpers. The Player
    class in module Game updates its fields by these rules. */
module World {
  import opened Pixels
  import opened Physics
  import opened Resolution
  import opened Steering

  /** The `name` tag of a level object. */
  datatype Name = Layer | Spike | Block | Bouncepad | Goal

  datatype Facing = Left | Right

  /** Python's `seq[i]`: negative indices count from the end; anything else
      outside the list raises IndexError (None here). */
  function PyIndex(len: nat, i: int): (r: Option<nat>)
    ensures r.Some? ==> r.value < len
    ensures r.Some? <==> -(len as int) <= i < len
    ensures 0 <= i < len ==> r == Some(i)
    ensures i < 0 && r.Some? ==> r.value == len + i
  {
    if 0 <= i < len then Some(i) else if -(len as int) <= i < 0 then Some((len + i) as nat) else None
  }

  /** The outcome of an operation that may raise IndexError. */
  datatype Raised<T> = Returned(value: T) | IndexError

  /** A level object: the common `Object` with the fields of its subclasses
      (Layer, Block, Spike, Bouncepad, Goal). Its place, size, kind and angle
      never change; a bounce pad's frame, mask and counters do. */
  class Obstacle {
    const x: int
    const y: int
    const w: int
    const h: int
    const name: Name
    /** Rotation of a spike's or bounce pad's sprite, in degrees. */
    const angle: int
    /** A bounce pad's animation frames; the single image of other objects. */
    const sprites: seq<Mask>
    /** The frame currently shown. */
    var image: Mask
    /** The collision mask, rebuilt from `image` by update_mask. */
    var mask: Mask
    var touched: bool
    var bounced: int
    var animnum: int

    /** What the resolver sees of this object. */
    function Shape(): Solid
      reads this
    {
      Solid(x, y, mask, name == Layer)
    }

    /** An object of a kind without animation (Layer, Block, Spike, Goal),
        showing `img`. A layer never builds a mask of its own; pygame then
        falls back to the image, which is what `mask` holds here. */
    constructor Still(x0: int, y0: int, w0: int, h0: int, kind: Name, rot: int, img: Mask)
      requires kind != Bouncepad
      ensures x == x0 && y == y0 && w == w0 && h == h0 && name == kind && angle == rot
      ensures sprites == [img] && image == img && mask == img
      ensures !touched && bounced == 0 && animnum == 0
    {
      x, y, w, h := x0, y0, w0, h0;
      name, angle := kind, rot;
      sprites := [img];
      image, mask := img, img;
      touched, bounced, animnum := false, 0, 0;
    }

    /** A bounce pad: it starts on its last frame, at rest. */
    constructor Pad(x0: int, y0: int, w0: int, h0: int, rot: int, frames: seq<Mask>)
      requires |frames| > 0
      ensures x == x0 && y == y0 && w == w0 && h == h0 && name == Bouncepad && angle == rot
      ensures sprites == frames && image == frames[|frames| - 1] && mask == image
      ensures !touched && bounced == 0 && animnum == 0
    {
      x, y, w, h := x0, y0, w0, h0;
      name, angle := Bouncepad, rot;
      sprites := frames;
      image := frames[|frames| - 1];
      mask := image;
      touched, bounced, animnum := false, 0, 0;
    }

    /** The frame index `sprites[...]` points at. */
    ghost function PadState(): Physics.PadState
      reads this
    {
      Physics.PadState(bounced, animnum, 0)
    }

    /** Bouncepad.loop: the mask is first rebuilt from the frame shown so far
        (so it lags the animation by one frame), then the counters advance by
        PadTick and the frame it selects is shown. */
    method PadLoop()
      requires name == Bouncepad && |sprites| > 0
      modifies this`mask, this`image, this`bounced, this`animnum
      ensures mask == old(image)
      ensures var p := PadTick(old(PadState()), |sprites|);
              bounced == p.bounced && animnum == p.animnum && image == sprites[p.frame]
    {
      mask := image;
      if bounced != 0 && bounced <= 5 {
        bounced := bounced + 1;
        image := sprites[(animnum / 2) % |sprites|];
        if animnum / 2 > |sprites| {
          animnum := 0;
        } else {
          animnum := animnum + 1;
        }
      } else {
        animnum, bounced, image := 0, 0, sprites[|sprites| - 1];
      }
    }
  }

  /** The snapshot of a level the resolver works on. */
  function Shapes(objects: seq<Obstacle>): (r: seq<Solid>)
    reads objects
    ensures |r| == |objects|
    ensures forall i {:trigger r[i]} :: 0 <= i < |objects| ==> r[i] == objects[i].Shape()
  {
    seq(|objects|, i reads objects requires 0 <= i < |objects| => objects[i].Shape())
  }

  /** The state of the player that the frame logic reads and writes, with
      `collide` the object touching each side (left, right, top, bottom) or
      null. */
  datatype Kin = Kin(x: int, y: int, xvel: real, yvel: real, fallcount: int,
                     hitCount: int, animcount: int, direction: Facing,
                     collide: seq<Obstacle?>)

  /** Which sides touch something (the truthiness of each `collide` entry). */
  function Flags(c: seq<Obstacle?>): (r: seq<bool>)
    ensures |r| == |c|
    ensures forall i :: 0 <= i < |c| ==> (r[i] <==> c[i] != null)
  {
    seq(|c|, i requires 0 <= i < |c| => c[i] != null)
  }

  /** The objects an index-based contact record names. */
  function Refs(sides: seq<Option<nat>>, objects: seq<Obstacle>): (r: seq<Obstacle?>)
    ensures |r| == |sides|
    ensures forall i {:trigger r[i]} :: 0 <= i < |sides| && sides[i].Some? && sides[i].value < |objects| ==> r[i] == objects[sides[i].value]
    ensures forall i {:trigger r[i]} :: 0 <= i < |sides| && sides[i].None? ==> r[i] == null
  {
    seq(|sides|, i requires 0 <= i < |sides| =>
      if sides[i].Some? && sides[i].value < |objects| then objects[sides[i].value] else null)
  }

  // ---------------------------------------------------------------------------
  // Player.collision

  /** The gravity step at the start of collision: the fall counter goes up by
      one, and gravity acts unless the player rests on gravity's side. */
  function Gravitated(k: Kin): (r: Kin)
    requires |k.collide| == 4
    ensures r.fallcount == k.fallcount + 1
    ensures r == k.(fallcount := r.fallcount, yvel := r.yvel)
  {
    k.(fallcount := k.fallcount + 1,
       yvel := Fall(k.yvel, k.fallcount + 1, Grounded(Flags(k.collide))))
  }

  /** Whether the frame has any motion to resolve after gravity. */
  predicate Moving(k: Kin)
    requires |k.collide| == 4
  {
    MaxSpeed(Gravitated(k).xvel, Gravitated(k).yvel) > 0
  }

  /** The player state after Player.collision with mask `pm` against the
      level `objects`. */
  function Collided(k: Kin, pm: Mask, objects: seq<Obstacle>): (r: Kin)
    requires |k.collide| == 4
    reads objects
    ensures |r.collide| == 4
  {
    Resolved(Gravitated(k), pm, objects)
  }

  /** The rest of collision after gravity: the sub-steps when there is any
      motion, then deal_with_collision. */
  function Resolved(g: Kin, pm: Mask, objects: seq<Obstacle>): (r: Kin)
    requires |g.collide| == 4
    reads objects
    ensures |r.collide| == 4
  {
    var moved :=
      if MaxSpeed(g.xvel, g.yvel) == 0 then g
      else
        var b := Resolve(pm, Shapes(objects), g.x, g.y, g.xvel, g.yvel);
        g.(x := b.x, y := b.y, collide := Refs(b.sides, objects));
    var m := Deal(Flags(moved.collide), Motion(moved.xvel, moved.yvel, moved.fallcount));
    moved.(xvel := m.xvel, yvel := m.yvel, fallcount := m.fallcount)
  }

  /** A frame without motion leaves the place and the contact record as they
      were: only deal_with_collision runs. */
  lemma StillFrameKeepsContacts(k: Kin, pm: Mask, objects: seq<Obstacle>)
    requires |k.collide| == 4
    requires !Moving(k)
    ensures var r := Collided(k, pm, objects);
            r.x == k.x && r.y == k.y && r.collide == k.collide
  {
  }

  /** Resting against the side gravity pulls toward, with no velocity, is a
      fixed point of the collision step except for the fall counter, which
      is back at 0. */
  lemma RestIsStable(k: Kin, pm: Mask, objects: seq<Obstacle>)
    requires |k.collide| == 4
    requires k.xvel == 0.0 && k.yvel == 0.0 && k.collide[2] != null
    ensures Collided(k, pm, objects) == k.(fallcount := 0)
  {
    assert Grounded(Flags(k.collide));
  }

  /** The fall counter goes up by exactly one per collision step, unless the
      player ends it resting on gravity's side, which restarts it. */
  lemma CollidedFallCount(k: Kin, pm: Mask, objects: seq<Obstacle>)
    requires |k.collide| == 4
    ensures var r := Collided(k, pm, objects);
            r.fallcount == if Grounded(Flags(r.collide)) then 0 else k.fallcount + 1
  {
  }

  /** After the collision step a blocked axis has no velocity, and an
      unblocked one keeps the velocity gravity gave it. */
  lemma CollidedStopsBlockedAxes(k: Kin, pm: Mask, objects: seq<Obstacle>)
    requires |k.collide| == 4
    ensures var r := Collided(k, pm, objects);
            (r.collide[0] != null || r.collide[1] != null ==> r.xvel == 0.0) &&
            (r.collide[0] == null && r.collide[1] == null ==> r.xvel == k.xvel) &&
            (r.collide[2] != null || r.collide[3] != null ==> r.yvel == 0.0) &&
            (r.collide[2] == null && r.collide[3] == null ==> r.yvel == Gravitated(k).yvel)
  {
    var r := Collided(k, pm, objects);
    assert Flags(r.collide)[0] == (r.collide[0] != null);
    assert Flags(r.collide)[1] == (r.collide[1] != null);
    assert Flags(r.collide)[2] == (r.collide[2] != null);
    assert Flags(r.collide)[3] == (r.collide[3] != null);
  }

  /** A moving frame ends with every recorded side naming one and the same
      object of the level. */
  lemma CollidedNamesOneObject(k: Kin, pm: Mask, objects: seq<Obstacle>)
    requires |k.collide| == 4
    requires Moving(k)
    ensures var r := Collided(k, pm, objects);
            forall i, j :: 0 <= i < 4 && 0 <= j < 4 && r.collide[i] != null && r.collide[j] != null ==>
              r.collide[i] == r.collide[j] && r.collide[i] in objects
  {
    var g := Gravitated(k);
    var b := Resolve(pm, Shapes(objects), g.x, g.y, g.xvel, g.yvel);
    var c := Refs(b.sides, objects);
    assert Collided(k, pm, objects).collide == c;
    forall i | 0 <= i < 4 && c[i] != null
      ensures b.sides[i].Some? && c[i] == objects[b.sides[i].value]
    {
    }
  }

  // ---------------------------------------------------------------------------
  // Respawning

  /** Player.respawn to level `levelNum`: back to that level's start, still,
      with no contact and a fresh fall counter; IndexError (None) when the
      level has no start position. */
  function Respawned(k: Kin, start: seq<(int, int)>, levelNum: int): (r: Option<Kin>)
    ensures r.None? <==> PyIndex(|start|, levelNum - 1).None?
    ensures r.Some? ==>
      var i := PyIndex(|start|, levelNum - 1).value;
      r.value == k.(x := start[i].0, y := start[i].1, xvel := 0.0, yvel := 0.0,
                    collide := [null, null, null, null], fallcount := 0)
  {
    match PyIndex(|start|, levelNum - 1)
    case None => None
    case Some(i) =>
      Some(k.(x := start[i].0, y := start[i].1, xvel := 0.0, yvel := 0.0,
              collide := [null, null, null, null], fallcount := 0))
  }

  // ---------------------------------------------------------------------------
  // keys: contact dispatch

  /** The player's state and the level number while the contact record is
      dispatched. */
  datatype Tally = Tally(k: Kin, level: int)

  /** The effect of one entry of the contact record: a spike starts (or
      advances) the hit counter, a goal moves to the next level and respawns
      there, a bounce pad sets the velocity its angle gives. The side the
      entry was recorded on plays no part. */
  function Touch(t: Tally, o: Obstacle?, start: seq<(int, int)>): (r: Raised<Tally>)
    ensures o == null ==> r == Returned(t)
    ensures r.IndexError? ==> o != null && o.name == Goal
    ensures r.Returned? && |t.k.collide| == 4 ==> |r.value.k.collide| == 4
    ensures r.Returned? ==> r.value.level == t.level + (if o != null && o.name == Goal then 1 else 0)
    ensures o != null && o.name == Goal ==>
              (r.IndexError? <==> PyIndex(|start|, t.level).None?) &&
              (r.Returned? ==> r.value.k == Respawned(t.k, start, t.level + 1).value)
  {
    if o == null then Returned(t)
    else match o.name
      case Spike => Returned(t.(k := t.k.(hitCount := t.k.hitCount + 1)))
      case Goal =>
        (match Respawned(t.k, start, t.level + 1)
         case None => IndexError
         case Some(k') => Returned(Tally(k', t.level + 1)))
      case Bouncepad =>
        var v := BounceVelocity(o.angle, t.k.xvel, t.k.yvel);
        Returned(t.(k := t.k.(xvel := v.0, yvel := v.1)))
      case _ => Returned(t)
  }

  /** The dispatch loop of keys over the entries `sides` (the contact record
      as it was when the loop started), stopping at the first IndexError. */
  function DispatchAll(t: Tally, sides: seq<Obstacle?>, start: seq<(int, int)>): (r: Raised<Tally>)
    ensures r.Returned? && |t.k.collide| == 4 ==> |r.value.k.collide| == 4
    ensures r.Returned? ==> r.value.level >= t.level
    decreases |sides|
  {
    if |sides| == 0 then Returned(t)
    else match Touch(t, sides[0], start)
      case IndexError => IndexError
      case Returned(t') => DispatchAll(t', sides[1..], start)
  }

  /** Number of entries of `s` that are `o`. */
  function Occurrences(s: seq<Obstacle?>, o: Obstacle): nat
    decreases |s|
  {
    if |s| == 0 then 0 else (if s[0] == o then 1 else 0) + Occurrences(s[1..], o)
  }

  /** Counting over one more entry of a prefix, for every obstacle at once. */
  lemma OccurrencesPrefixStep(sides: seq<Obstacle?>, i: nat)
    requires i < |sides|
    ensures forall o: Obstacle :: Occurrences(sides[..i + 1], o) ==
                                   Occurrences(sides[..i], o) + (if sides[i] == o then 1 else 0)
  {
    assert sides[..i + 1] == sides[..i] + [sides[i]];
    forall o: Obstacle
      ensures Occurrences(sides[..i + 1], o) == Occurrences(sides[..i], o) + (if sides[i] == o then 1 else 0)
    {
      OccurrencesAppend(sides[..i], sides[i], o);
    }
  }

  lemma {:induction false} OccurrencesAppend(s: seq<Obstacle?>, e: Obstacle?, o: Obstacle)
    ensures Occurrences(s + [e], o) == Occurrences(s, o) + (if e == o then 1 else 0)
    decreases |s|
  {
    if |s| > 0 {
      assert (s + [e])[1..] == s[1..] + [e];
      OccurrencesAppend(s[1..], e, o);
    }
  }

  /** The same goal recorded on two sides (a corner touch) advances the level
      twice, skipping one. */
  lemma {:induction false} GoalOnTwoSidesSkipsALevel(k: Kin, g: Obstacle, level: int, start: seq<(int, int)>)
    requires g.name == Goal
    requires 0 <= level && level + 2 <= |start|
    ensures var r := DispatchAll(Tally(k, level), [null, g, null, g], start);
            r.Returned? && r.value.level == level + 2 &&
            r.value.k.x == start[level + 1].0 && r.value.k.y == start[level + 1].1
  {
    var t0 := Tally(k, level);
    var t1 := Tally(Respawned(k, start, level + 1).value, level + 1);
    var t2 := Tally(Respawned(t1.k, start, level + 2).value, level + 2);
    var s0: seq<Obstacle?> := [null, g, null, g];
    assert Touch(t0, g, start) == Returned(t1);
    assert Touch(t1, g, start) == Returned(t2);
    assert DispatchAll(t2, s0[1..][1..][1..][1..], start) == Returned(t2);
    assert DispatchAll(t1, s0[1..][1..][1..], start) == Returned(t2);
    assert DispatchAll(t1, s0[1..][1..], start) == Returned(t2);
    assert DispatchAll(t0, s0[1..], start) == Returned(t2);
  }

  /** Without goals in the record, the hit counter rises by one for every
      entry that is a spike, and the level does not change. */
  lemma {:induction false} SpikesCountHits(t: Tally, sides: seq<Obstacle?>, start: seq<(int, int)>)
    requires forall i :: 0 <= i < |sides| && sides[i] != null ==> sides[i].name != Goal
    ensures DispatchAll(t, sides, start).Returned?
    ensures DispatchAll(t, sides, start).value.level == t.level
    ensures DispatchAll(t, sides, start).value.k.hitCount == t.k.hitCount + SpikeEntries(sides)
    decreases |sides|
  {
    if |sides| > 0 {
      var r := Touch(t, sides[0], start);
      assert r.Returned?;
      SpikesCountHits(r.value, sides[1..], start);
    }
  }

  function SpikeEntries(s: seq<Obstacle?>): nat
    decreases |s|
  {
    if |s| == 0 then 0 else (if s[0] != null && s[0].name == Spike then 1 else 0) + SpikeEntries(s[1..])
  }

  /** Dispatching `a + b` is dispatching `a`, then `b` from where `a` left
      off. */
  lemma {:induction false} DispatchConcat(t: Tally, a: seq<Obstacle?>, b: seq<Obstacle?>, start: seq<(int, int)>)
    ensures DispatchAll(t, a + b, start) ==
      match DispatchAll(t, a, start)
      case IndexError => IndexError
      case Returned(t') => DispatchAll(t', b, start)
    decreases |a|
  {
    if |a| > 0 {
      assert (a + b)[0] == a[0];
      assert (a + b)[1..] == a[1..] + b;
      match Touch(t, a[0], start)
      case IndexError =>
      case Returned(t1) => DispatchConcat(t1, a[1..], b, start);
    } else {
      assert a + b == b;
    }
  }

  /** Empty sides change nothing. */
  lemma {:induction false} EmptySidesDispatchNothing(t: Tally, s: seq<Obstacle?>, start: seq<(int, int)>)
    requires forall i :: 0 <= i < |s| ==> s[i] == null
    ensures DispatchAll(t, s, start) == Returned(t)
    decreases |s|
  {
    if |s| > 0 {
      EmptySidesDispatchNothing(t, s[1..], start);
    }
  }

  /** The contact record with `o` on side `side` alone. */
  function OnlyOn(o: Obstacle, side: nat): (r: seq<Obstacle?>)
    requires side < 4
    ensures |r| == 4 && r[side] == o
    ensures forall i :: 0 <= i < 4 && i != side ==> r[i] == null
  {
    seq(4, i requires 0 <= i < 4 => if i == side then o else null)
  }

  /** A bounce pad recorded on any side fires, whatever side it was: the
      player's velocity becomes the pad's impulse. */
  lemma BounceIgnoresSide(k: Kin, pad: Obstacle, level: int, start: seq<(int, int)>, side: nat)
    requires pad.name == Bouncepad
    requires side < 4
    ensures var r := DispatchAll(Tally(k, level), OnlyOn(pad, side), start);
            r.Returned? && (r.value.k.xvel, r.value.k.yvel) == BounceVelocity(pad.angle, k.xvel, k.yvel)
  {
    var sides := OnlyOn(pad, side);
    var t := Tally(k, level);
    var b := BounceVelocity(pad.angle, k.xvel, k.yvel);
    var t' := Tally(k.(xvel := b.0, yvel := b.1), level);
    var before, rest := sides[..side], sides[side + 1..];
    assert sides == before + ([pad] + rest);
    EmptySidesDispatchNothing(t, before, start);
    DispatchConcat(t, before, [pad] + rest, start);
    assert ([pad] + rest)[1..] == rest;
    EmptySidesDispatchNothing(t', rest, start);
  }

  // ---------------------------------------------------------------------------
  // keys: keyboard

  /** The keys the game reads. Arrow keys and letter keys are separate,
      because the game treats them differently. */
  datatype KeyState = KeyState(left: bool, a: bool, right: bool, d: bool,
                               up: bool, w: bool, r: bool)

  /** `K_LEFT or (K_a and not collide[0])`, as Python groups it: the arrow
      key moves left even against a wall on the left. */
  predicate GoLeft(k: Kin, held: KeyState)
    requires |k.collide| == 4
    ensures k.collide[0] == null ==> (GoLeft(k, held) <==> held.left || held.a)
    ensures k.collide[0] != null ==> (GoLeft(k, held) <==> held.left)
  {
    held.left || (held.a && k.collide[0] == null)
  }

  predicate GoRight(k: Kin, held: KeyState)
    requires |k.collide| == 4
    ensures k.collide[1] == null ==> (GoRight(k, held) <==> held.right || held.d)
    ensures k.collide[1] != null ==> (GoRight(k, held) <==> held.right)
  {
    held.right || (held.d && k.collide[1] == null)
  }

  /** Turning to face `f` restarts the animation. */
  function TurnTo(k: Kin, f: Facing): (r: Kin)
    ensures r.direction == f
    ensures r.animcount == if k.direction != f then 0 else k.animcount
  {
    if k.direction != f then k.(direction := f, animcount := 0) else k
  }

  /** The arrow and A/D keys: turn toward the key (restarting the animation
      on a turn) and accelerate that way, capped at MSPEED. Only the facing,
      the animation counter and the horizontal speed change. */
  function Steered(k: Kin, held: KeyState): (r: Kin)
    requires |k.collide| == 4
    ensures r.(direction := k.direction, animcount := k.animcount, xvel := k.xvel) == k
  {
    if GoLeft(k, held) then TurnTo(k, Left).(xvel := SteerLeft(k.xvel, MSpeed, Agile))
    else if GoRight(k, held) then TurnTo(k, Right).(xvel := SteerRight(k.xvel, MSpeed, Agile))
    else k
  }

  /** The keyboard half of keys, after the dispatch: steer, jump from the
      ground, respawn on R. */
  function ApplyHeld(t: Tally, held: KeyState, start: seq<(int, int)>): (r: Raised<Tally>)
    requires |t.k.collide| == 4
    ensures r.Returned? ==> r.value.level == t.level
    ensures !held.r ==> r.Returned?
    ensures held.r ==> (r.IndexError? <==> PyIndex(|start|, t.level - 1).None?)
  {
    var k1 := Steered(t.k, held);
    var k2 :=
      if (held.up || held.w) && k1.fallcount == 0 then k1.(yvel := -Gravity * JumpFactor, animcount := 0, fallcount := 0)
      else k1;
    if held.r then
      (match Respawned(k2, start, t.level)
       case None => IndexError
       case Some(k3) => Returned(Tally(k3, t.level)))
    else Returned(Tally(k2, t.level))
  }

  /** keys: dispatch the contact record, then apply the keyboard. */
  function KeysOutcome(k: Kin, levelNum: int, held: KeyState, start: seq<(int, int)>): (r: Raised<Tally>)
    requires |k.collide| == 4
    ensures r.Returned? ==> r.value.level >= levelNum && |r.value.k.collide| == 4
  {
    match DispatchAll(Tally(k, levelNum), k.collide, start)
    case IndexError => IndexError
    case Returned(t) => ApplyHeld(t, held, start)
  }

  /** The arrow key steers left even when a wall touches the left side; the
      letter key does not. */
  lemma LeftArrowIgnoresWall(t: Tally, held: KeyState, start: seq<(int, int)>)
    requires |t.k.collide| == 4 && t.k.collide[0] != null
    requires !held.r
    ensures held.left ==> ApplyHeld(t, held, start).value.k.xvel == SteerLeft(t.k.xvel, MSpeed, Agile)
    ensures !held.left && !GoRight(t.k, held) ==> ApplyHeld(t, held, start).value.k.xvel == t.k.xvel
  {
  }

  /** A held left key never leaves the player faster than MSPEED to the
      left; a held right key never faster than MSPEED to the right. */
  lemma SteeringIsCapped(t: Tally, held: KeyState, start: seq<(int, int)>)
    requires |t.k.collide| == 4
    requires !held.r
    ensures GoLeft(t.k, held) ==> ApplyHeld(t, held, start).value.k.xvel >= -MSpeed
    ensures !GoLeft(t.k, held) && GoRight(t.k, held) ==> ApplyHeld(t, held, start).value.k.xvel <= MSpeed
  {
  }

  /** The keyboard changes the vertical velocity only through a jump, and a
      jump needs a fall counter of 0 (resting on gravity's side). */
  lemma JumpNeedsGround(t: Tally, held: KeyState, start: seq<(int, int)>)
    requires |t.k.collide| == 4
    requires !held.r
    ensures var r := ApplyHeld(t, held, start).value.k;
            r.yvel != t.k.yvel ==> t.k.fallcount == 0 && (held.up || held.w) && r.yvel == 20.0
    ensures var r := ApplyHeld(t, held, start).value.k;
            (held.up || held.w) && t.k.fallcount == 0 ==> r.yvel == 20.0 && r.fallcount == 0 && r.animcount == 0
  {
  }

  /** R respawns the player at the current level's start after the steering
      and the jump: the place becomes the start, the velocities and contacts
      are cleared and the fall counter is 0, while the facing, the hit
      counter and the animation counter (reset by a jump) are kept; without
      a start for the level, keys raises IndexError. */
  lemma RespawnKeyRestarts(t: Tally, held: KeyState, start: seq<(int, int)>)
    requires |t.k.collide| == 4
    requires held.r
    ensures var r := ApplyHeld(t, held, start);
            var i := PyIndex(|start|, t.level - 1);
            var jumped := (held.up || held.w) && t.k.fallcount == 0;
            (r.IndexError? <==> i.None?) &&
            (r.Returned? ==>
               r.value.level == t.level &&
               (r.value.k.x, r.value.k.y) == start[i.value] &&
               r.value.k.xvel == 0.0 && r.value.k.yvel == 0.0 && r.value.k.fallcount == 0 &&
               r.value.k.collide == [null, null, null, null] &&
               r.value.k.direction == Steered(t.k, held).direction &&
               r.value.k.hitCount == t.k.hitCount &&
               r.value.k.animcount == (if jumped then 0 else Steered(t.k, held).animcount))
  {
  }

  // ---------------------------------------------------------------------------
  // Camera

  /** center: the camera offset that puts a player whose corner is at
      (px, py) back inside the screen area where the camera does not
      follow. */
  function Center(px: int, py: int): (r: (real, real))
    ensures ScrollX as real <= px as real - r.0 <= (Width - ScrollX) as real
    ensures ScrollY as real <= py as real - r.1 <= (Height - ScrollY) as real
    ensures ScrollX <= px <= Width - ScrollX ==> r.0 == 0.0
    ensures ScrollY <= py <= Height - ScrollY ==> r.1 == 0.0
  {
    (if !(ScrollX <= px <= Width - ScrollX) then px as real - Width as real / 2.0 else 0.0,
     if !(ScrollY <= py <= Height - ScrollY) then py as real - Height as real / 2.0 else 0.0)
  }

  /** scroll: the camera moves with the player's velocity on an axis when the
      player is within SCROLL of the screen edge it is heading for, and stays
      put otherwise. */
  function Scroll(px: int, py: int, pw: int, ph: int, xvel: real, yvel: real, offset: (real, real)): (r: (real, real))
    ensures r.0 == offset.0 || r.0 == offset.0 + xvel
    ensures r.1 == offset.1 || r.1 == offset.1 + yvel
    ensures r.0 != offset.0 ==>
      (xvel > 0.0 && (px + pw) as real - offset.0 >= (Width - ScrollX) as real) ||
      (xvel < 0.0 && px as real - offset.0 <= ScrollX as real)
    ensures r.1 != offset.1 ==>
      (yvel > 0.0 && (py + ph) as real - offset.1 >= (Height - ScrollY) as real) ||
      (yvel < 0.0 && py as real - offset.1 <= ScrollY as real)
    ensures (((xvel > 0.0 && (px + pw) as real - offset.0 >= (Width - ScrollX) as real) ||
             (xvel < 0.0 && px as real - offset.0 <= ScrollX as real)) ==>
            r.0 == offset.0 + xvel)
    ensures (((yvel > 0.0 && (py + ph) as real - offset.1 >= (Height - ScrollY) as real) ||
             (yvel < 0.0 && py as real - offset.1 <= ScrollY as real)) ==>
            r.1 == offset.1 + yvel)
  {
    var ox :=
      if ((px + pw) as real - offset.0 >= (Width - ScrollX) as real && xvel > 0.0) ||
         (px as real - offset.0 <= ScrollX as real && xvel < 0.0)
      then offset.0 + xvel else offset.0;
    var oy :=
      if ((py + ph) as real - offset.1 >= (Height - ScrollY) as real && yvel > 0.0) ||
         (py as real - offset.1 <= ScrollY as real && yvel < 0.0)
      then offset.1 + yvel else offset.1;
    (ox, oy)
  }

  /** The camera never moves against the player's motion. */
  lemma ScrollFollowsMotion(px: int, py: int, pw: int, ph: int, xvel: real, yvel: real, offset: (real, real))
    ensures var r := Scroll(px, py, pw, ph, xvel, yvel, offset);
            (r.0 - offset.0) * xvel >= 0.0 && (r.1 - offset.1) * yvel >= 0.0
  {
  }
}
