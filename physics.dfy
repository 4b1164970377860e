/** The per-frame integrator of the latest iteration of the game (the
    "monochrome" version): its constants, and the pure rules for friction,
    the terminal-velocity clamp, gravity, the sub-step count, the velocity
    reset after a collision, the hit/respawn timer, the sprite-sheet choice,
    the bounce-pad impulse and the bounce-pad animation counter. The classes
    in module World apply these rules to their fields. */
module Physics {
  import opened Pixels

  const Fps: int := 60
  const AnimDelay: nat := 7
  const Width: int := 1000
  const Height: int := 800
  /** Maximum ground speed reached by holding a direction key. */
  const MSpeed: real := 10.0
  /** Speed added per frame by a held direction key. */
  const Agile: real := 5.0
  const JumpFactor: real := 1.0
  const Friction: real := 1.4
  /** Negative: in this version gravity pulls toward the top of the screen. */
  const Gravity: real := -20.0
  const TerminalVel: real := 25.0
  /** Distance from the side (x) and from the top or bottom (y) of the
      window at which the camera starts to follow the player. */
  const ScrollX: int := 300
  const ScrollY: int := 200
  /** Seconds between a spike hit and the respawn. */
  const RespBuffer: real := 0.15
  const BounceStrength: real := 35.0

  // ---------------------------------------------------------------------------
  // Friction

  /** Friction applied once per frame to the horizontal velocity. */
  function ApplyFriction(v: real): (r: real)
    ensures Abs(r) <= Abs(v)
    ensures r == 0.0 || (r > 0.0 <==> v > 0.0)
    ensures r == 0.0 <==> Abs(v) <= Friction
  {
    if v > Friction then v - Friction / 2.0
    else if v < -Friction then v + Friction / 2.0
    else 0.0
  }

  /** The horizontal velocity after `n` frames of friction alone. */
  function FrictionAfter(v: real, n: nat): real
    decreases n
  {
    if n == 0 then v else FrictionAfter(ApplyFriction(v), n - 1)
  }

  /** Once at rest, friction keeps the velocity at exactly zero. */
  lemma {:induction false} FrictionRestIsFixed(n: nat)
    ensures FrictionAfter(0.0, n) == 0.0
    decreases n
  {
    if n > 0 {
      FrictionRestIsFixed(n - 1);
    }
  }

  /** Friction never speeds the player up, frame after frame. */
  lemma {:induction false} FrictionMonotone(v: real, n: nat)
    ensures Abs(FrictionAfter(v, n + 1)) <= Abs(FrictionAfter(v, n))
    decreases n
  {
    if n > 0 {
      FrictionMonotone(ApplyFriction(v), n - 1);
    }
  }

  /** Without input the player comes to rest: each frame takes `Friction / 2`
      off the speed until it is within `Friction`, which snaps it to zero. */
  lemma {:induction false} FrictionSettles(v: real, n: nat)
    requires Abs(v) <= n as real * (Friction / 2.0)
    ensures FrictionAfter(v, n) == 0.0
    decreases n
  {
    if n == 0 {
      assert v == 0.0;
    } else if Abs(v) <= Friction {
      FrictionRestIsFixed(n - 1);
    } else {
      FrictionSettles(ApplyFriction(v), n - 1);
    }
  }

  // ---------------------------------------------------------------------------
  // Terminal velocity

  /** The vertical speed clamp applied after the collision step. */
  function ClampTerminal(v: real): (r: real)
    ensures -TerminalVel <= r <= TerminalVel
    ensures -TerminalVel <= v <= TerminalVel ==> r == v
    ensures Sign(r) == Sign(v)
  {
    if v > TerminalVel then TerminalVel
    else if v < -TerminalVel then -TerminalVel
    else v
  }

  // ---------------------------------------------------------------------------
  // Gravity and the sub-step count

  /** The player rests on the side gravity pulls toward: `flags` tells, for
      left, right, top and bottom in that order, whether that side touches
      an obstacle. */
  predicate Grounded(flags: seq<bool>)
    requires |flags| == 4
  {
    (flags[2] && Gravity < 0.0) || (flags[3] && Gravity > 0.0)
  }

  /** The vertical velocity after the gravity step of a frame in which the
      fall counter has just become `fallcount`. */
  function Fall(yvel: real, fallcount: int, grounded: bool): (r: real)
    ensures grounded ==> r == yvel
    ensures !grounded && fallcount > 0 ==> r < yvel
    ensures !grounded ==> r - yvel == (fallcount as real / Fps as real) * Gravity
  {
    if grounded then yvel else yvel + (fallcount as real / Fps as real) * Gravity
  }

  /** With gravity pulling up, only the top side counts as ground. */
  lemma GroundedMeansTop(flags: seq<bool>)
    requires |flags| == 4
    ensures Grounded(flags) <==> flags[2]
  {
  }

  /** The number of sub-steps a frame's motion is split into:
      `max(ceil(|xvel|), ceil(|yvel|))`. */
  function MaxSpeed(xvel: real, yvel: real): (n: nat)
    ensures n == 0 <==> xvel == 0.0 && yvel == 0.0
    ensures Abs(xvel) <= n as real && Abs(yvel) <= n as real
    ensures n as real < Abs(xvel) + 1.0 || n as real < Abs(yvel) + 1.0
  {
    var fx := Ceil(Abs(xvel));
    var fy := Ceil(Abs(yvel));
    if fx > fy then fx else fy
  }

  /** No sub-step moves more than one pixel along either axis. */
  lemma SubStepIsAtMostOnePixel(xvel: real, yvel: real)
    requires MaxSpeed(xvel, yvel) > 0
    ensures -1.0 <= xvel / MaxSpeed(xvel, yvel) as real <= 1.0
    ensures -1.0 <= yvel / MaxSpeed(xvel, yvel) as real <= 1.0
  {
    var n := MaxSpeed(xvel, yvel) as real;
    QuotientWithinOne(xvel, n);
    QuotientWithinOne(yvel, n);
  }

  lemma QuotientWithinOne(a: real, n: real)
    requires n > 0.0 && -n <= a <= n
    ensures -1.0 <= a / n <= 1.0
  {
  }

  // ---------------------------------------------------------------------------
  // deal_with_collision

  /** The velocities and fall counter of the player. */
  datatype Motion = Motion(xvel: real, yvel: real, fallcount: int)

  /** Blocked axes lose their velocity, and touching ground restarts the
      fall counter. */
  function Deal(flags: seq<bool>, m: Motion): (r: Motion)
    requires |flags| == 4
    ensures flags[0] || flags[1] ==> r.xvel == 0.0
    ensures !(flags[0] || flags[1]) ==> r.xvel == m.xvel
    ensures flags[2] || flags[3] ==> r.yvel == 0.0
    ensures !(flags[2] || flags[3]) ==> r.yvel == m.yvel
    ensures r.fallcount == if Grounded(flags) then 0 else m.fallcount
  {
    Motion(if flags[0] || flags[1] then 0.0 else m.xvel,
           if flags[2] || flags[3] then 0.0 else m.yvel,
           if Grounded(flags) then 0 else m.fallcount)
  }

  /** Dealing with the same contacts twice changes nothing more. */
  lemma DealIdempotent(flags: seq<bool>, m: Motion)
    requires |flags| == 4
    ensures Deal(flags, Deal(flags, m)) == Deal(flags, m)
  {
  }

  /** A contact that blocks an axis stops all motion along it: the next
      frame's sub-step count no longer depends on that axis' old velocity. */
  lemma DealStopsBlockedAxis(flags: seq<bool>, m: Motion)
    requires |flags| == 4
    requires flags[0] || flags[1]
    requires flags[2] || flags[3]
    ensures MaxSpeed(Deal(flags, m).xvel, Deal(flags, m).yvel) == 0
  {
  }

  // ---------------------------------------------------------------------------
  // Hit timer

  /** The hit counter after one frame: a running counter (non-zero) counts
      up; once it passes `fps * RESP_BUFFER + 2` it is reset and the player
      respawns (`respawn` is then true). */
  datatype HitTimer = HitTimer(count: int, respawn: bool)

  function HitTick(h: int, fps: int): (r: HitTimer)
    ensures r.respawn ==> r.count == 0
    ensures h == 0 && fps >= 0 ==> r == HitTimer(0, false)
    ensures h > 0 && !r.respawn ==> r.count == h + 1
  {
    var h1 := if h != 0 then h + 1 else h;
    if h1 as real > fps as real * RespBuffer + 2.0 then HitTimer(0, true) else HitTimer(h1, false)
  }

  function HitAfter(h: int, fps: int, n: nat): HitTimer
    decreases n
  {
    if n == 0 then HitTimer(h, false)
    else var t := HitTick(h, fps); if t.respawn then t else HitAfter(t.count, fps, n - 1)
  }

  /** At 60 frames per second a spike hit (counter 1) is followed by exactly
      ten more frames of the hit state, and the eleventh frame respawns. */
  lemma {:induction false} HitRespawnsAfterEleven(h: int, n: nat)
    requires 1 <= h && h + n == 11
    ensures HitAfter(h, Fps, n) == HitTimer(11, false)
    ensures HitTick(11, Fps) == HitTimer(0, true)
    decreases n
  {
    if n > 0 {
      assert HitTick(h, Fps) == HitTimer(h + 1, false);
      HitRespawnsAfterEleven(h + 1, n - 1);
    }
  }

  // ---------------------------------------------------------------------------
  // Sprite sheet choice

  datatype Sheet = Idle | Hit | Jump | FallSheet | Run

  /** The sprite sheet update_sprite picks, in priority order. */
  function SheetFor(hitCount: int, xvel: real, yvel: real): (r: Sheet)
    ensures r == Hit <==> hitCount != 0
    ensures r == Jump <==> hitCount == 0 && yvel < 0.0
  {
    if hitCount != 0 then Hit
    else if yvel < 0.0 then Jump
    else if yvel > Gravity * 2.0 then FallSheet
    else if xvel != 0.0 then Run
    else Idle
  }

  /** With gravity negative the "fall" test `yvel > GRAVITY * 2` holds for
      every velocity the "jump" test lets through, so the running and idle
      sheets are never chosen. */
  lemma RunAndIdleUnreachable(hitCount: int, xvel: real, yvel: real)
    ensures SheetFor(hitCount, xvel, yvel) != Run
    ensures SheetFor(hitCount, xvel, yvel) != Idle
    ensures hitCount == 0 && yvel >= 0.0 ==> SheetFor(hitCount, xvel, yvel) == FallSheet
  {
  }

  // ---------------------------------------------------------------------------
  // Bounce pads

  /** The velocity a bounce pad at `angle` gives (x, then y). */
  function BounceVelocity(angle: int, xvel: real, yvel: real): (r: (real, real))
    ensures angle == 0 || angle == 180 ==> r.0 == xvel && Abs(r.1) == BounceStrength
    ensures angle == 90 || angle == 270 ==> r.1 == yvel && Abs(r.0) == BounceStrength
    ensures angle != 0 && angle != 90 && angle != 180 && angle != 270 ==> r == (xvel, yvel)
  {
    if angle == 0 then (xvel, -BounceStrength)
    else if angle == 90 then (-BounceStrength, yvel)
    else if angle == 180 then (xvel, BounceStrength)
    else if angle == 270 then (BounceStrength, yvel)
    else (xvel, yvel)
  }

  /** A quarter turn counter-clockwise on screen (y grows downward), the way
      pygame.transform.rotate turns the pad's sprite. */
  function QuarterTurn(v: (int, int)): (int, int)
  {
    (v.1, -v.0)
  }

  /** The direction a pad's face points after `q` quarter turns from up. */
  function Face(q: nat): (int, int)
    decreases q
  {
    if q == 0 then (0, -1) else QuarterTurn(Face(q - 1))
  }

  /** The impulse of a pad rotated by `90 * q` degrees pushes the player
      along the direction its face points, at full strength on that axis,
      and leaves the other axis alone. */
  lemma {:induction false} BounceAlongFace(q: nat, xvel: real, yvel: real)
    requires q < 4
    ensures var f := Face(q);
            var r := BounceVelocity(90 * q, xvel, yvel);
            (f.0 != 0 ==> r == (f.0 as real * BounceStrength, yvel)) &&
            (f.1 != 0 ==> r == (xvel, f.1 as real * BounceStrength))
  {
    assert Face(0) == (0, -1);
    assert Face(1) == (-1, 0);
    assert Face(2) == (0, 1);
    assert Face(3) == (1, 0);
  }

  /** Any angle other than the four quarter turns imparts nothing. */
  lemma BounceOtherAngles(angle: int, xvel: real, yvel: real)
    requires angle != 0 && angle != 90 && angle != 180 && angle != 270
    ensures BounceVelocity(angle, xvel, yvel) == (xvel, yvel)
  {
  }

  /** The pad's animation state: the bounce counter, the animation counter
      and the index of the frame it shows. */
  datatype PadState = PadState(bounced: int, animnum: int, frame: nat)

  /** One frame of a pad's own loop with `frames` animation frames: while the
      bounce counter is non-zero and at most 5 it counts up and the animation
      advances; otherwise everything returns to rest on the last frame. */
  function PadTick(p: PadState, frames: nat): (r: PadState)
    requires frames > 0
    ensures r.frame < frames
    ensures p.bounced != 0 && p.bounced <= 5 ==> r.bounced == p.bounced + 1
    ensures !(p.bounced != 0 && p.bounced <= 5) ==> r == PadState(0, 0, frames - 1)
  {
    if p.bounced != 0 && p.bounced <= 5 then
      PadState(p.bounced + 1,
               if p.animnum / 2 > frames then 0 else p.animnum + 1,
               (p.animnum / 2) % frames)
    else PadState(0, 0, frames - 1)
  }

  function PadAfter(p: PadState, frames: nat, n: nat): PadState
    requires frames > 0
    decreases n
  {
    if n == 0 then p else PadAfter(PadTick(p, frames), frames, n - 1)
  }

  /** Frames until an untouched pad is back at rest. */
  function SettleTime(bounced: int): nat
  {
    if bounced < 0 then -bounced
    else if 1 <= bounced <= 5 then 7 - bounced
    else if bounced == 0 then 0
    else 1
  }

  /** A pad nobody touches again is back at rest (counter 0) within
      `SettleTime` frames, and stays there. */
  lemma {:induction false} PadSettles(p: PadState, frames: nat, n: nat)
    requires frames > 0
    requires n >= SettleTime(p.bounced)
    ensures PadAfter(p, frames, n).bounced == 0
    decreases n
  {
    if n > 0 {
      var q := PadTick(p, frames);
      PadSettles(q, frames, n - 1);
    }
  }

  /** The animation counter never runs past `2 * frames + 2`. */
  lemma PadAnimBounded(p: PadState, frames: nat)
    requires frames > 0
    requires 0 <= p.animnum <= 2 * frames + 2
    ensures 0 <= PadTick(p, frames).animnum <= 2 * frames + 2
  {
  }
}
