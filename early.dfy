/** The two early iterations of the player (platformer.py and plat2.py):
    a free-moving body over a hard ground line at y = 600, with no obstacles.
    The two files differ here only in AGILITY (4.5 and 5), which a player is
    given when it is made. */
module Early {
  import opened Pixels
  import opened Steering

  /** MAXSPEED, JUMP, FRICTION and GRAVITY of both files. */
  const TopSpeed: real := 25.0
  const Jump: real := 25.0
  const Friction: real := 4.0
  const Gravity: real := 40.0
  /** The y coordinate at and below which the player stands on the ground. */
  const Ground: real := 600.0

  /** AGILITY in platformer.py and in plat2.py. */
  const PlatformerAgility: real := 4.5
  const Plat2Agility: real := 5.0

  /** Which way the player faces (`pose`), and which image is shown
      (`entity`, player_left.png or player_right.png). */
  datatype Side = Left | Right

  /** The keys keylink reads: left is K_LEFT or K_a, right is K_RIGHT or
      K_d, jump is K_SPACE, K_UP or K_w. */
  datatype Intent = Intent(left: bool, right: bool, jump: bool)

  /** Friction after the move: `xvel` moves by FRICTION toward zero when it is
      more than FRICTION / 2 away from it, and is set to zero otherwise. */
  function ApplyFriction(v: real): (r: real)
    ensures v > Friction / 2.0 ==> r == v - Friction
    ensures v < -Friction / 2.0 ==> r == v + Friction
    ensures -Friction / 2.0 <= v <= Friction / 2.0 ==> r == 0.0
  {
    if v > 0.0 + Friction / 2.0 then v - Friction
    else if v < 0.0 - Friction / 2.0 then v + Friction
    else 0.0
  }

  /** Friction always slows the player down: the speed strictly drops unless
      it is already zero, and zero stays zero. A speed between FRICTION / 2 and
      FRICTION overshoots zero and changes sign. */
  lemma FrictionSlows(v: real)
    ensures v == 0.0 ==> ApplyFriction(v) == 0.0
    ensures v != 0.0 ==> Abs(ApplyFriction(v)) < Abs(v)
    ensures ApplyFriction(3.0) == -1.0
  {
  }

  function FrictionTimes(v: real, n: nat): real
    decreases n
  {
    if n == 0 then v else FrictionTimes(ApplyFriction(v), n - 1)
  }

  lemma {:induction false} RestStaysAtRest(n: nat)
    ensures FrictionTimes(0.0, n) == 0.0
  {
    if n > 0 {
      RestStaysAtRest(n - 1);
    }
  }

  /** Without input, a horizontal speed of at most 4n + 2 is gone after n + 1
      frames. */
  lemma {:induction false} FrictionStops(v: real, n: nat)
    requires Abs(v) <= 4.0 * n as real + 2.0
    ensures FrictionTimes(v, n + 1) == 0.0
    decreases n
  {
    var r := ApplyFriction(v);
    if Abs(v) <= 2.0 {
      RestStaysAtRest(n);
    } else {
      assert n > 0;
      FrictionStops(r, n - 1);
    }
  }

  /** The part of a player that loop reads and writes. */
  datatype Motion = Motion(xpos: real, ypos: real, xvel: real, yvel: real, fallcount: int)

  /** The gravity step at the start of loop: on the ground the fall counter
      and the vertical speed are reset; in the air the counter goes up by one
      and gravity adds `(fallcount / fps) * GRAVITY`. */
  function Gravitate(m: Motion, fps: real): (r: Motion)
    requires fps != 0.0
    ensures r.xpos == m.xpos && r.ypos == m.ypos && r.xvel == m.xvel
  {
    var fc := if m.ypos >= Ground then 0 else m.fallcount + 1;
    m.(fallcount := fc, yvel := if fc != 0 then m.yvel + (fc as real / fps) * Gravity else 0.0)
  }

  /** The effect of keylink on the velocities. */
  function Steer(m: Motion, intent: Intent, agility: real): (r: Motion)
    requires agility >= 0.0
    ensures r.xpos == m.xpos && r.ypos == m.ypos && r.fallcount == m.fallcount
  {
    m.(xvel := if intent.left then SteerLeft(m.xvel, TopSpeed, agility)
               else if intent.right then SteerRight(m.xvel, TopSpeed, agility)
               else m.xvel,
       yvel := if intent.jump && m.fallcount == 0 then m.yvel - Jump else m.yvel)
  }

  /** One call of loop: gravity, keylink, the move by the new velocity, then
      friction. */
  function Tick(m: Motion, fps: real, intent: Intent, agility: real): (r: Motion)
    requires fps != 0.0 && agility >= 0.0
    ensures Abs(r.xvel) <= Abs(r.xpos - m.xpos)
    ensures r.ypos == m.ypos + r.yvel
  {
    var s := Steer(Gravitate(m, fps), intent, agility);
    s.(xpos := s.xpos + s.xvel, ypos := s.ypos + s.yvel, xvel := ApplyFriction(s.xvel))
  }

  /** On the ground line the fall counter is reset and the player falls no
      further: the vertical speed is 0, or -JUMP when jumping. */
  lemma GroundLine(m: Motion, fps: real, intent: Intent, agility: real)
    requires fps != 0.0 && agility >= 0.0
    requires m.ypos >= Ground
    ensures var r := Tick(m, fps, intent, agility);
            r.fallcount == 0 &&
            r.yvel == (if intent.jump then -Jump else 0.0) &&
            r.ypos == m.ypos + r.yvel
  {
  }

  /** Above the ground line the fall counter rises by one, gravity adds
      `(fallcount / fps) * GRAVITY`, and the jump key does nothing. */
  lemma Airborne(m: Motion, fps: real, intent: Intent, agility: real)
    requires fps != 0.0 && agility >= 0.0
    requires m.ypos < Ground && m.fallcount >= 0
    ensures var r := Tick(m, fps, intent, agility);
            r.fallcount == m.fallcount + 1 &&
            r.yvel == m.yvel + ((m.fallcount + 1) as real / fps) * Gravity &&
            r.yvel == Tick(m, fps, intent.(jump := false), agility).yvel
  {
  }

  /** The keys never push the player past MAXSPEED: a horizontal speed within
      MAXSPEED stays within it through a whole frame. */
  lemma SpeedStaysCapped(m: Motion, fps: real, intent: Intent, agility: real)
    requires fps != 0.0 && agility >= 0.0
    requires Abs(m.xvel) <= TopSpeed
    ensures Abs(Tick(m, fps, intent, agility).xvel) <= TopSpeed
  {
    var s := Steer(Gravitate(m, fps), intent, agility);
    assert Abs(s.xvel) <= TopSpeed;
    FrictionSlows(s.xvel);
  }

  /** A player standing still on the ground with no key held stays where it
      is. */
  lemma RestOnGround(m: Motion, fps: real, agility: real)
    requires fps != 0.0 && agility >= 0.0
    requires m.ypos >= Ground && m.xvel == 0.0
    ensures Tick(m, fps, Intent(false, false, false), agility) == m.(yvel := 0.0, fallcount := 0)
  {
  }

  /** The early Player. `w` and `h` are accepted but the size is always
      60 by 60. */
  class Player {
    var xvel: real
    var yvel: real
    var xpos: real
    var ypos: real
    const width: int
    const height: int
    var pose: Side
    var entity: Side
    var fallcount: int
    /** The field keylink's assignment `self.x_vel = 0` creates: a misspelling
        of `xvel`, written and never read. Absent until keylink first runs. */
    var strayXVel: Option<real>
    /** AGILITY of the file the player comes from. */
    const agility: real

    function State(): Motion
      reads this
    {
      Motion(xpos, ypos, xvel, yvel, fallcount)
    }

    constructor (x: real, y: real, w: int, h: int, agile: real)
      requires agile >= 0.0
      ensures State() == Motion(x, y, 0.0, 0.0, 0)
      ensures width == 60 && height == 60 && pose == Right && entity == Right
      ensures strayXVel == None && agility == agile
    {
      xvel, yvel := 0.0, 0.0;
      xpos, ypos := x, y;
      width, height := 60, 60;
      pose, entity := Right, Right;
      fallcount := 0;
      strayXVel := None;
      agility := agile;
    }

    /** m_move: displace by exactly (xdis, ydis); nothing else changes. */
    method MMove(xdis: real, ydis: real)
      modifies this`xpos, this`ypos
      ensures xpos == old(xpos) + xdis && ypos == old(ypos) + ydis
    {
      xpos := xpos + xdis;
      ypos := ypos + ydis;
    }

    /** m_left: move left at `vel`, facing left. */
    method MLeft(vel: real)
      modifies this`xvel, this`pose
      ensures xvel == -vel && pose == Left
    {
      xvel := -vel;
      if pose != Left {
        pose := Left;
      }
    }

    /** m_right: move right at `vel`, facing right. */
    method MRight(vel: real)
      modifies this`xvel, this`pose
      ensures xvel == vel && pose == Right
    {
      xvel := vel;
      if pose != Right {
        pose := Right;
      }
    }

    /** keylink: accelerate toward a held side, capped at MAXSPEED, and jump
        only with a fall counter of 0. `xvel` is not reset: the reset writes
        the misspelt field. The image follows the key, the pose does not. */
    method Keylink(intent: Intent)
      requires agility >= 0.0
      modifies this`strayXVel, this`entity, this`xvel, this`yvel
      ensures strayXVel == Some(0.0)
      ensures State() == Steer(old(State()), intent, agility)
      ensures entity == if intent.left then Left else if intent.right then Right else old(entity)
    {
      strayXVel := Some(0.0);
      if intent.left {
        entity := Left;
        if xvel <= -TopSpeed + agility {
          xvel := -TopSpeed;
        } else {
          xvel := xvel - agility;
        }
      } else if intent.right {
        entity := Right;
        if xvel >= TopSpeed - agility {
          xvel := TopSpeed;
        } else {
          xvel := xvel + agility;
        }
      }
      if intent.jump && fallcount == 0 {
        yvel := yvel - Jump;
      }
    }

    /** loop: gravity and the ground line, keylink, m_move, friction. */
    method Loop(fps: real, intent: Intent)
      requires fps != 0.0 && agility >= 0.0
      modifies this`fallcount, this`yvel, this`xvel, this`xpos, this`ypos, this`strayXVel, this`entity
      ensures State() == Tick(old(State()), fps, intent, agility)
      ensures strayXVel == Some(0.0)
      ensures entity == if intent.left then Left else if intent.right then Right else old(entity)
    {
      if ypos >= Ground {
        fallcount := 0;
      } else {
        fallcount := fallcount + 1;
      }
      if fallcount != 0 {
        yvel := yvel + (fallcount as real / fps) * Gravity;
      } else {
        yvel := 0.0;
      }
      Keylink(intent);
      MMove(xvel, yvel);
      if xvel > 0.0 + Friction / 2.0 {
        xvel := xvel - Friction;
      } else if xvel < 0.0 - Friction / 2.0 {
        xvel := xvel + Friction;
      } else {
        xvel := 0.0;
      }
    }
  }
}
