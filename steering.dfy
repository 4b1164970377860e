/** Keyboard acceleration, the same rule in every iteration of the game:
    each frame a held direction key adds `agility` toward that side, and the
    speed on that side is capped at `top`. Only the constants differ. */
module Steering {

  /** Left key held: `-top if xvel <= -top + agility else xvel - agility`. */
  function SteerLeft(xvel: real, top: real, agility: real): (r: real)
    requires agility >= 0.0
    ensures r >= -top
    ensures r == -top || r == xvel - agility
    ensures xvel >= -top ==> r <= xvel
  {
    if xvel <= -top + agility then -top else xvel - agility
  }

  /** Right key held: `top if xvel >= top - agility else xvel + agility`. */
  function SteerRight(xvel: real, top: real, agility: real): (r: real)
    requires agility >= 0.0
    ensures r <= top
    ensures r == top || r == xvel + agility
    ensures xvel <= top ==> r >= xvel
  {
    if xvel >= top - agility then top else xvel + agility
  }

  /** The two keys are mirror images of each other. */
  lemma {:induction false} SteerMirror(xvel: real, top: real, agility: real)
    requires agility >= 0.0
    ensures SteerRight(-xvel, top, agility) == -SteerLeft(xvel, top, agility)
  {
  }

  function SteerLeftTimes(xvel: real, top: real, agility: real, n: nat): real
    requires agility >= 0.0
    decreases n
  {
    if n == 0 then xvel else SteerLeftTimes(SteerLeft(xvel, top, agility), top, agility, n - 1)
  }

  /** Holding left long enough always ends at exactly `-top`, whatever the
      starting velocity: each frame either lands on `-top` or closes the gap
      by `agility`. */
  lemma {:induction false} HoldingLeftReachesTop(xvel: real, top: real, agility: real, n: nat)
    requires agility > 0.0
    requires xvel <= -top + n as real * agility
    requires n > 0
    ensures SteerLeftTimes(xvel, top, agility, n) == -top
    decreases n
  {
    var v := SteerLeft(xvel, top, agility);
    if v == -top {
      SteerLeftStaysAtTop(top, agility, n - 1);
    } else {
      HoldingLeftReachesTop(v, top, agility, n - 1);
    }
  }

  /** `-top` is a fixed point of holding left. */
  lemma {:induction false} SteerLeftStaysAtTop(top: real, agility: real, n: nat)
    requires agility > 0.0
    ensures SteerLeftTimes(-top, top, agility, n) == -top
  {
    if n > 0 {
      SteerLeftStaysAtTop(top, agility, n - 1);
    }
  }
}
