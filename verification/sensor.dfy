/** The float switch on GPIO pin 20.

    The switch is wired so that the raw pin reads LOW while the tank holds
    water: `is_high` (the tank has water) is the negation of the raw pin, and
    `is_low` is the negation of `is_high`. A physical edge on the raw pin is
    what the GPIO edge detection reports, so a RISING edge means the tank has
    just run dry and a FALLING edge means it has just been refilled. */
module Sensor {
  import opened Options

  /** The two edge directions GPIO edge detection can watch for. */
  datatype Edge = Rising | Falling

  /** The tank has water: the raw pin is low. */
  predicate IsHigh(pin: bool)
  {
    !pin
  }

  /** The tank is empty. */
  predicate IsLow(pin: bool)
  {
    !IsHigh(pin)
  }

  /** The edge (if any) GPIO reports when the raw pin goes from `before` to `after`. */
  function EdgeOf(before: bool, after: bool): (r: Option<Edge>)
    ensures r.None? <==> before == after
  {
    if before == after then None
    else if after then Some(Rising)
    else Some(Falling)
  }

  /** A RISING edge on the raw pin is exactly the tank running dry, and a
      FALLING edge is exactly the tank being refilled. */
  lemma EdgeMeaning(before: bool, after: bool)
    ensures EdgeOf(before, after) == Some(Rising) <==> IsHigh(before) && IsLow(after)
    ensures EdgeOf(before, after) == Some(Falling) <==> IsLow(before) && IsHigh(after)
  {
  }
}
