/** `current_greeting`: the welcome banner's greeting for the hour of the day. */
module Greeting {

  /** An hour as `datetime.hour` reports it. */
  type Hour = h: int | 0 <= h < 24

  const Morning := "Good morning"
  const Afternoon := "Good afternoon"
  const Evening := "Good evening"

  /** The hour is passed in instead of being read from the clock. Each hour gets
      exactly one of the three greetings. */
  function CurrentGreeting(hour: Hour): (g: string)
    ensures g in {Morning, Afternoon, Evening}
    ensures g == Morning <==> 5 <= hour < 12
    ensures g == Afternoon <==> 12 <= hour < 18
    ensures g == Evening <==> hour < 5 || 18 <= hour
  {
    if 5 <= hour < 12 then Morning
    else if 12 <= hour < 18 then Afternoon
    else Evening
  }
}
