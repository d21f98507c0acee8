/** The date-time hook's greeting, chosen from the hour of the day (0 to 23,
    passed in instead of read from the clock). */
module DateTime {
  /** `getDateTime`'s greeting: morning by default, afternoon from 12 until
      17, evening from 17. */
  function Greeting(hour: int): (greeting: string)
    ensures greeting == "Good morning" <==> hour < 12
    ensures greeting == "Good afternoon" <==> 12 <= hour < 17
    ensures greeting == "Good evening" <==> hour >= 17
  {
    if hour >= 12 && hour < 17 then "Good afternoon"
    else if hour >= 17 then "Good evening"
    else "Good morning"
  }

  /** Over a day the greeting changes twice, at noon and at five. */
  lemma GreetingChangesTwice(h: int)
    requires 0 <= h < 23
    ensures Greeting(h) != Greeting(h + 1) <==> h == 11 || h == 16
  {
  }
}
