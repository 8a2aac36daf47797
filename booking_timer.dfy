/** The countdown badge (src/components/BookingTimer.jsx): an interval that each
    second recomputes the time left until the booking deadline, stops once the
    deadline has passed, and the badge it renders. */
module BookingTimer {
  import opened JsValues
  import opened Text
  import TourDetails

  const MinuteMs := 60000

  /** Whole days, hours within the day and minutes within the hour. */
  datatype Countdown = Countdown(days: nat, hours: nat, minutes: nat)

  /** The decomposition of a non-negative distance in milliseconds; the minutes
      are taken from the distance modulo an hour. */
  function Decompose(distance: nat): (c: Countdown)
    ensures c.hours < 24 && c.minutes < 60
    ensures c.days * TourDetails.DayMs + c.hours * TourDetails.HourMs + c.minutes * MinuteMs <= distance
    ensures distance < c.days * TourDetails.DayMs + c.hours * TourDetails.HourMs + (c.minutes + 1) * MinuteMs
  {
    var days := distance / TourDetails.DayMs;
    var rest := distance % TourDetails.DayMs;
    var hours := rest / TourDetails.HourMs;
    var minutes := (distance % TourDetails.HourMs) / MinuteMs;
    HourWithinDay(distance);
    Countdown(days, hours, minutes)
  }

  /** A day is a whole number of hours, so the remainder modulo an hour is the same
      whether taken from the distance or from its remainder modulo a day. */
  lemma HourWithinDay(distance: nat)
    ensures distance % TourDetails.HourMs == (distance % TourDetails.DayMs) % TourDetails.HourMs
  {
    var q := distance / TourDetails.DayMs;
    var r := distance % TourDetails.DayMs;
    var q2 := r / TourDetails.HourMs;
    var r2 := r % TourDetails.HourMs;
    assert distance == (q * 24 + q2) * TourDetails.HourMs + r2;
    RemainderOfHour(distance, q * 24 + q2, r2);
  }

  /** The remainder modulo an hour is determined by any quotient-remainder split. */
  lemma RemainderOfHour(a: int, q: int, r: int)
    requires a == q * TourDetails.HourMs + r && 0 <= r < TourDetails.HourMs
    ensures a % TourDetails.HourMs == r
  {
  }

  /** `${days}d ${hours}h ${minutes}m`. */
  function Format(c: Countdown): (r: string)
    ensures |r| >= 8 && r[|r| - 1] == 'm'
  {
    NatToString(c.days) + "d " + NatToString(c.hours) + "h " + NatToString(c.minutes) + "m"
  }

  /** The countdown text ends in "m", so it is never the expiry marker. */
  lemma FormatIsNotExpired(c: Countdown)
    ensures Format(c) != "EXPIRED"
  {
  }

  /** What the component renders. */
  datatype View = Nothing | BookingClosed | ClosingIn(timeLeft: Option<string>)

  /** The countdown component for one deadline (milliseconds; None: no deadline). */
  class Timer {
    const deadline: Option<int>
    var timeLeft: Option<string>
    var intervalRunning: bool

    /** Without a deadline no interval runs and nothing is shown; with one, the
        interval runs exactly until it has recorded the expiry. */
    ghost predicate Valid()
      reads this
    {
      && (deadline.None? ==> !intervalRunning && timeLeft.None?)
      && (deadline.Some? && timeLeft != Some("EXPIRED") ==> intervalRunning)
      && (timeLeft == Some("EXPIRED") ==> !intervalRunning)
    }

    /** Mounting: the time left starts unset and the interval starts only when a
        deadline is given. */
    constructor Mount(deadline: Option<int>)
      ensures Valid()
      ensures this.deadline == deadline && timeLeft.None? && intervalRunning == deadline.Some?
    {
      this.deadline := deadline;
      timeLeft := None;
      intervalRunning := deadline.Some?;
    }

    /** One interval callback at time `now`: a negative distance records "EXPIRED"
        and clears the interval; otherwise the text shows days, hours and minutes. */
    method Tick(now: int)
      requires Valid() && intervalRunning
      modifies this`timeLeft, this`intervalRunning
      ensures Valid()
      ensures deadline.value < now ==> timeLeft == Some("EXPIRED") && !intervalRunning
      ensures deadline.value >= now ==>
        timeLeft == Some(Format(Decompose(deadline.value - now))) && intervalRunning
      ensures timeLeft == Some("EXPIRED") <==> TourDetails.CalculateTimeLeft(deadline, now) == Some("EXPIRED")
    {
      var distance := deadline.value - now;
      TourDetails.TimeLeftCases(deadline, now);
      if distance < 0 {
        intervalRunning := false;
        timeLeft := Some("EXPIRED");
      } else {
        FormatIsNotExpired(Decompose(distance));
        timeLeft := Some(Format(Decompose(distance)));
      }
    }

    /** Unmounting clears the interval. */
    method Unmount()
      modifies this`intervalRunning
      ensures !intervalRunning
    {
      intervalRunning := false;
    }

    /** The rendered badge: nothing without a deadline, "Booking Closed" once
        expired, otherwise "Closing in" with the current text (empty before the
        first tick). */
    function Render(): (v: View)
      reads this
      requires Valid()
      ensures v == Nothing <==> deadline.None?
      ensures v == BookingClosed <==> timeLeft == Some("EXPIRED")
      ensures v.ClosingIn? ==> intervalRunning
    {
      if deadline.None? then Nothing
      else if timeLeft == Some("EXPIRED") then BookingClosed
      else ClosingIn(timeLeft)
    }
  }

  /** A timer ticked at a time before the deadline and then after it shows a
      countdown, then "Booking Closed", and stops. */
  method ExpiryScenario() returns (first: View, second: View, running: bool)
    ensures first == ClosingIn(Some(Format(Countdown(1, 1, 1))))
    ensures second == BookingClosed && !running
  {
    var deadline := TourDetails.DayMs + TourDetails.HourMs + MinuteMs + 500;
    var t := new Timer.Mount(Some(deadline));
    t.Tick(0);
    first := t.Render();
    t.Tick(deadline + 1);
    second := t.Render();
    running := t.intervalRunning;
  }
}
