/**
 * The Razorpay payment panel: the countdown to the expiry of a payment link, its "HH:MM:SS"
 * rendering, and the status polling that ends a pending payment as paid or failed. The timers and
 * the network replies are inputs; each reaction is a state transition.
 */
module RazorpayPayment {
  import opened Wrappers
  import opened Text

  // ---------------------------------------------------------------------------------------
  // formatTime

  /** A field of two digits or more: `n.toString().padStart(2, '0')`. */
  function TwoDigits(n: nat): (s: string)
    ensures |s| >= 2
    ensures n < 100 <==> |s| == 2
  {
    if n >= 100 then LongDecimal(n); PadStart(DecimalString(n), 2, '0')
    else PadStart(DecimalString(n), 2, '0')
  }

  lemma LongDecimal(n: nat)
    requires n >= 100
    ensures |DecimalString(n)| >= 3
  {
    assert DecimalString(n) == DecimalString(n / 10) + [DigitChar(n % 10)];
  }

  /** Below 100 the field is the tens digit and the units digit. */
  lemma TwoDigitsOf(n: nat)
    requires n < 100
    ensures TwoDigits(n) == [DigitChar(n / 10), DigitChar(n % 10)]
  {
    if n < 10 {
      assert DecimalString(n) == [DigitChar(n)];
      assert DigitChar(0) == '0';
    } else {
      DecimalOfTwo(n);
    }
  }

  /** A number from 10 to 99 is written with its two digits. */
  lemma DecimalOfTwo(n: nat)
    requires 10 <= n < 100
    ensures DecimalString(n) == [DigitChar(n / 10), DigitChar(n % 10)]
  {
    var t := n / 10;
    assert t < 10;
    assert DecimalString(t) == [DigitChar(t)];
  }

  /** The hours, minutes and seconds of a count of seconds. */
  function Clock(seconds: nat): (hms: (nat, nat, nat))
    ensures hms.1 < 60 && hms.2 < 60
    ensures 3600 * hms.0 + 60 * hms.1 + hms.2 == seconds
  {
    (seconds / 3600, (seconds % 3600) / 60, seconds % 60)
  }

  /** `formatTime` */
  function FormatTime(seconds: nat): (s: string)
    ensures seconds < 360000 <==> |s| == 8
  {
    var (h, m, sec) := Clock(seconds);
    TwoDigits(h) + ":" + TwoDigits(m) + ":" + TwoDigits(sec)
  }

  function DigitValue(c: char): int {
    c as int - '0' as int
  }

  /** A well-formed "HH:MM:SS" text: two-digit fields, minutes and seconds below 60. */
  predicate ClockText(s: string) {
    && |s| == 8 && s[2] == ':' && s[5] == ':'
    && IsDigit(s[0]) && IsDigit(s[1]) && IsDigit(s[3]) && IsDigit(s[4]) && IsDigit(s[6]) && IsDigit(s[7])
    && s[3] < '6' && s[6] < '6'
  }

  /** The number of seconds an "HH:MM:SS" text stands for. */
  function ParseTime(s: string): (seconds: Option<nat>)
    ensures seconds.Some? <==> ClockText(s)
  {
    if !ClockText(s) then None
    else
      Some(3600 * (10 * DigitValue(s[0]) + DigitValue(s[1]))
           + 60 * (10 * DigitValue(s[3]) + DigitValue(s[4]))
           + 10 * DigitValue(s[6]) + DigitValue(s[7]))
  }

  /** Below 100 hours the rendering reads back as the same count of seconds. */
  lemma FormatTimeRoundTrip(seconds: nat)
    requires seconds < 360000
    ensures ClockText(FormatTime(seconds))
    ensures ParseTime(FormatTime(seconds)) == Some(seconds)
  {
    var h, m, sec := FormatTimeFields(seconds);
    FieldsRoundTrip(h, m, sec, FormatTime(seconds), seconds);
  }

  /** The rendering is the three fields of the clock, joined by colons. */
  lemma FormatTimeFields(seconds: nat) returns (h: nat, m: nat, sec: nat)
    requires seconds < 360000
    ensures h < 100 && m < 60 && sec < 60 && 3600 * h + 60 * m + sec == seconds
    ensures FormatTime(seconds) == TwoDigits(h) + ":" + TwoDigits(m) + ":" + TwoDigits(sec)
  {
    h, m, sec := Clock(seconds).0, Clock(seconds).1, Clock(seconds).2;
  }

  /** Two-digit hours, minutes and seconds render as a well-formed text that reads back as their total. */
  lemma FieldsRoundTrip(h: nat, m: nat, sec: nat, s: string, total: nat)
    requires h < 100 && m < 60 && sec < 60 && total == 3600 * h + 60 * m + sec
    requires s == TwoDigits(h) + ":" + TwoDigits(m) + ":" + TwoDigits(sec)
    ensures ClockText(s) && ParseTime(s) == Some(total)
  {
    TwoDigitsOf(h);
    TwoDigitsOf(m);
    TwoDigitsOf(sec);
    JoinedClock(TwoDigits(h), TwoDigits(m), TwoDigits(sec));
    FieldValue(s[0], s[1], h);
    FieldValue(s[3], s[4], m);
    FieldValue(s[6], s[7], sec);
    ParseFields(s, h, m, sec, total);
  }

  /** A well-formed text whose fields spell `h`, `m` and `sec` stands for `3600 * h + 60 * m + sec` seconds. */
  lemma ParseFields(s: string, h: nat, m: nat, sec: nat, total: nat)
    requires ClockText(s) && total == 3600 * h + 60 * m + sec
    requires 10 * DigitValue(s[0]) + DigitValue(s[1]) == h
    requires 10 * DigitValue(s[3]) + DigitValue(s[4]) == m
    requires 10 * DigitValue(s[6]) + DigitValue(s[7]) == sec
    ensures ParseTime(s) == Some(total)
  {
  }

  /** The characters of three two-character fields joined by colons. */
  lemma JoinedClock(a: string, b: string, c: string)
    requires |a| == 2 && |b| == 2 && |c| == 2
    ensures var s := a + ":" + b + ":" + c;
      && |s| == 8 && s[0] == a[0] && s[1] == a[1] && s[2] == ':' && s[3] == b[0] && s[4] == b[1]
      && s[5] == ':' && s[6] == c[0] && s[7] == c[1]
  {
  }

  /** The two digits of a field below 100 read back as its value; below 60 the tens digit is below 6. */
  lemma FieldValue(tens: char, units: char, n: nat)
    requires n < 100 && tens == DigitChar(n / 10) && units == DigitChar(n % 10)
    ensures IsDigit(tens) && IsDigit(units)
    ensures 10 * DigitValue(tens) + DigitValue(units) == n
    ensures n < 60 ==> tens < '6'
  {
  }

  /** Every well-formed "HH:MM:SS" text is the rendering of the seconds it stands for. */
  lemma ParseTimeRoundTrip(s: string)
    requires ClockText(s)
    ensures ParseTime(s).value < 360000
    ensures FormatTime(ParseTime(s).value) == s
  {
    var h := FieldText(s[0], s[1]);
    var m := FieldText(s[3], s[4]);
    var sec := FieldText(s[6], s[7]);
    var seconds := ParseTime(s).value;
    ClockUnique(seconds, h, m, sec);
    assert FormatTime(seconds) == TwoDigits(h) + ":" + TwoDigits(m) + ":" + TwoDigits(sec);
    assert s == [s[0], s[1]] + ":" + [s[3], s[4]] + ":" + [s[6], s[7]];
  }

  /** Two digits are the field of the number they spell. */
  lemma FieldText(tens: char, units: char) returns (n: nat)
    requires IsDigit(tens) && IsDigit(units)
    ensures n == 10 * DigitValue(tens) + DigitValue(units) && n < 100
    ensures TwoDigits(n) == [tens, units]
  {
    var t: nat, u: nat := DigitValue(tens), DigitValue(units);
    n := 10 * t + u;
    DigitsOfField(t, u);
    TwoDigitsOf(n);
    assert DigitChar(t) == tens && DigitChar(u) == units;
  }

  /** The tens and the units of `10 * t + u` are `t` and `u`. */
  lemma DigitsOfField(t: nat, u: nat)
    requires t < 10 && u < 10
    ensures (10 * t + u) / 10 == t && (10 * t + u) % 10 == u
  {
  }

  /** Hours, minutes below 60 and seconds below 60 are the clock of the seconds they add up to. */
  lemma ClockUnique(seconds: nat, h: nat, m: nat, sec: nat)
    requires m < 60 && sec < 60 && seconds == 3600 * h + 60 * m + sec
    ensures Clock(seconds) == (h, m, sec)
  {
    assert seconds % 3600 == 60 * m + sec;
    assert seconds / 3600 == h;
    assert (60 * m + sec) / 60 == m;
  }

  // ---------------------------------------------------------------------------------------
  // The countdown

  /**
   * `Math.max(0, Math.floor((expiresAt - now) / 1000))`: the whole seconds until the link
   * expires, 0 once it has.
   */
  function SecondsLeft(expiresAtMillis: int, nowMillis: int): (left: nat)
    ensures expiresAtMillis - nowMillis < 1000 ==> left == 0
    ensures expiresAtMillis - nowMillis >= 1000 ==>
      1000 * left <= expiresAtMillis - nowMillis < 1000 * (left + 1)
  {
    Max(0, (expiresAtMillis - nowMillis) / 1000)
  }

  /** The status shown in the panel. */
  datatype PanelStatus = Pending | Succeeded | Failed | Processing

  /** What the `timeLeft` effect does. */
  datatype TimerEffect =
    | Tick(next: nat)   // in one second `timeLeft` becomes `next`
    | Regenerate        // the link expired while pending: a new payment is created
    | Idle

  /** The effect run whenever `timeLeft` changes. */
  function CountdownEffect(timeLeft: nat, status: Option<PanelStatus>): (effect: TimerEffect)
    ensures timeLeft > 0 <==> effect.Tick?
    ensures effect.Tick? ==> effect.next == timeLeft - 1
    ensures effect == Regenerate <==> timeLeft == 0 && status == Some(Pending)
  {
    if timeLeft > 0 then Tick(timeLeft - 1)
    else if status.Some? && status.value == Pending then Regenerate
    else Idle
  }

  /** `n` ticks of the countdown, from `start`, without a change of status. */
  function RunCountdown(start: nat, status: Option<PanelStatus>, ticks: nat): (left: nat)
    ensures left <= start
    ensures start > 0 && ticks > 0 ==> left < start
  {
    if ticks == 0 then start
    else match CountdownEffect(start, status)
      case Tick(next) => RunCountdown(next, status, ticks - 1)
      case _ => start
  }

  /**
   * The countdown counts down one second a tick and stops at 0: after `ticks` ticks it shows
   * `start - ticks`, or 0.
   */
  lemma {:induction false} CountdownReachesZero(start: nat, status: Option<PanelStatus>, ticks: nat)
    ensures RunCountdown(start, status, ticks) == Max(0, start - ticks)
  {
    if ticks > 0 && start > 0 {
      CountdownReachesZero(start - 1, status, ticks - 1);
    }
  }

  // ---------------------------------------------------------------------------------------
  // Polling

  /** The reply to one status request. */
  datatype PollReply =
    | Reported(status: string)   // `success` set, with `payment_status.status`
    | NotReported                // `success` not set
    | PollRaised                 // the request or its JSON failed

  /** The callback a poll invokes. */
  datatype Notice = NoNotice | NotifySuccess | NotifyFailure(message: string)

  datatype PollStep = PollStep(status: Option<(PanelStatus, string)>, stop: bool, notice: Notice)

  /** One poll: the panel's status after the reply, whether polling stops, and the callback. */
  function Poll(current: Option<(PanelStatus, string)>, reply: PollReply): (step: PollStep)
    ensures step.stop <==> reply.Reported? && reply.status in {"captured", "paid", "failed"}
    ensures !step.stop ==> step.status == current && step.notice == NoNotice
    ensures step.stop && reply.status != "failed" ==>
      step.status == Some((Succeeded, "Payment completed successfully!")) && step.notice == NotifySuccess
    ensures step.stop && reply.status == "failed" ==>
      step.status == Some((Failed, "Payment failed. Please try again.")) && step.notice == NotifyFailure("Payment failed")
  {
    match reply
    case Reported(status) =>
      if status == "captured" || status == "paid" then
        PollStep(Some((Succeeded, "Payment completed successfully!")), true, NotifySuccess)
      else if status == "failed" then
        PollStep(Some((Failed, "Payment failed. Please try again.")), true, NotifyFailure("Payment failed"))
      else PollStep(current, false, NoNotice)
    case _ => PollStep(current, false, NoNotice)
  }

  /** The panel's status after a run of polls, and whether the run was stopped. */
  function PollAll(current: Option<(PanelStatus, string)>, replies: seq<PollReply>): (after: (Option<(PanelStatus, string)>, bool))
    ensures !after.1 ==> after.0 == current
    ensures after.1 ==> after.0.Some? && after.0.value.0 in {Succeeded, Failed}
  {
    if |replies| == 0 then (current, false)
    else
      var step := Poll(current, replies[0]);
      if step.stop then (step.status, true) else PollAll(step.status, replies[1..])
  }

  /** A reply that settles the payment. */
  predicate Settles(reply: PollReply) {
    reply.Reported? && reply.status in {"captured", "paid", "failed"}
  }

  /**
   * Polling leaves the status alone until the first settling reply, and that reply alone decides
   * the outcome: replies after it are never looked at.
   */
  lemma {:induction false} PollAllFirstSettles(current: Option<(PanelStatus, string)>, replies: seq<PollReply>)
    decreases |replies|
    ensures PollAll(current, replies).1 <==> exists k :: 0 <= k < |replies| && Settles(replies[k])
    ensures !PollAll(current, replies).1 ==> PollAll(current, replies).0 == current
    ensures forall k :: 0 <= k < |replies| && Settles(replies[k]) && (forall j :: 0 <= j < k ==> !Settles(replies[j])) ==>
      PollAll(current, replies).0 == Poll(current, replies[k]).status
  {
    if |replies| > 0 {
      PollAllFirstSettles(Poll(current, replies[0]).status, replies[1..]);
      if !Settles(replies[0]) {
        forall k | 1 <= k < |replies| && Settles(replies[k])
          ensures Poll(current, replies[k]).status == Poll(Poll(current, replies[0]).status, replies[1..][k - 1]).status
        {
        }
        assert forall k :: 1 <= k < |replies| ==> replies[1..][k - 1] == replies[k];
      }
    }
  }
}
