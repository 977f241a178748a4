/**
  The pure helpers of the timer's live activity (widget/widgetLiveActivity.swift): the `MM:SS`
  formatter and the progress fraction. The same formatter appears in the timer view, the widget
  extension and the timer view controller; this one model covers all of them. The input to
  `timeString` is the whole number of seconds `Int(timeInterval)`.
 */
module LiveActivity {
  import opened Optional

  /** Swift's `Int` division, which truncates toward zero. */
  function Quot(a: int, b: int): int
    requires b > 0
  {
    if a >= 0 then a / b else -((-a) / b)
  }

  /** Swift's `%`, whose result takes the sign of the dividend. */
  function Rem(a: int, b: int): int
    requires b > 0
  {
    a - b * Quot(a, b)
  }

  /** Minutes and seconds always recombine to the input, and seconds stay within one minute. */
  lemma MinutesSeconds(t: int)
    ensures Quot(t, 60) * 60 + Rem(t, 60) == t
    ensures -60 < Rem(t, 60) < 60
    ensures t >= 0 ==> 0 <= Rem(t, 60) <= 59 && Quot(t, 60) >= 0
    ensures 0 <= t < 6000 ==> Quot(t, 60) < 100
  {
  }

  function DigitChar(d: int): char
    requires 0 <= d < 10
  {
    (48 + d) as char
  }

  predicate IsDigit(c: char)
  {
    '0' <= c <= '9'
  }

  predicate AllDigits(s: string)
  {
    forall i :: 0 <= i < |s| ==> IsDigit(s[i])
  }

  /** The decimal digits of `n`, without leading zeros ("0" for zero). */
  function Digits(n: nat): (r: string)
    ensures r != [] && AllDigits(r)
    ensures n < 10 ==> |r| == 1
    ensures 10 <= n < 100 ==> |r| == 2
  {
    if n < 10 then [DigitChar(n)] else Digits(n / 10) + [DigitChar(n % 10)]
  }

  /** The number a string of decimal digits denotes. */
  function Value(s: string): nat
    requires AllDigits(s)
  {
    if s == [] then 0 else Value(s[..|s| - 1]) * 10 + (s[|s| - 1] as int - 48)
  }

  /** Reading back the digits of `n` gives `n`. */
  lemma {:induction false} ValueOfDigits(n: nat)
    ensures Value(Digits(n)) == n
  {
    if n >= 10 {
      ValueOfDigits(n / 10);
      var d := Digits(n);
      assert d[..|d| - 1] == Digits(n / 10);
    }
  }

  /** A leading zero does not change the value. */
  lemma {:induction false} ValueLeadingZero(s: string)
    requires AllDigits(s)
    ensures AllDigits("0" + s) && Value("0" + s) == Value(s)
  {
    if s != [] {
      var z := "0" + s;
      assert z[..|z| - 1] == "0" + s[..|s| - 1];
      ValueLeadingZero(s[..|s| - 1]);
    }
  }

  /** `%02d`: at least two digits, zero-padded; a negative number is a minus sign and its digits. */
  function Pad2(n: int): (r: string)
    ensures n >= 0 ==> AllDigits(r) && |r| >= 2
    ensures n < 0 ==> |r| > 0 && r[0] == '-'
    ensures 0 <= n < 100 ==> |r| == 2
  {
    if n < 0 then "-" + Digits(-n)
    else if n < 10 then "0" + Digits(n)
    else Digits(n)
  }

  /** A padded non-negative field reads back as the number it shows. */
  lemma ValueOfPad2(n: nat)
    ensures Value(Pad2(n)) == n
  {
    ValueOfDigits(n);
    if n < 10 {
      ValueLeadingZero(Digits(n));
    }
  }

  /** `timeString(from:)`: minutes and seconds, each `%02d`, separated by a colon. */
  function TimeString(t: int): string
  {
    Pad2(Quot(t, 60)) + ":" + Pad2(Rem(t, 60))
  }

  /** Under 100 minutes the text is exactly `MM:SS`: five characters with the colon in the middle. */
  lemma TimeStringShape(t: int)
    requires 0 <= t < 6000
    ensures |TimeString(t)| == 5 && TimeString(t)[2] == ':'
    ensures AllDigits(TimeString(t)[..2]) && AllDigits(TimeString(t)[3..])
  {
    MinutesSeconds(t);
    var s := TimeString(t);
    assert s[..2] == Pad2(Quot(t, 60));
    assert s[3..] == Pad2(Rem(t, 60));
  }

  /** The position of the first colon, if there is one. */
  function IndexOfColon(s: string): (r: Option<nat>)
    ensures r.Some? ==> r.value < |s| && s[r.value] == ':' && forall i :: 0 <= i < r.value ==> s[i] != ':'
    ensures r.None? ==> forall i :: 0 <= i < |s| ==> s[i] != ':'
  {
    if s == [] then None
    else if s[0] == ':' then Some(0)
    else match IndexOfColon(s[1..])
      case None => None
      case Some(i) => Some(i + 1)
  }

  /** Reads `M:S` with both fields non-empty decimal digits back into seconds. */
  function ParseTimeString(s: string): Option<int>
  {
    match IndexOfColon(s)
    case None => None
    case Some(p) =>
      var minutes := s[..p];
      var seconds := s[p + 1..];
      if minutes != [] && seconds != [] && AllDigits(minutes) && AllDigits(seconds)
      then Some(Value(minutes) * 60 + Value(seconds))
      else None
  }

  /** The text shown for a non-negative number of seconds reads back as that number: nothing is lost. */
  lemma ParseTimeStringRoundTrip(t: int)
    requires t >= 0
    ensures ParseTimeString(TimeString(t)) == Some(t)
  {
    MinutesSeconds(t);
    var m, sec := Quot(t, 60), Rem(t, 60);
    var s := TimeString(t);
    var left := Pad2(m);
    assert forall i :: 0 <= i < |left| ==> s[i] == left[i] && IsDigit(left[i]);
    assert s[|left|] == ':';
    var p := IndexOfColon(s);
    assert p == Some(|left|);
    assert s[..|left|] == left;
    assert s[|left| + 1..] == Pad2(sec);
    ValueOfPad2(m);
    ValueOfPad2(sec);
  }

  /** The live remaining time the activity shows, `max(0, endTime.timeIntervalSinceNow)`, in whole seconds. */
  function LiveRemaining(endTime: int, now: int): (r: int)
    ensures r >= 0
    ensures r == 0 <==> endTime <= now
    ensures r > 0 ==> now + r == endTime
  {
    if endTime - now >= 0 then endTime - now else 0
  }

  /**
    What the activity displays: the live remaining time, so the display never shows a minus sign.
   */
  lemma DisplayNeverNegative(end: int, now: int)
    ensures LiveRemaining(end, now) >= 0
    ensures forall i :: 0 <= i < |TimeString(LiveRemaining(end, now))| ==> TimeString(LiveRemaining(end, now))[i] != '-'
  {
    var t := LiveRemaining(end, now);
    MinutesSeconds(t);
    assert TimeString(t) == Pad2(Quot(t, 60)) + ":" + Pad2(Rem(t, 60));
  }

  /** The total the activity reconstructs, `endTime - (endTime - timeRemaining)`, is `timeRemaining`. */
  function ReconstructedTotal(endTime: int, timeRemaining: int): (r: int)
    ensures r == timeRemaining
  {
    endTime - (endTime - timeRemaining)
  }

  /** Swift's `max` and `min` on doubles, which keep the left operand when the comparison fails. */
  function Clamp01(x: real): (r: real)
    ensures 0.0 <= r <= 1.0
    ensures 0.0 <= x <= 1.0 ==> r == x
  {
    var lo := if 0.0 >= x then 0.0 else x;
    if 1.0 < lo then 1.0 else lo
  }

  /**
    `progress(for:)`: one minus the live remaining time over the reconstructed total, clamped into
    [0, 1]. The one case where the double arithmetic gives NaN, and the clamp lets it through, is a
    zero `timeRemaining` once the end has passed (0 / 0); that case is `None`. With a zero total and
    time still left the quotient is infinite and the clamp gives 0; with a negative total it gives 1.
   */
  function Progress(timeRemaining: int, endTime: int, now: int): (r: Option<real>)
    ensures r.None? <==> timeRemaining == 0 && endTime <= now
    ensures r.Some? ==> 0.0 <= r.value <= 1.0
    ensures timeRemaining > 0 && LiveRemaining(endTime, now) <= timeRemaining ==>
              r.Some? && r.value * timeRemaining as real == (timeRemaining - LiveRemaining(endTime, now)) as real
  {
    var totalTime := ReconstructedTotal(endTime, timeRemaining);
    var current := LiveRemaining(endTime, now);
    if totalTime == 0 then
      (if current == 0 then None else Some(0.0))
    else
      var raw := 1.0 - current as real / totalTime as real;
      FractionInUnitInterval(current, totalTime);
      Some(Clamp01(raw))
  }

  /** A share of a positive total that is no larger than the total lies in [0, 1]. */
  lemma FractionInUnitInterval(c: int, t: int)
    requires t != 0
    ensures t > 0 && 0 <= c <= t ==> 0.0 <= c as real / t as real <= 1.0
    ensures (c as real / t as real) * t as real == c as real
  {
    if t > 0 && 0 <= c <= t {
      DivideKeepsOrder(0, c, t);
      DivideKeepsOrder(c, t, t);
    }
  }

  /** Dividing by the same positive total keeps the order. */
  lemma DivideKeepsOrder(a: int, b: int, t: int)
    requires a <= b && t > 0
    ensures a as real / t as real <= b as real / t as real
  {
    var qa, qb := a as real / t as real, b as real / t as real;
    assert qa * t as real == a as real;
    assert qb * t as real == b as real;
    assert (qb - qa) * t as real == (b - a) as real;
  }

  /** With a positive total, progress never goes backwards as time passes. */
  lemma ProgressMonotone(timeRemaining: int, endTime: int, now1: int, now2: int)
    requires timeRemaining > 0 && now1 <= now2
    ensures Progress(timeRemaining, endTime, now1).value <= Progress(timeRemaining, endTime, now2).value
  {
    var c1 := LiveRemaining(endTime, now1);
    var c2 := LiveRemaining(endTime, now2);
    assert c2 <= c1;
    DivideKeepsOrder(c2, c1, timeRemaining);
  }
}
