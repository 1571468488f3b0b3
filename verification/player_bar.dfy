/**
 * The pure conversions of the music player bar (the `m:ss` time label, the
 * progress and seek slider, the volume slider and the volume icon) and the
 * like button's toggle.
 */
module PlayerBar {
  import opened Api

  /** A JavaScript number: NaN, an infinity, or a finite value. */
  datatype JsNumber = NaN | PosInfinity | NegInfinity | Finite(value: real)

  predicate IsDigit(c: char) { '0' <= c <= '9' }

  predicate AllDigits(s: string) { forall i :: 0 <= i < |s| ==> IsDigit(s[i]) }

  function DigitChar(d: nat): (c: char)
    requires d < 10
    ensures IsDigit(c) && c as int - '0' as int == d
  {
    (d + '0' as int) as char
  }

  function DigitValue(c: char): nat {
    if IsDigit(c) then c as int - '0' as int else 0
  }

  /** The decimal text of a natural number, without leading zeros. */
  function Decimal(n: nat): (s: string)
    ensures 1 <= |s|
    ensures AllDigits(s)
    ensures n < 10 <==> |s| == 1
    ensures 10 <= n < 100 ==> |s| == 2
  {
    if n < 10 then [DigitChar(n)] else Decimal(n / 10) + [DigitChar(n % 10)]
  }

  /** Reads a string of decimal digits (leading zeros allowed). */
  function ParseDecimal(s: string): nat {
    if s == [] then 0 else ParseDecimal(s[..|s| - 1]) * 10 + DigitValue(s[|s| - 1])
  }

  lemma {:induction false} DecimalRoundTrip(n: nat)
    ensures ParseDecimal(Decimal(n)) == n
  {
    var s := Decimal(n);
    if n >= 10 {
      assert s[..|s| - 1] == Decimal(n / 10);
      DecimalRoundTrip(n / 10);
    } else {
      assert s[..|s| - 1] == [];
    }
  }

  /** `Number.prototype.toString` on an integer value. */
  function IntText(i: int): (s: string)
    ensures i >= 0 ==> ParseDecimal(s) == i && forall k :: 0 <= k < |s| ==> IsDigit(s[k])
    ensures i < 0 ==> |s| >= 2 && s[0] == '-' && ParseDecimal(s[1..]) == -i
  {
    if i < 0 then
      DecimalRoundTrip(-i);
      assert ("-" + Decimal(-i))[1..] == Decimal(-i);
      "-" + Decimal(-i)
    else
      DecimalRoundTrip(i);
      Decimal(i)
  }

  /** `s.padStart(2, '0')` */
  function PadStart2(s: string): (r: string)
    ensures |r| == if |s| < 2 then 2 else |s|
    ensures r[|r| - |s|..] == s
    ensures forall i :: 0 <= i < |r| - |s| ==> r[i] == '0'
  {
    if |s| == 0 then "00" else if |s| == 1 then "0" + s else s
  }

  predicate IsWhole(y: real) { y.Floor as real == y }

  /**
   * JavaScript's `x % 60`: the remainder of the quotient truncated toward
   * zero. It has the sign of `x`, is less than 60 in size, and differs from
   * `x` by a whole multiple of 60.
   */
  function Remainder60(x: real): (r: real)
    ensures x >= 0.0 ==> 0.0 <= r < 60.0
    ensures x <= 0.0 ==> -60.0 < r <= 0.0
    ensures IsWhole((x - r) / 60.0)
  {
    var q := x / 60.0;
    var t := if q >= 0.0 then q.Floor else -((-q).Floor);
    TruncatedQuotient(x, t);
    x - 60.0 * (t as real)
  }

  /** The quotient truncated toward zero leaves a remainder of the dividend's sign, less than 60 in size. */
  lemma TruncatedQuotient(x: real, t: int)
    requires t == if x / 60.0 >= 0.0 then (x / 60.0).Floor else -((-(x / 60.0)).Floor)
    ensures x >= 0.0 ==> 0.0 <= x - 60.0 * (t as real) < 60.0
    ensures x <= 0.0 ==> -60.0 < x - 60.0 * (t as real) <= 0.0
    ensures (x - (x - 60.0 * (t as real))) / 60.0 == t as real
  {
    var q := x / 60.0;
    if q >= 0.0 {
      assert (t as real) <= q < (t as real) + 1.0;
    } else {
      var n := (-q).Floor;
      assert (n as real) <= -q < (n as real) + 1.0;
    }
  }

  /** The label `formatTime` shows for a whole number of seconds. */
  function Clock(n: nat): string {
    Decimal(n / 60) + ":" + PadStart2(Decimal(n % 60))
  }

  /** `formatTime(seconds)` */
  function FormatTime(seconds: JsNumber): (r: string)
    ensures !seconds.Finite? ==> r == "0:00"
    ensures seconds.Finite? && seconds.value >= 0.0 ==> r == Clock(seconds.value.Floor)
  {
    match seconds
    case Finite(x) =>
      if x >= 0.0 then
        FloorSplit(x);
        IntText((x / 60.0).Floor) + ":" + PadStart2(IntText(Remainder60(x).Floor))
      else
        IntText((x / 60.0).Floor) + ":" + PadStart2(IntText(Remainder60(x).Floor))
    case _ => "0:00"
  }

  /** For non-negative seconds, flooring the minutes and the remainder is splitting the whole seconds. */
  lemma FloorSplit(x: real)
    requires x >= 0.0
    ensures (x / 60.0).Floor == x.Floor / 60
    ensures Remainder60(x).Floor == x.Floor % 60
  {
    var f := x.Floor;
    var q, r := f / 60, f % 60;
    assert f == 60 * q + r && 0 <= r < 60;
    assert (f as real) <= x < (f as real) + 1.0;
    assert (q as real) * 60.0 <= x;
    assert x < (q as real) * 60.0 + 60.0;
    assert (q as real) <= x / 60.0 < (q as real) + 1.0;
    assert (x / 60.0).Floor == q;
    var rem := x - 60.0 * (q as real);
    assert rem == Remainder60(x);
    assert (r as real) <= rem < (r as real) + 1.0;
  }

  /** Reads an `m:ss` label back into seconds; None when the text is not of that shape. */
  function ParseClock(s: string): Option<nat> {
    if |s| < 4 || s[|s| - 3] != ':' then None
    else
      ClockFields(s[..|s| - 3], s[|s| - 2..])
  }

  /** The seconds of a digits-only minutes field and a two-digit seconds field below 60. */
  function ClockFields(mins: string, secs: string): Option<nat> {
    if AllDigits(mins) && |secs| == 2 && AllDigits(secs) && ParseDecimal(secs) < 60
    then Some(ParseDecimal(mins) * 60 + ParseDecimal(secs))
    else None
  }

  /** The seconds field of the label is two digits below 60, and the label reads back as `n`. */
  lemma ClockRoundTrip(n: nat)
    ensures ParseClock(Clock(n)) == Some(n)
  {
    var m, sec := Decimal(n / 60), Decimal(n % 60);
    var p := PadStart2(sec);
    DecimalRoundTrip(n / 60);
    DecimalRoundTrip(n % 60);
    if |sec| == 1 {
      assert p == "0" + sec;
      LeadingZero(sec);
    } else {
      assert p == sec;
    }
    assert ParseDecimal(p) == n % 60;
    assert AllDigits(p);
    assert ClockFields(m, p) == Some(n);
    ReadClock(m, p);
  }

  /** A leading zero does not change the value read. */
  lemma {:induction false} LeadingZero(s: string)
    ensures ParseDecimal("0" + s) == ParseDecimal(s)
  {
    if s == [] {
      assert ("0" + s)[..0] == [];
    } else {
      assert ("0" + s)[..|s|] == "0" + s[..|s| - 1];
      LeadingZero(s[..|s| - 1]);
    }
  }

  /** A label split at its colon reads as its two fields. */
  lemma ReadClock(m: string, p: string)
    requires 1 <= |m| && |p| == 2
    ensures ParseClock(m + ":" + p) == ClockFields(m, p)
  {
    var s := m + ":" + p;
    assert s[|s| - 3] == ':';
    assert s[..|s| - 3] == m;
    assert s[|s| - 2..] == p;
  }

  /** Any finite non-negative time reads back from its label as its whole seconds. */
  lemma FormatTimeRoundTrip(x: real)
    requires x >= 0.0
    ensures ParseClock(FormatTime(Finite(x))) == Some(x.Floor)
  {
    var text := FormatTime(Finite(x));
    assert text == Clock(x.Floor);
    ClockRoundTrip(x.Floor);
  }

  /** `duration > 0 ? (currentTime / duration) * 100 : 0` */
  function Progress(currentTime: real, duration: real): (p: real)
    ensures duration <= 0.0 ==> p == 0.0
    ensures 0.0 < duration && 0.0 <= currentTime <= duration ==> 0.0 <= p <= 100.0
  {
    if duration > 0.0 then
      RatioBounds(currentTime, duration);
      currentTime / duration * 100.0
    else 0.0
  }

  lemma RatioBounds(a: real, d: real)
    requires d > 0.0
    ensures 0.0 <= a <= d ==> 0.0 <= a / d <= 1.0
  {
    if 0.0 <= a <= d {
      assert a / d * d == a;
    }
  }

  /** `(value / 100) * duration`, the time a progress-slider value seeks to. */
  function SeekTime(sliderValue: real, duration: real): (t: real)
    ensures 0.0 <= sliderValue <= 100.0 && 0.0 <= duration ==> 0.0 <= t <= duration
  {
    sliderValue / 100.0 * duration
  }

  /** Seeking to the slider's current value targets the current time. */
  lemma SeekInvertsProgress(currentTime: real, duration: real)
    requires duration > 0.0
    ensures SeekTime(Progress(currentTime, duration), duration) == currentTime
  {
    var p := currentTime / duration * 100.0;
    assert p / 100.0 == currentTime / duration;
    assert currentTime / duration * duration == currentTime;
  }

  /** The slider shows the value it was dragged to once the seek has taken effect. */
  lemma ProgressInvertsSeek(sliderValue: real, duration: real)
    requires duration > 0.0
    ensures Progress(SeekTime(sliderValue, duration), duration) == sliderValue
  {
    var v := sliderValue / 100.0;
    assert SeekTime(sliderValue, duration) == v * duration;
    MulDivCancel(v, duration);
    assert v * 100.0 == sliderValue;
  }

  lemma MulDivCancel(a: real, d: real)
    requires d != 0.0
    ensures a * d / d == a
  {
  }

  /** `isMuted ? 0 : volume * 100` */
  function VolumeSliderValue(volume: real, isMuted: bool): (v: real)
    ensures isMuted ==> v == 0.0
    ensures 0.0 <= volume <= 1.0 ==> 0.0 <= v <= 100.0
  {
    if isMuted then 0.0 else volume * 100.0
  }

  /** `value / 100`, the volume a drag of the volume slider sets. */
  function VolumeFromSlider(value: real): (volume: real)
    ensures 0.0 <= value <= 100.0 ==> 0.0 <= volume <= 1.0
  {
    value / 100.0
  }

  /** Unmuted, the volume slider and `setVolume` are inverse to each other. */
  lemma VolumeSliderRoundTrip(volume: real, value: real)
    ensures VolumeFromSlider(VolumeSliderValue(volume, false)) == volume
    ensures VolumeSliderValue(VolumeFromSlider(value), false) == value
  {
  }

  datatype VolumeIcon = VolumeX | Volume1 | Volume2

  /** `isMuted || volume === 0 ? VolumeX : volume < 0.5 ? Volume1 : Volume2` */
  function ChooseVolumeIcon(volume: real, isMuted: bool): (icon: VolumeIcon)
    ensures icon == VolumeX <==> isMuted || volume == 0.0
    ensures icon == Volume1 <==> !isMuted && volume != 0.0 && volume < 0.5
    ensures icon == Volume2 <==> !isMuted && volume >= 0.5
  {
    if isMuted || volume == 0.0 then VolumeX
    else if volume < 0.5 then Volume1
    else Volume2
  }

  /** The crossed-out icon is shown exactly when the volume slider sits at zero. */
  lemma SilentIconIffSliderAtZero(volume: real, isMuted: bool)
    ensures ChooseVolumeIcon(volume, isMuted) == VolumeX <==> VolumeSliderValue(volume, isMuted) == 0.0
  {
  }

  function IconLevel(icon: VolumeIcon): nat {
    match icon
    case VolumeX => 0
    case Volume1 => 1
    case Volume2 => 2
  }

  /** Unmuted, a louder non-negative volume never shows a quieter icon. */
  lemma IconMonotone(v1: real, v2: real)
    requires 0.0 <= v1 <= v2
    ensures IconLevel(ChooseVolumeIcon(v1, false)) <= IconLevel(ChooseVolumeIcon(v2, false))
  {
  }

  datatype Toast = ToastSuccess(message: string) | ToastError(message: string)

  /** The heart button of the current track; remounted whenever the track changes. */
  class LikeButton {
    const trackId: int
    var isLiked: bool

    constructor (trackId: int, initialIsLiked: bool)
      ensures this.trackId == trackId && isLiked == initialIsLiked
    {
      this.trackId := trackId;
      isLiked := initialIsLiked;
    }

    /**
     * Calls unlike when liked and like otherwise; `isLiked` flips only once
     * the call has succeeded, and a failure only shows an error toast.
     */
    method HandleLikeToggle(response: ApiResult<()>) returns (call: ApiCall, toast: Toast)
      modifies this
      ensures call == (if old(isLiked) then UnlikeTrack(trackId) else LikeTrack(trackId))
      ensures isLiked == (if response.Resolved? then !old(isLiked) else old(isLiked))
      ensures toast == (if response.Rejected? then ToastError("Failed to update favorites")
                        else if old(isLiked) then ToastSuccess("Removed from favorites")
                        else ToastSuccess("Added to favorites"))
    {
      if isLiked {
        call := UnlikeTrack(trackId);
        if response.Resolved? {
          isLiked := false;
          toast := ToastSuccess("Removed from favorites");
        } else {
          toast := ToastError("Failed to update favorites");
        }
      } else {
        call := LikeTrack(trackId);
        if response.Resolved? {
          isLiked := true;
          toast := ToastSuccess("Added to favorites");
        } else {
          toast := ToastError("Failed to update favorites");
        }
      }
    }
  }
}
