/**
 * The training-video player (src/components/VideoPlayer.tsx): the `m:ss` time
 * label and the handlers that keep the component's state and the media element
 * in step. Times are seconds as reals; the media element is a class of its own
 * whose fields the handlers write.
 */
module Player {
  import opened Wrappers
  import opened Text

  /** The initial total duration, 15:30 in seconds. */
  const InitialDurationSeconds := 930.0

  /** The `duration` prop's default: the text shown on the thumbnail. */
  const DefaultDurationLabel := "15:30"

  /** `m:ss` for a whole number of seconds: digits with one colon, three characters from the end. */
  function FormatSeconds(n: nat): (r: string)
    ensures |r| >= 4 && r[|r| - 3] == ':'
    ensures forall i :: 0 <= i < |r| && i != |r| - 3 ==> IsDigit(r[i])
  {
    var secs := PadStart(NatToString(n % 60), 2, '0');
    PaddedSeconds(n % 60);
    NatToString(n / 60) + ":" + secs
  }

  /**
   * `formatTime`: whole minutes, a colon, and the remaining whole seconds padded to
   * two digits. Fractions of a second are dropped.
   */
  function FormatTime(seconds: real): (r: string)
    requires seconds >= 0.0
    ensures r == FormatSeconds(seconds.Floor)
  {
    var mins := (seconds / 60.0).Floor;
    var secs := (seconds - 60.0 * mins as real).Floor;
    FloorParts(seconds, mins, secs);
    NatToString(mins) + ":" + PadStart(NatToString(secs), 2, '0')
  }

  /** For a non-negative time, the floored minutes and seconds are those of the floored time. */
  lemma FloorParts(seconds: real, mins: int, secs: int)
    requires seconds >= 0.0
    requires mins == (seconds / 60.0).Floor && secs == (seconds - 60.0 * mins as real).Floor
    ensures mins == seconds.Floor / 60 && secs == seconds.Floor % 60
  {
    var n := seconds.Floor;
    assert 60.0 * mins as real <= seconds < 60.0 * mins as real + 60.0;
    assert 60 * mins <= n < 60 * mins + 60;
  }

  /**
   * A reader of the model's own (the component only writes labels), used to state what
   * a label means: digits, one colon, exactly two digits below 60.
   */
  function ParseTime(s: string): (r: Option<nat>)
    ensures r.Some? ==> |s| >= 4 && s[|s| - 3] == ':'
  {
    var parts := Split(s, ':');
    if |parts| == 2 && |parts[1]| == 2 then
      match (ParseNat(parts[0]), ParseNat(parts[1]))
      case (Some(m), Some(sec)) =>
        if sec < 60 then
          SplitTwo(s, ':');
          Some(m * 60 + sec)
        else None
      case _ => None
    else None
  }

  /** A string that splits into two pieces is the first piece, the separator and the second. */
  lemma {:induction false} SplitTwo(s: string, c: char)
    requires |Split(s, c)| == 2
    ensures s == Split(s, c)[0] + [c] + Split(s, c)[1]
  {
    var rest := Split(s[1..], c);
    if s[0] == c {
      SplitNoSeparatorBack(s[1..], c);
      assert s == [c] + s[1..];
    } else {
      SplitTwo(s[1..], c);
      assert s == [s[0]] + s[1..];
    }
  }

  /** A string that splits into one piece is that piece. */
  lemma {:induction false} SplitNoSeparatorBack(s: string, c: char)
    requires |Split(s, c)| == 1
    ensures Split(s, c)[0] == s
  {
    if s != [] {
      SplitNoSeparatorBack(s[1..], c);
      assert s == [s[0]] + s[1..];
    }
  }

  /** The label shows exactly the whole seconds: reading it back gives the floored time. */
  lemma FormatTimeRoundTrip(seconds: real)
    requires seconds >= 0.0
    ensures ParseTime(FormatTime(seconds)) == Some(seconds.Floor)
  {
    FormatSecondsRoundTrip(seconds.Floor);
  }

  /** For whole seconds, the label reads back as n. */
  lemma FormatSecondsRoundTrip(n: nat)
    ensures ParseTime(FormatSeconds(n)) == Some(n)
  {
    var m, s := NatToString(n / 60), PadStart(NatToString(n % 60), 2, '0');
    PaddedSeconds(n % 60);
    ParseNatToString(n / 60);
    var parts := Split(FormatSeconds(n), ':');
    assert parts == [m, s] by {
      NoColon(m);
      NoColon(s);
      SplitConcat(m, s, ':');
      SplitNoSeparator(m, ':');
      SplitNoSeparator(s, ':');
    }
    assert (n / 60) * 60 + n % 60 == n;
  }

  /**
   * The two fields of the label for whole seconds: before the colon the minutes,
   * unpadded (the decimal text of n / 60, which has no leading zero); after it the
   * seconds as exactly two digits.
   */
  lemma FormatSecondsFields(n: nat)
    ensures FormatSeconds(n)[..|FormatSeconds(n)| - 3] == NatToString(n / 60)
    ensures FormatSeconds(n)[|FormatSeconds(n)| - 2..] == PadStart(NatToString(n % 60), 2, '0')
  {
    PaddedSeconds(n % 60);
    FormatSecondsParts(n, n / 60, n % 60);
    ColonFields(NatToString(n / 60), PadStart(NatToString(n % 60), 2, '0'));
  }

  /** Proof helper: the fields on either side of the colon, three from the end. */
  lemma ColonFields(m: string, s: string)
    requires |s| == 2
    ensures (m + ":" + s)[..|m + ":" + s| - 3] == m && (m + ":" + s)[|m + ":" + s| - 2..] == s
  {
  }

  lemma NoColon(d: string)
    requires AllDigits(d)
    ensures ':' !in d
  {
  }

  /** The seconds field: two digits whose value is the seconds. */
  lemma PaddedSeconds(k: nat)
    requires k < 60
    ensures |PadStart(NatToString(k), 2, '0')| == 2
    ensures ParseNat(PadStart(NatToString(k), 2, '0')) == Some(k)
  {
    var d := NatToString(k);
    ParseNatToString(k);
    if k < 10 {
      assert PadStart(d, 2, '0') == "0" + d;
      DigitsValueLeadingZero(d);
    } else {
      assert |d| == 2 by {
        assert d == NatToString(k / 10) + [DigitChar(k % 10)];
      }
    }
  }

  /** Different whole seconds give different labels. */
  lemma FormatSecondsInjective(a: nat, b: nat)
    requires FormatSeconds(a) == FormatSeconds(b)
    ensures a == b
  {
    FormatSecondsRoundTrip(a);
    FormatSecondsRoundTrip(b);
  }

  /** The initial total duration is labelled like the default `duration` prop. */
  lemma InitialDurationLabel()
    ensures FormatTime(InitialDurationSeconds) == DefaultDurationLabel
  {
    assert InitialDurationSeconds.Floor == 930;
    Label930();
  }

  lemma Label930()
    ensures FormatSeconds(930) == "15:30"
  {
    var m, sec := NatToString(15), PadStart(NatToString(30), 2, '0');
    assert m == "15";
    assert sec == "30";
    FormatSecondsParts(930, 15, 30);
    Colon(m, sec, "15", "30");
  }

  /** Proof helper: the label of n written with its minutes and seconds named. */
  lemma FormatSecondsParts(n: nat, mins: nat, secs: nat)
    requires mins == n / 60 && secs == n % 60
    ensures FormatSeconds(n) == NatToString(mins) + ":" + PadStart(NatToString(secs), 2, '0')
  {
  }

  /** Proof helper: equal parts give equal labels. */
  lemma Colon(a: string, b: string, x: string, y: string)
    requires a == x && b == y
    ensures a + ":" + b == x + ":" + y
  {
  }

  /** The `<video>` element's state as the handlers see it. */
  class MediaElement {
    var currentTime: real
    var duration: real
    var muted: bool
    var paused: bool

    constructor (duration0: real)
      requires duration0 >= 0.0
      ensures currentTime == 0.0 && duration == duration0 && !muted && paused
    {
      currentTime, duration, muted, paused := 0.0, duration0, false, true;
    }

    method Play()
      modifies this
      ensures !paused
      ensures currentTime == old(currentTime) && duration == old(duration) && muted == old(muted)
    {
      paused := false;
    }

    method Pause()
      modifies this
      ensures paused
      ensures currentTime == old(currentTime) && duration == old(duration) && muted == old(muted)
    {
      paused := true;
    }
  }

  /** The component: its four state variables and the element its ref points to (null before mount). */
  class VideoPlayer {
    const video: MediaElement?
    var isPlaying: bool
    var isMuted: bool
    var currentTime: real
    var totalDuration: real

    /**
     * The times the component holds and reads are never negative: a media element's
     * position and duration are not, and the seek slider starts at 0.
     */
    ghost predicate Valid()
      reads this, video
    {
      currentTime >= 0.0 && totalDuration >= 0.0
      && (video != null ==> video.currentTime >= 0.0 && video.duration >= 0.0)
    }

    constructor (video: MediaElement?)
      requires video != null ==> video.currentTime >= 0.0 && video.duration >= 0.0
      ensures Valid()
      ensures this.video == video
      ensures !isPlaying && !isMuted && currentTime == 0.0 && totalDuration == InitialDurationSeconds
    {
      this.video := video;
      isPlaying, isMuted, currentTime, totalDuration := false, false, 0.0, InitialDurationSeconds;
    }

    /** The `current / total` label of the controls. */
    function TimeLabel(): (r: string)
      reads this, video
      requires Valid()
      ensures r == FormatSeconds(currentTime.Floor) + " / " + FormatSeconds(totalDuration.Floor)
    {
      FormatTime(currentTime) + " / " + FormatTime(totalDuration)
    }

    /**
     * `togglePlay`: with an element, pause it if the state says playing and play it
     * otherwise, then flip the state; afterwards the element is paused exactly when
     * the state says it is not playing. Without an element nothing happens.
     */
    method TogglePlay()
      requires Valid()
      modifies this, video
      ensures Valid()
      ensures video != null ==> isPlaying == !old(isPlaying) && video.paused == !isPlaying
      ensures video != null ==>
        video.currentTime == old(video.currentTime) && video.muted == old(video.muted) && video.duration == old(video.duration)
      ensures video == null ==> isPlaying == old(isPlaying)
      ensures isMuted == old(isMuted) && currentTime == old(currentTime) && totalDuration == old(totalDuration)
    {
      if video != null {
        if isPlaying {
          video.Pause();
        } else {
          video.Play();
        }
        isPlaying := !isPlaying;
      }
    }

    /** `toggleMute`: flips the state and sets the element's `muted` to the new state. */
    method ToggleMute()
      requires Valid()
      modifies this, video
      ensures Valid()
      ensures video != null ==> isMuted == !old(isMuted) && video.muted == isMuted
      ensures video != null ==>
        video.currentTime == old(video.currentTime) && video.paused == old(video.paused) && video.duration == old(video.duration)
      ensures video == null ==> isMuted == old(isMuted)
      ensures isPlaying == old(isPlaying) && currentTime == old(currentTime) && totalDuration == old(totalDuration)
    {
      if video != null {
        video.muted := !isMuted;
        isMuted := !isMuted;
      }
    }

    /** `handleTimeUpdate`: the state takes the element's playback position. */
    method HandleTimeUpdate()
      requires Valid()
      modifies this
      ensures Valid()
      ensures video != null ==> currentTime == video.currentTime
      ensures video == null ==> currentTime == old(currentTime)
      ensures isPlaying == old(isPlaying) && isMuted == old(isMuted) && totalDuration == old(totalDuration)
    {
      if video != null {
        currentTime := video.currentTime;
      }
    }

    /** `handleSeek`: the slider's value becomes the position of the element and of the state. */
    method HandleSeek(time: real)
      requires Valid() && 0.0 <= time <= totalDuration
      modifies this, video
      ensures Valid()
      ensures video != null ==> video.currentTime == time && currentTime == time
      ensures video != null ==>
        video.paused == old(video.paused) && video.muted == old(video.muted) && video.duration == old(video.duration)
      ensures video == null ==> currentTime == old(currentTime)
      ensures isPlaying == old(isPlaying) && isMuted == old(isMuted) && totalDuration == old(totalDuration)
    {
      if video != null {
        video.currentTime := time;
        currentTime := time;
      }
    }

    /** The `onLoadedMetadata` handler: the state takes the element's duration. */
    method HandleLoadedMetadata()
      requires Valid()
      modifies this
      ensures Valid()
      ensures video != null ==> totalDuration == video.duration
      ensures video == null ==> totalDuration == old(totalDuration)
      ensures isPlaying == old(isPlaying) && isMuted == old(isMuted) && currentTime == old(currentTime)
    {
      if video != null {
        totalDuration := video.duration;
      }
    }
  }

  /**
   * A toggle puts the element and the state back in step even when the element
   * paused on its own: two toggles return to the starting state with the element
   * matching it.
   */
  method ToggleTwice(p: VideoPlayer) returns (before: bool, after: bool, pausedAfter: bool)
    requires p.video != null && p.Valid()
    modifies p, p.video
    ensures after == before && pausedAfter == !after
  {
    before := p.isPlaying;
    p.TogglePlay();
    p.TogglePlay();
    after := p.isPlaying;
    pausedAfter := p.video.paused;
  }
}
