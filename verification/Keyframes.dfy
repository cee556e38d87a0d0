/**
 Keyframe arithmetic of the transcode: the frame rate taken from a probe and the
 frames at which the encoder arguments place keyframes.
 */
module Keyframes {
  import opened Common
  import opened VideoTable
  import opened Ladder

  // ----- the frame rate -----

  /** The text of avg_frame_rate or r_frame_rate: missing or unparsable, or "n/d". */
  datatype RateText = Unreadable | Ratio(n: real, d: real)

  /** _parse_fps: n/d when d is not zero and 1 <= n/d <= 120. */
  function ParseFps(s: RateText): Option<real> {
    if s.Unreadable? || s.d == 0.0 then None
    else
      var fps := s.n / s.d;
      if 1.0 <= fps <= 120.0 then Some(fps) else None
  }

  /** Python's round: to the nearest integer, ties to the even one. */
  function RoundHalfEven(x: real): int {
    var lo := x.Floor;
    var frac := x - lo as real;
    if frac < 0.5 then lo
    else if frac > 0.5 then lo + 1
    else if lo % 2 == 0 then lo else lo + 1
  }

  function FpsFrom(rates: seq<RateText>): int {
    if rates == [] then 30
    else
      var fps := ParseFps(rates[0]);
      if fps.None? then FpsFrom(rates[1..])
      else if fps.value <= 30.0 then RoundHalfEven(fps.value)
      else 30
  }

  /** _fps_from_probe: the stream's rates are tried in order, 30 when none is usable. */
  function FpsFromProbe(stream: Option<seq<RateText>>): int {
    if stream.None? then 30 else FpsFrom(stream.value)
  }

  /** The text names x frames a second, and x is in range. */
  ghost predicate Names(s: RateText, x: real) {
    s.Ratio? && s.d != 0.0 && x * s.d == s.n && 1.0 <= x <= 120.0
  }

  /** x is the first rate in range. */
  ghost predicate FirstUsable(rates: seq<RateText>, i: int, x: real) {
    && 0 <= i < |rates|
    && Names(rates[i], x)
    && forall j :: 0 <= j < i ==> forall y :: !Names(rates[j], y)
  }

  /** fps is the rate x to the nearest frame, the even one of two, or 30 when x is faster than that. */
  ghost predicate RoundedFrom(fps: int, x: real) {
    if x <= 30.0 then -0.5 <= fps as real - x <= 0.5 && (fps as real - x in {-0.5, 0.5} ==> fps % 2 == 0)
    else fps == 30
  }

  /** What is parsed is what the text names. */
  lemma ParsedIsNamed(s: RateText)
    ensures forall x :: Names(s, x) <==> ParseFps(s) == Some(x)
  {
    forall x ensures Names(s, x) <==> ParseFps(s) == Some(x) {
      if s.Ratio? && s.d != 0.0 && x * s.d == s.n {
        assert x == s.n / s.d;
      }
    }
  }

  lemma FirstOfTheRest(rates: seq<RateText>)
    requires rates != [] && forall x :: !Names(rates[0], x)
    ensures forall i, x :: FirstUsable(rates, i, x) <==> FirstUsable(rates[1..], i - 1, x)
    ensures (forall i, x :: !FirstUsable(rates, i, x)) ==> forall i, x :: !FirstUsable(rates[1..], i, x)
  {
    forall i, x ensures FirstUsable(rates, i, x) <==> FirstUsable(rates[1..], i - 1, x) {
      assert 0 < i < |rates| ==> rates[1..][i - 1] == rates[i];
      assert forall j :: 0 <= j < |rates| - 1 ==> rates[1..][j] == rates[j + 1];
    }
    forall i, x | FirstUsable(rates[1..], i, x) ensures FirstUsable(rates, i + 1, x) {
    }
  }

  /** For every list of rates the result is in 1..30, follows the first usable rate, and is 30 when there is none. */
  lemma {:induction false} FpsInRange(rates: seq<RateText>)
    ensures 1 <= FpsFrom(rates) <= 30
    ensures forall i, x :: FirstUsable(rates, i, x) ==> RoundedFrom(FpsFrom(rates), x)
    ensures (forall i, x :: !FirstUsable(rates, i, x)) ==> FpsFrom(rates) == 30
  {
    if rates != [] {
      ParsedIsNamed(rates[0]);
      if ParseFps(rates[0]).Some? {
        var x := ParseFps(rates[0]).value;
        assert FirstUsable(rates, 0, x);
        assert forall i, y :: FirstUsable(rates, i, y) ==> i == 0 && y == x;
      } else {
        FpsInRange(rates[1..]);
        FirstOfTheRest(rates);
      }
    }
  }

  /** The same of every probe; one without a video stream gives 30. */
  lemma ProbeFpsInRange(stream: Option<seq<RateText>>)
    ensures 1 <= FpsFromProbe(stream) <= 30
    ensures stream.Some? ==>
              forall i, x :: FirstUsable(stream.value, i, x) ==> RoundedFrom(FpsFromProbe(stream), x)
    ensures (stream.None? || forall i, x :: !FirstUsable(stream.value, i, x)) ==> FpsFromProbe(stream) == 30
  {
    if stream.Some? {
      FpsInRange(stream.value);
    }
  }

  // ----- keyframes -----

  /** What build_ffmpeg_argv makes of one rung: -r, -g, the scale filter's height and the bitrate in k. */
  datatype VideoArgs = VideoArgs(fps: int, gop: int, height: int, bitrate: int)

  function ArgsFor(rung: Rendition, fps: int): VideoArgs {
    VideoArgs(fps, fps * 2, rung.height, rung.bitrate)
  }

  /** The encoder as it meets frame after frame: keyframes forced so far and the last keyframe. */
  datatype Encoder = Encoder(forced: nat, lastKey: int)

  const START := Encoder(0, -1)

  /** -force_key_frames expr:gte(t,n_forced*2), at the time of frame i under -r fps. */
  predicate Forces(fps: int, e: Encoder, i: nat)
    requires fps > 0
  {
    i as real / fps as real >= (e.forced * 2) as real
  }

  /** A frame is a keyframe when forced, or when -g frames have passed since the last one (-sc_threshold 0: no scene cuts). */
  predicate IsKey(a: VideoArgs, e: Encoder, i: nat)
    requires a.fps > 0
  {
    Forces(a.fps, e, i) || e.lastKey < 0 || i - e.lastKey >= a.gop
  }

  function Meet(a: VideoArgs, e: Encoder, i: nat): Encoder
    requires a.fps > 0
  {
    Encoder(
      if Forces(a.fps, e, i) then e.forced + 1 else e.forced,
      if IsKey(a, e, i) then i else e.lastKey)
  }

  /** The encoder's state before frame i. */
  function Before(a: VideoArgs, i: nat): Encoder
    requires a.fps > 0
  {
    if i == 0 then START else Meet(a, Before(a, i - 1), i - 1)
  }

  /** A segment may be cut before frame i. */
  predicate CutsAt(a: VideoArgs, i: nat)
    requires a.fps > 0
  {
    IsKey(a, Before(a, i), i)
  }

  lemma ForcesIffMultiple(fps: int, e: Encoder, i: nat)
    requires fps > 0
    ensures Forces(fps, e, i) <==> i >= e.forced * (2 * fps)
  {
    var t := i as real / fps as real;
    var n := (e.forced * 2) as real;
    assert t * fps as real == i as real;
    assert n * fps as real == (e.forced * 2 * fps) as real;
    assert e.forced * 2 * fps == e.forced * (2 * fps);
    SameOrder(t, n, fps as real);
  }

  lemma SameOrder(a: real, b: real, k: real)
    requires k > 0.0
    ensures a >= b <==> a * k >= b * k
  {
    if a >= b {
      assert (a - b) * k >= 0.0;
    } else {
      assert (b - a) * k > 0.0;
    }
  }

  /** Before frame i the rule has forced one frame per started group of 2*fps, the last at the group's start. */
  lemma {:induction false} StateBefore(a: VideoArgs, i: nat)
    requires a.fps > 0 && a.gop == 2 * a.fps
    ensures i > 0 ==> Before(a, i).forced == (i - 1) / a.gop + 1
    ensures i > 0 ==> Before(a, i).lastKey == (i - 1) / a.gop * a.gop
  {
    if i > 1 {
      StateBefore(a, i - 1);
      ForcesIffMultiple(a.fps, Before(a, i - 1), i - 1);
      NextGroup(i - 1, a.gop);
    } else if i == 1 {
      ForcesIffMultiple(a.fps, START, 0);
      DivMod(0, a.gop, 0, 0);
    }
  }

  /** Quotient and remainder are unique. */
  lemma DivMod(i: int, g: int, k: int, r: int)
    requires 0 <= r < g && i == k * g + r
    ensures i / g == k && i % g == r
  {
    var q, m := i / g, i % g;
    assert i == q * g + m && 0 <= m < g;
    assert (k - q) * g == m - r;
    if k > q {
      AtLeast(k - q, g);
    } else if k < q {
      AtLeast(q - k, g);
    }
  }

  lemma AtLeast(n: int, g: int)
    requires n >= 1 && g >= 0
    ensures n * g >= g
  {
    assert n * g == (n - 1) * g + g;
  }

  /** Stepping from frame i - 1 to frame i: either the same group, or the start of the next. */
  lemma NextGroup(i: int, g: int)
    requires i >= 1 && g >= 1
    ensures var k := (i - 1) / g;
            && k >= 0
            && (i == (k + 1) * g <==> i % g == 0)
            && (i % g == 0 ==> i / g == k + 1)
            && (i % g != 0 ==> i / g == k && k * g < i < (k + 1) * g)
  {
    var k, r := (i - 1) / g, (i - 1) % g;
    assert i - 1 == k * g + r;
    assert (k + 1) * g == k * g + g;
    if r == g - 1 {
      DivMod(i, g, k + 1, 0);
    } else {
      DivMod(i, g, k, r + 1);
    }
  }

  /**
   Over unboundedly many frames, the forced frames and the keyframes are the same
   frames: exactly the multiples of 2*fps, that is every 2 seconds, which is also
   the -g and -keyint_min boundary.
   */
  lemma KeyframesEveryTwoSeconds(a: VideoArgs, i: nat)
    requires a.fps > 0 && a.gop == 2 * a.fps
    ensures Forces(a.fps, Before(a, i), i) <==> i % a.gop == 0
    ensures CutsAt(a, i) <==> i % a.gop == 0
    ensures CutsAt(a, i) ==> i as real / a.fps as real == (2 * (i / a.gop)) as real
    ensures i > 0 && CutsAt(a, i) ==> i - Before(a, i).lastKey == a.gop
  {
    var g := a.gop;
    var e := Before(a, i);
    StateBefore(a, i);
    ForcesIffMultiple(a.fps, e, i);
    if i == 0 {
      DivMod(0, g, 0, 0);
    } else {
      NextGroup(i, g);
      var k := (i - 1) / g;
      assert e.forced == k + 1 && e.lastKey == k * g;
      assert (k + 1) * g == k * g + g;
      assert i % g == 0 <==> i == k * g + g;
      assert i <= k * g + g;
    }
    if i % g == 0 {
      CutTime(a.fps, i, i / g);
    }
  }

  /** Frame k * 2 * fps is shown at exactly 2k seconds. */
  lemma CutTime(fps: int, i: int, k: int)
    requires fps > 0 && i == k * (2 * fps)
    ensures i as real / fps as real == (2 * k) as real
  {
    assert k * (2 * fps) == (2 * k) * fps;
    assert i as real == (2 * k) as real * fps as real;
  }

  /**
   Whatever the probe said, any two rungs of a job's ladder may be cut before the same frames
   and at the same times, every two seconds, so a player can change rungs at any cut; and none
   is scaled up from a source of 360 lines or more.
   */
  lemma RungsShareCutPoints(v: VideoId, height: Option<int>, stream: Option<seq<RateText>>, a: Rendition, b: Rendition, i: nat)
    requires a in LadderFor(v, height) && b in LadderFor(v, height)
    ensures FpsFromProbe(stream) > 0
    ensures var fps := FpsFromProbe(stream);
            && (CutsAt(ArgsFor(a, fps), i) <==> CutsAt(ArgsFor(b, fps), i))
            && (CutsAt(ArgsFor(a, fps), i) ==> i as real / fps as real == (2 * (i / (2 * fps))) as real)
            && (CutsAt(ArgsFor(a, fps), i) <==> exists k: nat :: i == k * (fps * 2))
            && ArgsFor(a, fps).fps == fps && ArgsFor(a, fps).bitrate == a.bitrate
            && (height.Some? && 360 <= height.value <= 5000 ==> ArgsFor(a, fps).height == a.height <= height.value)
  {
    LadderShapes(v, height);
    ProbeFpsInRange(stream);
    var fps := FpsFromProbe(stream);
    RungCuts(a, fps, i);
    RungCuts(b, fps, i);
  }

  lemma RungCuts(rung: Rendition, fps: int, i: nat)
    requires fps > 0
    ensures CutsAt(ArgsFor(rung, fps), i) ==> i as real / fps as real == (2 * (i / (2 * fps))) as real
    ensures CutsAt(ArgsFor(rung, fps), i) <==> exists k: nat :: i == k * (fps * 2)
  {
    KeyframesEveryTwoSeconds(ArgsFor(rung, fps), i);
    Multiples(i, fps * 2);
  }

  lemma Multiples(i: nat, g: nat)
    requires g > 0
    ensures i % g == 0 <==> exists k: nat :: i == k * g
  {
    if i % g == 0 {
      var k: nat := i / g;
      assert i == k * g;
    }
    forall k: nat | i == k * g ensures i % g == 0 {
      DivMod(i, g, k, 0);
    }
  }
}
